# Yomokka in Dafny

Yomokka is a "late-night book pharmacy". A visitor first takes a short
personality diagnosis. They then chat with an LLM "pharmacist", whose
replies are cut to two short sentences. At the end they receive one book
"prescription", and can flip to a "shadow" book chosen for the opposite
personality code. A companion Streamlit app offers the same shadow-book
idea with a toy account registry and a community board.

This project models the deterministic core of that system and proves what
it promises. One Dafny module per source file:

- `PersonalityQuestions` (personality_questions.dfy)
  - The 16-question forced-choice questionnaire.
  - `calculateScores`, as its two passes over the scores object.
  - `determineCharacterType`, with its inner per-axis pass.
- `Mbti` (mbti.dfy): `invertMBTI`.
- `DiagnosisScreen` (diagnosis.dfy): the 12-question Likert diagnosis and its sum thresholds.
- `Server` (server.dfy): `sanitizeHistory` and the request validation of `/api/chat` and `/api/prescription`.
- `Gemini` (gemini.dfy):
  - `shortenForChat`.
  - The persona prompt's tone.
  - The role mapping and first-turn rule of `getGeminiResponse`.
  - The JSON-span extraction and fallback of `getBookPrescription`.
- `ChatRoomScreen` (chat_room.dfy): the chat screen's turn counter, `sendMessage` and `requestPrescription`.
- `BookResultScreen` (book_result.dfy): the normal book's defaults, `displayBook`, and the lazily fetched, cached shadow book.
- `AppShell` (app_shell.dfy): the `phase` state machine of `App`.
- `ProfileScreen` (profile.dfy): tag toggling and MBTI normalisation.
- `Community` (community.dfy): the community board's seeding and posting.
- `ShadowBooksApp` (shadow_books_app.dfy): the Streamlit app.
  - The shadow table.
  - Login, signup and logout over the session's registry.
  - The board's insert through an aliased list.
- `TherapistSim` (therapist_sim.dfy): the scripted therapist of the chat simulation.
- `Alternation` (alternation.dfy): a global match of a pattern that is an alternation of literal words, as the therapist's keyword scan uses it.
- `Common` (common.dfy): messages, books, `Option`, `Result`, and the outcome of an external call.

Modelling conventions:

- Stateful components are classes, with their state as fields:
  - React components;
  - the Streamlit session;
  - the simulated therapist.
- Every `await` is split into two methods: the step that issues the request, and the step that receives its outcome.
- Whatever a call into the LLM SDKs, `fetch` or the cover lookup yields is a parameter:
  - `Returned(value)` or `Threw(message)`;
  - or, for a JSON body, an `Option` of the field.
- `JSON.parse` is an uninterpreted parameter `parse: string -> Option<...>`, with `None` standing for a throw.
- JavaScript falsiness of an optional string is `Common.Truthy`: missing, or the empty string.
- A request's `history` field is `Server.HistoryField`: absent or falsy, an array of turns, a truthy non-array, or an array holding a null turn.
- Scores are Dafny `real`s. Every value the scoring produces is a multiple of 1/4, so floating point is exact here.

Where the documented design and the code differ, this model follows the code:

- Questionnaire coverage:
  - The question table feeds the four axes unevenly: 5, 4, 4 and 3 questions.
  - No axis can leave [18.75, 81.25], so the clamp to [0,100] never changes a value (`ScoresNeverClamped`).
  - With no answers all eight archetypes tie, and the first, dreamyStoryteller, wins.
- `sanitizeHistory` removes only one trailing user turn, so it is not idempotent (`NotIdempotent`).
- Chat thresholds and rollback:
  - The manual prescription is offered from one completed turn; the automatic one comes at ten.
  - A failed chat call is not rolled back.
  - A server error body is not a failure on the client: it shows as an empty assistant turn.
- Prescription extraction takes the text from the first `{` to the last `}`. No field is checked.
- The shadow cache stores whatever body the prescription endpoint answers, an error object included. Only a thrown fetch leaves it empty.
- The App's chat callback is not tied to the chat screen: a prescription still in flight when the chat was left replaces the result later.
- In the Streamlit app, `prescriptions` is bound to the very list held under `reviews`:
  - The three-entry default list is never used.
  - The seeded reviews show with empty MBTI and effect and the "untitled" placeholder.
  - A post is inserted into both names at once.
- An unparsable stored community list leaves the board empty and is then overwritten by the empty list.

## Model

| member | source | states |
|---|---|---|
| Mbti.InvertCharSwapsPairs | frontend/src/utils/mbti.js:14-23 | each letter of E/I, S/N, T/F, J/P becomes exactly the other letter of its pair; every other character passes through unchanged |
| Mbti.InvertCode | frontend/src/utils/mbti.js:21-24 | the inverted string is as long as the input |
| Mbti.InvertCodeAt | frontend/src/utils/mbti.js:21-24 | position k of the result is the inversion of position k of the input |
| Mbti.InvertMBTI | frontend/src/utils/mbti.js:9-24 | a falsy argument is returned unchanged; a string becomes a string of the same length |
| Mbti.InvertCharInvolution | frontend/src/utils/mbti.js:14-23 | inverting a character twice gives it back |
| Mbti.InvertCodeInvolution | frontend/src/utils/mbti.js:21-24 | inverting any string twice gives it back |
| Mbti.InvertMBTIInvolution | frontend/src/utils/mbti.js:9-24 | invertMBTI is an involution on every argument, falsy ones included |
| Mbti.InvertCodeOfCode | frontend/src/utils/mbti.js:14-24 | a four-letter code maps to a code, each letter to the opposite letter of its pair |
| Mbti.InvertCodeBijectiveOnCodes | frontend/src/utils/mbti.js:14-24 | the inversion maps the sixteen codes one to one onto themselves |
| Mbti.DocExamples | frontend/src/utils/mbti.js:5 | INTJ inverts to ESFP and ENFP to ISTJ, as documented |
| PersonalityQuestions.Scores.Set | frontend/src/utils/personalityQuestions.js:478 | writing one axis sets it and leaves the other three axes unchanged |
| PersonalityQuestions.Clamp | frontend/src/utils/personalityQuestions.js:482 | the clamped value lies in [0,100] and equals the input when that is already in range |
| PersonalityQuestions.FoldIsWeightSum | frontend/src/utils/personalityQuestions.js:463-479 | after the first n answers every axis is 50 plus 6.25 times the signed weights those answers selected for it |
| PersonalityQuestions.AccumulateAnswers | frontend/src/utils/personalityQuestions.js:461-479 | the first pass: from 50 on every axis, each answer that has a question moves the selected option's axis by score × 6.25; the result is the fold of the answered prefix |
| PersonalityQuestions.ClampAxes | frontend/src/utils/personalityQuestions.js:481-483 | the second pass clamps every axis to [0,100] and changes nothing else |
| PersonalityQuestions.CalculateScores | frontend/src/utils/personalityQuestions.js:460-486 | the returned scores are the clamped raw scores of the answers, and every axis lies in [0,100] |
| PersonalityQuestions.AllQuestionsWellFormed | frontend/src/utils/personalityQuestions.js:7-319 | both options of every question feed the same axis with opposite unit weights |
| PersonalityQuestions.QuestionsPerAxis | frontend/src/utils/personalityQuestions.js:7-319 | the table feeds abstractConcrete 5 questions, emotionLogic 4, actionReflection 4, tempoFastSlow 3 |
| PersonalityQuestions.WeightSumBounded | frontend/src/utils/personalityQuestions.js:470-479 | the answers move an axis by at most one step per question feeding it, in either direction |
| PersonalityQuestions.ScoresNeverClamped | frontend/src/utils/personalityQuestions.js:470-483 | every axis stays within 50 ± 6.25 × (questions feeding it), hence in [18.75, 81.25], so the clamp never changes a value |
| PersonalityQuestions.AllAReachesOnly8125 | frontend/src/utils/personalityQuestions.js:461-479 | answering "A" to all sixteen questions takes abstractConcrete to 81.25, not 100 |
| PersonalityQuestions.AppendAnswer | frontend/src/utils/personalityQuestions.js:470-479 | one more answer moves only the axis of the option it selects, by score × 6.25; an answer past the sixteenth moves nothing |
| PersonalityQuestions.NoAnswersIsNeutral | frontend/src/utils/personalityQuestions.js:463-468 | with no answers every axis is 50 |
| PersonalityQuestions.OnlyAnswerAMatters | frontend/src/utils/personalityQuestions.js:474 | two answer lists that agree on which answers are exactly "A" give the same weights: every other value selects option B |
| PersonalityQuestions.ExtraAnswersIgnored | frontend/src/utils/personalityQuestions.js:470-472 | answers past the sixteenth have no question and do not change the scores |
| PersonalityQuestions.AxisMatch | frontend/src/utils/personalityQuestions.js:499-507 | an axis contributes between 0 and 100: exactly 100 inside the closed range, less than 100 outside it |
| PersonalityQuestions.PartialMatch | frontend/src/utils/personalityQuestions.js:495-508 | the score summed over the first j axes lies in [0, 100 × j] |
| PersonalityQuestions.ScoreArchetype | frontend/src/utils/personalityQuestions.js:493-508 | the inner loop computes the candidate's match score over the four axes in key order |
| PersonalityQuestions.DetermineCharacterTypeIn | frontend/src/utils/personalityQuestions.js:488-517 | an empty catalog gives realist; otherwise the result is the candidate with the maximal score that no earlier candidate equals (first strict maximum) |
| PersonalityQuestions.DetermineCharacterType | frontend/src/utils/personalityQuestions.js:488-517 | on the real catalog the result is always a catalog entry, the first best one |
| PersonalityQuestions.MatchScoreBounds | frontend/src/utils/personalityQuestions.js:495-508 | every candidate total lies in [0,400], and is 400 exactly when the scores lie in all four home ranges |
| PersonalityQuestions.HomeArchetypeWins | frontend/src/utils/personalityQuestions.js:510-513 | a candidate whose home holds the scores is chosen unless an earlier candidate's home holds them too |
| PersonalityQuestions.FirstBestUnique | frontend/src/utils/personalityQuestions.js:510-513 | the first best index is unique: the matcher is deterministic |
| PersonalityQuestions.CatalogHomesDisjoint | frontend/src/utils/personalityQuestions.js:325-454 | no two archetypes of the catalog share a point of their home ranges |
| PersonalityQuestions.AtHomeDeterminesType | frontend/src/utils/personalityQuestions.js:488-517 | scores inside all four home ranges of a catalog archetype yield that archetype |
| PersonalityQuestions.DreamyStorytellerScenario | frontend/src/utils/personalityQuestions.js:326-341 | {100, 0, 100, 0} yields dreamyStoryteller |
| PersonalityQuestions.NeutralTieGoesToFirst | frontend/src/utils/personalityQuestions.js:510-513 | at the neutral 50s all eight archetypes score 360, and the tie goes to the first, dreamyStoryteller |
| DiagnosisScreen.DefaultAnswers | frontend/src/components/Diagnosis.jsx:19 | the form starts with twelve answers of 3 |
| DiagnosisScreen.TypeCode | frontend/src/components/Diagnosis.jsx:23-30 | the code is four letters, one from each of E/I, S/N, T/F, J/P in that order, letter k taken from group k |
| DiagnosisScreen.SumLocal | frontend/src/components/Diagnosis.jsx:21 | the sum of a slice depends only on the answers inside it |
| DiagnosisScreen.LetterLocal | frontend/src/components/Diagnosis.jsx:24-28 | letter k depends only on answers 3k, 3k+1 and 3k+2 |
| DiagnosisScreen.GroupSum | frontend/src/components/Diagnosis.jsx:21 | the sum of a group of three is the sum of its three answers |
| DiagnosisScreen.LetterThreshold | frontend/src/components/Diagnosis.jsx:25-28 | letter k is I, S, T or J exactly when its group sums to more than 9 |
| DiagnosisScreen.Examples | frontend/src/components/Diagnosis.jsx:19-28 | the untouched form gives ENFP, all 5s give ISTJ, all 1s give ENFP |
| DiagnosisScreen.Diagnosis.constructor | frontend/src/components/Diagnosis.jsx:19 | a new form holds the default answers |
| DiagnosisScreen.Diagnosis.HandleAnswer | frontend/src/components/Diagnosis.jsx:32-36 | a click replaces answer i only; every answer stays in 1..5 |
| DiagnosisScreen.Diagnosis.HandleSubmit | frontend/src/components/Diagnosis.jsx:23-30 | the code handed on is the type code of the answers, a valid four-letter code |
| Server.FirstUser | backend/server.js:24-26 | the shift loop stops at the first user turn: every turn before it is a non-user turn |
| Server.SanitizeHistory | backend/server.js:20-34 | the shift-then-pop loop on a copy computes the sanitised history |
| Server.SanitizedShape | backend/server.js:21-31 | the result is a contiguous slice of the input, starting at the first user turn; it drops at most the one last turn, and only a user turn; it is empty or starts with a user turn |
| Server.SanitizedKeepsFromFirstUser | backend/server.js:24-31 | the result keeps everything from the first user turn except possibly the last turn; with a user turn before the last position it starts with that turn |
| Server.NonArrayIsEmpty | backend/server.js:21 | a missing or non-array history and an empty one sanitise to [] |
| Server.NotIdempotent | backend/server.js:24-31 | [assistant, user] gives []; [user, user] gives [user], which gives [] once more |
| Server.SanitizeTwice | backend/server.js:24-31 | sanitising twice equals sanitising once exactly when the first result does not end with a user turn |
| Server.SentMessageIsStripped | backend/server.js:29-31 | a history sent with the new user message last loses exactly that message, and keeps everything from the first earlier user turn on |
| Server.HandleChat | backend/server.js:36-57 | a falsy message is answered 400 before anything else; a history holding a null turn is answered 500; otherwise, and only then, the model is called with the sanitised history and the message |
| Server.ChatHistoryNonArrayIsEmpty | backend/server.js:20-22 | on `/api/chat` a non-array history and an empty array lead to the same call as a missing history: the first turn, with the persona prompt |
| Server.ChatResponse | backend/server.js:46-56 | a reply is returned shortened with status 200; any failure is answered 500 |
| Server.HandlePrescription | backend/server.js:60-83 | a falsy personality is answered 400; a truthy non-array history or one holding a null turn is answered 500; otherwise, and only then, the recommendation is asked for with the history as received |
| Server.NonArrayHistoryDiffers | backend/services/gemini.js:99-101 | a non-array history is treated as empty on `/api/chat` but fails `/api/prescription`, where a missing one gives an empty summary |
| Server.PrescriptionResponse | backend/server.js:68-83 | exactly a failure of the generation is answered 500; otherwise the book (generated or fallback) is returned with whatever the cover lookup answered, null included |
| Gemini.Split | backend/services/gemini.js:12 | the split yields one piece more than there are delimiters, and no piece holds a delimiter |
| Gemini.SplitInterleave | backend/services/gemini.js:12 | putting the delimiters back between the pieces rebuilds the input: the split loses nothing |
| Gemini.NonBlank | backend/services/gemini.js:12 | the filter keeps only non-blank pieces, each one a piece of the input |
| Gemini.NonBlankIsFilter | backend/services/gemini.js:12 | the filter's output is the input read at the positions `NonBlankPositions`, one per kept piece |
| Gemini.NonBlankPositionsIncrease | backend/services/gemini.js:12 | the kept pieces keep their order: their positions strictly increase |
| Gemini.NonBlankPositionsExact | backend/services/gemini.js:12 | a piece is kept exactly when it is not blank |
| Gemini.SkipsOnlyBlanks | backend/services/gemini.js:12 | every non-blank piece before the k-th kept one is among the first k kept ones: nothing non-blank is skipped |
| Gemini.Kept | backend/services/gemini.js:12-13 | at most two pieces are kept, each non-blank and free of delimiters |
| Gemini.KeptIsFirstTwo | backend/services/gemini.js:12-13 | the kept pieces are the first two non-blank pieces of the split text, in order (fewer when there are fewer) |
| Gemini.SentencesShape | backend/services/gemini.js:12-16 | no kept piece gives the empty string; otherwise the kept pieces joined with 。 always get a final 。; ！ and ？ never occur |
| Gemini.ShortenForChat | backend/services/gemini.js:8-24 | falsy text gives ""; the result never holds ！ or ？ and has at most 103 characters; over 100 it is the first 100 plus "..."; otherwise a non-empty result ends with 。 |
| Gemini.ToneFor | backend/services/gemini.js:28-31 | the rational tone is chosen exactly when the type is truthy and contains T |
| Gemini.ToSdkHistory | backend/services/gemini.js:57-60 | the SDK history keeps length, order and texts; assistant turns become model and every other role becomes user |
| Gemini.PrepareChat | backend/services/gemini.js:57-73 | the chat starts with the converted history; the persona prompt and a blank line precede the message exactly when that history is empty |
| Gemini.ChatResult | backend/services/gemini.js:75-88 | a reply is shortened; a failure is rethrown with the "Gemini API call failed: " prefix |
| Gemini.FirstTurnRule | backend/services/gemini.js:70-73 | the prompt is prepended exactly when the incoming history is missing or empty, and its tone is rational exactly when the type holds a T |
| Gemini.PreparePrescription | backend/services/gemini.js:99-110 | a falsy personality is written as 不明; a missing or empty history gives an empty summary |
| Gemini.FirstIndexOf | backend/services/gemini.js:138 | the index found holds the character and no earlier index does; none is found exactly when the character is absent |
| Gemini.LastIndexOf | backend/services/gemini.js:138 | the index found holds the character and no later index does; none is found exactly when the character is absent |
| Gemini.JsonSpan | backend/services/gemini.js:138 | a span starts with { and ends with } |
| Gemini.JsonSpanIsOuterBraces | backend/services/gemini.js:138 | the span is the text from the first { through the last }, and it is missing exactly when no { precedes a } |
| Gemini.PrescriptionResult | backend/services/gemini.js:131-159 | a generation failure is rethrown with its prefix; otherwise the parsed span is returned unchecked, and no span or a parse failure gives the fallback book |
| Gemini.NoBraceFallsBack | backend/services/gemini.js:138-154 | text without { gives the fallback book, never an error, whatever the parser does |
| ChatRoomScreen.UserCount | frontend/src/components/ChatRoom.jsx:50 | the number of user turns is at most the number of turns, and 0 for no turns |
| ChatRoomScreen.UserCountAppend | frontend/src/components/ChatRoom.jsx:50-51 | appending a turn adds one to the user count exactly when it is a user turn |
| ChatRoomScreen.UserCountPositive | frontend/src/components/ChatRoom.jsx:13 | a history counts a user turn exactly when it holds one |
| ChatRoomScreen.OfferNeedsUserTurn | frontend/src/components/ChatRoom.jsx:153 | in a consistent screen the manual offer shows exactly when no send is running, some user turn is in the history and fewer than ten were sent |
| ChatRoomScreen.SendReachesModel | frontend/src/components/ChatRoom.jsx:51-66 | the request's history ends with the new user turn, and the server forwards the earlier turns from the first user turn on, with the message as text |
| ChatRoomScreen.FinishFor | frontend/src/components/ChatRoom.jsx:27-44 | onFinish receives the request's summary, history and the personality; book fields are present exactly when the request returned |
| ChatRoomScreen.ChatRoom.constructor | frontend/src/components/ChatRoom.jsx:7-10 | a new chat has no messages, empty input, zero turns and is not loading |
| ChatRoomScreen.ChatRoom.SetInput | frontend/src/components/ChatRoom.jsx:170 | typing changes the input only |
| ChatRoomScreen.ChatRoom.SendMessage | frontend/src/components/ChatRoom.jsx:47-66 | empty input or a running send changes nothing; otherwise one user turn is appended, the input is cleared, turns rises by exactly 1, loading is set, and the request carries the new history |
| ChatRoomScreen.ChatRoom.ChatReplyArrived | frontend/src/components/ChatRoom.jsx:69-77 | the assistant turn data.reply or "" follows the sent history; from turn 10 on the prescription is requested automatically with that history, otherwise the send ends |
| ChatRoomScreen.ChatRoom.ChatFailed | frontend/src/components/ChatRoom.jsx:78-82 | a thrown chat call only clears loading: the counted turn and the user message stay |
| ChatRoomScreen.ChatRoom.AutoPrescriptionArrived | frontend/src/components/ChatRoom.jsx:75-82 | the automatic request calls onFinish exactly once, in success or failure, and the send ends |
| ChatRoomScreen.ChatRoom.RequestPrescription | frontend/src/components/ChatRoom.jsx:153-156 | the manual button sends the current messages with an empty summary and does not set loading |
| ChatRoomScreen.ChatRoom.ManualPrescriptionArrived | frontend/src/components/ChatRoom.jsx:15-45 | a manual request leaves the in-flight list and calls onFinish exactly once, without book fields on failure |
| BookResultScreen.NormalBook | frontend/src/components/BookResult.jsx:12-18 | each missing or empty text field takes its default; the image URL is present exactly when truthy |
| BookResultScreen.DefaultsAgreeWithServer | frontend/src/components/BookResult.jsx:12-18 | with no data, no book or the server's fallback, the normal book is the server's fallback book |
| BookResultScreen.ShadowRequest | frontend/src/components/BookResult.jsx:26-33 | the shadow request sends the inverted personality and the same history, [] without data |
| BookResultScreen.ShadowOfCode | frontend/src/components/BookResult.jsx:26 | for a personality code the shadow personality is a code whose inversion is the original |
| BookResultScreen.BookResult.constructor | frontend/src/components/BookResult.jsx:6-9 | a new screen shows the normal book, with nothing cached or loading |
| BookResultScreen.BookResult.DisplayBook | frontend/src/components/BookResult.jsx:48 | the cached shadow book shows exactly in shadow mode with a cached book; otherwise the normal book |
| BookResultScreen.BookResult.ToggleShadow | frontend/src/components/BookResult.jsx:21-45 | a request is issued only in normal mode with nothing cached; otherwise the mode flips at once and the cache is reused |
| BookResultScreen.BookResult.ShadowArrived | frontend/src/components/BookResult.jsx:35-44 | a response is cached, a thrown fetch caches nothing; loading always ends and the mode flips to shadow |
| AppShell.ViewOf | frontend/src/App.jsx:41-85 | each of landing, diagnosis, chat and detail has its own screen exactly for that phase |
| AppShell.ResultIsDefault | frontend/src/App.jsx:77-85 | every phase outside the four named ones renders the result screen |
| AppShell.App.constructor | frontend/src/App.jsx:36-39 | the app starts on the landing phase with no personality, result or detail book |
| AppShell.App.Enter | frontend/src/App.jsx:42 | entering moves from landing to diagnosis |
| AppShell.App.DiagnosisFinished | frontend/src/App.jsx:48-51 | the diagnosis stores the code and moves to chat |
| AppShell.App.ChatFinished | frontend/src/App.jsx:60-63 | the chat's record replaces the result and the result phase follows, from whatever phase |
| AppShell.App.DetailClicked | frontend/src/App.jsx:80-83 | a detail click stores the book and moves to detail |
| AppShell.App.Back | frontend/src/App.jsx:72 | back returns to the result screen without touching the result |
| AppShell.HappyPath | frontend/src/App.jsx:35-85 | landing, diagnosis, chat, detail and back end on the result screen with the code, record and book stored |
| ProfileScreen.Without | frontend/src/components/Profile.jsx:17 | the filtered list is no longer and does not contain the tag |
| ProfileScreen.WithoutKeepsOthers | frontend/src/components/Profile.jsx:17 | filtering keeps every other tag as often as before and in its order |
| ProfileScreen.WithoutAbsent | frontend/src/components/Profile.jsx:17 | filtering out an absent tag changes nothing |
| ProfileScreen.WithoutAppend | frontend/src/components/Profile.jsx:17 | filtering distributes over concatenation |
| ProfileScreen.WithoutShorter | frontend/src/components/Profile.jsx:17 | filtering out a present tag shortens the list |
| ProfileScreen.ToggleSelected | frontend/src/components/Profile.jsx:16-17 | toggling a selected tag removes every copy of it and keeps the other tags, their counts and their order |
| ProfileScreen.ToggleUnselectedTwice | frontend/src/components/Profile.jsx:15-21 | toggling an absent tag appends it; toggling it again restores the list |
| ProfileScreen.ToUpper | frontend/src/components/Profile.jsx:80 | upper-casing keeps the length and maps each character on its own |
| ProfileScreen.ToUpperIdempotent | frontend/src/components/Profile.jsx:80 | upper-casing twice is upper-casing once, and no lower-case ASCII letter remains |
| ProfileScreen.Profile.constructor | frontend/src/components/Profile.jsx:11-13 | the profile starts as INFP with 文学 and 哲学 selected, not saved |
| ProfileScreen.Profile.ChangeMbti | frontend/src/components/Profile.jsx:77-81 | the typed value, at most four characters, is stored upper-cased |
| ProfileScreen.Profile.Toggle | frontend/src/components/Profile.jsx:15-21 | the selected tags become the toggled list |
| ProfileScreen.Profile.HandleSave | frontend/src/components/Profile.jsx:23-31 | the saved record holds the code and tags, and the notice shows |
| ProfileScreen.Profile.SavedTimeout | frontend/src/components/Profile.jsx:30 | the timer hides the notice only |
| Community.NewPost | frontend/src/components/CommunityPrescriptions.jsx:51 | an empty title becomes タイトル未入力; the other fields are stored as entered |
| Community.Loaded | frontend/src/components/CommunityPrescriptions.jsx:23-39 | with nothing stored the two seed posts are used; a stored list is loaded; an unparsable one leaves the list empty |
| Community.CommunityPrescriptions.constructor | frontend/src/components/CommunityPrescriptions.jsx:14-47 | the board opens on the view tab with the loaded list mirrored to storage, and the form defaults INFP and the first symptom |
| Community.CommunityPrescriptions.SetTab | frontend/src/components/CommunityPrescriptions.jsx:66-77 | a tab click changes the tab only |
| Community.CommunityPrescriptions.Fill | frontend/src/components/CommunityPrescriptions.jsx:110-134 | the form inputs change the form fields only |
| Community.CommunityPrescriptions.HandleSubmit | frontend/src/components/CommunityPrescriptions.jsx:49-57 | exactly one post is prepended and the earlier posts follow in order; the view tab opens, title and effect are cleared, MBTI and symptom are kept |
| ShadowBooksApp.ShadowMapKeys | backend/app.py:28-33 | the keys of the shadow table are exactly the option list `ShadowKeys` both select boxes offer |
| ShadowBooksApp.ShadowIsInversion | backend/app.py:28-33 | every entry of the shadow table, for each of its keys, is the letterwise inversion that key gets from invertMBTI |
| ShadowBooksApp.ShadowKeysAreCodes | backend/app.py:75 | the keys of the shadow table, and the select boxes' options, are exactly the sixteen four-letter codes |
| ShadowBooksApp.ShadowInvolution | backend/app.py:28-33 | the shadow of every key is itself a key, and its shadow is the original type |
| ShadowBooksApp.Display | backend/app.py:196-200 | a row without a title shows タイトル未設定; a titled row shows its title |
| ShadowBooksApp.NewRow | backend/app.py:214-219 | the posted row has the four board keys; an empty title becomes タイトル未入力 and the rest show as entered |
| ShadowBooksApp.SeededRowsShowPlaceholders | backend/app.py:157-200 | the seeded reviews, reached through the aliased list, show empty MBTI and effect and the untitled placeholder |
| ShadowBooksApp.PyList.InsertFirst | backend/app.py:221 | insert(0, x) puts x first and keeps the rest in order |
| ShadowBooksApp.SessionState.constructor | backend/app.py:37-49 | a session starts with the test account, nobody logged in, no error, the two seeded reviews, and the board list being the reviews list |
| ShadowBooksApp.SessionState.Login | backend/app.py:59-69 | login succeeds exactly when the user exists and the password matches; success sets the user and clears the error, failure sets the error |
| ShadowBooksApp.SessionState.Signup | backend/app.py:76-87 | a taken name is refused first, then an empty name or password; otherwise exactly one account is added, others unchanged, nobody logged in |
| ShadowBooksApp.SessionState.Logout | backend/app.py:90-92 | logout clears the user and the error |
| ShadowBooksApp.SessionState.ShadowBookArrived | backend/app.py:111-131 | a completion is stored with the shadow type; a failure keeps the previous result |
| ShadowBooksApp.SessionState.Post | backend/app.py:213-221 | the new row goes first on the board and, the lists being one, first among the reviews |
| Alternation.FirstAt | backend/test_chat.js:48 | an alternative found occurs at the position; none found means no alternative does |
| Alternation.MatchesCount | backend/test_chat.js:48 | the global match records one position per word it returns |
| Alternation.MatchesOccur | backend/test_chat.js:48 | the k-th word returned occurs at the k-th recorded position |
| Alternation.MatchesOrdered | backend/test_chat.js:48 | matches do not overlap and come in order of position |
| Alternation.MatchesComplete | backend/test_chat.js:48 | with an unambiguous pattern every occurrence of a word is one of the matches |
| TherapistSim.KeywordListUnambiguous | backend/test_chat.js:48 | no keyword starts with another's first character or contains it after its own start |
| TherapistSim.Keywords | backend/test_chat.js:48 | every match is one of the seven keywords |
| TherapistSim.KeywordsInOrder | backend/test_chat.js:47-49 | the keywords come in order of occurrence, each occurrence once: the k-th keyword occurs at the k-th match position, matches do not overlap, and every occurrence is a match |
| TherapistSim.KeywordsSound | backend/test_chat.js:48 | every keyword found occurs in the message |
| TherapistSim.KeywordsComplete | backend/test_chat.js:48 | every keyword occurring in the message is found |
| TherapistSim.ChooseBook | backend/test_chat.js:82-87 | work first, then loneliness, otherwise the default book |
| TherapistSim.NotesMention | backend/test_chat.js:45-49 | a keyword is among the notes exactly when some recorded message contains it |
| TherapistSim.ChooseBookFromMessages | backend/test_chat.js:82-87 | the work book is chosen exactly when a message mentions 仕事; failing that, the loneliness novel exactly when one mentions 孤独 |
| TherapistSim.SimulatedBookTherapist.constructor | backend/test_chat.js:5-43 | a new therapist has asked nothing and holds no notes or history |
| TherapistSim.SimulatedBookTherapist.Record | backend/test_chat.js:45-50 | the user turn is logged and the message's keywords are appended to the notes in order |
| TherapistSim.SimulatedBookTherapist.NextResponse | backend/test_chat.js:52-80 | a non-empty message adds two history turns, an empty one one; the first three replies ask the questions in order, later ones recommend the book chosen from all notes |
| TherapistSim.RunSimulation | backend/test_chat.js:91-116 | one fresh therapist answers the messages in turn: three questions, then the book the messages so far call for |

## Left out

- Everything outside the deterministic core is left out:
  - network and storage I/O: the LLM and Groq SDKs, `fetch`, the cover lookup, `localStorage`;
  - console output;
  - timers;
  - rendering: React rendering and animation, Streamlit widgets, the Plotly chart.
  Their results enter as parameters.
- The cover lookup of backend/services/books.js is not modelled beyond its outcome, a URL or null: it catches every failure of its own and answers null. Which arguments it receives is not modelled.
- String lengths are counted in characters, not UTF-16 code units. All text in the tables lies in the Basic Multilingual Plane.
- `toUpperCase` is modelled on ASCII letters only.
- The display texts of questions, archetypes and diagnosis questions are left out, as are the icons and colours. Only the axes, weights, ranges, ids and codes matter to the logic.
- The full recommendation prompt text is left out. Only its variable parts are modelled: the personality and the conversation summary.
- Gemini.PersonalityPrompt: the prompt text is modelled, but only the choice of its tone is proved.
- ShadowBooksApp.ShadowQuestion: the Groq user message is built as written, with no property stated.
- The `imageError` flag of the result screen is modelled only where a toggle resets it. The image's `onError` is rendering.
- The table's key set is proved equal to `ShadowKeys`, the option list of both select boxes (`ShadowMapKeys`). The order of `keys()` is taken to be the order of `ShadowKeys`.
- `runSimulation`'s fixed messages and console output are not modelled; RunSimulation takes any messages.
- The `personalityPrompt` preview that `runSimulation` imports is not modelled. gemini.js does not export that function, so as an ES module the script fails when it is linked and `runSimulation` never runs as written. TherapistSim.RunSimulation models the intended simulation.
- backend/data.py, backend/list_models.js, backend/test-gemini.js and backend/test_groq_models.py are not part of this model. They are a static catalog no shown code reads, and network probes.
- BookDetail.jsx, BookCoverPlaceholder.jsx, History.jsx, Particles.jsx and tailwind.config.js are display-only and are not part of this model.
- ChatRoomScreen.ChatRoom.ChatReplyArrived: a null `reply` is merged with a missing one. The automatic request's summary is then "", where the source passes null on to `onFinish`.
- `Object.keys(scores)` is taken in the fixed key order of the scores object that `calculateScores` builds. Scores objects with other keys are not modelled.
- Server.HandleChat: a history element that is neither null nor an object with `role` and `content` is not represented. Only a null element (`NullTurn`) is modelled among malformed turns.
- Server.HandlePrescription: as for `/api/chat`, malformed history elements other than null are not represented.
