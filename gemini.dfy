/** The deterministic parts of backend/services/gemini.js: reply shortening
    (`shortenForChat`), the persona prompt's tone, the shaping of a chat
    turn for the generation SDK (`getGeminiResponse`) and the extraction of
    a prescription from generated text (`getBookPrescription`). The SDK
    calls themselves are outcomes supplied by the caller. */
module Gemini {
  import opened Common

  // ---------------------------------------------------------------------
  // Strings

  /** The sentence delimiters of `/[。！？]/`. */
  predicate IsDelimiter(c: char) {
    c == '。' || c == '！' || c == '？'
  }

  /** The characters `String.prototype.trim` removes: ECMAScript
      WhiteSpace and LineTerminator code points. */
  predicate IsWhitespace(c: char) {
    ('\U{9}' <= c <= '\U{D}') || c == ' ' || c == '\U{A0}' || c == '\U{1680}' ||
    ('\U{2000}' <= c <= '\U{200A}') || c == '\U{2028}' || c == '\U{2029}' ||
    c == '\U{202F}' || c == '\U{205F}' || c == '\U{3000}' || c == '\U{FEFF}'
  }

  /** `s.trim()` is the empty string. */
  predicate IsBlank(s: string) {
    forall i :: 0 <= i < |s| ==> IsWhitespace(s[i])
  }

  predicate DelimiterFree(s: string) {
    forall i :: 0 <= i < |s| ==> !IsDelimiter(s[i])
  }

  /** `text.split(/[。！？]/)`: the pieces between delimiters, including the
      empty ones. */
  function Split(s: string): (r: seq<string>)
    ensures |r| == |Delimiters(s)| + 1
    ensures forall k :: 0 <= k < |r| ==> DelimiterFree(r[k])
  {
    if s == [] then [""]
    else
      var rest := Split(s[1..]);
      if IsDelimiter(s[0]) then [""] + rest
      else [[s[0]] + rest[0]] + rest[1..]
  }

  /** The delimiters of `s`, in order. */
  function Delimiters(s: string): (d: string)
    ensures forall i :: 0 <= i < |d| ==> IsDelimiter(d[i])
  {
    if s == [] then []
    else (if IsDelimiter(s[0]) then [s[0]] else []) + Delimiters(s[1..])
  }

  /** Put the delimiters back between the pieces. */
  function Interleave(pieces: seq<string>, delims: string): string
    requires |pieces| == |delims| + 1
  {
    if delims == [] then pieces[0]
    else pieces[0] + [delims[0]] + Interleave(pieces[1..], delims[1..])
  }

  /** Splitting loses nothing: the pieces with the delimiters put back
      between them give the input, and no piece holds a delimiter, so the
      pieces are exactly the maximal delimiter-free runs. */
  lemma {:induction false} SplitInterleave(s: string)
    ensures Interleave(Split(s), Delimiters(s)) == s
  {
    if s != [] {
      SplitInterleave(s[1..]);
      var rest := Split(s[1..]);
      var ds := Delimiters(s[1..]);
      if IsDelimiter(s[0]) {
        assert Split(s) == [""] + rest && Delimiters(s) == [s[0]] + ds;
        assert Split(s)[1..] == rest;
        assert s == [s[0]] + s[1..];
      } else {
        assert Delimiters(s) == ds;
        assert Split(s) == [[s[0]] + rest[0]] + rest[1..];
        if ds == [] {
          assert s == [s[0]] + s[1..];
        } else {
          assert Split(s)[1..] == rest[1..];
          assert Interleave(rest, ds) == rest[0] + [ds[0]] + Interleave(rest[1..], ds[1..]);
          assert s == [s[0]] + s[1..];
        }
      }
    }
  }

  /** `.filter(s => s.trim())`. */
  function NonBlank(pieces: seq<string>): (r: seq<string>)
    ensures |r| <= |pieces|
    ensures forall k :: 0 <= k < |r| ==> !IsBlank(r[k]) && r[k] in pieces
  {
    if pieces == [] then []
    else if IsBlank(pieces[0]) then NonBlank(pieces[1..])
    else [pieces[0]] + NonBlank(pieces[1..])
  }

  /** The positions of the non-blank pieces, in increasing order. */
  function NonBlankPositions(pieces: seq<string>): seq<nat> {
    PositionsFrom(pieces, 0)
  }

  /** The non-blank positions of `pieces`, counted from `from`. */
  function PositionsFrom(pieces: seq<string>, from: nat): (idx: seq<nat>)
    ensures forall k :: 0 <= k < |idx| ==> from <= idx[k] < from + |pieces|
  {
    if pieces == [] then []
    else if IsBlank(pieces[0]) then PositionsFrom(pieces[1..], from + 1)
    else [from] + PositionsFrom(pieces[1..], from + 1)
  }

  /** The filter keeps exactly the non-blank pieces, in their order. This
      and the next two lemmas say so together: the k-th kept piece is the
      piece at the k-th non-blank position, the positions increase, and a
      position is among them exactly when its piece is non-blank. */
  lemma NonBlankIsFilter(pieces: seq<string>)
    ensures |NonBlankPositions(pieces)| == |NonBlank(pieces)|
    ensures forall k :: 0 <= k < |NonBlankPositions(pieces)| ==>
      NonBlankPositions(pieces)[k] < |pieces| && NonBlank(pieces)[k] == pieces[NonBlankPositions(pieces)[k]]
  {
    NonBlankCount(pieces, 0);
    forall k | 0 <= k < |NonBlankPositions(pieces)|
      ensures NonBlank(pieces)[k] == pieces[NonBlankPositions(pieces)[k]]
    {
      NonBlankAt(pieces, 0, k);
    }
  }

  lemma NonBlankPositionsIncrease(pieces: seq<string>)
    ensures forall j, k :: 0 <= j < k < |NonBlankPositions(pieces)| ==>
      NonBlankPositions(pieces)[j] < NonBlankPositions(pieces)[k]
  {
    forall j, k | 0 <= j < k < |NonBlankPositions(pieces)|
      ensures NonBlankPositions(pieces)[j] < NonBlankPositions(pieces)[k]
    {
      PositionsIncrease(pieces, 0, j, k);
    }
  }

  lemma NonBlankPositionsExact(pieces: seq<string>)
    ensures forall i :: 0 <= i < |pieces| ==> (!IsBlank(pieces[i]) <==> i in NonBlankPositions(pieces))
  {
    forall i | 0 <= i < |pieces|
      ensures !IsBlank(pieces[i]) <==> i in NonBlankPositions(pieces)
    {
      PositionIn(pieces, 0, i);
    }
  }

  lemma {:induction false} NonBlankCount(pieces: seq<string>, from: nat)
    ensures |PositionsFrom(pieces, from)| == |NonBlank(pieces)|
  {
    if pieces != [] {
      NonBlankCount(pieces[1..], from + 1);
    }
  }

  lemma {:induction false} NonBlankAt(pieces: seq<string>, from: nat, k: nat)
    requires k < |PositionsFrom(pieces, from)| && k < |NonBlank(pieces)|
    ensures NonBlank(pieces)[k] == pieces[PositionsFrom(pieces, from)[k] - from]
  {
    var t := pieces[1..];
    var rest := PositionsFrom(t, from + 1);
    if IsBlank(pieces[0]) {
      NonBlankAt(t, from + 1, k);
      var j := rest[k] - (from + 1);
      assert pieces[j + 1] == t[j];
    } else if k > 0 {
      NonBlankAt(t, from + 1, k - 1);
      var j := rest[k - 1] - (from + 1);
      assert pieces[j + 1] == t[j];
    }
  }

  lemma {:induction false} PositionsIncrease(pieces: seq<string>, from: nat, j: nat, k: nat)
    requires j < k < |PositionsFrom(pieces, from)|
    ensures PositionsFrom(pieces, from)[j] < PositionsFrom(pieces, from)[k]
  {
    var rest := PositionsFrom(pieces[1..], from + 1);
    var idx := PositionsFrom(pieces, from);
    if IsBlank(pieces[0]) {
      PositionsIncrease(pieces[1..], from + 1, j, k);
    } else {
      assert idx[k] == rest[k - 1];
      if j > 0 {
        PositionsIncrease(pieces[1..], from + 1, j - 1, k - 1);
      }
    }
  }

  lemma {:induction false} PositionIn(pieces: seq<string>, from: nat, i: nat)
    requires from <= i < from + |pieces|
    ensures !IsBlank(pieces[i - from]) <==> i in PositionsFrom(pieces, from)
  {
    var t := pieces[1..];
    var rest := PositionsFrom(t, from + 1);
    if i == from {
      assert from !in rest;
    } else {
      PositionIn(t, from + 1, i);
      assert pieces[i - from] == t[i - (from + 1)];
    }
  }

  /** `.join(sep)`. */
  function Join(pieces: seq<string>, sep: string): string {
    if pieces == [] then ""
    else if |pieces| == 1 then pieces[0]
    else pieces[0] + sep + Join(pieces[1..], sep)
  }

  function Take(pieces: seq<string>, n: nat): seq<string> {
    if |pieces| <= n then pieces else pieces[..n]
  }

  /** The string `shortenForChat` builds before the length cut: the first
      two non-blank pieces joined with 。, with 。 appended unless the
      string is empty or already ends with one of 。！？. */
  function Sentences(text: string): string {
    var shortened := Join(Take(NonBlank(Split(text)), 2), "。");
    if shortened != "" && !IsDelimiter(shortened[|shortened| - 1]) then shortened + "。"
    else shortened
  }

  /** Neither ！ nor ？ occurs in `s`. */
  predicate NoBangOrQuestion(s: string) {
    '！' !in s && '？' !in s
  }

  lemma {:induction false} JoinKeepsOut(pieces: seq<string>, sep: string)
    requires forall k :: 0 <= k < |pieces| ==> NoBangOrQuestion(pieces[k])
    requires NoBangOrQuestion(sep)
    ensures NoBangOrQuestion(Join(pieces, sep))
  {
    if |pieces| > 1 {
      JoinKeepsOut(pieces[1..], sep);
    }
  }

  /** A join whose last piece is non-empty ends with that piece's last character. */
  lemma {:induction false} JoinLast(pieces: seq<string>, sep: string)
    requires pieces != [] && pieces[|pieces| - 1] != []
    ensures var j := Join(pieces, sep); j != [] && j[|j| - 1] == pieces[|pieces| - 1][|pieces[|pieces| - 1]| - 1]
  {
    if |pieces| > 1 {
      JoinLast(pieces[1..], sep);
    }
  }

  lemma DelimiterFreeHasNoBang(s: string)
    requires DelimiterFree(s)
    ensures NoBangOrQuestion(s)
  {
  }

  /** The kept pieces: at most two, each non-blank and free of delimiters,
      and they are the first two non-blank pieces of the split. */
  function Kept(text: string): (kept: seq<string>)
    ensures |kept| <= 2
    ensures forall k :: 0 <= k < |kept| ==> !IsBlank(kept[k]) && DelimiterFree(kept[k])
  {
    Take(NonBlank(Split(text)), 2)
  }

  /** `Kept` is what the source keeps: the first two non-blank pieces of
      the split, or all of them when there are fewer. */
  lemma KeptIsFirstTwo(text: string)
    ensures |Kept(text)| == (if |NonBlankPositions(Split(text))| < 2 then |NonBlankPositions(Split(text))| else 2)
    ensures forall k :: 0 <= k < |Kept(text)| ==> Kept(text)[k] == Split(text)[NonBlankPositions(Split(text))[k]]
  {
    NonBlankIsFilter(Split(text));
  }

  /** Before the k-th non-blank position, the non-blank positions are the
      first k: so the k-th kept piece of `KeptIsFirstTwo` has exactly k
      non-blank pieces before it, all kept. */
  lemma SkipsOnlyBlanks(p: seq<string>)
    ensures forall k, i ::
      0 <= k < |NonBlankPositions(p)| && 0 <= i < NonBlankPositions(p)[k] && !IsBlank(p[i]) ==>
        i in NonBlankPositions(p)[..k]
  {
    var idx := NonBlankPositions(p);
    NonBlankPositionsIncrease(p);
    NonBlankPositionsExact(p);
    forall k, i | 0 <= k < |idx| && 0 <= i < idx[k] && !IsBlank(p[i])
      ensures i in idx[..k]
    {
      assert idx[k] < |p|;
      var j :| 0 <= j < |idx| && idx[j] == i;
      assert j < k;
      assert idx[..k][j] == i;
    }
  }

  /** The appended 。 is always added: the joined pieces never end with a
      delimiter, because the last kept piece is non-blank and delimiter-free. */
  lemma SentencesShape(text: string)
    ensures Kept(text) == [] ==> Sentences(text) == ""
    ensures Kept(text) != [] ==> Sentences(text) == Join(Kept(text), "。") + "。"
    ensures NoBangOrQuestion(Sentences(text))
    ensures Sentences(text) != "" ==> Sentences(text)[|Sentences(text)| - 1] == '。'
  {
    var kept := Kept(text);
    forall k | 0 <= k < |kept| ensures NoBangOrQuestion(kept[k]) {
      DelimiterFreeHasNoBang(kept[k]);
    }
    JoinKeepsOut(kept, "。");
    if kept != [] {
      var last := kept[|kept| - 1];
      assert !IsBlank(last) && DelimiterFree(last);
      JoinLast(kept, "。");
    } else {
      assert Join(kept, "。") == "";
    }
  }

  /** The length cut keeps ！ and ？ out and gives 103 characters. */
  lemma CutKeepsOut(s: string)
    requires NoBangOrQuestion(s) && |s| > 100
    ensures NoBangOrQuestion(s[..100] + "...") && |s[..100] + "..."| == 103
  {
    assert forall c :: c in s[..100] + "..." ==> c in s || c == '.';
  }

  /** `shortenForChat`. Lengths are counted in characters. */
  function ShortenForChat(text: string): (r: string)
    ensures text == "" ==> r == ""
    ensures NoBangOrQuestion(r)
    ensures |r| <= 103
    ensures text != "" && |Sentences(text)| > 100 ==> r == Sentences(text)[..100] + "..."
    ensures text != "" && |Sentences(text)| <= 100 ==> r == Sentences(text)
    ensures 0 < |r| <= 100 ==> r[|r| - 1] == '。'
  {
    if text == "" then ""
    else
      var shortened := Sentences(text);
      SentencesShape(text);
      if |shortened| > 100 then
        CutKeepsOut(shortened);
        shortened[..100] + "..."
      else shortened
  }

  // ---------------------------------------------------------------------
  // Persona prompt

  datatype Tone = Rational | Gentle

  /** `type && type.includes("T")` picks the rational tone. */
  function ToneFor(personalityType: Option<string>): (t: Tone)
    ensures t == Rational <==> Truthy(personalityType) && 'T' in personalityType.value
  {
    if Truthy(personalityType) && 'T' in personalityType.value then Rational else Gentle
  }

  const RationalToneText := "あなたは静かで理性的な壁打ちパートナーです。感情ではなく、思考の整理を手伝います。"
  const GentleToneText := "あなたは柔らかく寄り添うカウンセラーです。温かく、静かに心を受け止めます。"

  /** The fixed part of the persona prompt, up to the tone line. */
  const PromptPreamble :=
    "\nあなたは深夜の言葉の薬局「Fateful Book」の薬剤師です。\n話し方は落ち着いていて、静かな夜の空気のように穏やかです。\n\n【重要なルール】\n- 最初の1~2ターンは本を提案しないでください\n- まずユーザーの気持ちを深く理解するための質問をしてください\n- 例: 「なぜそう感じるのですか？」「どんな気持ちになりたいですか？」「その感情の根っこには何がありそうですか？」\n- ユーザーの核心に触れたと感じるまで、深掘りを続けてください\n- 本の提案や書籍名は、明示的に求められるまで控えてください\n- 返答は必ず2文以内、100文字以内で簡潔にしてください\n\n"

  function ToneText(t: Tone): string {
    match t
    case Rational => RationalToneText
    case Gentle => GentleToneText
  }

  /** `personalityPrompt(type)`: the preamble, the chosen tone line, a newline. */
  function PersonalityPrompt(personalityType: Option<string>): string {
    PromptPreamble + ToneText(ToneFor(personalityType)) + "\n"
  }

  // ---------------------------------------------------------------------
  // getGeminiResponse

  /** A history entry in the SDK's shape `{ role, parts: [{ text }] }`. */
  datatype SdkTurn = SdkTurn(role: string, text: string)

  /** `(history || []).map(h => ({ role: h.role === "assistant" ? "model" : "user", ... }))`. */
  function ToSdkHistory(history: Option<seq<Message>>): (r: seq<SdkTurn>)
    ensures history.None? ==> r == []
    ensures history.Some? ==> |r| == |history.value|
    ensures history.Some? ==> forall i :: 0 <= i < |r| ==>
      r[i].text == history.value[i].content &&
      (r[i].role == "model" <==> history.value[i].role == AssistantRole) &&
      (r[i].role == "user" <==> history.value[i].role != AssistantRole)
  {
    var h := if history.None? then [] else history.value;
    seq(|h|, i requires 0 <= i < |h| => SdkTurn(if h[i].role == AssistantRole then "model" else "user", h[i].content))
  }

  /** What `getGeminiResponse` hands to the SDK: the converted history for
      `startChat` and the text for `sendMessage`. */
  datatype ChatCall = ChatCall(history: seq<SdkTurn>, text: string)

  /** The request half of `getGeminiResponse`: on the first turn (empty
      converted history) the persona prompt and a blank line precede the
      message; otherwise the message goes alone. */
  function PrepareChat(personalityType: Option<string>, history: Option<seq<Message>>, message: string): (c: ChatCall)
    ensures c.history == ToSdkHistory(history)
    ensures c.history == [] ==> c.text == PersonalityPrompt(personalityType) + "\n\n" + message
    ensures c.history != [] ==> c.text == message
  {
    var safeHistory := ToSdkHistory(history);
    ChatCall(safeHistory, if |safeHistory| == 0 then PersonalityPrompt(personalityType) + "\n\n" + message else message)
  }

  /** The outcome half of `getGeminiResponse`: a reply is shortened, any
      failure is rethrown with a prefixed message. */
  function ChatResult(outcome: Outcome<string>): (r: Result<string>)
    ensures outcome.Returned? ==> r == Ok(ShortenForChat(outcome.value))
    ensures outcome.Threw? ==> r == Err("Gemini API call failed: " + outcome.message)
  {
    match outcome
    case Returned(text) => Ok(ShortenForChat(text))
    case Threw(m) => Err("Gemini API call failed: " + m)
  }

  /** The persona prompt is prepended exactly when the forwarded history is
      empty, and its tone is the rational one exactly when the type holds a T. */
  lemma FirstTurnRule(personalityType: Option<string>, history: Option<seq<Message>>, message: string)
    ensures var c := PrepareChat(personalityType, history, message);
      (history.None? || history.value == []) <==> c.history == []
    ensures (history.None? || history.value == []) ==>
      PrepareChat(personalityType, history, message).text == PersonalityPrompt(personalityType) + "\n\n" + message
    ensures ToneFor(personalityType) == Rational <==> Truthy(personalityType) && 'T' in personalityType.value
  {
  }

  // ---------------------------------------------------------------------
  // getBookPrescription

  /** `${h.role === "user" ? "ユーザー" : "薬剤師"}: ${h.content}`. */
  function SummaryLine(h: Message): string {
    (if h.role == UserRole then "ユーザー" else "薬剤師") + ": " + h.content
  }

  /** `(history || []).map(SummaryLine).join("\n")`. */
  function ConversationSummary(history: Option<seq<Message>>): string {
    var h := if history.None? then [] else history.value;
    Join(seq(|h|, i requires 0 <= i < |h| => SummaryLine(h[i])), "\n")
  }

  /** The variable parts of the recommendation prompt: the personality
      (`personality || "不明"`) and the conversation summary. */
  datatype PrescriptionPrompt = PrescriptionPrompt(personality: string, summary: string)

  function PreparePrescription(personality: Option<string>, history: Option<seq<Message>>): (p: PrescriptionPrompt)
    ensures Truthy(personality) ==> p.personality == personality.value
    ensures !Truthy(personality) ==> p.personality == "不明"
    ensures history.None? || history.value == [] ==> p.summary == ""
  {
    PrescriptionPrompt(OrElse(personality, "不明"), ConversationSummary(history))
  }

  /** The index of the first `c` in `s`, if any. */
  function FirstIndexOf(s: string, c: char): (r: Option<nat>)
    ensures r.None? <==> c !in s
    ensures r.Some? ==> r.value < |s| && s[r.value] == c && c !in s[..r.value]
  {
    if s == [] then None
    else if s[0] == c then Some(0)
    else
      var rest := FirstIndexOf(s[1..], c);
      assert s == [s[0]] + s[1..];
      if rest.None? then None
      else
        assert s[..rest.value + 1] == [s[0]] + s[1..][..rest.value];
        Some(rest.value + 1)
  }

  /** The index of the last `c` in `s`, if any. */
  function LastIndexOf(s: string, c: char): (r: Option<nat>)
    ensures r.None? <==> c !in s
    ensures r.Some? ==> r.value < |s| && s[r.value] == c && c !in s[r.value + 1..]
  {
    if s == [] then None
    else
      var n := |s| - 1;
      assert s == s[..n] + [s[n]];
      if s[n] == c then Some(n)
      else
        var rest := LastIndexOf(s[..n], c);
        if rest.None? then None
        else
          assert s[rest.value + 1..] == s[..n][rest.value + 1..] + [s[n]];
          Some(rest.value)
  }

  /** `text.match(/\{[\s\S]*\}/)`: the leftmost match starts at the first
      `{`, and the greedy body runs to the last `}`. There is a match exactly
      when some `{` comes before some `}`. */
  function JsonSpan(text: string): (r: Option<string>)
    ensures r.Some? ==> |r.value| >= 2 && r.value[0] == '{' && r.value[|r.value| - 1] == '}'
  {
    var open := FirstIndexOf(text, '{');
    var close := LastIndexOf(text, '}');
    if open.Some? && close.Some? && open.value < close.value then Some(text[open.value..close.value + 1])
    else None
  }

  /** The span is the text from the first `{` through the last `}`, and it
      is missing exactly when no `{` precedes a `}`. */
  lemma JsonSpanIsOuterBraces(text: string)
    ensures JsonSpan(text).None? <==>
      !exists i, j :: 0 <= i < j < |text| && text[i] == '{' && text[j] == '}'
    ensures JsonSpan(text).Some? ==>
      var open, close := FirstIndexOf(text, '{').value, LastIndexOf(text, '}').value;
      open < close && JsonSpan(text).value == text[open..close + 1] &&
      '{' !in text[..open] && '}' !in text[close + 1..]
  {
    NoSpanMeansNoBraces(text);
    SpanHasBraces(text);
    SpanIsOuterSlice(text);
  }

  lemma SpanIsOuterSlice(text: string)
    ensures JsonSpan(text).Some? ==>
      var open, close := FirstIndexOf(text, '{').value, LastIndexOf(text, '}').value;
      open < close && JsonSpan(text).value == text[open..close + 1] &&
      '{' !in text[..open] && '}' !in text[close + 1..]
  {
  }

  lemma NoSpanMeansNoBraces(text: string)
    ensures JsonSpan(text).None? ==>
      !exists i, j :: 0 <= i < j < |text| && text[i] == '{' && text[j] == '}'
  {
    if exists i, j :: 0 <= i < j < |text| && text[i] == '{' && text[j] == '}' {
      var i, j :| 0 <= i < j < |text| && text[i] == '{' && text[j] == '}';
      BracesOrdered(text, i, j);
    }
  }

  lemma SpanHasBraces(text: string)
    ensures JsonSpan(text).Some? ==>
      exists i, j :: 0 <= i < j < |text| && text[i] == '{' && text[j] == '}'
  {
    var open, close := FirstIndexOf(text, '{'), LastIndexOf(text, '}');
    if open.Some? && close.Some? && open.value < close.value {
      BracesWitness(text, open.value, close.value);
    }
  }

  lemma BracesWitness(text: string, i: nat, j: nat)
    requires i < j < |text| && text[i] == '{' && text[j] == '}'
    ensures exists i, j :: 0 <= i < j < |text| && text[i] == '{' && text[j] == '}'
  {
  }

  /** Any `{` before a `}` puts the first `{` before the last `}`. */
  lemma BracesOrdered(text: string, i: nat, j: nat)
    requires i < j < |text| && text[i] == '{' && text[j] == '}'
    ensures FirstIndexOf(text, '{').Some? && LastIndexOf(text, '}').Some?
    ensures FirstIndexOf(text, '{').value <= i && j <= LastIndexOf(text, '}').value
  {
    assert text[i] in text && text[j] in text;
  }

  const FallbackTitle := "世界の終りとハードボイルド・ワンダーランド"
  const FallbackAuthor := "村上春樹"
  const FallbackLine := "現実と非現実のあいだで、そっと頭を冷やしたい夜に。"
  const FallbackReason := "あなたの言葉の温度や揺らぎから、静かに思考を整理できる物語が必要だと感じました。村上春樹の独特な世界観は、論理と感情の狭間で揺れるあなたの心に、穏やかな着地点を与えてくれるはずです。"

  /** The constant book returned when the generated text holds no parsable span. */
  const FallbackBook := Book(Some(FallbackTitle), Some(FallbackAuthor), Some(FallbackLine), Some(FallbackReason), None)

  /** The outcome half of `getBookPrescription`. A generation failure is
      rethrown; otherwise the span is handed to `parse` (the model of
      `JSON.parse`, `None` when it throws), whose object is returned as it
      is, fields unchecked; no span or a parse failure gives the fallback. */
  function PrescriptionResult(outcome: Outcome<string>, parse: string -> Option<Book>): (r: Result<Book>)
    ensures outcome.Threw? ==> r == Err("Book prescription failed: " + outcome.message)
    ensures outcome.Returned? ==> r.Ok?
    ensures outcome.Returned? && JsonSpan(outcome.value).None? ==> r == Ok(FallbackBook)
    ensures outcome.Returned? && JsonSpan(outcome.value).Some? ==>
      r == Ok(match parse(JsonSpan(outcome.value).value) case Some(b) => b case None => FallbackBook)
  {
    match outcome
    case Threw(m) => Err("Book prescription failed: " + m)
    case Returned(text) =>
      match JsonSpan(text)
      case None => Ok(FallbackBook)
      case Some(span) =>
        match parse(span)
        case Some(b) => Ok(b)
        case None => Ok(FallbackBook)
  }

  /** A response without a `{`, the empty one included, yields the fixed
      fallback and never an error, whatever the parser does. */
  lemma NoBraceFallsBack(text: string, parse: string -> Option<Book>)
    requires '{' !in text
    ensures PrescriptionResult(Returned(text), parse) == Ok(FallbackBook)
  {
  }
}
