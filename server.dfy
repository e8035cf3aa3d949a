/** The Express back end: the history sanitiser and the request-field
    validation of the `/api/chat` and `/api/prescription` handlers. */
module Server {
  import opened Common
  import Gemini

  // ---------------------------------------------------------------------
  // sanitizeHistory

  /** The index of the first `user` turn, or `|h|` when there is none. */
  function FirstUser(h: seq<Message>): (k: nat)
    ensures k <= |h|
    ensures k < |h| ==> h[k].role == UserRole
    ensures forall i :: 0 <= i < k ==> h[i].role != UserRole
  {
    if h == [] then 0
    else if h[0].role == UserRole then 0
    else 1 + FirstUser(h[1..])
  }

  /** What `sanitizeHistory` returns: the leading non-user turns dropped,
      then one trailing user turn (the message being sent) dropped. A
      non-array history counts as empty. */
  function Sanitized(history: Option<seq<Message>>): seq<Message> {
    var h := if history.None? then [] else history.value;
    var t := h[FirstUser(h)..];
    if |t| > 0 && t[|t| - 1].role == UserRole then t[..|t| - 1] else t
  }

  /** The sanitiser on a fresh copy: shift while the head is not a user
      turn, then pop once if the tail is a user turn. The caller's
      sequence is a value and cannot change. */
  method SanitizeHistory(history: Option<seq<Message>>) returns (copy: seq<Message>)
    ensures copy == Sanitized(history)
  {
    var h := if history.None? then [] else history.value;
    copy := h;
    ghost var k := 0;
    while |copy| > 0 && copy[0].role != UserRole
      invariant k <= |h| && copy == h[k..]
      invariant forall i :: 0 <= i < k ==> h[i].role != UserRole
      decreases |copy|
    {
      copy := copy[1..];
      k := k + 1;
    }
    assert k == FirstUser(h) by {
      FirstUserIsFirst(h, k);
    }
    if |copy| > 0 && copy[|copy| - 1].role == UserRole {
      copy := copy[..|copy| - 1];
    }
  }

  /** The first user turn is characterised by the turns before it and the
      turn at it. */
  lemma {:induction false} FirstUserIsFirst(h: seq<Message>, k: nat)
    requires k <= |h|
    requires forall i :: 0 <= i < k ==> h[i].role != UserRole
    requires k == |h| || h[k].role == UserRole
    ensures FirstUser(h) == k
  {
    if k > 0 {
      assert h[0].role != UserRole;
      FirstUserIsFirst(h[1..], k - 1);
    }
  }

  /** The result is the slice `h[FirstUser(h)..j]`, where `j` drops at most
      the one last turn, and only when that turn is a user turn; it is
      empty or begins with a user turn. */
  lemma SanitizedShape(h: seq<Message>)
    ensures var r := Sanitized(Some(h));
      var j := FirstUser(h) + |r|;
      j <= |h| && r == h[FirstUser(h)..j] &&
      (j == |h| || (j == |h| - 1 && h[|h| - 1].role == UserRole)) &&
      (r == [] || r[0].role == UserRole)
  {
  }

  /** Nothing before the first user turn survives, and a history with a
      user turn anywhere but at its very end keeps a user turn first. */
  lemma SanitizedKeepsFromFirstUser(h: seq<Message>)
    ensures |Sanitized(Some(h))| == |h| - FirstUser(h) ||
            |Sanitized(Some(h))| == |h| - FirstUser(h) - 1
    ensures FirstUser(h) < |h| - 1 ==> Sanitized(Some(h)) != [] && Sanitized(Some(h))[0] == h[FirstUser(h)]
  {
  }

  /** A non-array history sanitises like an empty one: to `[]`. */
  lemma NonArrayIsEmpty()
    ensures Sanitized(None) == []
    ensures Sanitized(Some([])) == []
  {
  }

  /** `[assistant, user]` sanitises to `[]`, and `[user, user]` to `[user]`,
      which sanitises once more to `[]`: the sanitiser is not idempotent. */
  lemma NotIdempotent(u: string, v: string)
    ensures Sanitized(Some([Message(AssistantRole, u), Message(UserRole, v)])) == []
    ensures Sanitized(Some([Message(UserRole, u), Message(UserRole, v)])) == [Message(UserRole, u)]
    ensures Sanitized(Some(Sanitized(Some([Message(UserRole, u), Message(UserRole, v)])))) == []
  {
    var h := [Message(AssistantRole, u), Message(UserRole, v)];
    assert FirstUser(h) == 1 by {
      assert h[1..] == [Message(UserRole, v)];
    }
  }

  /** Sanitising twice equals sanitising once exactly when the once-sanitised
      history does not end with a user turn. */
  lemma SanitizeTwice(history: Option<seq<Message>>)
    ensures var r := Sanitized(history);
      Sanitized(Some(r)) == r <==> (r == [] || r[|r| - 1].role != UserRole)
  {
    var r := Sanitized(history);
    if r != [] {
      assert FirstUser(r) == 0;
    }
  }

  /** The client sends its whole history, ending with the message being
      sent; the sanitiser strips exactly that message again and forwards
      everything from the first earlier user turn on. */
  lemma SentMessageIsStripped(h: seq<Message>, m: string)
    ensures Sanitized(Some(h + [Message(UserRole, m)])) == h[FirstUser(h)..]
  {
    var u := Message(UserRole, m);
    var hu := h + [u];
    var k := FirstUser(h);
    assert forall i :: 0 <= i < k ==> hu[i] == h[i];
    FirstUserIsFirst(hu, k);
    var t := hu[k..];
    assert t == h[k..] + [u];
    assert t[..|t| - 1] == h[k..];
  }

  // ---------------------------------------------------------------------
  // Handlers

  /** The `history` field of a request body, as the handlers can receive
      it from `express.json()`. */
  datatype HistoryField =
    | Absent                      // missing, or a falsy value such as null
    | Turns(turns: seq<Message>)  // an array of message objects
    | NotArray                    // a truthy value that is not an array
    | NullTurn                    // an array with a null element

  /** `Array.isArray(history) ? history : []`, with `None` for "not an
      array", as `Sanitized` takes it. */
  function ArrayOf(f: HistoryField): Option<seq<Message>> {
    if f.Turns? then Some(f.turns) else None
  }

  /** The body of a POST request; `None` stands for a missing or null
      string field. */
  datatype ChatRequest = ChatRequest(history: HistoryField, personality: Option<string>, message: Option<string>)
  datatype PrescriptionRequest = PrescriptionRequest(personality: Option<string>, history: HistoryField)

  datatype Body =
    | Reply(reply: string)
    | Error(error: string)
    | Prescribed(book: Book)

  datatype Response = Response(status: int, body: Body)

  /** The first half of a handler: answer at once, or call the model. */
  datatype Step<+C> = Respond(response: Response) | Call(call: C)

  /** `/api/chat` up to its `await`: a falsy message is refused with 400
      before anything else. A history holding a null turn ends in 500:
      every turn's `role` is read, by the shift loop, by the pop test or
      by the SDK conversion, and reading it from null throws. Otherwise
      the model is asked with the sanitised history, a non-array one
      counting as empty. */
  function HandleChat(req: ChatRequest): (s: Step<Gemini.ChatCall>)
    ensures !Truthy(req.message) <==> s == Respond(Response(400, Error("Message is required")))
    ensures Truthy(req.message) && req.history.NullTurn? <==>
      s == Respond(Response(500, Error("Internal server error")))
    ensures s.Call? <==> Truthy(req.message) && !req.history.NullTurn?
    ensures s.Call? ==>
      s.call == Gemini.PrepareChat(req.personality, Some(Sanitized(ArrayOf(req.history))), req.message.value)
  {
    if !Truthy(req.message) then Respond(Response(400, Error("Message is required")))
    else if req.history.NullTurn? then Respond(Response(500, Error("Internal server error")))
    else Call(Gemini.PrepareChat(req.personality, Some(Sanitized(ArrayOf(req.history))), req.message.value))
  }

  /** On `/api/chat` a missing history, a non-array one and an empty array
      lead to the same call: the first turn, with the persona prompt. */
  lemma ChatHistoryNonArrayIsEmpty(personality: Option<string>, m: string)
    requires m != []
    ensures HandleChat(ChatRequest(NotArray, personality, Some(m))) ==
            HandleChat(ChatRequest(Absent, personality, Some(m)))
    ensures HandleChat(ChatRequest(Turns([]), personality, Some(m))) ==
            HandleChat(ChatRequest(Absent, personality, Some(m)))
    ensures HandleChat(ChatRequest(Absent, personality, Some(m))).call.text ==
            Gemini.PersonalityPrompt(personality) + "\n\n" + m
  {
    NonArrayIsEmpty();
  }

  /** `/api/chat` after its `await`: the shortened reply, or 500. */
  function ChatResponse(outcome: Outcome<string>): (r: Response)
    ensures outcome.Returned? ==> r == Response(200, Reply(Gemini.ShortenForChat(outcome.value)))
    ensures outcome.Threw? ==> r == Response(500, Error("Internal server error"))
  {
    match Gemini.ChatResult(outcome)
    case Ok(reply) => Response(200, Reply(reply))
    case Err(_) => Response(500, Error("Internal server error"))
  }

  /** `/api/prescription` up to its first `await`: a falsy personality is
      refused with 400. A truthy non-array history, or one holding a null
      turn, ends in 500: `(history || []).map` throws on it, and the
      handler's `catch` answers. Otherwise the recommendation is asked for
      with the history as received (it is not sanitised); a falsy history
      counts as empty. */
  function HandlePrescription(req: PrescriptionRequest): (s: Step<Gemini.PrescriptionPrompt>)
    ensures !Truthy(req.personality) <==> s == Respond(Response(400, Error("Personality is required")))
    ensures Truthy(req.personality) && (req.history.NotArray? || req.history.NullTurn?) <==>
      s == Respond(Response(500, Error("Failed to generate prescription")))
    ensures s.Call? <==> Truthy(req.personality) && (req.history.Absent? || req.history.Turns?)
    ensures s.Call? ==> s.call == Gemini.PreparePrescription(req.personality, ArrayOf(req.history))
    ensures s.Call? ==> s.call.personality == req.personality.value
  {
    if !Truthy(req.personality) then Respond(Response(400, Error("Personality is required")))
    else if req.history.NotArray? || req.history.NullTurn? then
      Respond(Response(500, Error("Failed to generate prescription")))
    else Call(Gemini.PreparePrescription(req.personality, ArrayOf(req.history)))
  }

  /** The two handlers part on a non-array history: `/api/chat` treats it
      as empty, `/api/prescription` fails. */
  lemma NonArrayHistoryDiffers(personality: string, m: string)
    requires personality != [] && m != []
    ensures HandleChat(ChatRequest(NotArray, Some(personality), Some(m))).Call?
    ensures HandlePrescription(PrescriptionRequest(Some(personality), NotArray)).Respond?
    ensures HandlePrescription(PrescriptionRequest(Some(personality), Absent)).call.summary == ""
  {
  }

  /** `/api/prescription` after both `await`s: the generated (or fallback)
      book with the cover URL looked up for it, or 500 when the generation
      throws. The cover lookup never throws: it answers `null` on any
      failure of its own. */
  function PrescriptionResponse(outcome: Outcome<string>, parse: string -> Option<Book>, cover: Option<string>): (r: Response)
    ensures outcome.Threw? <==> r == Response(500, Error("Failed to generate prescription"))
    ensures outcome.Returned? ==>
      var b := Gemini.PrescriptionResult(outcome, parse).value;
      r == Response(200, Prescribed(b.(imageUrl := cover)))
  {
    match Gemini.PrescriptionResult(outcome, parse)
    case Err(_) => Response(500, Error("Failed to generate prescription"))
    case Ok(b) => Response(200, Prescribed(b.(imageUrl := cover)))
  }
}
