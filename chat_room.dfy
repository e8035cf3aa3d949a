/** The chat screen: the turn counter, the send/reply/failure steps of
    `sendMessage`, and the manual and automatic `requestPrescription`. Each
    `await` is split into the step that issues the request and the step
    that receives its outcome. */
module ChatRoomScreen {
  import opened Common
  import Server
  import Gemini

  /** The turn count at which a prescription is requested automatically. */
  const MaxTurns: nat := 10

  /** The number of user turns in a history. */
  function UserCount(h: seq<Message>): (n: nat)
    ensures n <= |h|
    ensures h == [] ==> n == 0
  {
    if h == [] then 0
    else UserCount(h[..|h| - 1]) + (if h[|h| - 1].role == UserRole then 1 else 0)
  }

  /** Appending a turn adds one to the count exactly when it is a user turn. */
  lemma UserCountAppend(h: seq<Message>, m: Message)
    ensures UserCount(h + [m]) == UserCount(h) + (if m.role == UserRole then 1 else 0)
  {
    assert (h + [m])[..|h|] == h;
  }

  /** Whether the manual prescription button is shown:
      `turns >= 1 && turns < MAX_TURNS && !loading`. */
  predicate OfferShown(turns: nat, loading: bool) {
    turns >= 1 && turns < MaxTurns && !loading
  }

  /** A history counts a user turn exactly when it holds one. */
  lemma {:induction false} UserCountPositive(h: seq<Message>)
    ensures UserCount(h) > 0 <==> exists i :: 0 <= i < |h| && h[i].role == UserRole
  {
    if h != [] {
      var init := h[..|h| - 1];
      UserCountPositive(init);
      if exists i :: 0 <= i < |init| && init[i].role == UserRole {
        var i :| 0 <= i < |init| && init[i].role == UserRole;
        assert h[i] == init[i];
      }
      if exists i :: 0 <= i < |h| && h[i].role == UserRole {
        var i :| 0 <= i < |h| && h[i].role == UserRole;
        if i < |h| - 1 {
          assert init[i] == h[i];
        }
      }
    }
  }

  /** A send and the server's handling of it, joined: the request carries
      the history ending with the new user turn, and the server forwards
      the earlier turns from the first user turn on, with the new message
      as the text. After a failed send the unanswered user turn is among
      them. */
  lemma SendReachesModel(h: seq<Message>, personality: Option<string>, m: string)
    requires m != []
    ensures Server.HandleChat(Server.ChatRequest(Server.Turns(h + [Message(UserRole, m)]), personality, Some(m))) ==
      Server.Call(Gemini.PrepareChat(personality, Some(h[Server.FirstUser(h)..]), m))
  {
    Server.SentMessageIsStripped(h, m);
  }

  /** A prescription request in flight: the history it sends and the
      summary handed on to `onFinish`. */
  datatype InFlight = InFlight(history: seq<Message>, summary: string)

  /** The object given to `onFinish`; `book` is `None` when the request or
      its JSON failed and the book fields are left out altogether. */
  datatype FinishRecord = FinishRecord(summary: string, personality: Option<string>, history: seq<Message>, book: Option<Book>)

  /** What `onFinish` receives when the request `r` completes with `outcome`. */
  function FinishFor(r: InFlight, personality: Option<string>, outcome: Outcome<Book>): (f: FinishRecord)
    ensures f.summary == r.summary && f.history == r.history && f.personality == personality
    ensures f.book.Some? <==> outcome.Returned?
    ensures outcome.Returned? ==> f.book.value == outcome.value
  {
    match outcome
    case Returned(b) => FinishRecord(r.summary, personality, r.history, Some(b))
    case Threw(_) => FinishRecord(r.summary, personality, r.history, None)
  }

  /** Where the current `sendMessage` call is: not running, awaiting the chat
      reply (with the history and turn count it captured), or awaiting the
      automatic prescription it started. */
  datatype SendStage =
    | Idle
    | AwaitingReply(history: seq<Message>, turns: nat)
    | AwaitingAutoPrescription(request: InFlight)

  class ChatRoom {
    const personality: Option<string>
    var messages: seq<Message>
    var input: string
    var turns: nat
    var loading: bool
    var stage: SendStage
    /** Manual prescription requests still in flight, in issue order. */
    var manual: seq<InFlight>
    /** Every call of `onFinish` so far. */
    var finished: seq<FinishRecord>
    /** Prescription requests issued so far. */
    ghost var issued: nat

    /** `turns` counts the user turns; `loading` is set exactly while a
        `sendMessage` call is running; an awaited reply belongs to the
        current history; every issued prescription request is either still
        in flight or has called `onFinish` once. */
    ghost predicate Valid()
      reads this
    {
      turns == UserCount(messages) &&
      (loading <==> !stage.Idle?) &&
      (stage.AwaitingReply? ==>
        messages == stage.history && turns == stage.turns &&
        |messages| > 0 && messages[|messages| - 1].role == UserRole) &&
      (stage.AwaitingAutoPrescription? ==> turns >= MaxTurns) &&
      issued == |finished| + |manual| + (if stage.AwaitingAutoPrescription? then 1 else 0)
    }

    constructor(personality: Option<string>)
      ensures Valid()
      ensures this.personality == personality
      ensures messages == [] && input == "" && turns == 0 && !loading
      ensures stage == Idle && manual == [] && finished == []
    {
      this.personality := personality;
      messages := [];
      input := "";
      turns := 0;
      loading := false;
      stage := Idle;
      manual := [];
      finished := [];
      issued := 0;
    }

    predicate ManualOfferShown()
      reads this
    {
      OfferShown(turns, loading)
    }

    /** Typing into the text area. */
    method SetInput(text: string)
      requires Valid()
      modifies this
      ensures Valid()
      ensures input == text
      ensures messages == old(messages) && turns == old(turns) && loading == old(loading)
      ensures stage == old(stage) && manual == old(manual) && finished == old(finished)
    {
      input := text;
    }

    /** `sendMessage` up to its `await fetch`: refused when the input is empty
        or a send is running; otherwise the user turn is appended, the input
        cleared, the turn counted and the chat request returned. */
    method SendMessage() returns (sent: Option<Server.ChatRequest>)
      requires Valid()
      modifies this
      ensures Valid()
      ensures old(input) == [] || old(loading) ==>
        sent.None? && messages == old(messages) && input == old(input) && turns == old(turns) &&
        loading == old(loading) && stage == old(stage)
      ensures old(input) != [] && !old(loading) ==>
        messages == old(messages) + [Message(UserRole, old(input))] &&
        input == "" && turns == old(turns) + 1 && loading &&
        stage == AwaitingReply(messages, turns) &&
        sent == Some(Server.ChatRequest(Server.Turns(messages), personality, Some(old(input))))
      ensures manual == old(manual) && finished == old(finished)
    {
      if input == [] || loading {
        return None;
      }
      var newTurns := turns + 1;
      var newHistory := messages + [Message(UserRole, input)];
      UserCountAppend(messages, Message(UserRole, input));
      sent := Some(Server.ChatRequest(Server.Turns(newHistory), personality, Some(input)));
      messages := newHistory;
      input := "";
      turns := newTurns;
      loading := true;
      stage := AwaitingReply(newHistory, newTurns);
    }

    /** The chat reply arrived: the assistant turn `data.reply || ""` is
        appended to the captured history. From the tenth turn on the
        prescription is requested automatically and `loading` stays set
        until it completes; otherwise the send is over. */
    method ChatReplyArrived(reply: Option<string>) returns (auto: Option<Server.PrescriptionRequest>)
      requires Valid() && stage.AwaitingReply?
      modifies this
      ensures Valid()
      ensures messages == old(stage.history) + [Message(AssistantRole, OrElse(reply, ""))]
      ensures turns == old(turns) && input == old(input)
      ensures old(turns) >= MaxTurns ==>
        loading && stage == AwaitingAutoPrescription(InFlight(messages, OrElse(reply, ""))) &&
        auto == Some(Server.PrescriptionRequest(personality, Server.Turns(messages)))
      ensures old(turns) < MaxTurns ==> !loading && stage == Idle && auto.None?
      ensures manual == old(manual) && finished == old(finished)
    {
      var full := stage.history + [Message(AssistantRole, OrElse(reply, ""))];
      UserCountAppend(stage.history, Message(AssistantRole, OrElse(reply, "")));
      messages := full;
      if stage.turns >= MaxTurns {
        stage := AwaitingAutoPrescription(InFlight(full, OrElse(reply, "")));
        issued := issued + 1;
        auto := Some(Server.PrescriptionRequest(personality, Server.Turns(full)));
      } else {
        stage := Idle;
        loading := false;
        auto := None;
      }
    }

    /** The chat request threw: only `loading` is cleared. The counted turn
        and the appended user message stay; nothing is rolled back. */
    method ChatFailed()
      requires Valid() && stage.AwaitingReply?
      modifies this
      ensures Valid()
      ensures messages == old(messages) && turns == old(turns) && input == old(input)
      ensures !loading && stage == Idle
      ensures manual == old(manual) && finished == old(finished)
    {
      stage := Idle;
      loading := false;
    }

    /** The automatic prescription completed, in success or failure:
        `onFinish` is called once and the send is over. */
    method AutoPrescriptionArrived(outcome: Outcome<Book>)
      requires Valid() && stage.AwaitingAutoPrescription?
      modifies this
      ensures Valid()
      ensures finished == old(finished) + [FinishFor(old(stage.request), personality, outcome)]
      ensures !loading && stage == Idle
      ensures messages == old(messages) && turns == old(turns) && input == old(input)
      ensures manual == old(manual)
    {
      finished := finished + [FinishFor(stage.request, personality, outcome)];
      stage := Idle;
      loading := false;
    }

    /** The manual button: a request with the current messages and an
        empty summary. It does not set `loading`, so the button stays. */
    method RequestPrescription() returns (request: Server.PrescriptionRequest)
      requires Valid() && ManualOfferShown()
      modifies this
      ensures Valid()
      ensures manual == old(manual) + [InFlight(messages, "")]
      ensures request == Server.PrescriptionRequest(personality, Server.Turns(messages))
      ensures messages == old(messages) && turns == old(turns) && input == old(input)
      ensures loading == old(loading) && stage == old(stage) && finished == old(finished)
    {
      manual := manual + [InFlight(messages, "")];
      issued := issued + 1;
      request := Server.PrescriptionRequest(personality, Server.Turns(messages));
    }

    /** The `k`-th manual request completed: it leaves the in-flight list
        and `onFinish` is called once for it. */
    method ManualPrescriptionArrived(k: nat, outcome: Outcome<Book>)
      requires Valid() && k < |manual|
      modifies this
      ensures Valid()
      ensures manual == old(manual)[..k] + old(manual)[k + 1..]
      ensures finished == old(finished) + [FinishFor(old(manual)[k], personality, outcome)]
      ensures messages == old(messages) && turns == old(turns) && input == old(input)
      ensures loading == old(loading) && stage == old(stage)
    {
      finished := finished + [FinishFor(manual[k], personality, outcome)];
      manual := manual[..k] + manual[k + 1..];
    }
  }

  /** In a consistent chat screen the manual offer shows exactly when no
      send is running, the history holds a user turn, and fewer than
      `MaxTurns` user turns were sent; from the tenth turn on the offer is
      gone for good, since turns are never taken back. */
  lemma OfferNeedsUserTurn(room: ChatRoom)
    requires room.Valid()
    ensures room.ManualOfferShown() <==>
      room.stage == Idle && room.turns < MaxTurns &&
      exists i :: 0 <= i < |room.messages| && room.messages[i].role == UserRole
  {
    UserCountPositive(room.messages);
  }
}
