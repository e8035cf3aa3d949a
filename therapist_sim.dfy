/** The scripted book therapist of the back end's chat simulation: a
    keyword scan of each message, three deep-dive questions, then a book
    chosen from the keywords seen. */
module TherapistSim {
  import opened Common
  import opened Alternation

  /** The alternatives of the keyword pattern, in pattern order. */
  const KeywordList: seq<string> := ["仕事", "人間関係", "眠", "孤独", "不安", "焦り", "疲れ"]

  const Questions: seq<string> := [
    "どんな場面でその気持ちになりますか？",
    "その感情はいつごろから続いていますか？",
    "その気持ちになると、具体的にどんな行動や考えが出ますか？"
  ]

  datatype SampleBook = SampleBook(book: string, author: string, line: string, reason: string)

  const SampleBooks: seq<SampleBook> := [
    SampleBook("深夜の図書館", "マット・ヘイグ", "もしも別の人生を試せたなら。",
      "選択や後悔に悩む人に寄り添う穏やかな物語です。あなたが人生の重さに押しつぶされそうなとき、別の視点を与え、心を軽くしてくれるでしょう。"),
    SampleBook("嫌われる勇気", "岸見一郎、古賀史健", "他人の期待に振り回されない生き方を学ぶ。",
      "対人関係の不安や自己肯定感の揺らぎに効く実践的な対話集です。行動の選択肢を増やし、今の関係性を見直すきっかけになります。"),
    SampleBook("ノルウェイの森", "村上春樹", "喪失と向き合う静かな物語。",
      "孤独や喪失感が強いときに寄り添う小説です。情緒の揺れを丁寧に扱う表現が、感情の整理に役立つでしょう。")
  ]

  /** `w` occurs somewhere in `s`. */
  predicate Contains(s: string, w: string) {
    exists i | 0 <= i <= |s| :: OccursAt(s, w, i)
  }

  /** One keyword against all seven: no other keyword starts with its first
      character, and none starts with a later character of it. */
  lemma WordUnambiguous(k: string)
    requires k in KeywordList
    ensures forall w {:trigger StartsAt(k, w, 0)} :: w in KeywordList && StartsAt(k, w, 0) ==> k == w
    ensures forall w, j {:trigger StartsAt(k, w, j)} :: w in KeywordList && 1 <= j < |k| ==> !StartsAt(k, w, j)
  {
  }

  /** The seven keywords start with seven different characters, and none
      has another's first character after its own start. */
  lemma KeywordListUnambiguous()
    ensures Unambiguous(KeywordList)
  {
    forall k, w | k in KeywordList && w in KeywordList && StartsAt(k, w, 0)
      ensures k == w
    {
      WordUnambiguous(k);
    }
    forall k, w, j | k in KeywordList && w in KeywordList && 1 <= j < |k|
      ensures !StartsAt(k, w, j)
    {
      WordUnambiguous(k);
    }
  }

  /** `s.match(/仕事|人間関係|眠|孤独|不安|焦り|疲れ/g) || []`. */
  function Keywords(s: string): (r: seq<string>)
    ensures forall w :: w in r ==> w in KeywordList
  {
    KeywordListUnambiguous();
    ScanFrom(KeywordList, s, 0)
  }

  /** The index in the message of each keyword `Keywords` returns. */
  function KeywordMatches(s: string): seq<nat> {
    KeywordListUnambiguous();
    MatchesFrom(KeywordList, s, 0)
  }

  /** The keywords come in order of occurrence, each as often as it is
      matched: the k-th keyword occurs at the k-th match position, each
      match ends before the next one starts, and every occurrence of a
      keyword in the message is one of the matches. */
  lemma KeywordsInOrder(s: string)
    ensures |KeywordMatches(s)| == |Keywords(s)|
    ensures forall k :: 0 <= k < |Keywords(s)| ==> OccursAt(s, Keywords(s)[k], KeywordMatches(s)[k])
    ensures forall j, k :: 0 <= j < k < |Keywords(s)| ==>
      KeywordMatches(s)[j] + |Keywords(s)[j]| <= KeywordMatches(s)[k]
    ensures forall w, i :: w in KeywordList && OccursAt(s, w, i) ==>
      exists k :: 0 <= k < |Keywords(s)| && KeywordMatches(s)[k] == i && Keywords(s)[k] == w
  {
    KeywordListUnambiguous();
    var ws := KeywordList;
    MatchesCount(ws, s, 0);
    forall k | 0 <= k < |Keywords(s)|
      ensures OccursAt(s, Keywords(s)[k], KeywordMatches(s)[k])
    {
      MatchesOccur(ws, s, 0, k);
    }
    forall j, k | 0 <= j < k < |Keywords(s)|
      ensures KeywordMatches(s)[j] + |Keywords(s)[j]| <= KeywordMatches(s)[k]
    {
      MatchesOrdered(ws, s, 0, j, k);
    }
    forall w, i | w in KeywordList && OccursAt(s, w, i)
      ensures exists k :: 0 <= k < |Keywords(s)| && KeywordMatches(s)[k] == i && Keywords(s)[k] == w
    {
      MatchesComplete(ws, s, 0, w, i);
      var k :| 0 <= k < |ScanFrom(ws, s, 0)| && k < |MatchesFrom(ws, s, 0)| &&
        MatchesFrom(ws, s, 0)[k] == i && ScanFrom(ws, s, 0)[k] == w;
      assert Keywords(s)[k] == w && KeywordMatches(s)[k] == i;
    }
  }

  /** A keyword that is found occurs in the message. */
  lemma KeywordsSound(s: string, w: string)
    requires w in Keywords(s)
    ensures Contains(s, w)
  {
    KeywordsInOrder(s);
    var k :| 0 <= k < |Keywords(s)| && Keywords(s)[k] == w;
    assert OccursAt(s, w, KeywordMatches(s)[k]);
  }

  /** Every keyword occurring in the message is found: the scan never skips
      over an occurrence, since no keyword starts inside another one. */
  lemma KeywordsComplete(s: string, w: string)
    requires w in KeywordList && Contains(s, w)
    ensures w in Keywords(s)
  {
    KeywordsInOrder(s);
    var i :| 0 <= i <= |s| && OccursAt(s, w, i);
    var k :| 0 <= k < |Keywords(s)| && KeywordMatches(s)[k] == i && Keywords(s)[k] == w;
  }

  /** `simpleEmpathy`: the first rule that applies, in source order. */
  function Empathy(message: string): string {
    if message == "" then "よく話してくれました。"
    else if Contains(message, "眠") || Contains(message, "寝") then "それはお辛いですね。"
    else if Contains(message, "仕事") then "仕事でお疲れなのですね。"
    else if Contains(message, "孤独") || Contains(message, "さみ") then "孤独を感じているのですね。"
    else "お話ありがとうございます。"
  }

  /** `chooseBook`: work first, then loneliness, otherwise the default. */
  function ChooseBook(notes: seq<string>): (b: SampleBook)
    ensures "仕事" in notes ==> b == SampleBooks[0]
    ensures "仕事" !in notes && "孤独" in notes ==> b == SampleBooks[2]
    ensures "仕事" !in notes && "孤独" !in notes ==> b == SampleBooks[1]
  {
    if "仕事" in notes then SampleBooks[0]
    else if "孤独" in notes then SampleBooks[2]
    else SampleBooks[1]
  }

  /** The recommendation reply. */
  function Recommendation(empathy: string, b: SampleBook): string {
    empathy + " 私が今おすすめしたい本は「" + b.book + "」（" + b.author + "）です。" + b.reason
  }

  /** The notes after a sequence of messages: their keywords in order. */
  function NotesAfter(messages: seq<string>): seq<string> {
    if messages == [] then []
    else NotesAfter(messages[..|messages| - 1]) + Keywords(messages[|messages| - 1])
  }

  /** The book recommended after some messages is the work book exactly
      when one of them mentions work, the novel of loneliness when none
      does but one mentions loneliness, and the default otherwise. */
  lemma {:induction false} ChooseBookFromMessages(messages: seq<string>)
    ensures ChooseBook(NotesAfter(messages)) == SampleBooks[0] <==>
      exists j :: 0 <= j < |messages| && Contains(messages[j], "仕事")
    ensures (forall j :: 0 <= j < |messages| ==> !Contains(messages[j], "仕事")) ==>
      (ChooseBook(NotesAfter(messages)) == SampleBooks[2] <==>
        exists j :: 0 <= j < |messages| && Contains(messages[j], "孤独"))
  {
    NotesMention(messages, "仕事");
    NotesMention(messages, "孤独");
  }

  /** A keyword is among the notes exactly when some message contains it. */
  lemma {:induction false} NotesMention(messages: seq<string>, w: string)
    requires w in KeywordList
    ensures w in NotesAfter(messages) <==> exists j :: 0 <= j < |messages| && Contains(messages[j], w)
  {
    if messages != [] {
      var init, last := messages[..|messages| - 1], messages[|messages| - 1];
      NotesMention(init, w);
      if Contains(last, w) {
        KeywordsComplete(last, w);
      }
      if w in Keywords(last) {
        KeywordsSound(last, w);
      }
      SomeMessageSplit(messages, init, w);
    }
  }

  /** Some message mentions `w` exactly when some earlier one or the last one does. */
  lemma SomeMessageSplit(messages: seq<string>, init: seq<string>, w: string)
    requires messages != [] && init == messages[..|messages| - 1]
    ensures (exists j :: 0 <= j < |messages| && Contains(messages[j], w)) <==>
      (exists j :: 0 <= j < |init| && Contains(init[j], w)) || Contains(messages[|messages| - 1], w)
  {
    assert forall j :: 0 <= j < |init| ==> init[j] == messages[j];
  }

  class SimulatedBookTherapist {
    const personalityType: string
    var deepCount: nat
    var notes: seq<string>
    var history: seq<Message>

    ghost predicate Valid()
      reads this
    {
      deepCount <= 3 && forall w :: w in notes ==> w in KeywordList
    }

    constructor(personalityType: string)
      ensures Valid() && this.personalityType == personalityType
      ensures deepCount == 0 && notes == [] && history == []
    {
      this.personalityType := personalityType;
      deepCount := 0;
      notes := [];
      history := [];
    }

    /** `record`: the user turn is logged and its keywords noted. */
    method Record(message: string)
      requires Valid()
      modifies this
      ensures Valid()
      ensures history == old(history) + [Message(UserRole, message)]
      ensures notes == old(notes) + Keywords(message)
      ensures deepCount == old(deepCount)
    {
      history := history + [Message(UserRole, message)];
      notes := notes + Keywords(message);
    }

    /** `nextResponse`: a non-empty message is recorded; the first three
        replies ask the three questions in order, every later one recommends
        the book chosen from all notes so far. */
    method NextResponse(message: string) returns (reply: string)
      requires Valid()
      modifies this
      ensures Valid()
      ensures message != "" ==>
        notes == old(notes) + Keywords(message) &&
        history == old(history) + [Message(UserRole, message), Message(AssistantRole, reply)]
      ensures message == "" ==>
        notes == old(notes) && history == old(history) + [Message(AssistantRole, reply)]
      ensures old(deepCount) < 3 ==>
        deepCount == old(deepCount) + 1 && reply == Empathy(message) + " " + Questions[old(deepCount)]
      ensures old(deepCount) == 3 ==>
        deepCount == 3 && reply == Recommendation(Empathy(message), ChooseBook(notes))
    {
      if message != "" {
        Record(message);
      }
      if deepCount < 3 {
        reply := Empathy(message) + " " + Questions[deepCount];
        deepCount := deepCount + 1;
      } else {
        reply := Recommendation(Empathy(message), ChooseBook(notes));
      }
      history := history + [Message(AssistantRole, reply)];
    }
  }

  /** The reply to the `k`-th of `messages` in a run from a fresh
      therapist: one of the three questions while they last, afterwards the
      book chosen from the keywords of every message up to this one. */
  function SimulatedReply(messages: seq<string>, k: nat): string
    requires k < |messages|
  {
    if k < 3 then Empathy(messages[k]) + " " + Questions[k]
    else Recommendation(Empathy(messages[k]), ChooseBook(NotesAfter(messages[..k + 1])))
  }

  /** One more message adds its keywords to the notes. */
  lemma NotesAfterStep(messages: seq<string>, i: nat)
    requires i < |messages|
    ensures NotesAfter(messages[..i + 1]) == NotesAfter(messages[..i]) + Keywords(messages[i])
  {
    assert messages[..i + 1][..i] == messages[..i];
  }

  /** Replies that are the simulated ones ask the questions first and
      then recommend. */
  lemma SimulatedRepliesShape(messages: seq<string>, replies: seq<string>)
    requires |replies| == |messages|
    requires forall k :: 0 <= k < |replies| ==> replies[k] == SimulatedReply(messages, k)
    ensures forall i :: 0 <= i < |replies| && i < 3 ==>
      replies[i] == Empathy(messages[i]) + " " + Questions[i]
    ensures forall i :: 3 <= i < |replies| ==>
      replies[i] == Recommendation(Empathy(messages[i]), ChooseBook(NotesAfter(messages[..i + 1])))
  {
  }

  /** One more simulated reply keeps the replies simulated. */
  lemma ExtendReplies(messages: seq<string>, replies: seq<string>, reply: string)
    requires |replies| < |messages|
    requires forall k :: 0 <= k < |replies| ==> replies[k] == SimulatedReply(messages, k)
    requires reply == SimulatedReply(messages, |replies|)
    ensures forall k :: 0 <= k <= |replies| ==> (replies + [reply])[k] == SimulatedReply(messages, k)
  {
  }

  /** `runSimulation` without its console output: one fresh therapist
      answers the messages in turn. The first three replies are the
      questions and every later one recommends the book the messages so
      far call for; an empty message adds no keywords. */
  method RunSimulation(personalityType: string, messages: seq<string>) returns (replies: seq<string>)
    ensures |replies| == |messages|
    ensures forall i :: 0 <= i < |replies| && i < 3 ==>
      replies[i] == Empathy(messages[i]) + " " + Questions[i]
    ensures forall i :: 3 <= i < |replies| ==>
      replies[i] == Recommendation(Empathy(messages[i]), ChooseBook(NotesAfter(messages[..i + 1])))
  {
    var bot := new SimulatedBookTherapist(personalityType);
    replies := [];
    var i := 0;
    while i < |messages|
      invariant 0 <= i <= |messages| && |replies| == i
      invariant bot.Valid() && bot.deepCount == if i < 3 then i else 3
      invariant bot.notes == NotesAfter(messages[..i])
      invariant forall k :: 0 <= k < i ==> replies[k] == SimulatedReply(messages, k)
    {
      NotesAfterStep(messages, i);
      var reply := bot.NextResponse(messages[i]);
      ExtendReplies(messages, replies, reply);
      replies := replies + [reply];
      i := i + 1;
    }
    SimulatedRepliesShape(messages, replies);
  }
}
