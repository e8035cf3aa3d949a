/** The result screen: the normal book with its defaults, and the lazily
    fetched, cached "shadow" book for the inverted personality code. */
module BookResultScreen {
  import opened Common
  import Mbti
  import Gemini
  import Server
  import ChatRoomScreen

  /** The client's own defaults for missing book fields. */
  const DefaultTitle := "世界の終りとハードボイルド・ワンダーランド"
  const DefaultAuthor := "村上春樹"
  const DefaultLine := "現実と非現実のあいだで、そっと頭を冷やしたい夜に。"
  const DefaultReason := "あなたの言葉の温度や揺らぎから、静かに思考を整理できる物語が必要だと感じました。村上春樹の独特な世界観は、論理と感情の狭間で揺れるあなたの心に、穏やかな着地点を与えてくれるはずです。"

  /** The book fields of `data`, all missing when `data` is null or its
      prescription failed. */
  function DataBook(data: Option<ChatRoomScreen.FinishRecord>): Book {
    if data.Some? && data.value.book.Some? then data.value.book.value
    else Book(None, None, None, None, None)
  }

  /** `normalBook`: each text field `data?.x || default`, the image URL
      `data?.imageUrl || null`. */
  function NormalBook(data: Option<ChatRoomScreen.FinishRecord>): (b: Book)
    ensures b.book.Some? && b.author.Some? && b.line.Some? && b.reason.Some?
    ensures var d := DataBook(data);
      b.book.value == (if Truthy(d.book) then d.book.value else DefaultTitle) &&
      b.author.value == (if Truthy(d.author) then d.author.value else DefaultAuthor) &&
      b.line.value == (if Truthy(d.line) then d.line.value else DefaultLine) &&
      b.reason.value == (if Truthy(d.reason) then d.reason.value else DefaultReason) &&
      (b.imageUrl.Some? <==> Truthy(d.imageUrl)) &&
      (b.imageUrl.Some? ==> b.imageUrl == d.imageUrl)
  {
    var d := DataBook(data);
    Book(Some(OrElse(d.book, DefaultTitle)), Some(OrElse(d.author, DefaultAuthor)),
         Some(OrElse(d.line, DefaultLine)), Some(OrElse(d.reason, DefaultReason)),
         if Truthy(d.imageUrl) then d.imageUrl else None)
  }

  /** The client defaults are the server's fallback book: with no data, or
      with the server's fallback itself, the normal book is that fallback. */
  lemma DefaultsAgreeWithServer(r: ChatRoomScreen.FinishRecord)
    ensures NormalBook(None) == Gemini.FallbackBook
    ensures NormalBook(Some(r.(book := Some(Gemini.FallbackBook)))) == Gemini.FallbackBook
    ensures NormalBook(Some(r.(book := None))) == Gemini.FallbackBook
  {
  }

  /** The shadow request: the inverted personality code and the same
      history (`[]` when there is no data). */
  function ShadowRequest(data: Option<ChatRoomScreen.FinishRecord>): (req: Server.PrescriptionRequest)
    ensures req.personality == Mbti.InvertMBTI(if data.Some? then data.value.personality else None)
    ensures req.history == Server.Turns(if data.Some? then data.value.history else [])
  {
    var personality := if data.Some? then data.value.personality else None;
    Server.PrescriptionRequest(Mbti.InvertMBTI(personality), Server.Turns(if data.Some? then data.value.history else []))
  }

  /** For a personality code, the shadow request asks for another code,
      whose own inversion is the original personality. */
  lemma ShadowOfCode(data: Option<ChatRoomScreen.FinishRecord>)
    requires data.Some? && data.value.personality.Some? && Mbti.IsCode(data.value.personality.value)
    ensures var p := ShadowRequest(data).personality;
      p.Some? && Mbti.IsCode(p.value) && Mbti.InvertMBTI(p) == data.value.personality
  {
    Mbti.InvertCodeOfCode(data.value.personality.value);
    Mbti.InvertMBTIInvolution(data.value.personality);
  }

  class BookResult {
    const data: Option<ChatRoomScreen.FinishRecord>
    var shadow: bool
    var shadowBook: Option<Book>
    var loadingShadow: bool
    var imageError: bool
    /** Shadow requests issued so far, and how many of them succeeded. */
    ghost var requests: nat
    ghost var stored: nat

    /** A request is in flight only while the normal book shows and nothing
        is cached; at most one response is ever stored, and it stays. */
    ghost predicate Valid()
      reads this
    {
      (loadingShadow ==> !shadow && shadowBook.None?) &&
      stored == (if shadowBook.Some? then 1 else 0) &&
      stored + (if loadingShadow then 1 else 0) <= requests
    }

    constructor(data: Option<ChatRoomScreen.FinishRecord>)
      ensures Valid() && this.data == data
      ensures !shadow && shadowBook.None? && !loadingShadow && !imageError
    {
      this.data := data;
      shadow := false;
      shadowBook := None;
      loadingShadow := false;
      imageError := false;
      requests := 0;
      stored := 0;
    }

    /** `displayBook`: the cached shadow book while in shadow mode, the
        normal book otherwise. */
    function DisplayBook(): (b: Book)
      reads this
      ensures shadow && shadowBook.Some? ==> b == shadowBook.value
      ensures !(shadow && shadowBook.Some?) ==> b == NormalBook(data)
    {
      if shadow && shadowBook.Some? then shadowBook.value else NormalBook(data)
    }

    /** A click on the toggle (disabled while loading). With the normal book
        showing and nothing cached, the shadow request is issued and the
        flip waits for its outcome; otherwise the mode flips at once. */
    method ToggleShadow() returns (request: Option<Server.PrescriptionRequest>)
      requires Valid() && !loadingShadow
      modifies this
      ensures Valid()
      ensures old(!shadow && shadowBook.None?) ==>
        request == Some(ShadowRequest(data)) && loadingShadow &&
        shadow == old(shadow) && shadowBook == old(shadowBook) && requests == old(requests) + 1
      ensures old(shadow || shadowBook.Some?) ==>
        request.None? && !loadingShadow && shadow == !old(shadow) && !imageError &&
        shadowBook == old(shadowBook) && requests == old(requests)
    {
      if !shadow && shadowBook.None? {
        loadingShadow := true;
        requests := requests + 1;
        request := Some(ShadowRequest(data));
      } else {
        shadow := !shadow;
        imageError := false;
        request := None;
      }
    }

    /** The shadow request completed: a response (whatever its body, an
        error object included) is cached, a thrown fetch caches nothing;
        either way loading ends and the mode flips to shadow. */
    method ShadowArrived(outcome: Outcome<Book>)
      requires Valid() && loadingShadow
      modifies this
      ensures Valid()
      ensures outcome.Returned? ==> shadowBook == Some(outcome.value)
      ensures outcome.Threw? ==> shadowBook.None?
      ensures !loadingShadow && shadow && !imageError && requests == old(requests)
    {
      if outcome.Returned? {
        shadowBook := Some(outcome.value);
        stored := 1;
      }
      loadingShadow := false;
      shadow := true;
      imageError := false;
    }
  }
}
