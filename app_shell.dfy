/** The top-level `App`: a `phase` string that selects the screen, and the
    callbacks by which the screens move it on. */
module AppShell {
  import opened Common
  import ChatRoomScreen

  datatype View = LandingView | DiagnosisView | ChatView | DetailView | ResultView

  /** The screen rendered for a phase: the four named phases have their own
      screen, and every other string renders the result screen. */
  function ViewOf(phase: string): (v: View)
    ensures v == LandingView <==> phase == "landing"
    ensures v == DiagnosisView <==> phase == "diagnosis"
    ensures v == ChatView <==> phase == "chat"
    ensures v == DetailView <==> phase == "detail"
  {
    if phase == "landing" then LandingView
    else if phase == "diagnosis" then DiagnosisView
    else if phase == "chat" then ChatView
    else if phase == "detail" then DetailView
    else ResultView
  }

  /** The result screen is the fallback view. */
  lemma ResultIsDefault(phase: string)
    ensures ViewOf(phase) == ResultView <==>
      phase !in {"landing", "diagnosis", "chat", "detail"}
    ensures ViewOf("result") == ResultView && ViewOf("") == ResultView
  {
  }

  class App {
    var phase: string
    var personality: string
    var result: Option<ChatRoomScreen.FinishRecord>
    var detailBook: Option<Book>

    constructor()
      ensures phase == "landing" && ViewOf(phase) == LandingView
      ensures personality == "" && result.None? && detailBook.None?
    {
      phase := "landing";
      personality := "";
      result := None;
      detailBook := None;
    }

    /** The landing button. */
    method Enter()
      requires ViewOf(phase) == LandingView
      modifies this
      ensures phase == "diagnosis"
      ensures personality == old(personality) && result == old(result) && detailBook == old(detailBook)
    {
      phase := "diagnosis";
    }

    /** The diagnosis's `onFinish`: the code is kept for the chat. */
    method DiagnosisFinished(code: string)
      requires ViewOf(phase) == DiagnosisView
      modifies this
      ensures phase == "chat" && personality == code
      ensures result == old(result) && detailBook == old(detailBook)
    {
      personality := code;
      phase := "chat";
    }

    /** The chat's `onFinish`. It is not tied to the chat being on screen:
        a prescription request still in flight when the chat was left calls
        it later, and that call, too, replaces the result and shows it. */
    method ChatFinished(data: ChatRoomScreen.FinishRecord)
      modifies this
      ensures phase == "result" && result == Some(data)
      ensures personality == old(personality) && detailBook == old(detailBook)
    {
      result := Some(data);
      phase := "result";
    }

    /** The result screen's detail link. */
    method DetailClicked(book: Book)
      requires ViewOf(phase) == ResultView
      modifies this
      ensures phase == "detail" && detailBook == Some(book)
      ensures personality == old(personality) && result == old(result)
    {
      detailBook := Some(book);
      phase := "detail";
    }

    /** The detail screen's back button: the result screen again, with the
        same result. */
    method Back()
      requires ViewOf(phase) == DetailView
      modifies this
      ensures phase == "result" && ViewOf(phase) == ResultView
      ensures personality == old(personality) && result == old(result) && detailBook == old(detailBook)
    {
      phase := "result";
    }
  }

  /** The whole happy path from a fresh app: landing, diagnosis, chat,
      result, detail and back, ending on the result screen with the chat's
      record. */
  method HappyPath(code: string, data: ChatRoomScreen.FinishRecord, book: Book) returns (app: App)
    ensures ViewOf(app.phase) == ResultView
    ensures app.personality == code && app.result == Some(data) && app.detailBook == Some(book)
  {
    app := new App();
    app.Enter();
    app.DiagnosisFinished(code);
    app.ChatFinished(data);
    app.DetailClicked(book);
    app.Back();
  }
}
