/** The stand-alone interview flow: a start screen, the interview, and the
    completion screen. */
module AppFlow {

  datatype AppState = Start | Interview | Complete

  /** The messages handed over when the interview completes. */
  datatype ChatMessage = ChatMessage(id: string, role: string, content: string, timestamp: int)

  /** The screens the component can render. */
  datatype Screen = StartScreen | InterviewScreen | CompletionScreen

  /** The screens rendered in a state: one per state, each state its own. */
  function Rendered(state: AppState): (r: seq<Screen>)
    ensures |r| == 1
    ensures (r[0] == StartScreen <==> state == Start) && (r[0] == InterviewScreen <==> state == Interview)
    ensures r[0] == CompletionScreen <==> state == Complete
  {
    (if state == Start then [StartScreen] else [])
    + (if state == Interview then [InterviewScreen] else [])
    + (if state == Complete then [CompletionScreen] else [])
  }

  class App {
    var appState: AppState
    var sessionData: seq<ChatMessage>

    constructor ()
      ensures appState == Start && sessionData == []
    {
      appState := Start;
      sessionData := [];
    }

    method HandleStartSession()
      modifies this
      ensures appState == Interview && sessionData == old(sessionData)
    {
      appState := Interview;
    }

    method HandleCompleteSession(messages: seq<ChatMessage>)
      modifies this
      ensures appState == Complete && sessionData == messages
    {
      sessionData := messages;
      appState := Complete;
    }

    /** `handleCancelSession()`: `confirmed` is the answer to the browser's
        confirmation prompt. */
    method HandleCancelSession(confirmed: bool)
      modifies this
      ensures confirmed ==> appState == Start && sessionData == []
      ensures !confirmed ==> appState == old(appState) && sessionData == old(sessionData)
    {
      if confirmed {
        appState := Start;
        sessionData := [];
      }
    }

    method HandleRestart()
      modifies this
      ensures appState == Start && sessionData == []
    {
      appState := Start;
      sessionData := [];
    }
  }
}
