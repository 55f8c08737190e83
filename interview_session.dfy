/** The chat screen of one interview: loading the history, one question and
    answer turn per send, and the end-of-interview dialog. */
module Interview {
  import opened Js
  import opened Types

  const LoadFailed: string := "Ошибка загрузки сообщений"
  const SendFailed: string := "Ошибка отправки сообщения"
  const CompleteFailed: string := "Ошибка завершения интервью"

  /** Delay before `onComplete` after the last answer, and after an early finish. */
  const FinishedDelayMs: nat := 1000
  const EarlyCompleteDelayMs: nat := 500

  /** The requests the screen makes and the callbacks it calls or schedules, in order. */
  datatype Effect =
    | GetMessages(sessionId: string)
    | SendMessage(sessionId: string, content: string)
    | CompleteInterview(sessionId: string)
    | ScheduleOnComplete(delayMs: nat)
    | OnCancel

  class InterviewSession {
    const sessionId: string
    var messages: seq<Message>
    var input: string
    var isTyping: bool
    var error: Option<string>
    var progress: int
    var showEndDialog: bool
    var isCompleting: bool
    var log: seq<Effect>

    constructor (sessionId: string)
      ensures this.sessionId == sessionId
      ensures messages == [] && input == "" && !isTyping && error == None && progress == 0
      ensures !showEndDialog && !isCompleting && log == []
    {
      this.sessionId := sessionId;
      messages := [];
      input := "";
      isTyping := false;
      error := None;
      progress := 0;
      showEndDialog := false;
      isCompleting := false;
      log := [];
    }

    /** Sending is possible (and the send button enabled) when the input holds
        more than white space and no answer is awaited. */
    predicate CanSend(): (r: bool)
      reads this
      ensures r <==> (exists i :: 0 <= i < |input| && !IsWhiteSpace(input[i])) && !isTyping
    {
      TrimProperties(input);
      !IsBlank(input) && !isTyping
    }

    /** `loadMessages()`: the history replaces the messages; a failure only sets the error. */
    method LoadMessages(reply: Reply<MessagesResponse>)
      modifies this
      ensures log == old(log) + [GetMessages(sessionId)]
      ensures reply.Ok? ==> messages == reply.value.messages && error == old(error)
      ensures reply.Fail? ==> messages == old(messages) && error == Some(ErrorText(reply.thrown, LoadFailed))
      ensures input == old(input) && isTyping == old(isTyping) && progress == old(progress)
      ensures showEndDialog == old(showEndDialog) && isCompleting == old(isCompleting)
    {
      log := log + [GetMessages(sessionId)];
      match reply {
        case Ok(response) => messages := response.messages;
        case Fail(t) => error := Some(ErrorText(t, LoadFailed));
      }
    }

    /** `onChange` of the text area. */
    method SetInput(text: string)
      modifies this
      ensures input == text
      ensures messages == old(messages) && isTyping == old(isTyping) && error == old(error)
      ensures progress == old(progress) && log == old(log)
      ensures showEndDialog == old(showEndDialog) && isCompleting == old(isCompleting)
    {
      input := text;
    }

    /** The synchronous part of `handleSendMessage()`, up to the request: with
        a blank input or an answer still awaited nothing happens; otherwise the
        trimmed input is posted, the input cleared, the error cleared and
        `isTyping` set. */
    method BeginSend() returns (sent: bool)
      modifies this
      ensures sent == old(CanSend())
      ensures !sent ==> input == old(input) && isTyping == old(isTyping) && error == old(error) && log == old(log)
      ensures sent ==> input == "" && isTyping && error == None
                       && log == old(log) + [SendMessage(sessionId, Trim(old(input)))]
      ensures sent ==> Trim(old(input)) != "" && !IsWhiteSpace(Trim(old(input))[0])
                       && !IsWhiteSpace(Trim(old(input))[|Trim(old(input))| - 1])
      ensures messages == old(messages) && progress == old(progress)
      ensures showEndDialog == old(showEndDialog) && isCompleting == old(isCompleting)
    {
      if IsBlank(input) || isTyping {
        return false;
      }
      var messageContent := Trim(input);
      TrimProperties(input);
      input := "";
      isTyping := true;
      error := None;
      log := log + [SendMessage(sessionId, messageContent)];
      sent := true;
    }

    /** The rest of `handleSendMessage()`, once the reply is in: on success
        the user's message and then the answer are appended, the progress
        taken over, and `onComplete` scheduled when it reached 100; on failure
        only the error is set. `isTyping` ends false either way. */
    method FinishSend(reply: Reply<SendMessageResponse>)
      requires isTyping
      modifies this
      ensures !isTyping
      ensures reply.Ok? ==>
        messages == old(messages) + [reply.value.userMessage, reply.value.aiResponse]
        && progress == reply.value.percentage && error == old(error)
        && log == old(log) + (if reply.value.percentage >= 100 then [ScheduleOnComplete(FinishedDelayMs)] else [])
      ensures reply.Fail? ==>
        messages == old(messages) && progress == old(progress) && log == old(log)
        && error == Some(ErrorText(reply.thrown, SendFailed))
      ensures input == old(input) && showEndDialog == old(showEndDialog) && isCompleting == old(isCompleting)
    {
      match reply {
        case Ok(response) =>
          messages := messages + [response.userMessage, response.aiResponse];
          progress := response.percentage;
          if response.percentage >= 100 {
            log := log + [ScheduleOnComplete(FinishedDelayMs)];
          }
        case Fail(t) =>
          error := Some(ErrorText(t, SendFailed));
      }
      isTyping := false;
    }

    /** `handleSendMessage()` when the reply arrives before anything else happens. */
    method HandleSendMessage(reply: Reply<SendMessageResponse>)
      modifies this
      ensures !old(CanSend()) ==>
        messages == old(messages) && input == old(input) && isTyping == old(isTyping)
        && error == old(error) && progress == old(progress) && log == old(log)
      ensures old(CanSend()) ==>
        input == "" && !isTyping
        && log == old(log) + [SendMessage(sessionId, Trim(old(input)))]
                  + (if reply.Ok? && reply.value.percentage >= 100 then [ScheduleOnComplete(FinishedDelayMs)] else [])
        && (reply.Ok? ==> messages == old(messages) + [reply.value.userMessage, reply.value.aiResponse]
                          && progress == reply.value.percentage && error == None)
        && (reply.Fail? ==> messages == old(messages) && progress == old(progress)
                            && error == Some(ErrorText(reply.thrown, SendFailed)))
      ensures showEndDialog == old(showEndDialog) && isCompleting == old(isCompleting)
    {
      var sent := BeginSend();
      if sent {
        FinishSend(reply);
      }
    }

    method OpenEndDialog()
      modifies this
      ensures showEndDialog
      ensures messages == old(messages) && input == old(input) && isTyping == old(isTyping)
      ensures error == old(error) && progress == old(progress) && log == old(log) && isCompleting == old(isCompleting)
    {
      showEndDialog := true;
    }

    method CloseEndDialog()
      modifies this
      ensures !showEndDialog
      ensures messages == old(messages) && input == old(input) && isTyping == old(isTyping)
      ensures error == old(error) && progress == old(progress) && log == old(log) && isCompleting == old(isCompleting)
    {
      showEndDialog := false;
    }

    /** `handleEarlyComplete()`: the dialog closes either way; success
        schedules `onComplete`, failure sets the error instead. */
    method EarlyComplete(reply: Reply<CompleteResponse>)
      modifies this
      ensures !showEndDialog && !isCompleting
      ensures reply.Ok? ==> error == None
                            && log == old(log) + [CompleteInterview(sessionId), ScheduleOnComplete(EarlyCompleteDelayMs)]
      ensures reply.Fail? ==> error == Some(ErrorText(reply.thrown, CompleteFailed))
                              && log == old(log) + [CompleteInterview(sessionId)]
      ensures messages == old(messages) && input == old(input) && isTyping == old(isTyping) && progress == old(progress)
    {
      isCompleting := true;
      error := None;
      log := log + [CompleteInterview(sessionId)];
      match reply {
        case Ok(_) =>
          showEndDialog := false;
          log := log + [ScheduleOnComplete(EarlyCompleteDelayMs)];
        case Fail(t) =>
          error := Some(ErrorText(t, CompleteFailed));
          showEndDialog := false;
      }
      isCompleting := false;
    }

    /** `handleReturnLater()`: close the dialog and leave, with no request. */
    method ReturnLater()
      modifies this
      ensures !showEndDialog && log == old(log) + [OnCancel]
      ensures messages == old(messages) && input == old(input) && isTyping == old(isTyping)
      ensures error == old(error) && progress == old(progress) && isCompleting == old(isCompleting)
    {
      showEndDialog := false;
      log := log + [OnCancel];
    }
  }
}
