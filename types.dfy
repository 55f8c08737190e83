/** The records the screens exchange with the backend, with the fields the
    code actually reads at each use site (which differ in places from the
    declared interfaces; see the README). */
module Types {
  import opened Js

  /** A user profile. Optional fields are None when absent or null. */
  datatype User = User(
    id: string,
    username: string,
    email: string,
    firstName: Option<string>,
    lastName: Option<string>,
    phone: Option<string>,
    createdAt: string,
    updatedAt: string)

  /** An interview session. The status is kept as a plain string: one screen
      compares it with lower-case values and another with upper-case ones. */
  datatype Session = Session(
    id: string,
    status: string,
    percentage: int,
    resumeMarkdown: Option<string>)

  datatype Message = Message(id: string, sessionId: string, role: string, content: string, createdAt: string)

  /** A generated résumé; an absent `sessionId` is the empty string. */
  datatype Resume = Resume(id: string, sessionId: string, template: string)

  /** A list response. `items` is the field the backend sends; `data` is the
      field two screens read instead. */
  datatype Page<T> = Page(
    items: Option<seq<T>>,
    data: Option<seq<T>>,
    total: Option<int>,
    hasMore: Option<bool>)

  /** Reply to posting a message: `user_message`, `ai_response` and the progress. */
  datatype SendMessageResponse = SendMessageResponse(userMessage: Message, aiResponse: Message, percentage: int)

  datatype MessagesResponse = MessagesResponse(messages: seq<Message>)

  datatype MarkdownFile = MarkdownFile(content: string, filename: string)

  /** Reply to completing an interview; `resume_markdown` may be missing. */
  datatype CompleteResponse = CompleteResponse(resumeMarkdown: Option<MarkdownFile>)
}
