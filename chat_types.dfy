/** The message shapes exchanged between the extension host and its webview. */
module ChatTypes {
  import opened Wrappers
  import opened JsonValues

  /** Command tags of the webview protocol, in declaration order. */
  datatype WebviewCommand =
    | SendMessage
    | ClearHistory
    | ChangeModel
    | StreamResponse
    | StartResponse
    | EndResponse
    | UpdateModel
    | UpdateTemperature
    | ClearMessages
    | ReceiveMessage

  /**
   * One message in either direction; absent optional members are `None`.
   * `model` holds a JSON value rather than a string because the stream
   * handler forwards whatever `model` member a control chunk carries.
   */
  datatype WebviewMessage = WebviewMessage(
    command: WebviewCommand,
    text: Option<string>,
    model: Option<Json>,
    temperature: Option<real>,
    isUser: Option<bool>)

  datatype Role = User | Assistant

  /** One turn of the conversation. */
  datatype ChatMessage = ChatMessage(role: Role, content: string)
}
