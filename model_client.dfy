/**
 * The chat-completion backend, seen from the core: a function from a request to the
 * reply text or a failure. The client wrapper, the network and the SDK are behind it.
 */
module ModelClient {
  import opened Errors
  import opened Messages

  /** What is passed as `messages=`: normally a list, but a caller can pass a lone message. */
  datatype MessagesArg = MessageList(list: seq<Message>) | LoneMessage(message: Message)

  /** What is passed as `response_format=`: nothing, `{"type": "json_object"}`, or a stray message. */
  datatype FormatArg = NoFormat | JsonObjectFormat | MessageAsFormat(message: Message)

  datatype Request = Request(messages: MessagesArg, responseFormat: FormatArg)

  /**
   * What a call to the client can give: the reply text, or RuntimeError, into which the
   * client turns every failure of the request (openai_client.py:39-48).
   */
  type ClientResult = r: Result<string> | r.Ok? || r.error.RuntimeError? witness Ok("")

  /**
   * `generate_response(messages, response_format)`: the complete reply text, or the
   * RuntimeError the client raised. Deterministic in the request, which is all the core relies on.
   */
  type Model = Request -> ClientResult

  /**
   * A follow-up reply requested with streaming and drained to one string by the display,
   * as a function of the messages replayed to the model.
   */
  type ChatStream = seq<Message> -> Result<string>

  /**
   * `generate_response(messages=..., stream=True)` as the client is written: it declares no
   * `stream` parameter, so every such call raises TypeError before any request is made.
   */
  function StreamAsWritten(messages: seq<Message>): (r: Result<string>)
    ensures r.Err? && r.error.TypeError?
  {
    Err(TypeError("generate_response() got an unexpected keyword argument 'stream'"))
  }

  /** A streaming call that delivers the same complete reply as a plain call on the same messages. */
  function Streamed(model: Model): ChatStream
  {
    (messages: seq<Message>) => model(Request(MessageList(messages), NoFormat))
  }
}
