/**
 JSON-RPC 2.0 envelopes exchanged between the gateway and a client connection,
 as decoded values: the JSON text itself is not modelled.
 */
module Envelope {

  /** Opaque identifier of a session (a fresh UUID in the server). */
  type SessionId = string

  /** Name of a notification channel. */
  type Channel = string

  datatype Option<+T> = None | Some(value: T)

  /** The `id` member of a request or response: absent, JSON null, a string or a number. */
  datatype Id = Absent | Null | Text(text: string) | Number(n: int)

  /** `params.args.title` of a callTool request: missing or null, a string, or some other JSON value. */
  datatype Title = NoTitle | TitleText(text: string) | NonText

  /** The members of `params` that the handlers read (`tool`, `args.title`, `channel`). */
  datatype Params = Params(tool: Option<string>, title: Title, channel: Option<Channel>)

  /** A request object `{ id?, method, params? }`; `name` is its `method` member. */
  datatype Request = Request(id: Id, name: string, params: Params)

  /** One inbound message after JSON decoding: text that does not parse, or a request object. */
  datatype Incoming = Unparsable | Parsed(request: Request)

  /** The `result` member of a successful response. */
  datatype Outcome =
    | Hello(sessionId: SessionId)
    | Suggested(assignee: string)
    | TaskSnapshot
    | Subscribed(channel: Channel)
    | Unsubscribed(requested: Option<Channel>)

  /** An outbound envelope: a result, an error `{code, message}` (never both), or a notification. */
  datatype Envelope =
    | Success(id: Id, result: Outcome)
    | Failure(id: Id, code: int, message: string)
    | Notification(channel: Channel, payload: string)

  /** An envelope written to the connection of session `to`. */
  datatype Outgoing = Outgoing(to: SessionId, envelope: Envelope)

  // Error codes. The negative ones are those of section 5.1 of the JSON-RPC 2.0
  // specification; the positive ones are the gateway's own.
  const ParseError: int := -32700
  const MethodNotFound: int := -32601
  const ServerError: int := -32000
  const MissingParameter: int := 400
  const Unauthorized: int := 401
  const ToolNotFound: int := 404
  const SubscribeFailed: int := 500

  /** JavaScript truthiness of an optional string parameter: present and non-empty. */
  predicate Truthy(s: Option<string>)
  {
    s.Some? && s.value != ""
  }
}
