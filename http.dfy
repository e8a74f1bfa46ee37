/** The request and reply shapes shared by the site's serverless handlers and the chat widget. */
module Http {
  import opened Wrappers

  /** One conversation entry on the wire: `{role, content}`. */
  datatype ChatMessage = ChatMessage(role: string, content: string)

  /** The JSON bodies the handlers reply with. */
  datatype JsonBody =
    | ErrorBody(error: string)
    | SuccessBody            // {success: true}
    | TextBody(text: string)

  /** `res.status(status).json(body)`. */
  datatype Reply = Reply(status: int, body: JsonBody)

  const MethodNotAllowed: Reply := Reply(405, ErrorBody("Method not allowed"))

  /** What a `catch (error)` block received: an `Error` with its message, or some other thrown value. */
  datatype Thrown = ThrownError(message: string) | ThrownValue

  /** `error instanceof Error ? error.message : fallback`. */
  function CaughtMessage(thrown: Thrown, fallback: string): (m: string)
    ensures thrown.ThrownError? ==> m == thrown.message
    ensures thrown.ThrownValue? ==> m == fallback
  {
    match thrown
    case ThrownError(message) => message
    case ThrownValue => fallback
  }

  /** A `${field}` template slot: the value, or "undefined" for a missing field. */
  function Shown(field: Option<string>): string {
    field.GetOr("undefined")
  }

  /**
   * A string-valued request field or environment variable is truthy when it is
   * present and not empty (`undefined`, `null` and `""` are all falsy).
   */
  predicate Truthy(field: Option<string>) {
    field.Some? && field.value != ""
  }
}
