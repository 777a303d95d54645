/** Values shared by the services and components: optional values and
    results, the JSON values the agent may answer with, what a `fetch` call
    can come back with, and the errors the services throw together with the
    exact messages they carry. */
module Common {
  import opened Text

  datatype Option<+T> = None | Some(value: T)

  datatype Result<+T, +E> = Success(value: T) | Failure(error: E)

  /** A JavaScript `string | undefined | null` that is truthy: present and not "". */
  predicate Present(o: Option<string>) {
    o.Some? && o.value != ""
  }

  /** A JSON value as `JSON.parse` produces it. Numbers are modelled as integers. */
  datatype Json =
    | JNull
    | JBool(b: bool)
    | JNum(n: int)
    | JStr(s: string)
    | JArr(items: seq<Json>)
    | JObj(fields: map<string, Json>)

  /** JavaScript truthiness of a JSON value. */
  predicate Truthy(v: Json) {
    match v
    case JNull => false
    case JBool(b) => b
    case JNum(n) => n != 0
    case JStr(s) => s != ""
    case _ => true
  }

  /** A thrown JavaScript value: a `TypeError`, another `Error`, or
      something that is not an `Error` at all. */
  datatype Thrown = TypeError(message: string) | OtherError(message: string) | NotAnError

  /** How a `fetch` call settles: it rejects with a thrown value, or a
      response arrives whose body `response.json()` either parses or
      throws on. */
  datatype HttpOutcome<+T> =
    | Rejected(thrown: Thrown)
    | Received(status: nat, statusText: string, body: Result<T, Thrown>)

  /** `response.ok`. */
  predicate IsOk(status: nat) {
    200 <= status <= 299
  }

  /** The three remote calls: the OAuth token exchange, the agent's execute
      endpoint and its status endpoint. */
  datatype Endpoint = TokenExchange | Execute | Status

  datatype ConfigItem = BearerToken | AccountOrAgentId

  /** Every error the services throw. */
  datatype Error =
    | NotConfigured(item: ConfigItem)
    | HttpFailed(op: Endpoint, status: nat, statusText: string)
    | NetworkError(op: Endpoint)
    | Rethrown(thrown: Thrown)
    | InvalidState
    | NoAnswer
    | ExecutionFailed
    | Timeout

  const FAILED_TO_FETCH := "Failed to fetch"

  /** The `catch` block shared by the three remote calls: the browser's
      "Failed to fetch" TypeError becomes a network error, anything else is
      rethrown unchanged. */
  function Caught(op: Endpoint, t: Thrown): (e: Error)
    ensures e.NetworkError? <==> t == TypeError(FAILED_TO_FETCH)
    ensures !e.NetworkError? ==> e == Rethrown(t)
    ensures e.NetworkError? ==> e.op == op
  {
    if t == TypeError(FAILED_TO_FETCH) then NetworkError(op) else Rethrown(t)
  }

  /** The `try` block shared by the three remote calls: a non-ok status
      throws an error naming it, which the `catch` rethrows unchanged (it is
      not a TypeError); a rejection of `fetch` or of `response.json()` goes
      through `Caught`. */
  function Exchange<T>(op: Endpoint, reply: HttpOutcome<T>): (r: Result<T, Error>)
    ensures r.Success? <==> reply.Received? && IsOk(reply.status) && reply.body.Success?
    ensures r.Success? ==> r.value == reply.body.value
    ensures reply.Received? && !IsOk(reply.status) ==>
              r == Failure(HttpFailed(op, reply.status, reply.statusText))
    ensures reply.Rejected? ==> r == Failure(Caught(op, reply.thrown))
    ensures reply.Received? && IsOk(reply.status) && reply.body.Failure? ==>
              r == Failure(Caught(op, reply.body.error))
    ensures r.Failure? && r.error.NetworkError? ==> r.error.op == op
    ensures r.Failure? && r.error.Rethrown? ==> r.error.thrown != TypeError(FAILED_TO_FETCH)
  {
    match reply
    case Rejected(t) => Failure(Caught(op, t))
    case Received(status, statusText, body) =>
      if !IsOk(status) then Failure(HttpFailed(op, status, statusText))
      else
        match body
        case Success(v) => Success(v)
        case Failure(t) => Failure(Caught(op, t))
  }

  /** The text of the error a non-ok response raises, before its status. */
  function HttpFailurePrefix(op: Endpoint): string {
    match op
    case TokenExchange => "Failed to exchange authorization code for tokens: "
    case Execute => "Failed to execute agent: "
    case Status => "Failed to get execution status: "
  }

  /** The text of the network error each call raises. */
  function NetworkFailureText(op: Endpoint): string {
    match op
    case TokenExchange =>
      "Network error: Unable to connect to Zoho OAuth server. Please check your internet connection."
    case Execute =>
      "Network error: Unable to connect to the AI agent service. Please check your internet connection and try again."
    case Status =>
      "Network error: Unable to check AI agent status. Please try again."
  }

  /** `error.message` when the thrown value is an `Error`, `None` otherwise
      (the callers then fall back to a default text). */
  function Message(e: Error): (m: Option<string>)
    ensures m.None? <==> e == Rethrown(NotAnError)
  {
    match e
    case NotConfigured(item) =>
      Some(if item == BearerToken then "Bearer token not configured"
           else "Account ID or Agent ID not configured")
    case HttpFailed(op, status, text) => Some(HttpFailurePrefix(op) + NatToString(status) + " " + text)
    case NetworkError(op) => Some(NetworkFailureText(op))
    case Rethrown(t) => if t.NotAnError? then None else Some(t.message)
    case InvalidState => Some("Invalid OAuth state parameter - possible security issue")
    case NoAnswer => Some("No answer received from AI agent")
    case ExecutionFailed => Some("AI agent execution failed")
    case Timeout => Some("AI agent processing timeout - please try again")
  }

  /** `err instanceof Error ? err.message : fallback`. */
  function MessageOr(e: Error, fallback: string): (m: string)
    ensures Message(e).Some? ==> m == Message(e).value
    ensures Message(e).None? ==> m == fallback
  {
    match Message(e)
    case Some(msg) => msg
    case None => fallback
  }
}
