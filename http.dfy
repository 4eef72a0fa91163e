/**
 * One HTTP GET as the tools see it, with the network replaced by its
 * outcome: either the request failed in transport, or a response arrived
 * with a status code, a text and a body that `.json()` decodes or rejects.
 */
module Http {
  import opened Wrappers
  import opened Json

  /** What `response.json()` gives: a decoded object, or the decoder's error text. */
  datatype Body = NotJson(error: string) | JsonObject(fields: map<string, Json>)

  /** The outcome of `client.get(url)`: an `httpx.RequestError`, or a response. */
  datatype Fetch = NetworkError(message: string) | Answered(status: nat, text: string, body: Body)

  /** `response.is_success`: `raise_for_status()` raises for every other status. */
  predicate IsSuccess(status: nat)
  {
    200 <= status <= 299
  }

  /** An exception that escapes a tool. */
  datatype Exception =
    | RequestError(message: string)
    | DecodeError(message: string)
    /** Whatever a lookup in the decoded body raised: `KeyError`, `IndexError`, `TypeError` or `AttributeError`. */
    | LookupFault(fault: Fault)

  /** Python's `str(e)`. */
  function ExceptionText(e: Exception): string
  {
    match e
    case RequestError(message) => message
    case DecodeError(message) => message
    case LookupFault(fault) => FaultText(fault)
  }

  /** `client.get(url)` followed by `.json()`, with no status check and no handler. */
  function UncheckedGet(f: Fetch): (r: Result<map<string, Json>, Exception>)
    ensures r.Ok? <==> f.Answered? && f.body.JsonObject?
    ensures r.Ok? ==> r.value == f.body.fields
    ensures f.NetworkError? ==> r == Err(RequestError(f.message))
    ensures f.Answered? && f.body.NotJson? ==> r == Err(DecodeError(f.body.error))
  {
    match f
    case NetworkError(message) => Err(RequestError(message))
    case Answered(_, _, NotJson(error)) => Err(DecodeError(error))
    case Answered(_, _, JsonObject(fields)) => Ok(fields)
  }

  /**
   * What the guarded copies make of one GET: the decoded object, or which of
   * the three handlers (`httpx.RequestError`, `httpx.HTTPStatusError`, any
   * other exception) caught the failure.
   */
  datatype Checked =
    | Data(fields: map<string, Json>)
    | NetworkFailed(message: string)
    | StatusFailed(status: nat, text: string)
    | OtherFailed(message: string)

  /** `client.get(url)`, `raise_for_status()` and `.json()` inside `try` with the three handlers. */
  function CheckedGet(f: Fetch): (r: Checked)
    ensures r.NetworkFailed? <==> f.NetworkError?
    ensures r.StatusFailed? <==> f.Answered? && !IsSuccess(f.status)
    ensures r.StatusFailed? ==> r.status == f.status && r.text == f.text
    ensures (f.NetworkError? || IsSuccess(f.status)) ==>
              (r.Data? <==> UncheckedGet(f).Ok?) && (r.Data? ==> r.fields == UncheckedGet(f).value)
    ensures r.OtherFailed? ==> UncheckedGet(f) == Err(DecodeError(r.message))
  {
    match f
    case NetworkError(message) => NetworkFailed(message)
    case Answered(status, text, body) =>
      if !IsSuccess(status) then StatusFailed(status, text)
      else
        match body
        case NotJson(error) => OtherFailed(error)
        case JsonObject(fields) => Data(fields)
  }

  /** A tool's outcome together with the URLs it requested, in order. */
  datatype Run<T> = Run(outcome: T, requests: seq<string>)

  /** How an unguarded tool ends: it returns a value or an exception escapes it. */
  datatype Reply<T> = Returned(value: T) | Raised(exception: Exception)
}
