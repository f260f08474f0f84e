/** Small value types shared by every page model: an optional value, and what an
    awaited call into the backend produced. */
module Wrappers {

  datatype Option<T> = None | Some(value: T) {
    function GetOr(default: T): T {
      match this
      case Some(v) => v
      case None => default
    }
  }

  /** The status and the `message` field of the JSON body that came with a
      rejected call ("" when the body has no message). */
  datatype ErrorResponse = ErrorResponse(status: int, serverMessage: string)

  /** A rejected axios promise: `response` is present when the server answered;
      `message` is the error object's own message ("" when it has none). */
  datatype CallError = CallError(response: Option<ErrorResponse>, message: string)

  /** How an awaited backend call ended. The network itself is not modelled:
      every page method that continues after an `await` takes one of these. */
  datatype Outcome<T> = Resolved(value: T) | Rejected(error: CallError)

  /** JavaScript's `a || b` on two strings: the first one unless it is empty. */
  function Or(a: string, b: string): (r: string)
    ensures r == a || r == b
    ensures r == "" <==> a == "" && b == ""
    ensures a != "" ==> r == a
  {
    if a != "" then a else b
  }

  /** `err.response?.data?.message` of a rejected call, "" when absent. */
  function ServerMessage(e: CallError): string {
    if e.response.Some? then e.response.value.serverMessage else ""
  }
}
