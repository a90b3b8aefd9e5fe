/** Optional values (a nullable column, an absent joined row), the success-or-error
    results that the application's async handlers produce, and the two `||` defaults the
    handlers apply to strings. */
module Wrappers {

  datatype Option<+T> = None | Some(value: T) {
    function GetOr(default: T): T {
      match this
      case Some(v) => v
      case None => default
    }
  }

  datatype Result<+R, +E> = Success(value: R) | Failure(error: E)

  /** `s || null`: the empty string, which reads as false, is stored as null. */
  function OrNull(s: string): (r: Option<string>)
    ensures r.None? <==> s == ""
    ensures r.Some? ==> r.value == s
  {
    if s == "" then None else Some(s)
  }

  /** `error.message || fallback`: the error's own message, or the handler's fixed text when
      the message is empty. */
  function MessageOr(message: string, fallback: string): (m: string)
    requires fallback != ""
    ensures m != ""
    ensures message != "" ==> m == message
    ensures m == message || m == fallback
  {
    if message == "" then fallback else message
  }
}
