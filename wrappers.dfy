/** Optional values and the abstract outcome of one HTTP request, shared by every component. */
module Wrappers {

  /** A value that may be missing (JavaScript `undefined` or `null`). */
  datatype Option<+T> = None | Some(value: T)

  /** What an awaited request yields: the response body on success, or a failure that carries
      the HTTP status when a response arrived at all (a network error has none). */
  datatype Response<+T> = Ok(data: T) | Failed(status: Option<int>)

  /** JavaScript truthiness of an optional string: present and not empty. */
  predicate Present(s: Option<string>) {
    s.Some? && s.value != ""
  }

  /** `x || 0` for an optional number (a missing value and 0 both give 0). */
  function OrZero(x: Option<int>): (r: int)
    ensures x.Some? ==> r == x.value
    ensures x.None? ==> r == 0
  {
    if x.Some? then x.value else 0
  }
}
