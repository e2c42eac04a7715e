/**
 * `header_controller`, the shared-header gate in front of every route. The deployment setting
 * MODE is an input; `settings.mode` is true exactly when MODE is 0.
 */
module CrossSec {
  import opened Wrappers
  import opened Exceptions

  /** `settings.mode`. */
  function Mode(MODE: int): bool
  {
    MODE == 0
  }

  /**
   * None when the request may proceed, otherwise the HTTPException raised. `header` is the value
   * of the x-access-token header, if present; `expected` is X_ACCESS_TOKEN.
   */
  function HeaderController(MODE: int, header: Option<string>, expected: string): (r: Option<HttpException>)
    ensures r.None? <==> Mode(MODE) || header == Some(expected)
    ensures r.Some? ==> r.value.statusCode == 401
    ensures r.Some? && header.None? ==> r.value.detail == Text("Missing x-access-token header")
    ensures r.Some? && header.Some? ==> r.value.detail == Text("Wrong x-access-token header")
  {
    if Mode(MODE) then None
    else if header.None? then Some(HttpException(401, Text("Missing x-access-token header")))
    else if header.value != expected then Some(HttpException(401, Text("Wrong x-access-token header")))
    else None
  }
}
