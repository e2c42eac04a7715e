/**
 * Exceptions as values: what a Python call raises (an HTTPException or any other exception,
 * known by its class name and its `str`), and `raiser_routing_exception`.
 */
module Exceptions {

  /** A non-HTTP exception: `type(e).__name__` and `str(e)`. */
  datatype PyException = PyException(className: string, message: string)

  /** The `detail` of an HTTPException, in the three shapes the service builds. */
  datatype Detail =
    | Text(text: string)
    | RequestError(statusCode: int, message: string, requestId: string)
    | RoutingError(statusCode: int, status: string, reason: string, message: string)

  datatype HttpException = HttpException(statusCode: int, detail: Detail)

  datatype Raised = Http(http: HttpException) | Error(error: PyException)

  /** What a call does: return a value or raise. */
  datatype Outcome<+T> = Returned(value: T) | Raising(raised: Raised)

  /**
   * `raiser_routing_exception(e, code=400)`: never returns; it raises an HTTPException with the
   * given status whose detail reports the status, "error", the exception's class name and message.
   */
  function RaiserRoutingException<T>(e: PyException, code: int := 400): (r: Outcome<T>)
    ensures !r.Returned?
    ensures r.raised.Http? && r.raised.http.statusCode == code
    ensures r.raised.http.detail.RoutingError?
    ensures r.raised.http.detail.statusCode == r.raised.http.statusCode
    ensures r.raised.http.detail.status == "error"
    ensures r.raised.http.detail.reason == e.className && r.raised.http.detail.message == e.message
  {
    Raising(Http(HttpException(code, RoutingError(code, "error", e.className, e.message))))
  }

  /** Without an explicit code the raised status is 400. */
  lemma RaiserDefaultIs400(e: PyException)
    ensures RaiserRoutingException<()>(e).raised.http.statusCode == 400
  {
  }
}
