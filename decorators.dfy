/**
 * `router_decorator`: runs a handler body and turns every exception that is not already an
 * HTTPException into one, with a status looked up by the exception's class name.
 * Timing and logging are not modelled; the request id (a uuid4) is a parameter.
 */
module Decorators {
  import opened Exceptions

  /** STATUS_MAP, keyed by exact class name (the not-found key is spelled "NotFountError"). */
  const StatusMap: map<string, int> := map[
    "AlreadyExistsError" := 409,
    "WrongArgumentsError" := 400,
    "NotFountError" := 404,
    "InvalidTokenError" := 498,
    "AccessDenied" := 403,
    "NotAuthorized" := 401
  ]

  /** `STATUS_MAP.get(name)`, with 500 for any name that is not a key. */
  function StatusFor(className: string): (status: int)
    ensures className in StatusMap ==> status == StatusMap[className]
    ensures className !in StatusMap ==> status == 500
  {
    if className in StatusMap then StatusMap[className] else 500
  }

  /** The six mapped names and their statuses; everything else, "NotFoundError" included, is 500. */
  lemma StatusTable(className: string)
    ensures StatusFor("AlreadyExistsError") == 409 && StatusFor("WrongArgumentsError") == 400
    ensures StatusFor("NotFountError") == 404 && StatusFor("InvalidTokenError") == 498
    ensures StatusFor("AccessDenied") == 403 && StatusFor("NotAuthorized") == 401
    ensures StatusFor("NotFoundError") == 500
    ensures StatusFor(className) != 500 <==>
      className in {"AlreadyExistsError", "WrongArgumentsError", "NotFountError",
                    "InvalidTokenError", "AccessDenied", "NotAuthorized"}
  {
  }

  /** The HTTPException the wrapper raises in place of a non-HTTP exception `e`. */
  function Wrapped(e: PyException, requestId: string): (h: HttpException)
    ensures h.statusCode == StatusFor(e.className)
    ensures h.detail == RequestError(h.statusCode, e.message, requestId)
  {
    var status := StatusFor(e.className);
    HttpException(status, RequestError(status, e.message, requestId))
  }

  /**
   * The decorated handler: a returned value and a raised HTTPException pass through unchanged;
   * any other exception becomes the HTTPException `Wrapped(e, requestId)`. Nothing but an
   * HTTPException ever escapes.
   */
  function RouterDecorator<T>(inner: Outcome<T>, requestId: string): (r: Outcome<T>)
    ensures inner.Returned? ==> r == inner
    ensures inner.Raising? && inner.raised.Http? ==> r == inner
    ensures inner.Raising? && inner.raised.Error? ==>
      r == Raising(Http(Wrapped(inner.raised.error, requestId)))
    ensures r.Raising? ==> r.raised.Http?
  {
    match inner
    case Returned(_) => inner
    case Raising(Http(_)) => inner
    case Raising(Error(e)) => Raising(Http(Wrapped(e, requestId)))
  }

  /** An exception raised by `raiser_routing_exception` inside a handler reaches the client unchanged. */
  lemma RoutingExceptionPassesThrough(e: PyException, code: int, requestId: string)
    ensures RouterDecorator(RaiserRoutingException<()>(e, code), requestId)
         == RaiserRoutingException<()>(e, code)
  {
  }
}
