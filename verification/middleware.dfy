/**
 * The authentication middleware of pkg/web/middleware.go. The authenticator becomes a
 * function from requests to its three results; serving a request yields the effects the
 * wrapped handler has on the response: a 401 status, or a call of the next handler.
 */
module WebMiddleware {
  import opened Wrappers
  import Web

  /** What an authenticator establishes about the caller. */
  datatype AuthResult = AuthResult(appId: string, deviceId: string, userId: Option<string>)

  /**
   * A request: `id` stands for every field other than the context (method, URL, headers,
   * body), and `contextValues` for the values stored in its context, oldest first.
   */
  datatype Request = Request(id: nat, contextValues: seq<Option<AuthResult>>)

  /** The results of `Authenticate`: the auth result, whether it is required, and an error. */
  datatype Authentication = Authentication(result: Option<AuthResult>, need: bool, err: Option<string>)

  /** One thing the middleware does to a request. */
  datatype Effect = WriteHeader(status: int) | ServeNext(handler: Web.Handler, request: Request)

  /** `http.StatusUnauthorized`. */
  const StatusUnauthorized := 401

  /**
   * `injectDataToRequest`: `r.WithContext` makes a shallow copy of the request, so the
   * result has the same fields as `r` and a context that holds `data` after what `r`'s held.
   */
  function InjectDataToRequest(r: Request, data: Option<AuthResult>): (r': Request)
    ensures r'.id == r.id
    ensures |r'.contextValues| == |r.contextValues| + 1
    ensures r'.contextValues[..|r.contextValues|] == r.contextValues
    ensures r'.contextValues[|r.contextValues|] == data
  {
    r.(contextValues := r.contextValues + [data])
  }

  /**
   * The handler `AuthenticateMiddleware(a)` wraps around `next`, serving `request`. A
   * failed authentication is answered with 401 only when it is needed; otherwise the next
   * handler runs with the auth result, nil or not, attached to the request.
   */
  function Authenticate(a: Request -> Authentication, next: Web.Handler, request: Request): (effects: seq<Effect>)
    ensures |effects| == 1
    ensures effects[0].WriteHeader? <==> a(request).err.Some? && a(request).need
    ensures effects[0].WriteHeader? ==> effects[0].status == StatusUnauthorized
    ensures effects[0].ServeNext? ==>
              effects[0] == ServeNext(next, InjectDataToRequest(request, a(request).result))
  {
    var auth := a(request);
    if auth.err.Some? && auth.need then
      [WriteHeader(StatusUnauthorized)]
    else
      [ServeNext(next, InjectDataToRequest(request, auth.result))]
  }
}
