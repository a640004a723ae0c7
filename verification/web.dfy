/**
 * Route registration of pkg/web/server.go. The router is a map from (method, path) to the
 * handler and the call's middlewares, together with the middlewares the registration's
 * closure has already wrapped around its captured handler. A Route refers to its server;
 * that reference becomes the server's identity, and operations that change a server take
 * and return it as a value.
 */
module Web {
  import opened Wrappers

  /** An http.Handler, known by identity. */
  datatype Handler = Handler(id: nat)

  /** An xhttp.Middleware, known by identity. */
  datatype Middleware = Middleware(id: nat)

  /** The HTTP methods the helpers register under. */
  datatype HttpMethod = Get | Post | Put | Delete | Patch | Head | Options | Trace | Connect {
    /** The net/http constant (`http.MethodGet`, ...). */
    function Name(): string {
      match this
      case Get => "GET"
      case Post => "POST"
      case Put => "PUT"
      case Delete => "DELETE"
      case Patch => "PATCH"
      case Head => "HEAD"
      case Options => "OPTIONS"
      case Trace => "TRACE"
      case Connect => "CONNECT"
    }
  }

  /** Distinct helpers register under distinct method names. */
  lemma MethodNamesDistinct(m: HttpMethod, m': HttpMethod)
    ensures m.Name() == m'.Name() <==> m == m'
  {
  }

  /**
   * What the router holds for one (method, path): the handler given at registration, the
   * call's middlewares, and `layers`, the middlewares wrapped so far around the handler
   * variable the closure captured, outermost first.
   */
  datatype Registration = Registration(handler: Handler, middlewares: seq<Middleware>, layers: seq<Middleware>)

  datatype Server = Server(id: nat, middlewares: seq<Middleware>, routes: map<(string, string), Registration>)

  datatype Route = Route(server: nat, path: string, middlewares: seq<Middleware>)

  /** `New(middlewares...)`: a server with an empty router. */
  function New(id: nat, middlewares: seq<Middleware>): (s: Server)
    ensures s.id == id && s.middlewares == middlewares && s.routes == map[]
  {
    Server(id, middlewares, map[])
  }

  /**
   * The list the closure composes with its captured handler at each request on
   * (method, path): the server's middlewares, then those given at registration; none
   * when nothing is registered.
   */
  function Chain(s: Server, methodName: string, path: string): Option<seq<Middleware>> {
    if (methodName, path) in s.routes then Some(s.middlewares + s.routes[(methodName, path)].middlewares)
    else None
  }

  /**
   * `s'` is `s` with (method, path) registered to `h` and `middlewares`: the server's
   * identity and middlewares are kept, and every other registration is left as it was.
   */
  predicate Registers(s: Server, s': Server, methodName: string, path: string, h: Handler, middlewares: seq<Middleware>) {
    && s'.id == s.id && s'.middlewares == s.middlewares
    && (methodName, path) in s'.routes
    && s'.routes[(methodName, path)] == Registration(h, middlewares, [])
    && (forall k :: k in s.routes && k != (methodName, path) ==> k in s'.routes && s'.routes[k] == s.routes[k])
    && (forall k :: k in s'.routes ==> k in s.routes || k == (methodName, path))
  }

  /**
   * `Server.Handle`: registration only; the wrapping happens when a request arrives, and
   * the first request passes the server's middlewares, then the call's (see `Serve` for
   * the requests after it).
   */
  function ServerHandle(s: Server, methodName: string, path: string, h: Handler, middlewares: seq<Middleware>): (s': Server)
    ensures Registers(s, s', methodName, path, h, middlewares)
    ensures Chain(s', methodName, path) == Some(s.middlewares + middlewares)
    ensures Serve(s', methodName, path).Served? && Serve(s', methodName, path).handler == h
    ensures Serve(s', methodName, path).passes == s.middlewares + middlewares
  {
    s.(routes := s.routes[(methodName, path) := Registration(h, middlewares, [])])
  }

  /** `Server.Get`, `Server.Post`, ... `Server.Connect`: Handle under the helper's method. */
  function ServerMethod(s: Server, m: HttpMethod, path: string, h: Handler, middlewares: seq<Middleware>): (s': Server)
    ensures Registers(s, s', m.Name(), path, h, middlewares)
    ensures Chain(s', m.Name(), path) == Some(s.middlewares + middlewares)
  {
    ServerHandle(s, m.Name(), path, h, middlewares)
  }

  /**
   * `Server.Group`: a route on this server under `path`, whose middlewares are a fresh
   * list holding the server's middlewares followed by the given ones.
   */
  function ServerGroup(s: Server, path: string, middlewares: seq<Middleware>): (r: Route)
    ensures r.server == s.id && r.path == path
    ensures |r.middlewares| == |s.middlewares| + |middlewares|
    ensures forall i :: 0 <= i < |s.middlewares| ==> r.middlewares[i] == s.middlewares[i]
    ensures forall i :: 0 <= i < |middlewares| ==> r.middlewares[|s.middlewares| + i] == middlewares[i]
  {
    Route(s.id, path, s.middlewares + middlewares)
  }

  /**
   * `Route.Group`: a route on the same server whose path extends the parent's path and
   * whose middlewares are the parent's followed by the given ones.
   */
  function RouteGroup(r: Route, path: string, middlewares: seq<Middleware>): (r': Route)
    ensures r'.server == r.server
    ensures |r'.path| == |r.path| + |path| && r'.path[..|r.path|] == r.path && r'.path[|r.path|..] == path
    ensures |r'.middlewares| == |r.middlewares| + |middlewares|
    ensures r'.middlewares[..|r.middlewares|] == r.middlewares
    ensures r'.middlewares[|r.middlewares|..] == middlewares
  {
    Route(r.server, r.path + path, r.middlewares + middlewares)
  }

  /** The route reached by a chain of `Route.Group` calls, one per (path, middlewares) step. */
  function Nest(r: Route, steps: seq<(string, seq<Middleware>)>): Route
    decreases |steps|
  {
    if |steps| == 0 then r else Nest(RouteGroup(r, steps[0].0, steps[0].1), steps[1..])
  }

  /** The concatenation of the paths of the steps, in order. */
  function Paths(steps: seq<(string, seq<Middleware>)>): string
    decreases |steps|
  {
    if |steps| == 0 then "" else steps[0].0 + Paths(steps[1..])
  }

  /** The concatenation of the middleware lists of the steps, in order. */
  function Middlewares(steps: seq<(string, seq<Middleware>)>): seq<Middleware>
    decreases |steps|
  {
    if |steps| == 0 then [] else steps[0].1 + Middlewares(steps[1..])
  }

  /**
   * However deeply groups nest, a route stays on its server, its path is the prefixes
   * joined in order and its middlewares are the lists joined in order.
   */
  lemma {:induction false} NestedGroups(r: Route, steps: seq<(string, seq<Middleware>)>)
    ensures Nest(r, steps) == Route(r.server, r.path + Paths(steps), r.middlewares + Middlewares(steps))
    decreases |steps|
  {
    if |steps| > 0 {
      var r1 := RouteGroup(r, steps[0].0, steps[0].1);
      NestedGroups(r1, steps[1..]);
      assert r.path + steps[0].0 + Paths(steps[1..]) == r.path + (steps[0].0 + Paths(steps[1..]));
      assert r.middlewares + steps[0].1 + Middlewares(steps[1..])
          == r.middlewares + (steps[0].1 + Middlewares(steps[1..]));
    }
  }

  /**
   * `Route.Handle`: registers on the route's server under the path as given. Neither the
   * route's path nor its middlewares take part in the registration.
   */
  function RouteHandle(s: Server, r: Route, methodName: string, path: string, h: Handler, middlewares: seq<Middleware>): (s': Server)
    requires r.server == s.id
    ensures Registers(s, s', methodName, path, h, middlewares)
    ensures Chain(s', methodName, path) == Some(s.middlewares + middlewares)
  {
    ServerHandle(s, methodName, path, h, middlewares)
  }

  /** `Route.Get`, `Route.Post`, ... `Route.Connect`: the server's Handle, path unprefixed. */
  function RouteMethod(s: Server, r: Route, m: HttpMethod, path: string, h: Handler, middlewares: seq<Middleware>): (s': Server)
    requires r.server == s.id
    ensures Registers(s, s', m.Name(), path, h, middlewares)
    ensures Chain(s', m.Name(), path) == Some(s.middlewares + middlewares)
  {
    ServerHandle(s, m.Name(), path, h, middlewares)
  }

  // Serving requests

  /** One request on (method, path): no route, or the handler and the middlewares it passes. */
  datatype Served = NotFound | Served(server: Server, handler: Handler, passes: seq<Middleware>)

  /**
   * A request as the closure of `Server.Handle` serves it: the composed handler is stored
   * back into the captured variable before it runs, so the request passes the freshly
   * composed list in front of every layer earlier requests left behind, and the next
   * request finds one more layer. `ComposeMiddleware` is taken to put its list, in order,
   * in front of the handler it wraps.
   */
  function Serve(s: Server, methodName: string, path: string): (r: Served)
    ensures r.NotFound? <==> (methodName, path) !in s.routes
    ensures r.Served? ==>
              var reg := s.routes[(methodName, path)];
              && r.handler == reg.handler
              && r.passes == Chain(s, methodName, path).value + reg.layers
              && r.server == s.(routes := s.routes[(methodName, path) := reg.(layers := r.passes)])
  {
    if (methodName, path) !in s.routes then NotFound
    else
      var reg := s.routes[(methodName, path)];
      var h := Chain(s, methodName, path).value + reg.layers;
      Served(s.(routes := s.routes[(methodName, path) := reg.(layers := h)]), reg.handler, h)
  }

  /** The server after `n` requests on (method, path). */
  function AfterRequests(s: Server, methodName: string, path: string, n: nat): Server
    decreases n
  {
    if n == 0 then s
    else
      var before := AfterRequests(s, methodName, path, n - 1);
      match Serve(before, methodName, path)
      case NotFound => before
      case Served(s', _, _) => s'
  }

  /** `n` copies of `list`, one after the other. */
  function Repeat(list: seq<Middleware>, n: nat): seq<Middleware>
    decreases n
  {
    if n == 0 then [] else list + Repeat(list, n - 1)
  }

  /**
   * On a route registered once, the `n`-th request leaves `n` copies of the composed list
   * wrapped around the handler, so the request after it passes the list `n + 1` times.
   */
  lemma {:induction false} RequestsAccumulateLayers(s: Server, methodName: string, path: string, n: nat)
    requires (methodName, path) in s.routes && s.routes[(methodName, path)].layers == []
    ensures (methodName, path) in AfterRequests(s, methodName, path, n).routes
    ensures AfterRequests(s, methodName, path, n).middlewares == s.middlewares
    ensures AfterRequests(s, methodName, path, n).routes[(methodName, path)]
              == s.routes[(methodName, path)].(layers := Repeat(Chain(s, methodName, path).value, n))
    ensures Serve(AfterRequests(s, methodName, path, n), methodName, path).passes
              == Repeat(Chain(s, methodName, path).value, n + 1)
    decreases n
  {
    if n > 0 {
      RequestsAccumulateLayers(s, methodName, path, n - 1);
    }
  }

  /** Two requests on a route registered with one middleware: the second passes it twice. */
  lemma AsWrittenSecondRequestWrapsTwice()
    ensures var s := ServerMethod(New(0, []), Get, "/a", Handler(0), [Middleware(1)]);
            Serve(AfterRequests(s, "GET", "/a", 1), "GET", "/a").passes == [Middleware(1), Middleware(1)]
  {
    var s := ServerMethod(New(0, []), Get, "/a", Handler(0), [Middleware(1)]);
    RequestsAccumulateLayers(s, "GET", "/a", 1);
  }

  /**
   * A request served as the registration evidently means: the handler is composed with
   * the list into a local, the captured handler is left alone, and every request passes
   * the server's middlewares and the call's exactly once.
   */
  function CorrectedServe(s: Server, methodName: string, path: string): (r: Served)
    ensures r.NotFound? <==> (methodName, path) !in s.routes
    ensures r.Served? ==> r.server == s && r.handler == s.routes[(methodName, path)].handler
    ensures r.Served? ==> r.passes == s.middlewares + s.routes[(methodName, path)].middlewares
  {
    if (methodName, path) !in s.routes then NotFound
    else Served(s, s.routes[(methodName, path)].handler, Chain(s, methodName, path).value)
  }
}
