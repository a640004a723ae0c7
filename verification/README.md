# thor client call path, in Dafny

A model of the client-side call path of the thor Go framework and of the small decision
functions around it:

- the gRPC unary and stream retry interceptors, with their idempotency gate
  (`Interceptors`, retry.dfy);
- the "shard" balancer: the picker builder that indexes ready SubConns and fills a
  50-replica hash ring, and the picker that routes by ring key or at random (`Lb`, shard.dfy);
- the registry types and the etcd registry stub (`Registry`, registry.dfy);
- route-group composition and route registration of the HTTP server (`Web`, web.dfy);
- the decision of the authentication middleware (`WebMiddleware`, middleware.dfy);
- the listener and registry kind names and the configuration options (`Thor`, thor.dfy).

Everything is a value. A call context is its incoming metadata plus the first cancellation
check at which it is found done; the unary invoker is a script of per-attempt errors; the
stream invoker is a function of the context; `rand.Intn` is a nondeterministic choice in a
method; Go's map iteration order in `Build` is an explicit parameter; the hash ring's
hashing is an abstract `locate` function; a `Route`'s reference to its server is the server's
identity. `None` stands for Go's nil throughout. The retry interceptor is modelled as the
code is written, and the Findings below show where that departs from what it evidently
means to do.

Behaviour of the code worth knowing:

- the idempotency flag is read from the INCOMING metadata of the call
  (pkg/interceptors/retry.go:79), not from the outgoing metadata;
- a successful or non-retryable attempt does not end the retry loop, and the loop bound
  `maxRetries` is never set, so it is 0 (see Findings);
- `Build` does not remove duplicate addresses, and `Pick` returns a nil SubConn with no
  error when the ring answers an address that has no SubConn;
- `Build` may be handed an empty set of ready SubConns, and the random fallback then
  panics (see Findings);
- each request on a route registered with `Server.Handle` wraps the route's middlewares
  once more around the handler the closure captured (see Findings);
- the etcd registry stores nothing and cannot watch; the Watcher interface has no
  implementation among the modelled files.

## Model

| member | source | states |
|---|---|---|
| Interceptors.ApplyRetryOption | pkg/interceptors/retry.go:15-19 | `RetryCodes` replaces the code list with the given one and leaves the error list and the loop bound as they were |
| Interceptors.NewGrpcRetry | pkg/interceptors/retry.go:27-33 | options run in order, so the last `RetryCodes` decides the codes (none: empty); the error list stays empty and `maxRetries` stays 0, as no option sets them |
| Interceptors.BuildRetryZero | pkg/interceptors/retry.go:15-33 | whatever options are given, the built configuration has `maxRetries` 0 and no retry errors |
| Interceptors.IsIdempotent | pkg/interceptors/retry.go:77-87 | true exactly when incoming metadata exists, has key `is_idempotent` with a non-empty value list, and its first value is "1"; false in every other case |
| Interceptors.RetryLoopResult | pkg/interceptors/retry.go:45-66 | from any reachable loop state, the loop ends with the context error and k-1 invocations when the context is first found done before attempt k (counting from 1) within the bound, and otherwise after `max(maxRetries, 0)` invocations with the last invocation's error (nil if none) |
| Interceptors.UnaryResult | pkg/interceptors/retry.go:35-67 | the four outcomes of the unary interceptor: done non-idempotent call (context error, no invocation), live non-idempotent call (one invocation, its error), idempotent call with a live context (all iterations, last error), idempotent call first found done before attempt k, counting from 1 (k-1 invocations, context error); never more invocations than the bound |
| Interceptors.UnaryClientInterceptor | pkg/interceptors/retry.go:35-67 | the interceptor loop as written, classification branches included, has exactly the outcomes above: success and non-retryable errors do not end it early, the invocation count never exceeds the bound |
| Interceptors.StreamClientInterceptor | pkg/interceptors/retry.go:69-75 | the streamer is called exactly once with the call's context, idempotent or not, and its result is returned unchanged |
| Interceptors.AsWrittenRepeatsSuccessfulCall | pkg/interceptors/retry.go:46-65 | with a bound of 3 and an idempotent call whose every attempt succeeds, the invoker is still called 3 times |
| Interceptors.AsWrittenRetriesNonRetryableError | pkg/interceptors/retry.go:53-63 | with retry codes [14], a bound of 3 and every attempt failing with code 3, the invoker is called 3 times and the code-3 error is returned |
| Interceptors.AsWrittenSkipsIdempotentCall | pkg/interceptors/retry.go:15-66 | for any configuration built from the options, an idempotent call is never invoked and nil is returned |
| Interceptors.CorrectedUnaryClientInterceptor | pkg/interceptors/retry.go:35-67 | corrected loop: at least one attempt on a live context, at most `max(maxRetries, 1)`; every attempt but the last failed with a retryable error; it returns the context error when found done, or the last attempt's error, which is final or non-retryable unless the budget ran out; nil only after a successful attempt |
| Lb.Build | pkg/lb/shard.go:18-26 | the key stays empty; the ring has 50 replicas and receives every ready address in visit order; `remotes` has one entry per ready SubConn, in visit order; the keys of `subConns` are exactly the ready addresses, each mapped to a ready SubConn with that address; every entry of `remotes` is a key of `subConns` |
| Lb.RandomFallback | pkg/lb/shard.go:36-43 | panics exactly when `remotes` is empty; otherwise returns `subConns[remotes[i]]` for some `0 <= i < len(remotes)` and no error |
| Lb.Pick | pkg/lb/shard.go:35-48 | no outgoing metadata, or no value for the key: the random fallback; a value present: `subConns[ring.Get(values[0])]`, a function of the picker and the first value only; never an error; on a picker Build made from at least one ready SubConn, always a non-nil SubConn |
| Lb.AsWrittenPickPanicsWithoutReadySubConns | pkg/lb/shard.go:18-38 | a picker built from no ready SubConn panics on a call without outgoing metadata |
| Lb.CorrectedPick | pkg/lb/shard.go:35-48 | corrected Pick: never panics; reports `ErrNoSubConnAvailable` with a nil SubConn exactly when there is no fallback address; otherwise picks as Pick does, a non-nil SubConn on a consistent picker |
| Registry.ActionsDistinct | pkg/registry/registry.go:24-28 | the actions are Add = 0, Update = 1, Remove = 2 and pairwise distinct |
| Registry.GetService | pkg/registry/registry.go:45-47 | the etcd registry returns an empty list and no error for any name |
| Registry.Register | pkg/registry/registry.go:49-51 | the etcd registry returns no error for any service and its state is unchanged |
| Registry.Deregister | pkg/registry/registry.go:53-55 | the etcd registry returns no error for any service and its state is unchanged |
| Registry.Watch | pkg/registry/registry.go:57-59 | the etcd registry always returns a nil watcher with a "not implemented" error |
| Registry.EtcdRegistrationsUnobservable | pkg/registry/registry.go:45-55 | after any sequence of Register and Deregister calls on the etcd registry, every call returned no error, the registry is unchanged and GetService still finds nothing |
| Web.New | pkg/web/server.go:16-21 | a new server keeps the given middlewares and has no registrations |
| Web.ServerHandle | pkg/web/server.go:38-46 | registers the handler and the call's middlewares under (method, path) and changes no other registration nor the server's middlewares; the list composed at each request is the server's middlewares, then the call's, and the FIRST request reaches the registered handler through exactly that list (later requests: Web.Serve) |
| Web.Serve | pkg/web/server.go:39-45 | a request on an unregistered (method, path) is not served; otherwise it reaches the registered handler through the composed list followed by every layer earlier requests left, and the registration keeps that whole wrapping for the next request |
| Web.RequestsAccumulateLayers | pkg/web/server.go:39-45 | on a freshly registered route, after n requests the captured handler carries the composed list n times, and request n+1 passes it n+1 times; the server's middlewares are unchanged |
| Web.AsWrittenSecondRequestWrapsTwice | pkg/web/server.go:43 | route registered with one middleware m on a server without middlewares: the second request passes [m, m] |
| Web.CorrectedServe | pkg/web/server.go:38-46 | corrected serving: the server is left unchanged and every request on a registered route passes the server's middlewares, then the call's, exactly once |
| Web.ServerMethod | pkg/web/server.go:48-74 | each Server helper (Get … Connect) registers as Handle does, under its own HTTP method name |
| Web.MethodNamesDistinct | pkg/web/server.go:48-74 | the nine helpers use nine different method names |
| Web.ServerGroup | pkg/web/server.go:27-36 | the route keeps the path unchanged, points to the same server, and its middlewares are the server's followed by the given ones, in order, with length the sum of both |
| Web.RouteGroup | pkg/web/server.go:83-92 | the child route is on the same server, its path is the parent's path followed by the new path, and its middlewares are the parent's followed by the given ones |
| Web.NestedGroups | pkg/web/server.go:83-92 | a route nested through any number of groups carries all the path prefixes joined in order and all the middleware lists joined in order, on the original server |
| Web.RouteHandle | pkg/web/server.go:94-96 | registers on the route's server under the path as given, with only the call's middlewares: the route's own path and middlewares are not applied |
| Web.RouteMethod | pkg/web/server.go:98-131 | each Route helper registers on the server under its method name and the unprefixed path, ignoring the route's path and middlewares |
| WebMiddleware.InjectDataToRequest | pkg/web/middleware.go:33-37 | a copy of the request with the same fields, whose context holds the values of the original's followed by the auth result |
| WebMiddleware.Authenticate | pkg/web/middleware.go:20-31 | exactly one effect per request: a 401 status exactly when authentication failed and was needed, otherwise the next handler with the auth result attached, so a failure that is not needed and a success both reach the next handler |
| Thor.ListenerTypeString | initialize.go:36-53 | 1 is "GRPC", 2 is "HTTP", and 0 and every value other than 1 and 2 is "TCP" |
| Thor.ListenerTypeStringInjective | initialize.go:38-53 | the three declared listener kinds get three different names |
| Thor.RegistryTypeString | initialize.go:61-82 | 0, 1, 2, 3 are "etcd", "consul", "k8s", "mdns", and a value outside 0..3 is the empty string |
| Thor.Apply | option.go:7-55 | each option (Namespace … LogLevelFilter) puts its value in its own place and changes nothing else; LogDir and LogLevelFilter each change one half of the logger only |
| Thor.LastWriterWins | option.go:9-55 | two options aimed at the same place leave the value of the later one |
| Thor.ApplyIdempotent | option.go:9-55 | applying an option twice equals applying it once |
| Thor.DisjointOptionsCommute | option.go:9-55 | options aimed at different places may be applied in either order |

## Left out

- Network I/O, gRPC transport, HTTP serving (`Server.Run`) and process lifecycle: not logic of the modelled core.
- The unary invoker's method, request, reply, connection and call options, and the stream descriptor: passed through unchanged, so only the context and the per-attempt result are modelled.
- Interceptors.UnaryClientInterceptor: `errors.Is` is modelled as equality of error values, so errors that wrap others are not modelled; with no option able to set the retry errors the list is always empty.
- Lb.Build: states that `subConns[a]` is some ready SubConn with address `a`, not that it is the last one visited when two ready SubConns share an address.
- Lb.Pick: `md.Get` lower-cases its key before the lookup; not modelled, since Build leaves the key empty and the empty string has no case.
- The internals of the x-go hash ring (hashing, token placement, replica handling) and of `math/rand`: libraries whose code is not part of this model; the ring is abstract and the random index a nondeterministic choice.
- What gRPC's base balancer does around `Build` (when it calls it, and health checking): library code, not part of this model; `Build` is modelled for every map of ready SubConns, the empty one included.
- The Watcher interface's `Next` and `Shutdown`: no implementation exists in the modelled files; the Consul registry and watcher are not part of this model.
- The httprouter internals, including its panic on a second registration of the same method and path or on a path not starting with "/": library code; the router is a map from (method, path) to the registration.
- The internals of `xhttp.ComposeMiddleware`: library code; it is taken to put its list, in order, in front of the handler it wraps, and a request's path through the handlers is the list of middlewares it passes.
- The typed context of x-go `xctx` (`NewTyped`, `With`) and the route parameters `Server.Handle` stores in it: library code; adding a value to a request's context is modelled as appending it to the list of context values.
- Web.Serve: requests are served one after another; concurrent requests on one route race on the captured handler variable, which is not modelled.
- `Initialize` and `OptionReader`: file and YAML input and global mutable state.
- The x-go `metadata.Metadata` type is not visible; it is modelled as a map from strings to strings, which matters only as a value that `Metadata` replaces whole.
- `TraceOption.TraceSampleParam` is a float64, carried as a real number and never computed with.

## Findings

| source | as written | input that shows it | evidently intended | confidence | as-written member | corrected member |
|---|---|---|---|---|---|---|
| pkg/interceptors/retry.go:53-63 | both `continue` statements, and falling off the end of the classification, lead to the next iteration, so a successful attempt does not end the loop and is repeated | idempotent call, `maxRetries` 3, every attempt succeeds: 3 invocations | return as soon as an attempt succeeds | not executed; high | Interceptors.AsWrittenRepeatsSuccessfulCall | Interceptors.CorrectedUnaryClientInterceptor |
| pkg/interceptors/retry.go:53-63 | an error whose code is not a retry code and that matches no retry error does not end the loop either | idempotent call, retry codes [14], `maxRetries` 3, every attempt fails with code 3: 3 invocations | return a non-retryable error after the attempt that produced it | not executed; high | Interceptors.AsWrittenRetriesNonRetryableError | Interceptors.CorrectedUnaryClientInterceptor |
| pkg/interceptors/retry.go:27-46 | no option sets `maxRetries`, so it is 0 and the loop body never runs: an idempotent call is never sent and nil is reported as its result | `NewGrpcRetry(RetryCodes(14))`, incoming metadata `is_idempotent: ["1"]`, live context: 0 invocations, nil error | at least one attempt for a call on a live context | not executed; high | Interceptors.AsWrittenSkipsIdempotentCall | Interceptors.CorrectedUnaryClientInterceptor |
| pkg/web/server.go:43 | the composed handler is assigned back to the captured `h`, so every request wraps the middlewares once more around what earlier requests left | a route registered with one middleware m: the second request passes m twice, the n-th n times | compose into a local variable, so every request passes the server's and the call's middlewares once | not executed; high | Web.AsWrittenSecondRequestWrapsTwice | Web.CorrectedServe |
| pkg/lb/shard.go:36-42 | with an empty `remotes`, `rand.Intn(len(s.remotes))` is `rand.Intn(0)`, which panics | Build given no ready SubConn, then a call without outgoing metadata | report that no SubConn is available | not executed; medium | Lb.AsWrittenPickPanicsWithoutReadySubConns | Lb.CorrectedPick |
