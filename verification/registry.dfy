/**
 * The service-registry types of pkg/registry/registry.go and its etcd registry, whose
 * methods are stubs: nothing is stored, every lookup is empty and watching fails.
 */
module Registry {
  import opened Wrappers

  /** A registered service instance. */
  datatype Service = Service(
    namespace: string,
    serviceName: string,
    serviceID: string,
    serviceAddr: string,
    metadata: map<string, string>)

  /** The kind of change a watch result reports (`type Action int`). */
  newtype Action = int

  const ActionAdd: Action := 0
  const ActionUpdate: Action := 1
  const ActionRemove: Action := 2

  /** A Go error value, known by its message. */
  datatype Error = Error(message: string)

  /** One notification of a watch: the services concerned, what happened to them, or an error. */
  datatype WatchResult = WatchResult(services: seq<Service>, action: Action, error: Option<Error>)

  /**
   * A watch subscription. The Watcher interface has no implementation in this file, so a
   * watcher is a placeholder known only by identity.
   */
  datatype Watcher = Watcher(id: nat)

  /** The implementations of the Registry interface in this file. */
  datatype Registry = EtcdRegistry

  /** What GetService hands back: the instances found, or an error. */
  datatype Lookup = Lookup(services: seq<Service>, err: Option<Error>)

  /** What Watch hands back: a watcher, or an error. */
  datatype Subscription = Subscription(watcher: Option<Watcher>, err: Option<Error>)

  /** The action constants are 0, 1 and 2, in declaration order, and pairwise distinct. */
  lemma ActionsDistinct()
    ensures ActionAdd == 0 && ActionUpdate == 1 && ActionRemove == 2
    ensures ActionAdd != ActionUpdate && ActionUpdate != ActionRemove && ActionAdd != ActionRemove
  {
  }

  /** `GetService`: the etcd stub finds nothing and reports no error, whatever the name. */
  function GetService(r: Registry, name: string): (l: Lookup)
    ensures l.services == [] && l.err.None?
  {
    match r
    case EtcdRegistry => Lookup([], None)
  }

  /** `Register`: the etcd stub accepts every service and keeps no trace of it. */
  function Register(r: Registry, service: Service): (result: (Registry, Option<Error>))
    ensures result.0 == r && result.1.None?
  {
    match r
    case EtcdRegistry => (r, None)
  }

  /** `Deregister`: the etcd stub accepts every service and keeps no trace of it. */
  function Deregister(r: Registry, service: Service): (result: (Registry, Option<Error>))
    ensures result.0 == r && result.1.None?
  {
    match r
    case EtcdRegistry => (r, None)
  }

  /** `Watch`: the etcd stub returns a nil watcher with a "not implemented" error. */
  function Watch(r: Registry, name: string): (s: Subscription)
    ensures s.watcher.None? && s.err == Some(Error("not implemented"))
  {
    match r
    case EtcdRegistry => Subscription(None, Some(Error("not implemented")))
  }

  /** A registration call made on a registry. */
  datatype Call = RegisterCall(service: Service) | DeregisterCall(service: Service)

  /** Runs the calls in order, collecting their errors. */
  function Run(r: Registry, calls: seq<Call>): (Registry, seq<Option<Error>>)
    decreases |calls|
  {
    if |calls| == 0 then (r, [])
    else
      var (r', e) := match calls[0]
        case RegisterCall(s) => Register(r, s)
        case DeregisterCall(s) => Deregister(r, s);
      var (final, errs) := Run(r', calls[1..]);
      (final, [e] + errs)
  }

  /**
   * However many services are registered and deregistered on the etcd stub, every call
   * succeeds, the registry is as it was, and lookups still find nothing.
   */
  lemma {:induction false} EtcdRegistrationsUnobservable(calls: seq<Call>, name: string)
    ensures Run(EtcdRegistry, calls).0 == EtcdRegistry
    ensures |Run(EtcdRegistry, calls).1| == |calls|
    ensures forall i :: 0 <= i < |calls| ==> Run(EtcdRegistry, calls).1[i].None?
    ensures GetService(Run(EtcdRegistry, calls).0, name) == Lookup([], None)
    decreases |calls|
  {
    if |calls| > 0 {
      EtcdRegistrationsUnobservable(calls[1..], name);
    }
  }
}
