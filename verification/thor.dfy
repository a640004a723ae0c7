/**
 * The application configuration of the root package: the listener and registry kinds with
 * their names (initialize.go) and the functional options that set configuration fields
 * (option.go).
 */
module Thor {

  /** `type ListenerType int`. */
  newtype ListenerType = int

  const ListenerTypeTcp: ListenerType := 0
  const ListenerTypeGRPC: ListenerType := 1
  const ListenerTypeHTTP: ListenerType := 2

  /** `ListenerType.String`: gRPC and HTTP by name, everything else TCP. */
  function ListenerTypeString(l: ListenerType): (s: string)
    ensures s == "GRPC" <==> l == ListenerTypeGRPC
    ensures s == "HTTP" <==> l == ListenerTypeHTTP
    ensures s == "TCP" <==> l != ListenerTypeGRPC && l != ListenerTypeHTTP
  {
    if l == ListenerTypeGRPC then "GRPC"
    else if l == ListenerTypeHTTP then "HTTP"
    else "TCP"
  }

  /** The three declared listener kinds have three different names. */
  lemma ListenerTypeStringInjective(l: ListenerType, l': ListenerType)
    requires 0 <= l <= 2 && 0 <= l' <= 2
    ensures ListenerTypeString(l) == ListenerTypeString(l') <==> l == l'
  {
  }

  /** `type RegistryType int`. */
  newtype RegistryType = int

  const RegistryTypeEtcd: RegistryType := 0
  const RegistryTypeConsul: RegistryType := 1
  const RegistryTypeK8s: RegistryType := 2
  const RegistryMdns: RegistryType := 3

  /** `RegistryType.String`: the four declared kinds by name, the empty string otherwise. */
  function RegistryTypeString(r: RegistryType): (s: string)
    ensures s == "etcd" <==> r == RegistryTypeEtcd
    ensures s == "consul" <==> r == RegistryTypeConsul
    ensures s == "k8s" <==> r == RegistryTypeK8s
    ensures s == "mdns" <==> r == RegistryMdns
    ensures s == "" <==> !(0 <= r <= 3)
  {
    if r == RegistryTypeEtcd then "etcd"
    else if r == RegistryTypeConsul then "consul"
    else if r == RegistryTypeK8s then "k8s"
    else if r == RegistryMdns then "mdns"
    else ""
  }

  datatype ListenerOption = ListenerOption(listenerType: ListenerType, netType: string, addr: string)

  datatype LoggerOption = LoggerOption(dir: string, levelFilter: string)

  datatype TraceOption = TraceOption(sampleType: string, sampleParam: real)

  datatype RegistryOption = RegistryOption(registryType: string, registryAddr: string, registryTTL: int)

  datatype ResilienceOption = ResilienceOption(retryOnIdempotent: bool)

  /** The application configuration (`Options`). */
  datatype Options = Options(
    namespace: string,
    serviceName: string,
    serviceID: string,
    serviceVersion: string,
    metadata: map<string, string>,
    listeners: seq<ListenerOption>,
    logger: LoggerOption,
    trace: TraceOption,
    registry: RegistryOption,
    resilience: ResilienceOption)

  /** The settable places of a configuration; the logger counts as two. */
  datatype Field =
    | NamespaceField | ServiceNameField | ServiceIDField | ServiceVersionField
    | MetadataField | ListenersField | LogDirField | LogLevelFilterField
    | TraceField | RegistryField | ResilienceField

  /** The places where two configurations differ. */
  function Differences(a: Options, b: Options): set<Field> {
    (if a.namespace != b.namespace then {NamespaceField} else {})
    + (if a.serviceName != b.serviceName then {ServiceNameField} else {})
    + (if a.serviceID != b.serviceID then {ServiceIDField} else {})
    + (if a.serviceVersion != b.serviceVersion then {ServiceVersionField} else {})
    + (if a.metadata != b.metadata then {MetadataField} else {})
    + (if a.listeners != b.listeners then {ListenersField} else {})
    + (if a.logger.dir != b.logger.dir then {LogDirField} else {})
    + (if a.logger.levelFilter != b.logger.levelFilter then {LogLevelFilterField} else {})
    + (if a.trace != b.trace then {TraceField} else {})
    + (if a.registry != b.registry then {RegistryField} else {})
    + (if a.resilience != b.resilience then {ResilienceField} else {})
  }

  /** The functional options of option.go (`type Option func(o *Options)`), one per constructor. */
  datatype Option =
    | Namespace(s: string)
    | ServiceName(s: string)
    | ServiceID(s: string)
    | ServiceVersion(s: string)
    | Metadata(meta: map<string, string>)
    | Listeners(listeners: seq<ListenerOption>)
    | LogDir(s: string)
    | LogLevelFilter(l: string)
  {
    /** The one place the option writes. */
    function Target(): Field {
      match this
      case Namespace(_) => NamespaceField
      case ServiceName(_) => ServiceNameField
      case ServiceID(_) => ServiceIDField
      case ServiceVersion(_) => ServiceVersionField
      case Metadata(_) => MetadataField
      case Listeners(_) => ListenersField
      case LogDir(_) => LogDirField
      case LogLevelFilter(_) => LogLevelFilterField
    }

    /** The option's value is in its place in `o`. */
    predicate HeldBy(o: Options) {
      match this
      case Namespace(s) => o.namespace == s
      case ServiceName(s) => o.serviceName == s
      case ServiceID(s) => o.serviceID == s
      case ServiceVersion(s) => o.serviceVersion == s
      case Metadata(meta) => o.metadata == meta
      case Listeners(listeners) => o.listeners == listeners
      case LogDir(s) => o.logger.dir == s
      case LogLevelFilter(l) => o.logger.levelFilter == l
    }
  }

  /** Running an option on a configuration. */
  function Apply(opt: Option, o: Options): (r: Options)
    ensures opt.HeldBy(r)
    ensures Differences(o, r) <= {opt.Target()}
  {
    match opt
    case Namespace(s) => o.(namespace := s)
    case ServiceName(s) => o.(serviceName := s)
    case ServiceID(s) => o.(serviceID := s)
    case ServiceVersion(s) => o.(serviceVersion := s)
    case Metadata(meta) => o.(metadata := meta)
    case Listeners(listeners) => o.(listeners := listeners)
    case LogDir(s) => o.(logger := o.logger.(dir := s))
    case LogLevelFilter(l) => o.(logger := o.logger.(levelFilter := l))
  }

  /** Two options aimed at the same place: the later one wins. */
  lemma LastWriterWins(first: Option, second: Option, o: Options)
    requires first.Target() == second.Target()
    ensures Apply(second, Apply(first, o)) == Apply(second, o)
  {
  }

  /** Running an option twice is running it once. */
  lemma ApplyIdempotent(opt: Option, o: Options)
    ensures Apply(opt, Apply(opt, o)) == Apply(opt, o)
  {
  }

  /** Options aimed at different places can run in either order. */
  lemma DisjointOptionsCommute(x: Option, y: Option, o: Options)
    requires x.Target() != y.Target()
    ensures Apply(y, Apply(x, o)) == Apply(x, Apply(y, o))
  {
  }
}
