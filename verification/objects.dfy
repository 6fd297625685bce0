/** The trimmed cluster objects the cache keeps, and the dynamically typed
    values that a store hands back to its readers. */
module Objects {
  import opened Wrappers

  datatype EndpointAddress = EndpointAddress(ip: string, hostname: string, nodeName: string, targetRefName: string)

  datatype EndpointPort = EndpointPort(port: int, name: string, protocol: string)

  datatype EndpointSubset = EndpointSubset(addresses: seq<EndpointAddress>, ports: seq<EndpointPort>)

  /** `indexIP` is the flattened address list computed when the object is trimmed. */
  datatype Endpoints = Endpoints(
    version: string, name: string, namespace: string, index: string,
    indexIP: seq<string>, subsets: seq<EndpointSubset>)

  /** `index` is the `namespace/name` identity key computed when the object is trimmed. */
  datatype Service = Service(
    version: string, name: string, namespace: string, index: string,
    clusterIP: string, externalIPs: seq<string>)

  datatype Pod = Pod(version: string, podIP: string, name: string, namespace: string)

  datatype Namespace = Namespace(version: string, name: string)

  /** A value of Go's empty interface as stored in a cache: the constructor is
      its dynamic type. A store filled by the watches holds pointers; a plain
      `object.Pod` value is a different dynamic type from `*object.Pod`. */
  datatype Item =
    | ServiceItem(svc: Service)          // *object.Service
    | PodItem(pod: Pod)                  // *object.Pod
    | PodValueItem(podValue: Pod)        // object.Pod
    | EndpointsItem(ep: Endpoints)       // *object.Endpoints
    | NamespaceItem(ns: Namespace)       // *api.Namespace
    | OtherItem(meta: Option<string>)    // any other type; `meta` holds its resource
                                         // version when the type implements meta.Object

  /** The resource version seen through a `meta.Object` assertion, or None when
      the dynamic type does not implement `meta.Object` (the assertion panics).
      The accessor methods of `object.Pod` have pointer receivers, so a plain
      `object.Pod` value is not a `meta.Object`. */
  function ResourceVersion(i: Item): Option<string>
  {
    match i
    case ServiceItem(s) => Some(s.version)
    case PodItem(p) => Some(p.version)
    case PodValueItem(_) => None
    case EndpointsItem(e) => Some(e.version)
    case NamespaceItem(n) => Some(n.version)
    case OtherItem(m) => m
  }

  // Checked type assertions `v, ok := o.(T)`, one per target type.

  function AsService(i: Item): Option<Service>
  {
    if i.ServiceItem? then Some(i.svc) else None
  }

  function AsPod(i: Item): Option<Pod>
  {
    if i.PodItem? then Some(i.pod) else None
  }

  function AsPodValue(i: Item): Option<Pod>
  {
    if i.PodValueItem? then Some(i.podValue) else None
  }

  function AsEndpoints(i: Item): Option<Endpoints>
  {
    if i.EndpointsItem? then Some(i.ep) else None
  }

  function AsNamespace(i: Item): Option<Namespace>
  {
    if i.NamespaceItem? then Some(i.ns) else None
  }
}
