/** The watches the kubernetes example consumer asks for, the index
    functions each watch installs, the list options each watch sends, and
    the consumer's side of the registry protocol. */
module KubeApiWatcher {
  import opened Wrappers
  import opened Objects
  import opened Store
  import opened Watcher
  import opened KubeController

  /** `errObj`, returned by every index function given an object of the wrong type. */
  const ErrObj := "obj was not of the correct type"

  datatype IndexFunc =
    | PodIPIndexFunc
    | SvcIPIndexFunc
    | SvcNameNamespaceIndexFunc
    | EpNameNamespaceIndexFunc
    | EpIPIndexFunc

  /** `podIPIndexFunc`: a pod is filed under its IP. */
  function PodIPKeys(obj: Item): (r: Result<seq<string>, string>)
    ensures r.Ok? <==> obj.PodItem?
    ensures r.Err? ==> r.error == ErrObj
    ensures r.Ok? ==> |r.value| == 1 && forall k :: k in r.value <==> k == obj.pod.podIP
  {
    if !obj.PodItem? then Err(ErrObj) else Ok([obj.pod.podIP])
  }

  /** `svcIPIndexFunc`: a service is filed under its cluster IP first, then
      each external IP in order. */
  function SvcIPKeys(obj: Item): (r: Result<seq<string>, string>)
    ensures r.Ok? <==> obj.ServiceItem?
    ensures r.Err? ==> r.error == ErrObj
    ensures r.Ok? ==> |r.value| == 1 + |obj.svc.externalIPs| && r.value[0] == obj.svc.clusterIP
    ensures r.Ok? ==> forall i :: 0 <= i < |obj.svc.externalIPs| ==> r.value[i + 1] == obj.svc.externalIPs[i]
    ensures r.Ok? ==> forall k :: k in r.value <==> k == obj.svc.clusterIP || k in obj.svc.externalIPs
  {
    if !obj.ServiceItem? then Err(ErrObj)
    else if |obj.svc.externalIPs| == 0 then Ok([obj.svc.clusterIP])
    else Ok([obj.svc.clusterIP] + obj.svc.externalIPs)
  }

  /** `svcNameNamespaceIndexFunc`: a service is filed under its identity key only. */
  function SvcNameNamespaceKeys(obj: Item): (r: Result<seq<string>, string>)
    ensures r.Ok? <==> obj.ServiceItem?
    ensures r.Err? ==> r.error == ErrObj
    ensures r.Ok? ==> |r.value| == 1 && forall k :: k in r.value <==> k == obj.svc.index
  {
    if !obj.ServiceItem? then Err(ErrObj) else Ok([obj.svc.index])
  }

  /** `epNameNamespaceIndexFunc`: an Endpoints is filed under its identity key only. */
  function EpNameNamespaceKeys(obj: Item): (r: Result<seq<string>, string>)
    ensures r.Ok? <==> obj.EndpointsItem?
    ensures r.Err? ==> r.error == ErrObj
    ensures r.Ok? ==> |r.value| == 1 && forall k :: k in r.value <==> k == obj.ep.index
  {
    if !obj.EndpointsItem? then Err(ErrObj) else Ok([obj.ep.index])
  }

  /** `epIPIndexFunc`: an Endpoints is filed under its precomputed address list, unchanged. */
  function EpIPKeys(obj: Item): (r: Result<seq<string>, string>)
    ensures r.Ok? <==> obj.EndpointsItem?
    ensures r.Err? ==> r.error == ErrObj
    ensures r.Ok? ==> r.value == obj.ep.indexIP
  {
    if !obj.EndpointsItem? then Err(ErrObj) else Ok(obj.ep.indexIP)
  }

  function IndexKeys(f: IndexFunc, obj: Item): Result<seq<string>, string>
  {
    match f
    case PodIPIndexFunc => PodIPKeys(obj)
    case SvcIPIndexFunc => SvcIPKeys(obj)
    case SvcNameNamespaceIndexFunc => SvcNameNamespaceKeys(obj)
    case EpNameNamespaceIndexFunc => EpNameNamespaceKeys(obj)
    case EpIPIndexFunc => EpIPKeys(obj)
  }

  /** Every index function refuses an object of another kind. */
  lemma IndexFuncsRejectWrongKind(f: IndexFunc, obj: Item)
    requires obj.NamespaceItem? || obj.PodValueItem? || obj.OtherItem?
    ensures IndexKeys(f, obj) == Err(ErrObj)
  {
  }

  /** A service is found by reverse lookup through each of its IPs, and
      adding an external IP adds exactly that key. */
  lemma ServiceIPKeysGrowWithExternalIP(s: Service, ip: string)
    ensures SvcIPKeys(ServiceItem(s)).Ok? && SvcIPKeys(ServiceItem(s.(externalIPs := s.externalIPs + [ip]))).Ok?
    ensures forall k :: k in SvcIPKeys(ServiceItem(s.(externalIPs := s.externalIPs + [ip]))).value <==>
                        k in SvcIPKeys(ServiceItem(s)).value || k == ip
  {
  }

  datatype Resource = ServiceResource | PodResource | EndpointsResource | NamespaceResource

  /** The informer a watch factory builds: what it lists and watches, with
      which label selector, which indexers it installs, whether the
      controller's Add/Update/Delete handlers are attached, and what kind of
      lister handle it returns (`NewIndexerInformer` gives an Indexer,
      `cache.NewInformer` a Store). */
  datatype Watch = Watch(
    resource: Resource,
    selector: Option<string>,
    indexers: map<string, IndexFunc>,
    handlers: bool,
    listerKind: HandleKind)

  /** The options of the kubernetes consumer that shape its watches; a
      selector is kept as its rendered string, None when nil. */
  datatype KubeOpts = KubeOpts(
    initPodCache: bool,
    initEndpointsCache: bool,
    selector: Option<string>,
    namespaceSelector: Option<string>)

  function Informers(opts: KubeOpts): (m: map<string, Watch>)
    ensures "service" in m && "namespace" in m
    ensures "pod" in m <==> opts.initPodCache
    ensures "endpoints" in m <==> opts.initEndpointsCache
    ensures m.Keys <= {"service", "pod", "endpoints", "namespace"}
    ensures m["service"] == Watch(ServiceResource, opts.selector,
      map[SvcNameNamespaceIndex := SvcNameNamespaceIndexFunc, SvcIPIndex := SvcIPIndexFunc], true, IndexerKind)
    ensures "pod" in m ==> m["pod"] == Watch(PodResource, opts.selector,
      map[PodIPIndex := PodIPIndexFunc], true, IndexerKind)
    ensures "endpoints" in m ==> m["endpoints"] == Watch(EndpointsResource, opts.selector,
      map[EpNameNamespaceIndex := EpNameNamespaceIndexFunc, EpIPIndex := EpIPIndexFunc], true, IndexerKind)
    ensures m["namespace"] == Watch(NamespaceResource, opts.namespaceSelector, map[], false, StoreKind)
  {
    var svc := map["service" := Watch(ServiceResource, opts.selector,
      map[SvcNameNamespaceIndex := SvcNameNamespaceIndexFunc, SvcIPIndex := SvcIPIndexFunc], true, IndexerKind)];
    var pod := if opts.initPodCache then
      map["pod" := Watch(PodResource, opts.selector, map[PodIPIndex := PodIPIndexFunc], true, IndexerKind)]
      else map[];
    var ep := if opts.initEndpointsCache then
      map["endpoints" := Watch(EndpointsResource, opts.selector,
        map[EpNameNamespaceIndex := EpNameNamespaceIndexFunc, EpIPIndex := EpIPIndexFunc], true, IndexerKind)]
      else map[];
    var ns := map["namespace" := Watch(NamespaceResource, opts.namespaceSelector, map[], false, StoreKind)];
    svc + pod + ep + ns
  }

  /** Each index function of a watch accepts exactly that watch's object
      kind, so a store filled by the watch is indexed without errors. */
  lemma IndexersMatchResource(opts: KubeOpts, name: string, ix: string, obj: Item)
    requires name in Informers(opts) && ix in Informers(opts)[name].indexers
    ensures IndexKeys(Informers(opts)[name].indexers[ix], obj).Ok? <==>
      match Informers(opts)[name].resource
      case ServiceResource => obj.ServiceItem?
      case PodResource => obj.PodItem?
      case EndpointsResource => obj.EndpointsItem?
      case NamespaceResource => false
  {
  }

  datatype ListOptions = ListOptions(labelSelector: string, fieldSelector: string)

  /** The field selector that keeps terminated pods out of the pod cache. */
  const PodPhaseFilter := "status.phase!=Succeeded,status.phase!=Failed,status.phase!=Unknown"

  /** The field selector `podListFunc` sends. */
  function PodFieldSelector(fs: string): (r: string)
    ensures |fs| <= |r| && r[..|fs|] == fs
    ensures |fs| == 0 ==> r == PodPhaseFilter
    ensures |fs| > 0 ==> |r| == |fs| + 1 + |PodPhaseFilter| && r[|fs|] == ','
    ensures |r| >= |PodPhaseFilter| && r[|r| - |PodPhaseFilter|..] == PodPhaseFilter
  {
    var withComma := if |fs| > 0 then fs + "," else fs;
    withComma + PodPhaseFilter
  }

  /** Recovers the caller's field selector from the one sent. */
  function OriginalFieldSelector(sent: string): string
    requires |sent| >= |PodPhaseFilter|
  {
    var head := sent[..|sent| - |PodPhaseFilter|];
    if |head| > 0 then head[..|head| - 1] else head
  }

  /** Nothing of the caller's selector is lost. */
  lemma PodFieldSelectorRoundTrip(fs: string)
    ensures OriginalFieldSelector(PodFieldSelector(fs)) == fs
  {
    var sent := PodFieldSelector(fs);
    var head := sent[..|sent| - |PodPhaseFilter|];
    if |fs| > 0 {
      assert head == fs + ",";
    } else {
      assert head == "";
    }
  }

  /** The list options the `*ListFunc` of a watch sends: the label selector
      is overwritten only when one is configured, and only the pod watch adds
      to the field selector. */
  function ListOptionsFor(w: Watch, opts: ListOptions): (r: ListOptions)
    ensures w.selector.Some? ==> r.labelSelector == w.selector.value
    ensures w.selector.None? ==> r.labelSelector == opts.labelSelector
    ensures w.resource != PodResource ==> r.fieldSelector == opts.fieldSelector
    ensures w.resource == PodResource ==> r.fieldSelector == PodFieldSelector(opts.fieldSelector)
  {
    var labelled := if w.selector.Some? then opts.(labelSelector := w.selector.value) else opts;
    if w.resource == PodResource then labelled.(fieldSelector := PodFieldSelector(labelled.fieldSelector))
    else labelled
  }

  /** The kubernetes consumer: its options and its controller. */
  datatype Kubernetes = Kubernetes(opts: KubeOpts, conn: DnsControl)

  /** `SetIndexer` hands the lister straight to the controller's `SetLister`. */
  function SetIndexer(k: Kubernetes, name: string, h: Handle): (r: Result<Kubernetes, string>)
    ensures SetLister(k.conn, name, h).Err? ==> r == Err(SetLister(k.conn, name, h).error)
    ensures SetLister(k.conn, name, h).Ok? ==> r == Ok(k.(conn := SetLister(k.conn, name, h).value))
  {
    match SetLister(k.conn, name, h)
    case Err(e) => Err(e)
    case Ok(c) => Ok(k.(conn := c))
  }

  function SetHasSynced(k: Kubernetes, f: SyncFn): Kubernetes
  {
    k.(conn := k.conn.(syncedFn := Some(f)))
  }

  /** Once the registry has handed it a sync function, the controller's
      `HasSynced` is exactly that function. */
  lemma HasSyncedAfterSetHasSynced(k: Kubernetes, f: SyncFn, synced: set<string>)
    ensures HasSynced(SetHasSynced(k, f).conn, synced) <==> f.names <= synced
    ensures !HasSynced(k.conn.(syncedFn := None), synced)
  {
  }
}
