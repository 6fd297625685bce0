/** The `dnsControl` of the kubernetes example consumer: the listers it was
    handed, the typed accessors over them, and the `modified` timestamp that
    add, update and delete notifications advance. */
module KubeController {
  import opened Wrappers
  import opened Objects
  import opened Store
  import opened Watcher
  import opened Equivalence

  const PodIPIndex := "PodIP"
  const SvcNameNamespaceIndex := "NameNamespace"
  const SvcIPIndex := "ServiceIP"
  const EpNameNamespaceIndex := "EndpointNameNamespace"
  const EpIPIndex := "EndpointsIP"

  const ExpectedIndexer := "expected Indexer"
  const ExpectedStore := "expected Store"
  const NamespaceNotFound := "namespace not found"

  /** `modified` holds Unix seconds as read from the clock; nothing forces it
      to grow. A nil lister is None. */
  datatype DnsControl = DnsControl(
    modified: int,
    svcLister: Option<Handle>,
    podLister: Option<Handle>,
    epLister: Option<Handle>,
    nsLister: Option<Handle>,
    syncedFn: Option<SyncFn>)

  /** The freshly allocated controller: zero timestamp, no listers, no sync function. */
  const Initial := DnsControl(0, None, None, None, None, None)

  /** `SetLister`: an Err leaves the controller as it was. */
  function SetLister(st: DnsControl, name: string, h: Handle): (r: Result<DnsControl, string>)
    ensures name in {"service", "pod", "endpoints"} && !IsIndexer(h.kind) ==> r == Err(ExpectedIndexer)
    ensures name == "namespace" && !IsStore(h.kind) ==> r == Err(ExpectedStore)
    ensures name !in {"service", "pod", "endpoints", "namespace"} ==> r == Ok(st)
    ensures r.Ok? ==> r.value.modified == st.modified && r.value.syncedFn == st.syncedFn
    ensures r.Ok? ==> r.value.svcLister == (if name == "service" then Some(h) else st.svcLister)
    ensures r.Ok? ==> r.value.podLister == (if name == "pod" then Some(h) else st.podLister)
    ensures r.Ok? ==> r.value.epLister == (if name == "endpoints" then Some(h) else st.epLister)
    ensures r.Ok? ==> r.value.nsLister == (if name == "namespace" then Some(h) else st.nsLister)
  {
    if name == "service" then
      if IsIndexer(h.kind) then Ok(st.(svcLister := Some(h))) else Err(ExpectedIndexer)
    else if name == "pod" then
      if IsIndexer(h.kind) then Ok(st.(podLister := Some(h))) else Err(ExpectedIndexer)
    else if name == "endpoints" then
      if IsIndexer(h.kind) then Ok(st.(epLister := Some(h))) else Err(ExpectedIndexer)
    else if name == "namespace" then
      if IsStore(h.kind) then Ok(st.(nsLister := Some(h))) else Err(ExpectedStore)
    else Ok(st)
  }

  /** An Indexer is accepted where a Store is asked for. */
  lemma IndexerAcceptedAsNamespaceStore(st: DnsControl, h: Handle)
    requires h.kind == IndexerKind
    ensures SetLister(st, "namespace", h) == Ok(st.(nsLister := Some(h)))
  {
  }

  /** `HasSynced`: false until a sync function has been set. */
  function HasSynced(st: DnsControl, synced: set<string>): (r: bool)
    ensures st.syncedFn.None? ==> !r
    ensures st.syncedFn.Some? ==> (r <==> st.syncedFn.value.names <= synced)
  {
    match st.syncedFn
    case None => false
    case Some(f) => Eval(f, synced)
  }

  // Typed accessors. Calling one before its lister is set is a nil
  // dereference in the source, hence the requires clauses.

  function ServiceList(st: DnsControl): (r: seq<Service>)
    requires st.svcLister.Some?
    ensures forall s :: s in r <==> ServiceItem(s) in st.svcLister.value.items
  {
    var items := st.svcLister.value.items;
    var r := Select(items, AsService);
    assert forall s :: ServiceItem(s) in items ==> AsService(ServiceItem(s)) == Some(s);
    r
  }

  function EndpointsList(st: DnsControl): (r: seq<Endpoints>)
    requires st.epLister.Some?
    ensures forall e :: e in r <==> EndpointsItem(e) in st.epLister.value.items
  {
    var items := st.epLister.value.items;
    var r := Select(items, AsEndpoints);
    assert forall e :: EndpointsItem(e) in items ==> AsEndpoints(EndpointsItem(e)) == Some(e);
    r
  }

  /** The shared shape of the five index accessors: nil on a ByIndex error,
      otherwise the items the assertion accepts, in index order. */
  function IndexedAs<T(!new)>(h: Handle, indexName: string, key: string, pick: Item -> Option<T>): (r: seq<T>)
    ensures ByIndex(h, indexName, key).Err? ==> r == []
    ensures ByIndex(h, indexName, key).Ok? ==>
      forall x :: x in r <==> exists i :: 0 <= i < |ByIndex(h, indexName, key).value| &&
                                         pick(ByIndex(h, indexName, key).value[i]) == Some(x)
  {
    match ByIndex(h, indexName, key)
    case Err(_) => []
    case Ok(os) => Select(os, pick)
  }

  function PodIndex(st: DnsControl, ip: string): (r: seq<Pod>)
    requires st.podLister.Some?
    ensures ByIndex(st.podLister.value, PodIPIndex, ip).Err? ==> r == []
    ensures ByIndex(st.podLister.value, PodIPIndex, ip).Ok? ==>
      forall p :: p in r <==> PodItem(p) in ByIndex(st.podLister.value, PodIPIndex, ip).value
  {
    var r := IndexedAs(st.podLister.value, PodIPIndex, ip, AsPod);
    assert forall p :: AsPod(PodItem(p)) == Some(p);
    r
  }

  function SvcIndex(st: DnsControl, idx: string): (r: seq<Service>)
    requires st.svcLister.Some?
    ensures ByIndex(st.svcLister.value, SvcNameNamespaceIndex, idx).Err? ==> r == []
    ensures ByIndex(st.svcLister.value, SvcNameNamespaceIndex, idx).Ok? ==>
      forall s :: s in r <==> ServiceItem(s) in ByIndex(st.svcLister.value, SvcNameNamespaceIndex, idx).value
  {
    var r := IndexedAs(st.svcLister.value, SvcNameNamespaceIndex, idx, AsService);
    assert forall s :: AsService(ServiceItem(s)) == Some(s);
    r
  }

  function SvcIndexReverse(st: DnsControl, ip: string): (r: seq<Service>)
    requires st.svcLister.Some?
    ensures ByIndex(st.svcLister.value, SvcIPIndex, ip).Err? ==> r == []
    ensures ByIndex(st.svcLister.value, SvcIPIndex, ip).Ok? ==>
      forall s :: s in r <==> ServiceItem(s) in ByIndex(st.svcLister.value, SvcIPIndex, ip).value
  {
    var r := IndexedAs(st.svcLister.value, SvcIPIndex, ip, AsService);
    assert forall s :: AsService(ServiceItem(s)) == Some(s);
    r
  }

  function EpIndex(st: DnsControl, idx: string): (r: seq<Endpoints>)
    requires st.epLister.Some?
    ensures ByIndex(st.epLister.value, EpNameNamespaceIndex, idx).Err? ==> r == []
    ensures ByIndex(st.epLister.value, EpNameNamespaceIndex, idx).Ok? ==>
      forall e :: e in r <==> EndpointsItem(e) in ByIndex(st.epLister.value, EpNameNamespaceIndex, idx).value
  {
    var r := IndexedAs(st.epLister.value, EpNameNamespaceIndex, idx, AsEndpoints);
    assert forall e :: AsEndpoints(EndpointsItem(e)) == Some(e);
    r
  }

  function EpIndexReverse(st: DnsControl, ip: string): (r: seq<Endpoints>)
    requires st.epLister.Some?
    ensures ByIndex(st.epLister.value, EpIPIndex, ip).Err? ==> r == []
    ensures ByIndex(st.epLister.value, EpIPIndex, ip).Ok? ==>
      forall e :: e in r <==> EndpointsItem(e) in ByIndex(st.epLister.value, EpIPIndex, ip).value
  {
    var r := IndexedAs(st.epLister.value, EpIPIndex, ip, AsEndpoints);
    assert forall e :: AsEndpoints(EndpointsItem(e)) == Some(e);
    r
  }

  /** The accessors keep store order: listing a store that is the
      concatenation of two stores lists the first, then the second. */
  lemma ServiceListKeepsOrder(st: DnsControl, a: seq<Item>, b: seq<Item>)
    requires st.svcLister.Some? && st.svcLister.value.items == a + b
    ensures ServiceList(st) == Select(a, AsService) + Select(b, AsService)
  {
    SelectAppend(a, b, AsService);
  }

  lemma EndpointsListKeepsOrder(st: DnsControl, a: seq<Item>, b: seq<Item>)
    requires st.epLister.Some? && st.epLister.value.items == a + b
    ensures EndpointsList(st) == Select(a, AsEndpoints) + Select(b, AsEndpoints)
  {
    SelectAppend(a, b, AsEndpoints);
  }

  /** The index accessors keep index order in the same way: an answer that
      is the concatenation of two runs yields the first run's items, then
      the second's. */
  lemma IndexedAsKeepsOrder<T(!new)>(h: Handle, indexName: string, key: string, pick: Item -> Option<T>,
                                     a: seq<Item>, b: seq<Item>)
    requires ByIndex(h, indexName, key) == Ok(a + b)
    ensures IndexedAs(h, indexName, key, pick) == Select(a, pick) + Select(b, pick)
  {
    SelectAppend(a, b, pick);
  }

  lemma PodIndexKeepsOrder(st: DnsControl, ip: string, a: seq<Item>, b: seq<Item>)
    requires st.podLister.Some? && ByIndex(st.podLister.value, PodIPIndex, ip) == Ok(a + b)
    ensures PodIndex(st, ip) == Select(a, AsPod) + Select(b, AsPod)
  {
    IndexedAsKeepsOrder(st.podLister.value, PodIPIndex, ip, AsPod, a, b);
  }

  lemma SvcIndexKeepsOrder(st: DnsControl, idx: string, a: seq<Item>, b: seq<Item>)
    requires st.svcLister.Some? && ByIndex(st.svcLister.value, SvcNameNamespaceIndex, idx) == Ok(a + b)
    ensures SvcIndex(st, idx) == Select(a, AsService) + Select(b, AsService)
  {
    IndexedAsKeepsOrder(st.svcLister.value, SvcNameNamespaceIndex, idx, AsService, a, b);
  }

  lemma SvcIndexReverseKeepsOrder(st: DnsControl, ip: string, a: seq<Item>, b: seq<Item>)
    requires st.svcLister.Some? && ByIndex(st.svcLister.value, SvcIPIndex, ip) == Ok(a + b)
    ensures SvcIndexReverse(st, ip) == Select(a, AsService) + Select(b, AsService)
  {
    IndexedAsKeepsOrder(st.svcLister.value, SvcIPIndex, ip, AsService, a, b);
  }

  lemma EpIndexKeepsOrder(st: DnsControl, idx: string, a: seq<Item>, b: seq<Item>)
    requires st.epLister.Some? && ByIndex(st.epLister.value, EpNameNamespaceIndex, idx) == Ok(a + b)
    ensures EpIndex(st, idx) == Select(a, AsEndpoints) + Select(b, AsEndpoints)
  {
    IndexedAsKeepsOrder(st.epLister.value, EpNameNamespaceIndex, idx, AsEndpoints, a, b);
  }

  lemma EpIndexReverseKeepsOrder(st: DnsControl, ip: string, a: seq<Item>, b: seq<Item>)
    requires st.epLister.Some? && ByIndex(st.epLister.value, EpIPIndex, ip) == Ok(a + b)
    ensures EpIndexReverse(st, ip) == Select(a, AsEndpoints) + Select(b, AsEndpoints)
  {
    IndexedAsKeepsOrder(st.epLister.value, EpIPIndex, ip, AsEndpoints, a, b);
  }

  /** True when `o` is a namespace with the given name. */
  predicate NamespaceNamed(o: Item, name: string)
  {
    o.NamespaceItem? && o.ns.name == name
  }

  /** `GetNamespaceByName`: the first namespace in list order with that name. */
  method GetNamespaceByName(st: DnsControl, name: string) returns (r: Result<Namespace, string>)
    requires st.nsLister.Some?
    ensures r.Ok? ==> r.value.name == name
    ensures r.Ok? ==> exists i :: 0 <= i < |st.nsLister.value.items| &&
                                 st.nsLister.value.items[i] == NamespaceItem(r.value) &&
                                 forall j :: 0 <= j < i ==> !NamespaceNamed(st.nsLister.value.items[j], name)
    ensures r.Err? <==> forall i :: 0 <= i < |st.nsLister.value.items| ==> !NamespaceNamed(st.nsLister.value.items[i], name)
    ensures r.Err? ==> r.error == NamespaceNotFound
  {
    var os := st.nsLister.value.items;
    var k := 0;
    while k < |os|
      invariant 0 <= k <= |os|
      invariant forall j :: 0 <= j < k ==> !NamespaceNamed(os[j], name)
    {
      var o := os[k];
      if o.NamespaceItem? && o.ns.name == name {
        return Ok(o.ns);
      }
      k := k + 1;
    }
    return Err(NamespaceNotFound);
  }

  // The event handlers. The clock `now` is what `time.Now().Unix()` returns.

  function UpdateModified(st: DnsControl, now: int): DnsControl
  {
    st.(modified := now)
  }

  function Modified(st: DnsControl): int
  {
    st.modified
  }

  function Add(st: DnsControl, obj: Item, now: int): DnsControl
  {
    UpdateModified(st, now)
  }

  function Delete(st: DnsControl, obj: Item, now: int): DnsControl
  {
    UpdateModified(st, now)
  }

  /** `detectChanges` over interface values (None is a nil interface). */
  function DetectChanges(st: DnsControl, oldObj: Option<Item>, newObj: Option<Item>, now: int): (r: Run<DnsControl>)
    // Same resource version on both sides: a resync, nothing recorded.
    ensures SameVersion(oldObj, newObj) ==> r == Returns(st)
    // Only the timestamp can change, and only to `now`.
    ensures r.Returns? ==> r.value == st.(modified := r.value.modified)
    ensures r.Returns? ==> r.value.modified == st.modified || r.value.modified == now
    // Versions that differ, or a missing side: a Service or Pod is recorded.
    ensures MetaObjects(oldObj, newObj) && !SameVersion(oldObj, newObj) && Subject(oldObj, newObj).Some? &&
            (Subject(oldObj, newObj).value.ServiceItem? || Subject(oldObj, newObj).value.PodItem?) ==>
            r == Returns(st.(modified := now))
    // An Endpoints update is recorded exactly when the two sides are not equivalent.
    ensures MetaObjects(oldObj, newObj) && !SameVersion(oldObj, newObj) && oldObj.Some? && newObj.Some? &&
            oldObj.value.EndpointsItem? && newObj.value.EndpointsItem? ==>
            r == Returns(if EndpointsEquivalent(Some(oldObj.value.ep), Some(newObj.value.ep)) then st
                         else st.(modified := now))
    // Any other kind, or no object at all, is ignored.
    ensures MetaObjects(oldObj, newObj) && !SameVersion(oldObj, newObj) &&
            (Subject(oldObj, newObj).None? || !(Subject(oldObj, newObj).value.ServiceItem? ||
             Subject(oldObj, newObj).value.PodItem? || Subject(oldObj, newObj).value.EndpointsItem?)) ==>
            r == Returns(st)
    // The run-time panics: a non-meta.Object pair, or an Endpoints paired with nil or another type.
    ensures r.Panics? <==>
              || !MetaObjects(oldObj, newObj)
              || (&& !SameVersion(oldObj, newObj) && Subject(oldObj, newObj).Some?
                  && Subject(oldObj, newObj).value.EndpointsItem?
                  && !(oldObj.Some? && oldObj.value.EndpointsItem? && newObj.Some? && newObj.value.EndpointsItem?))
  {
    if oldObj.Some? && newObj.Some? && ResourceVersion(oldObj.value).None? then
      Panics("interface conversion: old object is not meta.Object")
    else if oldObj.Some? && newObj.Some? && ResourceVersion(newObj.value).None? then
      Panics("interface conversion: new object is not meta.Object")
    else if SameVersion(oldObj, newObj) then Returns(st)
    else
      match Subject(oldObj, newObj)
      case Some(ServiceItem(_)) => Returns(UpdateModified(st, now))
      case Some(PodItem(_)) => Returns(UpdateModified(st, now))
      case Some(EndpointsItem(_)) =>
        if oldObj.None? || !oldObj.value.EndpointsItem? then
          Panics("interface conversion: old object is not *object.Endpoints")
        else if newObj.None? || !newObj.value.EndpointsItem? then
          Panics("interface conversion: new object is not *object.Endpoints")
        else if !EndpointsEquivalent(Some(oldObj.value.ep), Some(newObj.value.ep)) then
          Returns(UpdateModified(st, now))
        else Returns(st)
      case _ => Returns(st)
  }

  /** When both sides are present, both must be `meta.Object`s for the
      version comparison to run. */
  predicate MetaObjects(oldObj: Option<Item>, newObj: Option<Item>)
  {
    oldObj.Some? && newObj.Some? ==>
      ResourceVersion(oldObj.value).Some? && ResourceVersion(newObj.value).Some?
  }

  /** Both sides present with the same resource version. */
  predicate SameVersion(oldObj: Option<Item>, newObj: Option<Item>)
  {
    oldObj.Some? && newObj.Some? && ResourceVersion(oldObj.value).Some? &&
    ResourceVersion(oldObj.value) == ResourceVersion(newObj.value)
  }

  /** The object the type switch inspects: the new one, or the old one when the new one is nil. */
  function Subject(oldObj: Option<Item>, newObj: Option<Item>): Option<Item>
  {
    if newObj.Some? then newObj else oldObj
  }

  function Update(st: DnsControl, oldObj: Item, newObj: Item, now: int): Run<DnsControl>
  {
    DetectChanges(st, Some(oldObj), Some(newObj), now)
  }

  /** Add and Delete always record the current time, and Modified reads back
      the value last stored, whatever it was before. */
  lemma AddDeleteRecordNow(st: DnsControl, obj: Item, now: int)
    ensures Modified(Add(st, obj, now)) == now
    ensures Modified(Delete(st, obj, now)) == now
    ensures Add(st, obj, now) == st.(modified := now) && Delete(st, obj, now) == st.(modified := now)
  {
  }

  /** The timestamp is the clock reading, not a maximum: a clock that went
      backwards moves `modified` backwards too. */
  lemma ModifiedNotMonotone(st: DnsControl, obj: Item)
    requires st.modified == 100
    ensures Modified(Add(st, obj, 50)) < Modified(st)
  {
  }

  /** An Endpoints resync with a new resource version but the same addresses
      and ports leaves the timestamp alone; a change of one address IP then
      advances it. */
  lemma EndpointsResyncThenChange(st: DnsControl, e1: Endpoints, e2: Endpoints, e3: Endpoints, now1: int, now2: int)
    requires e1.version != e2.version && e2.version != e3.version
    requires e2 == e1.(version := e2.version)
    requires |e2.subsets| > 0 && |e2.subsets[0].addresses| > 0
    requires |e3.subsets| == |e2.subsets| && |e3.subsets[0].addresses| == |e2.subsets[0].addresses|
    requires e3.subsets[0].addresses[0].ip != e2.subsets[0].addresses[0].ip
    ensures Update(st, EndpointsItem(e1), EndpointsItem(e2), now1) == Returns(st)
    ensures Update(st, EndpointsItem(e2), EndpointsItem(e3), now2) == Returns(st.(modified := now2))
  {
    assert EndpointsEquivalent(Some(e1), Some(e2));
    AddressChangeDetected(e2, e3, 0, 0);
  }
}
