/** The two example consumers plugged into the registry together: the
    kubernetes controller, which asks for the watches, and podnames, which
    asks for none and borrows the pod indexer. */
module Consumers {
  import opened Wrappers
  import opened Store
  import opened Watcher
  import opened KubeController
  import opened KubeApiWatcher
  import opened PodNamesPlugin
  import Registry
  import ApiControl

  datatype Consumer = KubeConsumer(k: Kubernetes) | PodNamesConsumer(p: PodNames)

  function ConsumerInformers(c: Consumer): map<string, Watch>
  {
    match c
    case KubeConsumer(k) => KubeApiWatcher.Informers(k.opts)
    case PodNamesConsumer(p) => PodNamesPlugin.Informers(p)
  }

  function ConsumerSetIndexer(c: Consumer, name: string, h: Handle): Result<Consumer, string>
  {
    match c
    case KubeConsumer(k) =>
      (match KubeApiWatcher.SetIndexer(k, name, h)
       case Ok(k') => Ok(KubeConsumer(k'))
       case Err(e) => Err(e))
    case PodNamesConsumer(p) =>
      (match PodNamesPlugin.SetIndexer(p, name, h)
       case Ok(p') => Ok(PodNamesConsumer(p'))
       case Err(e) => Err(e))
  }

  function ConsumerSetHasSynced(c: Consumer, f: SyncFn): Consumer
  {
    match c
    case KubeConsumer(k) => KubeConsumer(KubeApiWatcher.SetHasSynced(k, f))
    case PodNamesConsumer(p) => PodNamesConsumer(PodNamesPlugin.SetHasSynced(p, f))
  }

  const ConsumerOps: Registry.Ops<Consumer, Watch> :=
    Registry.Ops(ConsumerInformers, ConsumerSetIndexer, ConsumerSetHasSynced)

  /** Handing a consumer a lister never changes which watches it asks for,
      so the sync predicate it is given covers the names it declared. */
  lemma ConsumersStable()
    ensures Registry.Stable(ConsumerOps)
  {
    forall c, n, h | ConsumerSetIndexer(c, n, h).Ok?
      ensures ConsumerInformers(ConsumerSetIndexer(c, n, h).value).Keys == ConsumerInformers(c).Keys
    {
      match c
      case KubeConsumer(k) =>
      case PodNamesConsumer(p) =>
    }
  }

  /** The informer factory builds the lister kind its watch describes. */
  ghost predicate BuildsDeclaredKind(build: Watch -> Handle)
  {
    forall w :: build(w).kind == w.listerKind
  }

  /** Every merged watch comes from some kubernetes consumer's table, and
      each consumer accepts the lister built for it. */
  lemma {:induction false} ConsumersAcceptListers(plugins: seq<Option<Consumer>>, build: Watch -> Handle)
    requires BuildsDeclaredKind(build)
    ensures forall v: Consumer, n :: n in Registry.Merge(ConsumerOps, plugins) ==>
              ConsumerSetIndexer(v, n, build(Registry.Merge(ConsumerOps, plugins)[n])).Ok?
  {
    var m := Registry.Merge(ConsumerOps, plugins);
    forall v: Consumer, n | n in m
      ensures ConsumerSetIndexer(v, n, build(m[n])).Ok?
    {
      var i :| 0 <= i < |plugins| && Registry.Declares(ConsumerOps, plugins[i], n);
      var i0 := FirstIndex(plugins, n, i);
      var k := plugins[i0].value.k;
      assert m[n] == KubeApiWatcher.Informers(k.opts)[n];
      WatchListerAccepted(k.opts, v, n, build);
    }
  }

  /** The lister built for one of the kubernetes watches is accepted by
      both consumers under that watch's name. */
  lemma WatchListerAccepted(opts: KubeOpts, v: Consumer, n: string, build: Watch -> Handle)
    requires BuildsDeclaredKind(build) && n in KubeApiWatcher.Informers(opts)
    ensures ConsumerSetIndexer(v, n, build(KubeApiWatcher.Informers(opts)[n])).Ok?
  {
    var w := KubeApiWatcher.Informers(opts)[n];
    assert build(w).kind == w.listerKind;
    assert n == "namespace" || IsIndexer(w.listerKind);
  }

  /** The first plugin to declare `n`, at or before a known declarer `i`. */
  function FirstIndex(plugins: seq<Option<Consumer>>, n: string, i: nat): (i0: nat)
    requires i < |plugins| && Registry.Declares(ConsumerOps, plugins[i], n)
    ensures i0 <= i && Registry.FirstDeclarer(ConsumerOps, plugins, i0, n)
    ensures plugins[i0].value.KubeConsumer?
    decreases i
  {
    if forall j :: 0 <= j < i ==> !Registry.Declares(ConsumerOps, plugins[j], n) then i
    else
      var j :| 0 <= j < i && Registry.Declares(ConsumerOps, plugins[j], n);
      FirstIndex(plugins, n, j)
  }

  /** A kubernetes consumer with the pod cache on, followed by podnames:
      setup succeeds, and both are handed the one pod indexer built from the
      kubernetes pod watch. */
  lemma PodNamesBorrowsPodIndexer(k: Kubernetes, p: PodNames, orders: seq<seq<string>>, build: Watch -> Handle)
    requires k.opts.initPodCache && BuildsDeclaredKind(build)
    requires |orders| == 2
    requires forall i :: 0 <= i < 2 ==>
               ApiControl.Enumerates(orders[i], Registry.Merge(ConsumerOps, [Some(KubeConsumer(k)), Some(PodNamesConsumer(p))]).Keys)
    ensures var plugins := [Some(KubeConsumer(k)), Some(PodNamesConsumer(p))];
      var r := Registry.GetAPIWatchers(ConsumerOps, None, plugins, orders, build);
      var pod := build(KubeApiWatcher.Informers(k.opts)["pod"]);
      && r.0.Ok?
      && pod.kind == IndexerKind
      && Registry.SetIndexerCall(0, "pod", pod, false) in r.1
      && Registry.SetIndexerCall(1, "pod", pod, false) in r.1
  {
    var plugins := [Some(KubeConsumer(k)), Some(PodNamesConsumer(p))];
    ConsumersAcceptListers(plugins, build);
    Registry.GetAPIWatchersSucceeds(ConsumerOps, plugins, orders, build);
    Registry.GetAPIWatchersSuccess(ConsumerOps, plugins, orders, build);
    assert Registry.FirstDeclarer(ConsumerOps, plugins, 0, "pod");
  }
}
