/** The watch registry of the `k8s_api` plugin: merges the watches every
    consumer asks for (first consumer to name a watch wins), builds one
    informer per watch name, hands every lister to every consumer, and gives
    each consumer a sync predicate over the watches it asked for itself. */
module Registry {
  import opened Wrappers
  import opened Store
  import opened Watcher
  import opened ApiControl

  /** The `APIWatcher` interface of a consumer of type W whose watch
      factories have type F. */
  datatype Ops<!W, F> = Ops(
    informers: W -> map<string, F>,
    setIndexer: (W, string, Handle) -> Result<W, string>,
    setHasSynced: (W, SyncFn) -> W)

  /** The closure handed to a consumer calls `Informers()` again when it is
      evaluated, so the registry relies on a consumer's watch names not
      changing while it is being wired. */
  ghost predicate Stable<W(!new), F>(ops: Ops<W, F>)
  {
    forall w, n, h :: ops.setIndexer(w, n, h).Ok? ==>
      ops.informers(ops.setIndexer(w, n, h).value).Keys == ops.informers(w).Keys
  }

  /** Plugin `p` (None when it does not implement APIWatcher) asks for watch `n`. */
  predicate Declares<W, F>(ops: Ops<W, F>, p: Option<W>, n: string)
  {
    p.Some? && n in ops.informers(p.value)
  }

  /** Plugin `i` is the first in server-block order to ask for watch `n`. */
  predicate FirstDeclarer<W, F>(ops: Ops<W, F>, plugins: seq<Option<W>>, i: nat, n: string)
  {
    i < |plugins| && Declares(ops, plugins[i], n) &&
    forall j :: 0 <= j < i ==> !Declares(ops, plugins[j], n)
  }

  /** The merge loop: plugins in order; a name already present is skipped. */
  function Merge<W, F>(ops: Ops<W, F>, plugins: seq<Option<W>>): (m: map<string, F>)
    ensures forall n :: n in m <==> exists i :: 0 <= i < |plugins| && Declares(ops, plugins[i], n)
    ensures forall n, i: nat :: FirstDeclarer(ops, plugins, i, n) ==> n in m && m[n] == ops.informers(plugins[i].value)[n]
    decreases |plugins|
  {
    if plugins == [] then map[]
    else
      var init := plugins[..|plugins| - 1];
      var acc := Merge(ops, init);
      var last := plugins[|plugins| - 1];
      assert forall i :: 0 <= i < |init| ==> init[i] == plugins[i];
      if last.None? then
        assert forall i: nat, n :: FirstDeclarer(ops, plugins, i, n) ==> FirstDeclarer(ops, init, i, n);
        acc
      else
        var declared := ops.informers(last.value);
        var m := map n | n in acc.Keys + declared.Keys :: if n in acc then acc[n] else declared[n];
        assert forall n, i: nat :: FirstDeclarer(ops, plugins, i, n) && i < |init| ==> FirstDeclarer(ops, init, i, n);
        m
  }

  /** A plugin that is not a watcher contributes nothing. */
  lemma MergeSkipsNonWatchers<W, F>(ops: Ops<W, F>, plugins: seq<Option<W>>)
    ensures Merge(ops, plugins + [None]) == Merge(ops, plugins)
  {
    assert (plugins + [None])[..|plugins|] == plugins;
  }

  /** Every consumer's own watch names are among the merged ones, so the
      closure built for it never looks up an informer that was not built. */
  lemma OwnNamesMerged<W, F>(ops: Ops<W, F>, plugins: seq<Option<W>>, i: nat)
    requires i < |plugins| && plugins[i].Some?
    ensures ops.informers(plugins[i].value).Keys <= Merge(ops, plugins).Keys
  {
    forall n | n in ops.informers(plugins[i].value)
      ensures n in Merge(ops, plugins)
    {
      assert Declares(ops, plugins[i], n);
    }
  }

  /** One informer per merged name, built by the winning factory. */
  function BuildInformers<F>(merged: map<string, F>, build: F -> Handle): (infs: map<string, Informer>)
    ensures infs.Keys == merged.Keys
    ensures forall n :: n in infs ==> infs[n] == Informer(build(merged[n]))
  {
    map n | n in merged :: Informer(build(merged[n]))
  }

  /** The calls the registry makes on its consumers, in order. */
  datatype Call =
    | SetIndexerCall(plugin: nat, name: string, handle: Handle, failed: bool)
    | SetHasSyncedCall(plugin: nat, fn: SyncFn)

  /** `calls` are SetIndexer calls of plugin `i` following `order`, each with
      the lister of the named informer, and only the last may have failed. */
  ghost predicate IndexerCalls(calls: seq<Call>, i: nat, order: seq<string>, infs: map<string, Informer>)
  {
    && |calls| <= |order|
    && forall k :: 0 <= k < |calls| ==>
         && calls[k].SetIndexerCall? && calls[k].plugin == i && calls[k].name == order[k]
         && order[k] in infs && calls[k].handle == infs[order[k]].lister
         && (calls[k].failed ==> k == |calls| - 1)
  }

  /** The inner loop for one consumer: SetIndexer for every informer in map
      order, stopping at the first error. */
  function SetIndexers<W(!new), F>(ops: Ops<W, F>, w: W, i: nat, order: seq<string>, infs: map<string, Informer>)
    : (r: (Result<W, string>, seq<Call>))
    requires forall k :: 0 <= k < |order| ==> order[k] in infs
    ensures IndexerCalls(r.1, i, order, infs)
    ensures r.0.Ok? ==> |r.1| == |order| && forall k :: 0 <= k < |r.1| ==> !r.1[k].failed
    ensures r.0.Err? ==> |r.1| > 0 && r.1[|r.1| - 1].failed
    ensures r.0.Ok? && Stable(ops) ==> ops.informers(r.0.value).Keys == ops.informers(w).Keys
    decreases |order|
  {
    if order == [] then (Ok(w), [])
    else
      var n := order[0];
      var h := infs[n].lister;
      match ops.setIndexer(w, n, h)
      case Err(e) => (Err(e), [SetIndexerCall(i, n, h, true)])
      case Ok(w') =>
        var (rest, calls) := SetIndexers(ops, w', i, order[1..], infs);
        (rest, [SetIndexerCall(i, n, h, false)] + calls)
  }

  /** The outer loop over the plugins from index `from` on: wires each
      watcher, then gives it a sync predicate over its own watch names. */
  function Wire<W(!new), F>(ops: Ops<W, F>, plugins: seq<Option<W>>, orders: seq<seq<string>>,
                            infs: map<string, Informer>, from: nat)
    : (r: (Result<seq<Option<W>>, string>, seq<Call>))
    requires |orders| == |plugins| && from <= |plugins|
    requires forall i, k :: 0 <= i < |orders| && 0 <= k < |orders[i]| ==> orders[i][k] in infs
    ensures r.0.Ok? ==> |r.0.value| == |plugins| - from
    ensures r.0.Ok? ==> forall k :: 0 <= k < |r.0.value| ==> (r.0.value[k].Some? <==> plugins[from + k].Some?)
    decreases |plugins| - from
  {
    if from == |plugins| then (Ok([]), [])
    else
      match plugins[from]
      case None =>
        var (rest, calls) := Wire(ops, plugins, orders, infs, from + 1);
        (if rest.Ok? then Ok([None] + rest.value) else rest, calls)
      case Some(w) =>
        var (r1, c1) := SetIndexers(ops, w, from, orders[from], infs);
        match r1
        case Err(e) => (Err(e), c1)
        case Ok(w1) =>
          var f := SyncOver(ops.informers(w1).Keys);
          var (rest, c2) := Wire(ops, plugins, orders, infs, from + 1);
          (if rest.Ok? then Ok([Some(ops.setHasSynced(w1, f))] + rest.value) else rest,
           c1 + [SetHasSyncedCall(from, f)] + c2)
  }

  /** Every SetIndexer call passes the lister of the informer it names, so
      two consumers asking for the same watch get the same handle. */
  lemma {:induction false} WireHandsSharedListers<W(!new), F>(ops: Ops<W, F>, plugins: seq<Option<W>>,
      orders: seq<seq<string>>, infs: map<string, Informer>, from: nat)
    requires |orders| == |plugins| && from <= |plugins|
    requires forall i, k :: 0 <= i < |orders| && 0 <= k < |orders[i]| ==> orders[i][k] in infs
    ensures forall c :: c in Wire(ops, plugins, orders, infs, from).1 ==> from <= c.plugin < |plugins| && plugins[c.plugin].Some?
    ensures forall c :: c in Wire(ops, plugins, orders, infs, from).1 && c.SetIndexerCall? ==>
              c.name in infs && c.handle == infs[c.name].lister
    decreases |plugins| - from
  {
    if from < |plugins| {
      WireHandsSharedListers(ops, plugins, orders, infs, from + 1);
      if plugins[from].Some? {
        var (r1, c1) := SetIndexers(ops, plugins[from].value, from, orders[from], infs);
        assert forall c :: c in c1 ==> exists k :: 0 <= k < |c1| && c1[k] == c;
      }
    }
  }

  /** On success every watcher was given every informer in its iteration
      order, no call failed, and each was then handed a sync predicate over
      its own watch names. */
  lemma {:induction false} WireSuccess<W(!new), F>(ops: Ops<W, F>, plugins: seq<Option<W>>,
      orders: seq<seq<string>>, infs: map<string, Informer>, from: nat)
    requires |orders| == |plugins| && from <= |plugins|
    requires forall i, k :: 0 <= i < |orders| && 0 <= k < |orders[i]| ==> orders[i][k] in infs
    requires Wire(ops, plugins, orders, infs, from).0.Ok?
    ensures forall c :: c in Wire(ops, plugins, orders, infs, from).1 && c.SetIndexerCall? ==> !c.failed
    ensures forall i, k :: from <= i < |plugins| && plugins[i].Some? && 0 <= k < |orders[i]| ==>
              SetIndexerCall(i, orders[i][k], infs[orders[i][k]].lister, false) in Wire(ops, plugins, orders, infs, from).1
    ensures Stable(ops) ==> forall i :: from <= i < |plugins| && plugins[i].Some? ==>
              SetHasSyncedCall(i, SyncOver(ops.informers(plugins[i].value).Keys)) in Wire(ops, plugins, orders, infs, from).1
    decreases |plugins| - from
  {
    if from < |plugins| {
      WireSuccess(ops, plugins, orders, infs, from + 1);
      if plugins[from].Some? {
        var w := plugins[from].value;
        var (r1, c1) := SetIndexers(ops, w, from, orders[from], infs);
        var calls := Wire(ops, plugins, orders, infs, from).1;
        var c2 := Wire(ops, plugins, orders, infs, from + 1).1;
        assert calls == c1 + [SetHasSyncedCall(from, SyncOver(ops.informers(r1.value).Keys))] + c2;
        forall k | 0 <= k < |orders[from]|
          ensures SetIndexerCall(from, orders[from][k], infs[orders[from][k]].lister, false) in calls
        {
          assert calls[k] == c1[k];
        }
        assert forall c :: c in c1 ==> exists k :: 0 <= k < |c1| && c1[k] == c;
      }
    }
  }

  /** A SetIndexer error aborts the wiring: it is the last call made, and
      no earlier call failed. */
  lemma {:induction false} WireAbortsOnError<W(!new), F>(ops: Ops<W, F>, plugins: seq<Option<W>>,
      orders: seq<seq<string>>, infs: map<string, Informer>, from: nat)
    requires |orders| == |plugins| && from <= |plugins|
    requires forall i, k :: 0 <= i < |orders| && 0 <= k < |orders[i]| ==> orders[i][k] in infs
    requires Wire(ops, plugins, orders, infs, from).0.Err?
    ensures var calls := Wire(ops, plugins, orders, infs, from).1;
      && |calls| > 0 && calls[|calls| - 1].SetIndexerCall? && calls[|calls| - 1].failed
      && forall k :: 0 <= k < |calls| - 1 ==> !(calls[k].SetIndexerCall? && calls[k].failed)
    decreases |plugins| - from
  {
    if from < |plugins| {
      if plugins[from].None? {
        WireAbortsOnError(ops, plugins, orders, infs, from + 1);
      } else {
        var w := plugins[from].value;
        var (r1, c1) := SetIndexers(ops, w, from, orders[from], infs);
        if r1.Ok? {
          WireAbortsOnError(ops, plugins, orders, infs, from + 1);
          var c2 := Wire(ops, plugins, orders, infs, from + 1).1;
          var calls := c1 + [SetHasSyncedCall(from, SyncOver(ops.informers(r1.value).Keys))] + c2;
          forall k | 0 <= k < |calls| - 1 ensures !(calls[k].SetIndexerCall? && calls[k].failed) {
            if k >= |c1| + 1 {
              assert calls[k] == c2[k - |c1| - 1];
            }
          }
        }
      }
    }
  }

  /** The wiring holds a merged informer for every name any plugin iterates over. */
  lemma OrdersNameInformers<W, F>(ops: Ops<W, F>, plugins: seq<Option<W>>, orders: seq<seq<string>>,
                                  infs: map<string, Informer>)
    requires |orders| == |plugins|
    requires forall i :: 0 <= i < |orders| ==> Enumerates(orders[i], infs.Keys)
    ensures forall i, k :: 0 <= i < |orders| && 0 <= k < |orders[i]| ==> orders[i][k] in infs
  {
    forall i, k | 0 <= i < |orders| && 0 <= k < |orders[i]| ensures orders[i][k] in infs {
      assert orders[i][k] in orders[i];
    }
  }

  /** `getAPIWatchers`: a failure to obtain a client is returned before
      anything else happens; otherwise the merged watches are built once
      each and every consumer is wired. `orders[i]` is the map iteration
      order plugin `i` sees. */
  function GetAPIWatchers<W(!new), F>(ops: Ops<W, F>, clientErr: Option<string>, plugins: seq<Option<W>>,
                                      orders: seq<seq<string>>, build: F -> Handle)
    : (r: (Result<(seq<Option<W>>, ApiControl), string>, seq<Call>))
    requires |orders| == |plugins|
    requires forall i :: 0 <= i < |orders| ==> Enumerates(orders[i], Merge(ops, plugins).Keys)
    ensures clientErr.Some? ==> r == (Err(clientErr.value), [])
    ensures r.0.Ok? ==> Valid(r.0.value.1) && !r.0.value.1.shutdown
    ensures r.0.Ok? ==> r.0.value.1.informers.Keys == Merge(ops, plugins).Keys
    ensures r.0.Ok? ==> forall n, i: nat :: FirstDeclarer(ops, plugins, i, n) ==>
              r.0.value.1.informers[n] == Informer(build(ops.informers(plugins[i].value)[n]))
    ensures r.0.Ok? ==> |r.0.value.0| == |plugins|
    ensures r.0.Ok? ==> forall i :: 0 <= i < |plugins| ==> (r.0.value.0[i].Some? <==> plugins[i].Some?)
  {
    if clientErr.Some? then (Err(clientErr.value), [])
    else
      var infs := BuildInformers(Merge(ops, plugins), build);
      OrdersNameInformers(ops, plugins, orders, infs);
      var (wired, calls) := Wire(ops, plugins, orders, infs, 0);
      match wired
      case Err(e) => (Err(e), calls)
      case Ok(ws) => (Ok((ws, NewApiControl(infs))), calls)
  }

  /** Every SetIndexer call made during setup passes the lister built for
      the name it carries: consumers asking for the same watch share one
      informer and one handle. */
  lemma GetAPIWatchersSharesListers<W(!new), F>(ops: Ops<W, F>, plugins: seq<Option<W>>,
                                                orders: seq<seq<string>>, build: F -> Handle)
    requires |orders| == |plugins|
    requires forall i :: 0 <= i < |orders| ==> Enumerates(orders[i], Merge(ops, plugins).Keys)
    ensures forall c :: c in GetAPIWatchers(ops, None, plugins, orders, build).1 && c.SetIndexerCall? ==>
              c.name in Merge(ops, plugins) && c.handle == build(Merge(ops, plugins)[c.name])
  {
    var infs := BuildInformers(Merge(ops, plugins), build);
    OrdersNameInformers(ops, plugins, orders, infs);
    WireHandsSharedListers(ops, plugins, orders, infs, 0);
  }

  /** On success every watcher got SetIndexer for every built informer with
      that informer's lister, and a sync predicate over exactly its own
      watch names, all of which were built. */
  lemma GetAPIWatchersSuccess<W(!new), F>(ops: Ops<W, F>, plugins: seq<Option<W>>,
                                          orders: seq<seq<string>>, build: F -> Handle)
    requires |orders| == |plugins|
    requires forall i :: 0 <= i < |orders| ==> Enumerates(orders[i], Merge(ops, plugins).Keys)
    requires GetAPIWatchers(ops, None, plugins, orders, build).0.Ok?
    ensures forall i, n :: 0 <= i < |plugins| && plugins[i].Some? && n in Merge(ops, plugins) ==>
              SetIndexerCall(i, n, build(Merge(ops, plugins)[n]), false) in GetAPIWatchers(ops, None, plugins, orders, build).1
    ensures forall c :: c in GetAPIWatchers(ops, None, plugins, orders, build).1 && c.SetIndexerCall? ==> !c.failed
    ensures Stable(ops) ==> forall i :: 0 <= i < |plugins| && plugins[i].Some? ==>
              && SetHasSyncedCall(i, SyncOver(ops.informers(plugins[i].value).Keys)) in GetAPIWatchers(ops, None, plugins, orders, build).1
              && ops.informers(plugins[i].value).Keys <= Merge(ops, plugins).Keys
  {
    var infs := BuildInformers(Merge(ops, plugins), build);
    OrdersNameInformers(ops, plugins, orders, infs);
    var calls := Wire(ops, plugins, orders, infs, 0).1;
    WireSuccess(ops, plugins, orders, infs, 0);
    forall i, n | 0 <= i < |plugins| && plugins[i].Some? && n in infs
      ensures SetIndexerCall(i, n, infs[n].lister, false) in calls
    {
      var k :| 0 <= k < |orders[i]| && orders[i][k] == n;
    }
    forall i | 0 <= i < |plugins| && plugins[i].Some?
      ensures ops.informers(plugins[i].value).Keys <= infs.Keys
    {
      OwnNamesMerged(ops, plugins, i);
    }
  }

  /** Whatever the iteration orders, setup fails exactly when some SetIndexer
      call failed, and that failing call is the last call made. */
  lemma GetAPIWatchersAborts<W(!new), F>(ops: Ops<W, F>, plugins: seq<Option<W>>,
                                         orders: seq<seq<string>>, build: F -> Handle)
    requires |orders| == |plugins|
    requires forall i :: 0 <= i < |orders| ==> Enumerates(orders[i], Merge(ops, plugins).Keys)
    ensures var calls := GetAPIWatchers(ops, None, plugins, orders, build).1;
      GetAPIWatchers(ops, None, plugins, orders, build).0.Err? <==> exists c :: c in calls && c.SetIndexerCall? && c.failed
    ensures var calls := GetAPIWatchers(ops, None, plugins, orders, build).1;
      GetAPIWatchers(ops, None, plugins, orders, build).0.Err? ==>
        |calls| > 0 && calls[|calls| - 1].SetIndexerCall? && calls[|calls| - 1].failed
  {
    var infs := BuildInformers(Merge(ops, plugins), build);
    OrdersNameInformers(ops, plugins, orders, infs);
    var calls := Wire(ops, plugins, orders, infs, 0).1;
    if Wire(ops, plugins, orders, infs, 0).0.Ok? {
      WireSuccess(ops, plugins, orders, infs, 0);
    } else {
      WireAbortsOnError(ops, plugins, orders, infs, 0);
      assert calls[|calls| - 1] in calls;
    }
  }

  /** Every consumer accepts the lister of every informer, whatever state it is in. */
  ghost predicate AcceptsAll<W(!new), F>(ops: Ops<W, F>, infs: map<string, Informer>)
  {
    forall v: W, n :: n in infs ==> ops.setIndexer(v, n, infs[n].lister).Ok?
  }

  lemma {:induction false} SetIndexersSucceed<W(!new), F>(ops: Ops<W, F>, w: W, i: nat, order: seq<string>,
                                                         infs: map<string, Informer>)
    requires forall k :: 0 <= k < |order| ==> order[k] in infs
    requires AcceptsAll(ops, infs)
    ensures SetIndexers(ops, w, i, order, infs).0.Ok?
    decreases |order|
  {
    if order != [] {
      var w' := ops.setIndexer(w, order[0], infs[order[0]].lister).value;
      SetIndexersSucceed(ops, w', i, order[1..], infs);
    }
  }

  lemma {:induction false} WireSucceeds<W(!new), F>(ops: Ops<W, F>, plugins: seq<Option<W>>,
      orders: seq<seq<string>>, infs: map<string, Informer>, from: nat)
    requires |orders| == |plugins| && from <= |plugins|
    requires forall i, k :: 0 <= i < |orders| && 0 <= k < |orders[i]| ==> orders[i][k] in infs
    requires AcceptsAll(ops, infs)
    ensures Wire(ops, plugins, orders, infs, from).0.Ok?
    decreases |plugins| - from
  {
    if from < |plugins| {
      WireSucceeds(ops, plugins, orders, infs, from + 1);
      if plugins[from].Some? {
        SetIndexersSucceed(ops, plugins[from].value, from, orders[from], infs);
      }
    }
  }

  /** With a client, setup succeeds whenever every consumer accepts the
      lister built for every merged watch, and the controller then holds
      one informer per merged watch. */
  lemma GetAPIWatchersSucceeds<W(!new), F>(ops: Ops<W, F>, plugins: seq<Option<W>>,
                                           orders: seq<seq<string>>, build: F -> Handle)
    requires |orders| == |plugins|
    requires forall i :: 0 <= i < |orders| ==> Enumerates(orders[i], Merge(ops, plugins).Keys)
    requires forall v: W, n :: n in Merge(ops, plugins) ==> ops.setIndexer(v, n, build(Merge(ops, plugins)[n])).Ok?
    ensures GetAPIWatchers(ops, None, plugins, orders, build).0.Ok?
  {
    var infs := BuildInformers(Merge(ops, plugins), build);
    OrdersNameInformers(ops, plugins, orders, infs);
    WireSucceeds(ops, plugins, orders, infs, 0);
  }

  /** The startup hook of `RegisterKubeCache`. `setup` is what
      getAPIWatchers produced (its error, or the controller it built);
      `ticks[k]` is the set of controllers reporting HasSynced at the k-th
      100 ms tick before the 5 s timeout fires. The hook fails only when
      setup failed; it returns nil whether the gate opened (`ready`) or the
      wait timed out. */
  method Startup(setup: Result<ApiControl, string>, order: seq<string>, ticks: seq<set<string>>)
    returns (err: Option<string>, ready: bool)
    requires setup.Ok? ==> Enumerates(order, setup.value.informers.Keys)
    ensures setup.Err? ==> err == Some(setup.error) && !ready
    ensures setup.Ok? ==> err == None
    ensures setup.Ok? ==> (ready <==> exists k :: 0 <= k < |ticks| && AllSynced(setup.value, ticks[k]))
  {
    if setup.Err? {
      return Some(setup.error), false;
    }
    var api := setup.value;
    var k := 0;
    while k < |ticks|
      invariant 0 <= k <= |ticks|
      invariant forall j :: 0 <= j < k ==> !AllSynced(api, ticks[j])
    {
      var synced := HasSynced(api, order, ticks[k]);
      if synced {
        return None, true;
      }
      k := k + 1;
    }
    return None, false;
  }
}
