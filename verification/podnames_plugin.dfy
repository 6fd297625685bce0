/** The podnames example consumer: its state and its side of the registry
    protocol. It asks for no watch of its own and borrows the pod lister
    of whichever consumer asked for "pod". */
module PodNamesPlugin {
  import opened Wrappers
  import opened Store
  import opened Watcher

  const UnexpectedListerType := "unexpected lister type"

  /** `ttl` is a uint32 in the source; the parser only stores values in [0, 3600]. */
  datatype PodNames = PodNames(zones: seq<string>, podIndexer: Option<Handle>, ttl: int)

  /** `Informers` returns a nil map. */
  function Informers<F>(p: PodNames): (m: map<string, F>)
    ensures forall n :: n !in m
  {
    map[]
  }

  /** `SetIndexer`: only the "pod" lister is kept, and it must be an Indexer. */
  function SetIndexer(p: PodNames, name: string, h: Handle): (r: Result<PodNames, string>)
    ensures name != "pod" ==> r == Ok(p)
    ensures name == "pod" && !IsIndexer(h.kind) ==> r == Err(UnexpectedListerType)
    ensures name == "pod" && IsIndexer(h.kind) ==> r.Ok? && r.value.podIndexer == Some(h)
    ensures r.Ok? ==> r.value.zones == p.zones && r.value.ttl == p.ttl
  {
    if name != "pod" then Ok(p)
    else if !IsIndexer(h.kind) then Err(UnexpectedListerType)
    else Ok(p.(podIndexer := Some(h)))
  }

  /** `SetHasSynced` does nothing: podnames never waits for the cache. */
  function SetHasSynced(p: PodNames, f: SyncFn): PodNames
  {
    p
  }

  /** Whatever sequence of listers the registry hands over, the pod indexer
      ends as the last Indexer given under "pod", or stays as it was. */
  lemma {:induction false} LastPodIndexerKept(p: PodNames, calls: seq<(string, Handle)>)
    requires forall i :: 0 <= i < |calls| ==> calls[i].0 != "pod" || IsIndexer(calls[i].1.kind)
    ensures SetIndexerAll(p, calls).Ok?
    ensures SetIndexerAll(p, calls).value.podIndexer ==
      (if exists i :: 0 <= i < |calls| && calls[i].0 == "pod"
       then Some(calls[LastPod(calls)].1) else p.podIndexer)
    decreases |calls|
  {
    if calls != [] {
      var init := calls[..|calls| - 1];
      assert forall i :: 0 <= i < |init| ==> init[i] == calls[i];
      LastPodIndexerKept(p, init);
    }
  }

  /** The index of the last "pod" entry. */
  function LastPod(calls: seq<(string, Handle)>): (i: nat)
    requires exists i :: 0 <= i < |calls| && calls[i].0 == "pod"
    ensures i < |calls| && calls[i].0 == "pod"
    ensures forall j :: i < j < |calls| ==> calls[j].0 != "pod"
  {
    if calls[|calls| - 1].0 == "pod" then |calls| - 1
    else
      var init := calls[..|calls| - 1];
      assert forall i :: 0 <= i < |init| ==> init[i] == calls[i];
      LastPod(init)
  }

  /** A run of SetIndexer calls, stopping at the first error. */
  function SetIndexerAll(p: PodNames, calls: seq<(string, Handle)>): Result<PodNames, string>
    decreases |calls|
  {
    if calls == [] then Ok(p)
    else
      match SetIndexerAll(p, calls[..|calls| - 1])
      case Err(e) => Err(e)
      case Ok(q) => SetIndexer(q, calls[|calls| - 1].0, calls[|calls| - 1].1)
  }
}
