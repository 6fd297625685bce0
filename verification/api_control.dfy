/** The shared controller built by the registry: one informer per watch
    name, an all-or-nothing stop channel and the aggregate sync gate. */
module ApiControl {
  import opened Wrappers
  import opened Store

  const ShutdownInProgress := "shutdown already in progress"

  /** An informer: its controller is represented only by its name in the
      `synced` sets passed to the sync queries; its lister is the handle. */
  datatype Informer = Informer(lister: Handle)

  datatype Channel = Open | Closed

  datatype ApiControl = ApiControl(informers: map<string, Informer>, shutdown: bool, stopCh: Channel)

  /** The stop channel is closed exactly when shutdown has been recorded. */
  predicate Valid(api: ApiControl)
  {
    api.shutdown <==> api.stopCh == Closed
  }

  function NewApiControl(informers: map<string, Informer>): (api: ApiControl)
    ensures Valid(api) && !api.shutdown && api.informers == informers
  {
    ApiControl(informers, false, Open)
  }

  /** Go's `close`: closing a closed channel panics. */
  function Close(ch: Channel): Run<Channel>
  {
    if ch == Closed then Panics("close of closed channel") else Returns(Closed)
  }

  /** `Stop`: the first call closes the channel and returns nil; later calls
      report that shutdown is in progress and touch nothing. */
  function Stop(api: ApiControl): (r: Run<(ApiControl, Option<string>)>)
    requires Valid(api)
    ensures r.Returns? && Valid(r.value.0) && r.value.0.shutdown
    ensures r.value.0.informers == api.informers
    ensures !api.shutdown ==> r.value.1 == None && r.value.0.stopCh == Closed
    ensures api.shutdown ==> r.value == (api, Some(ShutdownInProgress))
  {
    if !api.shutdown then
      match Close(api.stopCh)
      case Panics(why) => Panics(why)
      case Returns(ch) => Returns((api.(stopCh := ch, shutdown := true), None))
    else Returns((api, Some(ShutdownInProgress)))
  }

  /** `n` successive Stop calls, with the error each returned. */
  function StopTimes(api: ApiControl, n: nat): (r: Run<(ApiControl, seq<Option<string>>)>)
    requires Valid(api)
    decreases n
  {
    if n == 0 then Returns((api, []))
    else
      match Stop(api)
      case Panics(why) => Panics(why)
      case Returns((next, err)) =>
        match StopTimes(next, n - 1)
        case Panics(why) => Panics(why)
        case Returns((last, errs)) => Returns((last, [err] + errs))
  }

  /** From a running controller, any number of stops never closes the
      channel twice: exactly the first returns nil, every later one reports
      shutdown in progress, and shutdown stays recorded. */
  lemma {:induction false} StopOnlyOnce(api: ApiControl, n: nat)
    requires Valid(api)
    ensures StopTimes(api, n).Returns?
    ensures |StopTimes(api, n).value.1| == n
    ensures n > 0 ==> StopTimes(api, n).value.0.shutdown && StopTimes(api, n).value.0.stopCh == Closed
    ensures forall i :: 0 <= i < n && (i > 0 || api.shutdown) ==>
              StopTimes(api, n).value.1[i] == Some(ShutdownInProgress)
    ensures n > 0 && !api.shutdown ==> StopTimes(api, n).value.1[0] == None
    decreases n
  {
    if n > 0 {
      var next := Stop(api).value.0;
      StopOnlyOnce(next, n - 1);
    }
  }

  /** The aggregate sync gate: every informer's controller has synced;
      vacuously true with no informers. */
  predicate AllSynced(api: ApiControl, synced: set<string>)
  {
    forall n :: n in api.informers ==> n in synced
  }

  /** `order` lists every informer name once: a Go map iteration order. */
  ghost predicate Enumerates(order: seq<string>, keys: set<string>)
  {
    && (forall n :: n in order <==> n in keys)
    && (forall i, j :: 0 <= i < j < |order| ==> order[i] != order[j])
  }

  /** `HasSynced`: walks the informers in map order and stops at the first
      controller that has not synced. */
  method HasSynced(api: ApiControl, order: seq<string>, synced: set<string>) returns (r: bool)
    requires Enumerates(order, api.informers.Keys)
    ensures r <==> AllSynced(api, synced)
    ensures api.informers == map[] ==> r
  {
    var k := 0;
    while k < |order|
      invariant 0 <= k <= |order|
      invariant forall j :: 0 <= j < k ==> order[j] in synced
    {
      if order[k] !in synced {
        return false;
      }
      k := k + 1;
    }
    return true;
  }
}
