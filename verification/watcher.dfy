/** The contract between the watch registry and its consumers: a
    synchronisation predicate handed to each consumer. */
module Watcher {

  /** A `HasSyncedFunc` built by the registry: true when the controller of
      every named watch has completed its initial list. The controllers'
      progress is not part of the value; it is passed in as `synced`, the
      names whose controller reports `HasSynced()`. */
  datatype SyncFn = SyncOver(names: set<string>)

  function Eval(f: SyncFn, synced: set<string>): (r: bool)
    ensures r <==> forall n :: n in f.names ==> n in synced
    ensures f.names == {} ==> r
  {
    f.names <= synced
  }
}
