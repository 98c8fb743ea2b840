/** `utils::find_or_replay`: use the live order if the registry has one;
    otherwise rebuild it from its whole log and spawn it. */
module Adapter {
  import opened Wrappers
  import opened OrderIds
  import opened Errors
  import opened OrderEvents
  import opened OrderAggregate
  import opened ProcessManager

  /** How a failed replay reaches the caller: a history that breaks the
      lifecycle is `CorruptHistory` (the Rust projection panics there); any
      other replay failure is `Formation`. */
  function ReplayFailure(err: ReplayError): (e: ApplicationError)
    ensures e == CorruptHistory <==> err.HistoryFault?
    ensures e == Formation <==> !err.HistoryFault?
  {
    if err.HistoryFault? then CorruptHistory else Formation
  }

  /** A hit is returned as is; a miss replays the log from its start and
      spawns exactly the replayed state and version. A `find` or `spawn`
      failure is `Process`; a replay failure spawns nothing. No log and no
      stream is ever written. */
  function FindOrReplay(w: World, rt: Runtime, id: OrderId): (out: (Result<OrderId, ApplicationError>, World))
    ensures out.1.logs == w.logs && out.1.stream == w.stream
    ensures out.0.Success? ==> out.0.value == id && id in out.1.registry
    ensures out.0.Failure? ==> out.1 == w && out.0.error in {Process, Formation, CorruptHistory}
    ensures rt.findFails ==> out.0 == Failure(Process)
    ensures !rt.findFails && id in w.registry ==> out == (Success(id), w)
    ensures !rt.findFails && id !in w.registry && ReplayToLatest(w, id).Failure? ==>
      out.0 == Failure(ReplayFailure(ReplayToLatest(w, id).error))
    ensures !rt.findFails && id !in w.registry && ReplayToLatest(w, id).Success? ==>
      var (state, version) := ReplayToLatest(w, id).value;
      out == if rt.spawnFails then (Failure(Process), w)
             else (Success(id), w.(registry := w.registry[id := Entry(state, version)]))
  {
    if rt.findFails then (Failure(Process), w)
    else if id in w.registry then (Success(id), w)
    else
      match ReplayToLatest(w, id)
      case Failure(err) => (Failure(ReplayFailure(err)), w)
      case Success((state, version)) =>
        if rt.spawnFails then (Failure(Process), w)
        else (Success(id), Spawn(w, id, state, version))
  }

  /** An order spawned from its log agrees with it, so find-or-replay keeps
      every live order in agreement with its log. */
  lemma FindOrReplayKeepsConsistent(w: World, rt: Runtime, id: OrderId)
    requires Consistent(w)
    ensures Consistent(FindOrReplay(w, rt, id).1)
  {
    var w' := FindOrReplay(w, rt, id).1;
    if !rt.findFails && id !in w.registry && ReplayToLatest(w, id).Success? && !rt.spawnFails {
      var log := Log(w, id);
      ReplayCharacterised(log);
      assert log[0].id == id by {
        assert id in w.logs && w.logs[id][0] == log[0];
      }
      forall k | k in w'.registry ensures AgreesWithLog(w', k) {
        if k != id {
          assert AgreesWithLog(w, k);
        }
      }
    }
  }
}
