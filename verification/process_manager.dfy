/** The actor runtime the application drives, instantiated at orders: a
    registry of live orders (`ProcessManager`), a per-order event log, the
    event stream, log replay (`EventProjector`), `spawn`, and
    `employ` (deliver a command to a live order, which publishes and applies
    it). Runtime failures are inputs. */
module ProcessManager {
  import opened Wrappers
  import opened OrderIds
  import opened Errors
  import opened Process
  import opened OrderCommands
  import opened OrderEvents
  import opened OrderAggregate

  /** A live order: its state and the sequence number of its last event. */
  datatype Entry = Entry(state: Order, version: nat)

  datatype World = World(
    registry: map<OrderId, Entry>,
    logs: map<OrderId, seq<OrderEvent>>,
    stream: seq<(OrderId, OrderEvent)>)

  /** Which runtime calls fail on this request: `find`, `spawn`, and the
      delivery of the command by `employ`. */
  datatype Runtime = Runtime(findFails: bool, spawnFails: bool, dispatchFails: bool)

  /** The log of an order, oldest event first (sequence numbers 1, 2, ...);
      an order never written to has an empty one. Events are stored through
      the payload codec, which reads every event back as itself
      (`OrderEvents.LogRoundTrip`), so the log is kept at the level of events. */
  function Log(w: World, id: OrderId): seq<OrderEvent> {
    if id in w.logs then w.logs[id] else []
  }

  function Tagged(id: OrderId, es: seq<OrderEvent>): (s: seq<(OrderId, OrderEvent)>)
    ensures |s| == |es| && forall i | 0 <= i < |es| :: s[i] == (id, es[i])
  {
    seq(|es|, i requires 0 <= i < |es| => (id, es[i]))
  }


  /** `projection_to_latest(id, None)`: replays the order's whole log. */
  function ReplayToLatest(w: World, id: OrderId): Result<(Order, nat), ReplayError> {
    Replay(Log(w, id))
  }

  /** `spawn`: a new live order at the given state and version. */
  function Spawn(w: World, id: OrderId, state: Order, version: nat): (r: World)
    requires id !in w.registry
    ensures r.registry == w.registry[id := Entry(state, version)]
    ensures r.logs == w.logs && r.stream == w.stream
  {
    w.(registry := w.registry[id := Entry(state, version)])
  }

  /** Carries out one effect of the live step of the order registered under
      `id`, whose state carries the id `owner`: the event is persisted and
      published under `owner` (the order's `aggregate_id`), and the poison
      pill stops the actor registered under `id`. */
  function Perform(w: World, id: OrderId, owner: OrderId, effect: Effect<OrderEvent>): World {
    match effect
    case Append(e) => w.(logs := w.logs[owner := Log(w, owner) + [e]])
    case Emit(e) => w.(stream := w.stream + [(owner, e)])
    case PoisonPill => w.(registry := w.registry - {id})
  }

  /** Carries out the effects of a live step, in order. */
  function PerformAll(w: World, id: OrderId, owner: OrderId, effects: seq<Effect<OrderEvent>>): World
    decreases effects
  {
    if effects == [] then w else PerformAll(Perform(w, id, owner, effects[0]), id, owner, effects[1..])
  }

  lemma TaggedOfConcatenation(id: OrderId, a: seq<OrderEvent>, b: seq<OrderEvent>)
    ensures Tagged(id, a + b) == Tagged(id, a) + Tagged(id, b)
  {
    var l := Tagged(id, a + b);
    var r := Tagged(id, a) + Tagged(id, b);
    forall i | 0 <= i < |l| ensures l[i] == r[i] {
      if i < |a| {
        assert (a + b)[i] == a[i];
      } else {
        assert (a + b)[i] == b[i - |a|];
      }
    }
  }

  /** One effect, carried out: only `Append` writes the owner's log. */
  lemma PerformEffectLog(w: World, id: OrderId, owner: OrderId, effect: Effect<OrderEvent>)
    ensures Log(Perform(w, id, owner, effect), owner)
         == Log(w, owner) + (if effect.Append? then [effect.event] else [])
  {
  }

  /** One effect, carried out: only `Emit` writes the stream. */
  lemma PerformEffectStream(w: World, id: OrderId, owner: OrderId, effect: Effect<OrderEvent>)
    ensures Perform(w, id, owner, effect).stream
         == w.stream + Tagged(owner, if effect.Emit? then [effect.event] else [])
  {
    if effect.Emit? {
      assert Tagged(owner, [effect.event]) == [(owner, effect.event)];
    } else {
      assert Tagged(owner, []) == [];
    }
  }

  /** Carrying out a live step's effects grows the owner's log by exactly
      the persisted events, in order. */
  lemma {:induction false} PerformAllAppends(w: World, id: OrderId, owner: OrderId, effects: seq<Effect<OrderEvent>>)
    ensures Log(PerformAll(w, id, owner, effects), owner) == Log(w, owner) + Persisted(effects)
    decreases effects
  {
    if effects == [] {
      assert Log(w, owner) + [] == Log(w, owner);
    } else {
      var first := effects[0];
      var next := Perform(w, id, owner, first);
      var appended := if first.Append? then [first.event] else [];
      PerformAllAppends(next, id, owner, effects[1..]);
      PerformEffectLog(w, id, owner, first);
      assert Persisted(effects) == appended + Persisted(effects[1..]);
      assert Log(w, owner) + appended + Persisted(effects[1..])
          == Log(w, owner) + (appended + Persisted(effects[1..]));
    }
  }

  /** Carrying out a live step's effects changes no other order's log. */
  lemma {:induction false} PerformAllIsolated(w: World, id: OrderId, owner: OrderId, effects: seq<Effect<OrderEvent>>, k: OrderId)
    requires k != owner
    ensures Log(PerformAll(w, id, owner, effects), k) == Log(w, k)
    decreases effects
  {
    if effects != [] {
      PerformAllIsolated(Perform(w, id, owner, effects[0]), id, owner, effects[1..], k);
    }
  }

  /** Carrying out a live step's effects grows the stream by exactly the
      published events, in order, tagged with the owner's id. */
  lemma {:induction false} PerformAllEmits(w: World, id: OrderId, owner: OrderId, effects: seq<Effect<OrderEvent>>)
    ensures PerformAll(w, id, owner, effects).stream == w.stream + Tagged(owner, Published(effects))
    decreases effects
  {
    if effects == [] {
      assert Tagged(owner, []) == [];
    } else {
      var first := effects[0];
      PerformAllEmits(Perform(w, id, owner, first), id, owner, effects[1..]);
      PerformEffectStream(w, id, owner, first);
      var emitted := if first.Emit? then [first.event] else [];
      assert Published(effects) == emitted + Published(effects[1..]);
      TaggedOfConcatenation(owner, emitted, Published(effects[1..]));
    }
  }

  /** Carrying out a live step's effects takes the actor registered under
      `id` out of the registry exactly when the effects stop it, and touches
      no other entry. */
  lemma {:induction false} PerformAllStops(w: World, id: OrderId, owner: OrderId, effects: seq<Effect<OrderEvent>>)
    ensures PerformAll(w, id, owner, effects).registry
         == if Terminates(effects) then w.registry - {id} else w.registry
    decreases effects
  {
    if effects != [] {
      var first := effects[0];
      PerformAllStops(Perform(w, id, owner, first), id, owner, effects[1..]);
      if first.PoisonPill? {
        assert (w.registry - {id}) - {id} == w.registry - {id};
      }
    }
  }

  /** `employ`: delivers `cmd` to the order registered under `id`. A delivery
      failure is a `Process` error that changes nothing. Otherwise the order
      publishes the command's event (a rejection would be a `Kernel` error,
      but an order never rejects) and applies it: the event is appended to
      the log of the order the live state names and emitted once under that
      id, the order moves one version on, and `Settle` takes the actor out of
      the registry. */
  function Employ(w: World, rt: Runtime, id: OrderId, cmd: OrderCommand): (out: (Result<(), ApplicationError>, World))
    requires id in w.registry
    ensures rt.dispatchFails ==> out == (Failure(Process), w)
    ensures !rt.dispatchFails ==> out.0 == Success(())
    ensures !rt.dispatchFails ==>
      var entry := w.registry[id];
      var owner := entry.state.id;
      var e := Publish(entry.state, cmd).value;
      && e.id == owner
      && Log(out.1, owner) == Log(w, owner) + [e]
      && (forall k | k != owner :: Log(out.1, k) == Log(w, k))
      && out.1.stream == w.stream + [(owner, e)]
      && out.1.registry == if cmd.Settle? then w.registry - {id}
                           else w.registry[id := Entry(Apply(entry.state, e).state, entry.version + 1)]
  {
    if rt.dispatchFails then (Failure(Process), w)
    else
      var entry := w.registry[id];
      var owner := entry.state.id;
      match Publish(entry.state, cmd)
      case Failure(_) => (Failure(Kernel), w)
      case Success(e) =>
        var a := Apply(entry.state, e);
        var updated := w.(registry := w.registry[id := Entry(a.state, entry.version + 1)]);
        var r := PerformAll(updated, id, owner, a.effects);
        PerformAllAppends(updated, id, owner, a.effects);
        PerformAllEmits(updated, id, owner, a.effects);
        PerformAllStops(updated, id, owner, a.effects);
        assert forall k | k != owner :: Log(r, k) == Log(w, k) by {
          forall k | k != owner ensures Log(r, k) == Log(w, k) {
            PerformAllIsolated(updated, id, owner, a.effects, k);
          }
        }
        assert Tagged(owner, [e]) == [(owner, e)];
        assert cmd.Settle? ==> w.registry[id := Entry(a.state, entry.version + 1)] - {id} == w.registry - {id};
        (Success(()), r)
  }

  /** A live order agrees with its log: same id, and the log replays to its
      state at its version. */
  predicate AgreesWithLog(w: World, id: OrderId)
    requires id in w.registry
  {
    var entry := w.registry[id];
    entry.state.id == id && Replay(Log(w, id)) == Success((entry.state, entry.version))
  }

  /** Every event in the log of order `k` carries the id `k`. */
  predicate LogsStamped(w: World) {
    forall k, i | k in w.logs && 0 <= i < |w.logs[k]| :: w.logs[k][i].id == k
  }

  /** Logs are stamped with their order, and every live order agrees with
      its log. */
  predicate Consistent(w: World) {
    && LogsStamped(w)
    && forall id | id in w.registry :: AgreesWithLog(w, id)
  }

  /** Appending to one order's log an event stamped with that order, and
      changing no other log, keeps every log stamped. */
  lemma AppendKeepsStamped(w: World, w': World, id: OrderId, e: OrderEvent)
    requires LogsStamped(w)
    requires e.id == id
    requires Log(w', id) == Log(w, id) + [e]
    requires forall k | k != id :: Log(w', k) == Log(w, k)
    ensures LogsStamped(w')
  {
    forall k, i | k in w'.logs && 0 <= i < |w'.logs[k]| ensures w'.logs[k][i].id == k {
      assert w'.logs[k] == Log(w', k);
      if k != id || i < |Log(w, id)| {
        assert Log(w', k)[i] == Log(w, k)[i];
      }
    }
  }

  /** Employing a command keeps every live order in agreement with its log:
      the addressed order's log grows by the event its live step applied,
      and a settled order leaves the registry. */
  lemma EmployKeepsAgreement(w: World, rt: Runtime, id: OrderId, cmd: OrderCommand)
    requires id in w.registry && Consistent(w)
    ensures var w' := Employ(w, rt, id, cmd).1;
      forall k | k in w'.registry :: AgreesWithLog(w', k)
  {
    var w' := Employ(w, rt, id, cmd).1;
    if !rt.dispatchFails {
      var entry := w.registry[id];
      var e := Publish(entry.state, cmd).value;
      assert AgreesWithLog(w, id);
      ReplayExtends(Log(w, id), e);
      forall k | k in w'.registry ensures AgreesWithLog(w', k) {
        if k != id {
          assert w'.registry[k] == w.registry[k];
          assert AgreesWithLog(w, k);
        }
      }
    }
  }

  /** Employing a command on a consistent world keeps it consistent. */
  lemma EmployKeepsConsistent(w: World, rt: Runtime, id: OrderId, cmd: OrderCommand)
    requires id in w.registry && Consistent(w)
    ensures Consistent(Employ(w, rt, id, cmd).1)
  {
    var w' := Employ(w, rt, id, cmd).1;
    if !rt.dispatchFails {
      var e := Publish(w.registry[id].state, cmd).value;
      assert AgreesWithLog(w, id);
      AppendKeepsStamped(w, w', id, e);
    }
    EmployKeepsAgreement(w, rt, id, cmd);
  }
}
