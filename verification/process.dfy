/** The side effects of the live `apply` step of an actor, made explicit: the
    event is appended to the aggregate's log, emitted on the event stream, and
    a terminal event asks the runtime to stop the actor (its "poison pill"). */
module Process {

  datatype Effect<E> =
    | Append(event: E)
    | Emit(event: E)
    | PoisonPill

  /** The outcome of a live `apply`: the new state and the effects, in order. */
  datatype Applied<S, E> = Applied(state: S, effects: seq<Effect<E>>)

  /** The events appended to the log, in order. */
  function Persisted<E>(effects: seq<Effect<E>>): seq<E> {
    if effects == [] then []
    else (if effects[0].Append? then [effects[0].event] else []) + Persisted(effects[1..])
  }

  /** The events emitted on the stream, in order. */
  function Published<E>(effects: seq<Effect<E>>): seq<E> {
    if effects == [] then []
    else (if effects[0].Emit? then [effects[0].event] else []) + Published(effects[1..])
  }

  /** Whether the effects stop the actor. */
  predicate Terminates<E>(effects: seq<Effect<E>>) {
    effects != [] && (effects[0].PoisonPill? || Terminates(effects[1..]))
  }

  /** The effects of one live step: append, then emit, each once, and for a
      terminal event stop the actor afterwards. */
  function StepEffects<E>(e: E, terminal: bool): (effects: seq<Effect<E>>)
    ensures |effects| >= 2 && effects[0] == Append(e) && effects[1] == Emit(e)
    ensures Persisted(effects) == [e] && Published(effects) == [e]
    ensures Terminates(effects) <==> terminal
  {
    var tail: seq<Effect<E>> := if terminal then [PoisonPill] else [];
    var effects := [Append(e), Emit(e)] + tail;
    assert effects[1..] == [Emit(e)] + tail;
    assert effects[1..][1..] == tail;
    assert terminal ==> tail[1..] == [];
    assert Persisted(tail) == [] && Published(tail) == [];
    assert Persisted(effects[1..]) == [] && Published(effects[1..]) == [e];
    assert Terminates(effects) == Terminates(tail);
    effects
  }

  /** The effects of consecutive steps are read off step by step. */
  lemma {:induction false} EffectsOfConcatenation<E>(a: seq<Effect<E>>, b: seq<Effect<E>>)
    ensures Persisted(a + b) == Persisted(a) + Persisted(b)
    ensures Published(a + b) == Published(a) + Published(b)
    ensures Terminates(a + b) <==> Terminates(a) || Terminates(b)
  {
    if a == [] {
      assert a + b == b;
    } else {
      assert (a + b)[0] == a[0];
      assert (a + b)[1..] == a[1..] + b;
      EffectsOfConcatenation(a[1..], b);
    }
  }
}
