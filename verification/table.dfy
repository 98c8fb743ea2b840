/** The table aggregate: its state, the command-to-event step (`publish`), the
    live event-to-state step with its effects (`apply`), and the replay steps
    (`Projection::first` and `Projection::apply`) with the fold over a log. */
module TableAggregate {
  import opened Wrappers
  import opened TableIds
  import opened TableNames
  import opened Errors
  import opened Process
  import opened TableCommands
  import opened TableEvents

  /** `id` is fixed at creation; `name` is the only mutable field. The
      destructors are the accessors. */
  datatype Table = Table(id: TableId, name: TableName)

  /** `Table::new`. */
  function New(id: TableId, name: TableName): (t: Table)
    ensures t.id == id && t.name == name
  {
    Table(id, name)
  }

  /** The command an event records; publishing loses nothing of the command. */
  function CommandOf(e: TableEvent): TableCommand {
    match e
    case Registered(_, name) => Register(name)
    case Renamed(_, name) => Rename(name)
    case Deregistered(_) => Deregister
  }

  /** `Publisher::publish`: never rejects; the event is stamped with the
      table's own id and carries the command's payload. */
  function Publish(t: Table, c: TableCommand): (r: Result<TableEvent, ValidationError>)
    ensures r.Success?
    ensures r.value.id == t.id
    ensures CommandOf(r.value) == c
  {
    match c
    case Register(name) => Success(Registered(t.id, name))
    case Rename(name) => Success(Renamed(t.id, name))
    case Deregister => Success(Deregistered(t.id))
  }

  /** `Applicator::apply`: the event is appended to the log, then emitted, each
      once; `Registered` and `Renamed` set the name to the event's; the id
      never changes; `Deregistered` leaves the state alone and alone stops the
      actor. */
  function Apply(t: Table, e: TableEvent): (a: Applied<Table, TableEvent>)
    ensures a.effects == StepEffects(e, e.Deregistered?)
    ensures Persisted(a.effects) == [e] && Published(a.effects) == [e]
    ensures Terminates(a.effects) <==> e.Deregistered?
    ensures a.state.id == t.id
    ensures !e.Deregistered? ==> a.state.name == e.name
    ensures e.Deregistered? ==> a.state == t
  {
    var effects := StepEffects(e, e.Deregistered?);
    match e
    case Registered(_, name) => Applied(t.(name := name), effects)
    case Renamed(_, name) => Applied(t.(name := name), effects)
    case Deregistered(_) => Applied(t, effects)
  }

  /** Renaming twice to the same name is renaming once. */
  lemma RenameIdempotent(t: Table, id: TableId, name: TableName)
    ensures Apply(Apply(t, Renamed(id, name)).state, Renamed(id, name)).state
         == Apply(t, Renamed(id, name)).state
  {
  }

  /** `Projection::first`: only `Registered` starts a history, and it starts it
      exactly as `Table::new` would. */
  function First(e: TableEvent): (r: Result<Table, ReplayError>)
    ensures r.Success? <==> e.Registered?
    ensures r.Success? ==> r.value == New(e.id, e.name)
    ensures r.Failure? ==> r.error == HistoryFault(NotACreationEvent)
  {
    match e
    case Registered(id, name) => Success(New(id, name))
    case _ => Failure(HistoryFault(NotACreationEvent))
  }

  /** `Projection::apply`: agrees with the live step on `Registered` and
      `Renamed`; folding `Deregistered` is a fault. */
  function Project(t: Table, e: TableEvent): (r: Result<Table, ReplayError>)
    ensures r.Success? <==> !e.Deregistered?
    ensures r.Success? ==> r.value == Apply(t, e).state
    ensures r.Failure? ==> r.error == HistoryFault(FoldedTerminalEvent)
  {
    match e
    case Registered(_, name) => Success(t.(name := name))
    case Renamed(_, name) => Success(t.(name := name))
    case Deregistered(_) => Failure(HistoryFault(FoldedTerminalEvent))
  }

  /** Folds `Project` over events, oldest first, stopping at the first fault. */
  function Fold(t: Table, es: seq<TableEvent>): Result<Table, ReplayError>
    decreases es
  {
    if es == [] then Success(t)
    else
      match Project(t, es[0])
      case Failure(err) => Failure(err)
      case Success(next) => Fold(next, es[1..])
  }

  /** Replays a whole log from its first event; the version is the sequence
      number of the last event. */
  function Replay(es: seq<TableEvent>): Result<(Table, nat), ReplayError> {
    if es == [] then Failure(EmptyHistory)
    else
      match First(es[0])
      case Failure(err) => Failure(err)
      case Success(t) =>
        match Fold(t, es[1..])
        case Failure(err) => Failure(err)
        case Success(s) => Success((s, |es|))
  }

  /** The state the live step reaches from `t` through `es`. */
  function LiveState(t: Table, es: seq<TableEvent>): Table
    decreases es
  {
    if es == [] then t else LiveState(Apply(t, es[0]).state, es[1..])
  }

  /** The name carried by the last naming event of `es`, or `current` if
      there is none. */
  function LastName(es: seq<TableEvent>, current: TableName): TableName {
    if es == [] then current
    else if es[|es| - 1].Deregistered? then LastName(es[..|es| - 1], current)
    else es[|es| - 1].name
  }

  predicate HasDeregistered(es: seq<TableEvent>) {
    exists i | 0 <= i < |es| :: es[i].Deregistered?
  }

  /** Live application never changes the id, and the name it ends with is the
      one the last naming event carries. */
  lemma {:induction false} LiveStateTakesLastName(t: Table, es: seq<TableEvent>)
    ensures LiveState(t, es) == Table(t.id, LastName(es, t.name))
    decreases es
  {
    if es != [] {
      var next := Apply(t, es[0]).state;
      LiveStateTakesLastName(next, es[1..]);
      LastNameOfCons(es, t.name);
    }
  }

  /** `LastName` read from the front: the first event sets the fallback for
      the rest. */
  lemma {:induction false} LastNameOfCons(es: seq<TableEvent>, current: TableName)
    requires es != []
    ensures LastName(es, current)
         == LastName(es[1..], if es[0].Deregistered? then current else es[0].name)
    decreases |es|
  {
    var fallback := if es[0].Deregistered? then current else es[0].name;
    if |es| == 1 {
      assert es[1..] == [];
      assert es[..|es| - 1] == [];
    } else {
      var init := es[..|es| - 1];
      assert init[0] == es[0];
      assert init[1..] == es[1..][..|es[1..]| - 1];
      assert es[1..][|es[1..]| - 1] == es[|es| - 1];
      if es[|es| - 1].Deregistered? {
        LastNameOfCons(init, current);
      }
    }
  }

  /** The fold fails exactly when the events hold a `Deregistered`, and then
      with the folded-terminal fault; otherwise it reaches the live state. */
  lemma {:induction false} FoldMatchesLive(t: Table, es: seq<TableEvent>)
    ensures Fold(t, es).Failure? <==> HasDeregistered(es)
    ensures Fold(t, es).Failure? ==> Fold(t, es).error == HistoryFault(FoldedTerminalEvent)
    ensures Fold(t, es).Success? ==> Fold(t, es).value == LiveState(t, es)
    decreases es
  {
    if es != [] {
      if !es[0].Deregistered? {
        FoldMatchesLive(Apply(t, es[0]).state, es[1..]);
        if HasDeregistered(es[1..]) {
          var i :| 0 <= i < |es[1..]| && es[1..][i].Deregistered?;
          assert es[i + 1].Deregistered?;
        }
        if HasDeregistered(es) {
          var i :| 0 <= i < |es| && es[i].Deregistered?;
          assert es[1..][i - 1].Deregistered?;
        }
      }
    }
  }

  /** Replay, characterised without reference to the fold: it succeeds exactly
      on a log that starts with `Registered` and has no `Deregistered`, and
      then yields the registered id with the name of the last naming event, at
      the version of the last event. */
  lemma ReplayCharacterised(es: seq<TableEvent>)
    ensures Replay(es).Success? <==> es != [] && es[0].Registered? && !HasDeregistered(es[1..])
    ensures Replay(es).Success? ==> Replay(es).value == (Table(es[0].id, LastName(es, es[0].name)), |es|)
    ensures es == [] ==> Replay(es) == Failure(EmptyHistory)
    ensures es != [] && !es[0].Registered? ==> Replay(es) == Failure(HistoryFault(NotACreationEvent))
    ensures es != [] && es[0].Registered? && HasDeregistered(es[1..]) ==>
      Replay(es) == Failure(HistoryFault(FoldedTerminalEvent))
  {
    if es != [] && es[0].Registered? {
      var t := New(es[0].id, es[0].name);
      assert First(es[0]) == Success(t);
      FoldMatchesLive(t, es[1..]);
      LiveStateTakesLastName(t, es[1..]);
      LastNameOfCons(es, es[0].name);
    }
  }
}
