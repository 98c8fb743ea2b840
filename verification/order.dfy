/** The order aggregate: its state, the command-to-event step (`publish`), the
    live event-to-state step with its effects (`apply`), and the replay steps
    (`Projection::first` and `Projection::apply`) with the fold over a log. */
module OrderAggregate {
  import opened Wrappers
  import opened OrderIds
  import opened TableIds
  import opened ProductIds
  import opened Quantities
  import opened Errors
  import opened Process
  import opened OrderCommands
  import opened OrderEvents

  /** One accepted `AddProducts` batch. */
  type Batch = map<ProductId, Quantity>

  /** `id` and `table` are fixed at creation; `products` holds one batch per
      accepted `AddProducts`, oldest first. The destructors are the accessors. */
  datatype Order = Order(id: OrderId, table: TableId, products: seq<Batch>)

  /** `Order::new`. */
  function New(id: OrderId, table: TableId): (o: Order)
    ensures o.id == id && o.table == table && o.products == []
  {
    Order(id, table, [])
  }

  /** The command an event records; publishing loses nothing of the command. */
  function CommandOf(e: OrderEvent): OrderCommand {
    match e
    case Created(_, table) => Create(table)
    case AddedProducts(_, products) => AddProducts(products)
    case Settled(_, _) => Settle
  }

  /** `Publisher::publish`: never rejects; the event is stamped with the
      order's own id, carries the command's payload, and `Settled` carries the
      order's table. */
  function Publish(o: Order, c: OrderCommand): (r: Result<OrderEvent, ValidationError>)
    ensures r.Success?
    ensures r.value.id == o.id
    ensures CommandOf(r.value) == c
    ensures r.value.Settled? ==> r.value.tableId == o.table
  {
    match c
    case Create(table) => Success(Created(o.id, table))
    case AddProducts(products) => Success(AddedProducts(o.id, products))
    case Settle => Success(Settled(o.id, o.table))
  }

  /** `Applicator::apply`: the event is appended to the log, then emitted, each
      once; `AddedProducts` appends its batch; `Created` and `Settled` leave
      the state alone; only `Settled` stops the actor. */
  function Apply(o: Order, e: OrderEvent): (a: Applied<Order, OrderEvent>)
    ensures a.effects == StepEffects(e, e.Settled?)
    ensures Persisted(a.effects) == [e] && Published(a.effects) == [e]
    ensures Terminates(a.effects) <==> e.Settled?
    ensures a.state.id == o.id && a.state.table == o.table
    ensures e.AddedProducts? ==> a.state.products == o.products + [e.products]
    ensures !e.AddedProducts? ==> a.state == o
  {
    var effects := StepEffects(e, e.Settled?);
    match e
    case AddedProducts(_, products) => Applied(o.(products := o.products + [products]), effects)
    case _ => Applied(o, effects)
  }

  /** `Projection::first`: only `Created` starts a history, and it starts it
      exactly as `Order::new` would. */
  function First(e: OrderEvent): (r: Result<Order, ReplayError>)
    ensures r.Success? <==> e.Created?
    ensures r.Success? ==> r.value == New(e.id, e.table)
    ensures r.Failure? ==> r.error == HistoryFault(NotACreationEvent)
  {
    match e
    case Created(id, table) => Success(New(id, table))
    case _ => Failure(HistoryFault(NotACreationEvent))
  }

  /** `Projection::apply`: agrees with the live step on every event except
      `Settled`, whose folding is a fault. */
  function Project(o: Order, e: OrderEvent): (r: Result<Order, ReplayError>)
    ensures r.Success? <==> !e.Settled?
    ensures r.Success? ==> r.value == Apply(o, e).state
    ensures r.Failure? ==> r.error == HistoryFault(FoldedTerminalEvent)
  {
    match e
    case AddedProducts(_, products) => Success(o.(products := o.products + [products]))
    case Settled(_, _) => Failure(HistoryFault(FoldedTerminalEvent))
    case Created(_, _) => Success(o)
  }

  /** Folds `Project` over events, oldest first, stopping at the first fault. */
  function Fold(o: Order, es: seq<OrderEvent>): Result<Order, ReplayError>
    decreases es
  {
    if es == [] then Success(o)
    else
      match Project(o, es[0])
      case Failure(err) => Failure(err)
      case Success(next) => Fold(next, es[1..])
  }

  /** Replays a whole log from its first event; the version is the sequence
      number of the last event (sequence numbers start at 1 and have no gaps). */
  function Replay(es: seq<OrderEvent>): Result<(Order, nat), ReplayError> {
    if es == [] then Failure(EmptyHistory)
    else
      match First(es[0])
      case Failure(err) => Failure(err)
      case Success(o) =>
        match Fold(o, es[1..])
        case Failure(err) => Failure(err)
        case Success(s) => Success((s, |es|))
  }

  /** The state the live step reaches from `o` through `es`. */
  function LiveState(o: Order, es: seq<OrderEvent>): Order
    decreases es
  {
    if es == [] then o else LiveState(Apply(o, es[0]).state, es[1..])
  }

  /** The batches a sequence of events carries, in order. */
  function Batches(es: seq<OrderEvent>): seq<Batch> {
    if es == [] then []
    else (if es[0].AddedProducts? then [es[0].products] else []) + Batches(es[1..])
  }

  predicate HasSettled(es: seq<OrderEvent>) {
    exists i | 0 <= i < |es| :: es[i].Settled?
  }

  /** Live application never changes the id or the table, and accumulates
      exactly the batches of the events, in order. */
  lemma {:induction false} LiveStateAccumulates(o: Order, es: seq<OrderEvent>)
    decreases es
    ensures LiveState(o, es) == Order(o.id, o.table, o.products + Batches(es))
  {
    if es != [] {
      var next := Apply(o, es[0]).state;
      var head := if es[0].AddedProducts? then [es[0].products] else [];
      assert next == Order(o.id, o.table, o.products + head);
      LiveStateAccumulates(next, es[1..]);
      assert Batches(es) == head + Batches(es[1..]);
      assert o.products + head + Batches(es[1..]) == o.products + (head + Batches(es[1..]));
    }
  }

  /** The fold fails exactly when the events hold a `Settled`, and then with
      the folded-terminal fault; otherwise it reaches the live state. */
  lemma {:induction false} FoldMatchesLive(o: Order, es: seq<OrderEvent>)
    decreases es
    ensures Fold(o, es).Failure? <==> HasSettled(es)
    ensures Fold(o, es).Failure? ==> Fold(o, es).error == HistoryFault(FoldedTerminalEvent)
    ensures Fold(o, es).Success? ==> Fold(o, es).value == LiveState(o, es)
  {
    if es != [] {
      if !es[0].Settled? {
        FoldMatchesLive(Apply(o, es[0]).state, es[1..]);
        if HasSettled(es[1..]) {
          var i :| 0 <= i < |es[1..]| && es[1..][i].Settled?;
          assert es[i + 1].Settled?;
        }
        if HasSettled(es) {
          var i :| 0 <= i < |es| && es[i].Settled?;
          assert es[1..][i - 1].Settled?;
        }
      }
    }
  }

  /** Replay, characterised without reference to the fold: it succeeds exactly
      on a log that starts with `Created` and has no `Settled`, and then yields
      the created order holding the logged batches in order, at the version of
      the last event. */
  lemma ReplayCharacterised(es: seq<OrderEvent>)
    ensures Replay(es).Success? <==> es != [] && es[0].Created? && !HasSettled(es[1..])
    ensures Replay(es).Success? ==>
      Replay(es).value == (Order(es[0].id, es[0].table, Batches(es[1..])), |es|)
    ensures es == [] ==> Replay(es) == Failure(EmptyHistory)
    ensures es != [] && !es[0].Created? ==> Replay(es) == Failure(HistoryFault(NotACreationEvent))
    ensures es != [] && es[0].Created? && HasSettled(es[1..]) ==>
      Replay(es) == Failure(HistoryFault(FoldedTerminalEvent))
  {
    if es != [] && es[0].Created? {
      var o := New(es[0].id, es[0].table);
      FoldMatchesLive(o, es[1..]);
      LiveStateAccumulates(o, es[1..]);
      assert First(es[0]) == Success(o);
      assert o.products + Batches(es[1..]) == Batches(es[1..]);
    }
  }

  /** Live application and replay agree: extending a replayable log by any
      event other than `Settled` replays to the state the live step reaches,
      one version later. */
  lemma ReplayExtends(es: seq<OrderEvent>, e: OrderEvent)
    requires Replay(es).Success?
    ensures !e.Settled? ==>
      Replay(es + [e]) == Success((Apply(Replay(es).value.0, e).state, Replay(es).value.1 + 1))
    ensures e.Settled? ==> Replay(es + [e]) == Failure(HistoryFault(FoldedTerminalEvent))
  {
    var ext := es + [e];
    ReplayCharacterised(es);
    ReplayCharacterised(ext);
    assert ext[0] == es[0];
    assert ext[1..] == es[1..] + [e];
    BatchesOfConcatenation(es[1..], [e]);
    assert [e][1..] == [];
    assert Batches([e]) == if e.AddedProducts? then [e.products] else [];
    if e.Settled? {
      assert ext[1..][|ext[1..]| - 1].Settled?;
    } else {
      forall i | 0 <= i < |ext[1..]| ensures !ext[1..][i].Settled? {
        if i < |es[1..]| {
          assert ext[1..][i] == es[1..][i];
        } else {
          assert ext[1..][i] == e;
        }
      }
      var s := Replay(es).value.0;
      assert s.products == Batches(es[1..]);
      assert Batches(ext[1..]) == s.products + Batches([e]);
      assert Apply(s, e).state.products == s.products + Batches([e]);
    }
  }

  lemma {:induction false} BatchesOfConcatenation(a: seq<OrderEvent>, b: seq<OrderEvent>)
    ensures Batches(a + b) == Batches(a) + Batches(b)
  {
    if a == [] {
      assert a + b == b;
    } else {
      assert (a + b)[0] == a[0];
      assert (a + b)[1..] == a[1..] + b;
      BatchesOfConcatenation(a[1..], b);
    }
  }
}
