/** `OrderCommand`: what a caller asks of an order. No variant carries an
    `OrderId`; the id always comes from the order the command is sent to. */
module OrderCommands {
  import opened TableIds
  import opened ProductIds
  import opened Quantities

  datatype OrderCommand =
    | Create(table: TableId)
    | AddProducts(products: map<ProductId, Quantity>)
    | Settle
}

/** `TryFrom<(OrderId, OrderCommand)> for Order`: building an order straight
    from its creating command, bypassing replay. */
module OrderFormation {
  import opened Wrappers
  import opened OrderIds
  import opened TableIds
  import opened Errors
  import opened OrderCommands
  import opened OrderEvents
  import opened OrderAggregate

  /** Only `Create` builds an order, and it builds a fresh one: the given id,
      the command's table, no batches. Every other command is a
      `FormationError`. */
  function TryFrom(id: OrderId, c: OrderCommand): (r: Result<Order, FormationError>)
    ensures r.Success? <==> c.Create?
    ensures r.Success? ==> r.value.id == id && r.value.table == c.table && r.value.products == []
    ensures r.Failure? ==> r.error == FormationError
  {
    match c
    case Create(table) => Success(OrderAggregate.New(id, table))
    case _ => Failure(FormationError)
  }

  /** The creation round trip: the event the spawned order publishes for its
      own creating command, replayed as a one-event history, rebuilds exactly
      the order `TryFrom` spawned, at version 1. */
  lemma CreationRoundTrip(id: OrderId, table: TableId)
    ensures TryFrom(id, Create(table)).Success?
    ensures var o := TryFrom(id, Create(table)).value;
      && Publish(o, Create(table)).value == Created(id, table)
      && First(Publish(o, Create(table)).value) == Success(o)
      && Replay([Publish(o, Create(table)).value]) == Success((o, 1))
  {
    var o := TryFrom(id, Create(table)).value;
    assert [Created(id, table)][1..] == [];
    assert Fold(o, []) == Success(o);
  }
}
