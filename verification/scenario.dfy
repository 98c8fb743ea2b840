/** The life of one order, request by request, stated for every choice of
    ids, every runtime in which nothing fails, every catalogue that knows the
    products and every consistent starting world: `CreateStage` creates the
    order at a table, each `AddStage` adds a batch, and `SettleStage` settles
    it, after which a further batch is refused. Each stage's guarantees are
    the next stage's preconditions, so they chain into the whole story. */
module Scenario {
  import opened Wrappers
  import opened OrderIds
  import opened TableIds
  import opened ProductIds
  import opened Errors
  import opened Quantities
  import opened OrderCommands
  import opened OrderEvents
  import opened OrderAggregate
  import opened ProcessManager
  import opened OrderService
  import opened ServiceProperties

  /** A runtime in which `find`, `spawn` and message delivery all succeed. */
  predicate Healthy(rt: Runtime) {
    !rt.findFails && !rt.spawnFails && !rt.dispatchFails
  }

  type Catalogue = ProductId -> Result<Option<()>, InquiryError>

  /** The outcome of one request and the world it leaves. */
  type Outcome = (Result<(), ApplicationError>, World)

  /** A catalogue that lets through every product of `cmd`. */
  predicate Admits(inquiry: Catalogue, cmd: OrderCommand) {
    cmd.AddProducts? ==> forall p | p in cmd.products :: Available(inquiry(p))
  }

  /** An event stamped with `id` that records a command other than `Settle` is
      determined by the two. */
  lemma EventOfCommand(e: OrderEvent, id: OrderId, cmd: OrderCommand)
    requires e.id == id && CommandOf(e) == cmd
    ensures cmd.Create? ==> e == Created(id, cmd.table)
    ensures cmd.AddProducts? ==> e == AddedProducts(id, cmd.products)
    ensures cmd.Settle? ==> e.Settled?
  {
  }

  /** One successful request on a consistent world, seen from the addressed
      order: its log grows by the event stamped with it that records the
      command. */
  lemma Step(w: World, rt: Runtime, inquiry: Catalogue, minted: OrderId, keyOrder: seq<ProductId>,
             id: Option<OrderId>, cmd: OrderCommand, out: Outcome)
    requires Consistent(w) && Fresh(w, minted)
    requires cmd.AddProducts? ==> Enumerates(keyOrder, cmd.products.Keys)
    requires out == Execute(w, rt, inquiry, minted, keyOrder, id, cmd) && out.0.Success?
    ensures var target := if cmd.Create? then minted else id.value;
      && Consistent(out.1)
      && |Log(out.1, target)| == |Log(w, target)| + 1
      && Log(out.1, target)[..|Log(w, target)|] == Log(w, target)
      && var e := Log(out.1, target)[|Log(w, target)|];
         && (cmd.Create? ==> e == Created(target, cmd.table))
         && (cmd.AddProducts? ==> e == AddedProducts(target, cmd.products))
         && (cmd.Settle? ==> |Log(w, target)| > 0 && e == Settled(target, Log(w, target)[0].table))
  {
    var target := if cmd.Create? then minted else id.value;
    ExecuteKeepsConsistent(w, rt, inquiry, minted, keyOrder, id, cmd);
    AddresseeIsTarget(w, rt, minted, id, cmd);
    var after := Log(out.1, target);
    assert after[|after| - 1] == after[|Log(w, target)|];
    EventOfCommand(after[|Log(w, target)|], target, cmd);
    if cmd.Settle? {
      SettleAppendsSettled(w, rt, inquiry, minted, keyOrder, target);
    }
  }

  /** A live order that carries the id it is registered under, receiving a
      command other than `Create` in a healthy runtime, with every product it
      names in the catalogue: the request reaches the order itself and
      succeeds. */
  lemma LiveRequest(w: World, rt: Runtime, inquiry: Catalogue, spare: OrderId, keyOrder: seq<ProductId>,
                    order: OrderId, cmd: OrderCommand, out: Outcome)
    requires Fresh(w, spare) && order in w.registry && w.registry[order].state.id == order
    requires !cmd.Create? && Healthy(rt)
    requires cmd.AddProducts? ==> Enumerates(keyOrder, cmd.products.Keys)
    requires Admits(inquiry, cmd)
    requires out == Execute(w, rt, inquiry, spare, keyOrder, Some(order), cmd)
    ensures out.0.Success? && out == Employ(w, rt, order, cmd) && Fresh(out.1, spare)
  {
    if cmd.AddProducts? {
      AddProductsNeedsEveryProduct(w, rt, inquiry, spare, keyOrder, Some(order), cmd.products);
    }
    assert Resolve(w, rt, spare, Some(order), cmd) == (Success(order), w);
    assert Log(out.1, spare) == Log(w, spare);
  }

  /** The first request: `Create(table)` with `order` minted. */
  lemma CreateStage(w: World, rt: Runtime, inquiry: Catalogue, order: OrderId, spare: OrderId, table: TableId, out: Outcome)
    requires Consistent(w) && Fresh(w, order) && Fresh(w, spare) && order != spare && Healthy(rt)
    requires out == Execute(w, rt, inquiry, order, [], None, Create(table))
    ensures && out.0.Success? && Consistent(out.1)
      && Log(out.1, order) == [Created(order, table)]
      && order in out.1.registry && Fresh(out.1, spare)
  {
    CreateDeliveredKeepsConsistent(w, rt, inquiry, order, [], None, table);
    assert Log(out.1, spare) == [];
  }

  /** A further `AddProducts(m)` on the live order appends its event. */
  lemma AddStage(w: World, rt: Runtime, inquiry: Catalogue, order: OrderId, spare: OrderId,
                 keyOrder: seq<ProductId>, m: map<ProductId, Quantity>, out: Outcome)
    requires Consistent(w) && Fresh(w, spare) && order in w.registry && Healthy(rt)
    requires Enumerates(keyOrder, m.Keys) && Admits(inquiry, AddProducts(m))
    requires out == Execute(w, rt, inquiry, spare, keyOrder, Some(order), AddProducts(m))
    ensures && out.0.Success? && Consistent(out.1)
      && Log(out.1, order) == Log(w, order) + [AddedProducts(order, m)]
      && order in out.1.registry && Fresh(out.1, spare)
  {
    assert AgreesWithLog(w, order);
    LiveRequest(w, rt, inquiry, spare, keyOrder, order, AddProducts(m), out);
    Step(w, rt, inquiry, spare, keyOrder, Some(order), AddProducts(m), out);
    var log := Log(out.1, order);
    assert log == log[..|Log(w, order)|] + [log[|Log(w, order)|]];
  }

  /** `Settle` on the live order appends `Settled` with the table its
      `Created` event names; afterwards the order is
      gone from the registry and an `AddProducts(m)` addressed to it fails
      with `CorruptHistory` and changes nothing. */
  lemma SettleStage(w: World, rt: Runtime, inquiry: Catalogue, order: OrderId, spare: OrderId,
                    keyOrder: seq<ProductId>, m: map<ProductId, Quantity>, out: Outcome, next: Outcome)
    requires Consistent(w) && Fresh(w, spare) && order in w.registry && Healthy(rt)
    requires Enumerates(keyOrder, m.Keys)
    requires out == Execute(w, rt, inquiry, spare, [], Some(order), Settle)
    requires next == Execute(out.1, rt, inquiry, spare, keyOrder, Some(order), AddProducts(m))
    ensures && out.0.Success?
      && Log(w, order) != []
      && Log(out.1, order) == Log(w, order) + [Settled(order, Log(w, order)[0].table)]
      && order !in out.1.registry
      && next == (Failure(CorruptHistory), out.1)
  {
    assert AgreesWithLog(w, order);
    LiveRequest(w, rt, inquiry, spare, [], order, Settle, out);
    SettleAppendsSettled(w, rt, inquiry, spare, [], order);
    SettleIsFinal(w, rt, inquiry, spare, [], order, rt, inquiry, spare, keyOrder, AddProducts(m));
  }
}
