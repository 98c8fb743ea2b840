/** What `execute` guarantees across requests: live orders stay in agreement
    with their logs, mutations are gated by the catalogue, and a settled order
    is never brought back to life. */
module ServiceProperties {
  import opened Wrappers
  import opened OrderIds
  import opened TableIds
  import opened ProductIds
  import opened Errors
  import opened OrderCommands
  import opened OrderEvents
  import opened OrderAggregate
  import opened OrderFormation
  import opened ProcessManager
  import opened Adapter
  import opened OrderService

  /** A freshly spawned order whose `Create` is delivered ends with a log of
      exactly its `Created` event, which replays to the spawned state. */
  lemma CreateDeliveredKeepsConsistent<V>(w: World, rt: Runtime, inquiry: ProductId -> Result<Option<V>, InquiryError>,
                                           minted: OrderId, keyOrder: seq<ProductId>, id: Option<OrderId>, table: TableId)
    requires Consistent(w) && Fresh(w, minted)
    requires !rt.spawnFails && !rt.dispatchFails
    ensures var out := Execute(w, rt, inquiry, minted, keyOrder, id, Create(table));
      && Log(out.1, minted) == [Created(minted, table)]
      && Consistent(out.1)
  {
    var out := Execute(w, rt, inquiry, minted, keyOrder, id, Create(table));
    var o := OrderAggregate.New(minted, table);
    var w1 := w.(registry := w.registry[minted := Entry(o, 0)]);
    assert Resolve(w, rt, minted, id, Create(table)) == (Success(minted), w1);
    assert out == Employ(w1, rt, minted, Create(table));
    CreationRoundTrip(minted, table);
    var e := Publish(o, Create(table)).value;
    assert e == Created(minted, table);
    assert Log(w1, minted) == [];
    assert Log(out.1, minted) == [e];
    assert out.1.registry == w1.registry[minted := Entry(o, 1)];
    AppendKeepsStamped(w, out.1, minted, e);
    forall k | k in out.1.registry ensures AgreesWithLog(out.1, k) {
      if k != minted {
        assert AgreesWithLog(w, k);
        assert Log(out.1, k) == Log(w, k);
      }
    }
  }

  /** `execute` keeps every live order in agreement with its log and every
      log stamped with its order, so the event a successful request appends
      carries the id of the order it addressed. The one exception is a
      `Create` whose order spawns but whose delivery fails
      (`FailedCreateDeliveryLeavesUnloggedOrder`). */
  lemma ExecuteKeepsConsistent<V>(w: World, rt: Runtime, inquiry: ProductId -> Result<Option<V>, InquiryError>,
                                   minted: OrderId, keyOrder: seq<ProductId>, id: Option<OrderId>, cmd: OrderCommand)
    requires Consistent(w) && Fresh(w, minted)
    requires cmd.AddProducts? ==> Enumerates(keyOrder, cmd.products.Keys)
    requires !(cmd.Create? && !rt.spawnFails && rt.dispatchFails)
    ensures var out := Execute(w, rt, inquiry, minted, keyOrder, id, cmd);
      && Consistent(out.1)
      && (out.0.Success? ==>
            var target := if cmd.Create? then minted else id.value;
            var log := Log(out.1, target);
            |log| > 0 && log[|log| - 1].id == target)
  {
    var out := Execute(w, rt, inquiry, minted, keyOrder, id, cmd);
    if cmd.Create? {
      if !rt.spawnFails {
        CreateDeliveredKeepsConsistent(w, rt, inquiry, minted, keyOrder, id, cmd.table);
      }
    } else if id.Some? {
      var target := id.value;
      FindOrReplayKeepsConsistent(w, rt, target);
      var (resolved, w1) := FindOrReplay(w, rt, target);
      if resolved.Success? {
        var check := if cmd.AddProducts? then CheckProducts(inquiry, keyOrder).outcome else Success(());
        if check.Success? {
          assert out == Employ(w1, rt, target, cmd);
          EmployKeepsConsistent(w1, rt, target, cmd);
        }
      }
    }
    if out.0.Success? {
      AddresseeIsTarget(w, rt, minted, id, cmd);
      var target := if cmd.Create? then minted else id.value;
      var log := Log(out.1, target);
      assert target in out.1.logs && out.1.logs[target] == log;
    }
  }

  /** A `Create` whose order spawns but whose delivery fails reports
      `Process`, yet leaves the new order live with an empty log: the world no
      longer agrees with its logs. */
  lemma FailedCreateDeliveryLeavesUnloggedOrder<V>(w: World, rt: Runtime, inquiry: ProductId -> Result<Option<V>, InquiryError>,
                                                    minted: OrderId, keyOrder: seq<ProductId>, id: Option<OrderId>, table: TableId)
    requires Fresh(w, minted)
    requires !rt.spawnFails && rt.dispatchFails
    ensures var out := Execute(w, rt, inquiry, minted, keyOrder, id, Create(table));
      && out.0 == Failure(Process)
      && out.1.registry == w.registry[minted := Entry(OrderAggregate.New(minted, table), 0)]
      && Log(out.1, minted) == []
      && !Consistent(out.1)
  {
    var out := Execute(w, rt, inquiry, minted, keyOrder, id, Create(table));
    ReplayCharacterised([]);
    assert !AgreesWithLog(out.1, minted);
  }

  /** An `AddProducts` succeeds exactly when its order resolves, every
      product it names is in the catalogue, and the command is delivered. */
  lemma AddProductsNeedsEveryProduct<V>(w: World, rt: Runtime, inquiry: ProductId -> Result<Option<V>, InquiryError>,
                                        minted: OrderId, keyOrder: seq<ProductId>, id: Option<OrderId>,
                                        products: map<ProductId, Quantities.Quantity>)
    requires Fresh(w, minted) && Enumerates(keyOrder, products.Keys)
    ensures Execute(w, rt, inquiry, minted, keyOrder, id, AddProducts(products)).0.Success? <==>
      && id.Some? && FindOrReplay(w, rt, id.value).0.Success?
      && (forall p | p in products :: Available(inquiry(p)))
      && !rt.dispatchFails
  {
    var passes := CheckProducts(inquiry, keyOrder).outcome.Success?;
    assert passes <==> forall p | p in products :: Available(inquiry(p)) by {
      if passes {
        forall p | p in products ensures Available(inquiry(p)) {
          var i :| 0 <= i < |keyOrder| && keyOrder[i] == p;
        }
      }
    }
  }

  /** A key order is empty exactly when the set it enumerates is. */
  lemma EnumeratesNothing(keys: seq<ProductId>, s: set<ProductId>)
    requires Enumerates(keys, s)
    ensures keys == [] <==> s == {}
  {
    if keys != [] {
      assert keys[0] in s;
    }
    if s != {} {
      var p :| p in s;
      assert p in keys;
    }
  }

  /** The product check queries the catalogue for nothing exactly when the
      `AddProducts` map is empty; an empty map always passes. */
  lemma EmptyProductsQueryNothing<V>(inquiry: ProductId -> Result<Option<V>, InquiryError>, keyOrder: seq<ProductId>,
                                     products: map<ProductId, Quantities.Quantity>)
    requires Enumerates(keyOrder, products.Keys)
    ensures CheckProducts(inquiry, keyOrder).queried == [] <==> products == map[]
    ensures products == map[] ==> CheckProducts(inquiry, keyOrder).outcome.Success?
  {
    EnumeratesNothing(keyOrder, products.Keys);
    if products.Keys == {} {
      assert products == map[];
    }
  }

  /** A failed product check stops the request before the order sees the
      command: the check's error is returned and nothing is logged or
      emitted, although a replayed order stays spawned. */
  lemma FailedCheckEmploysNothing<V>(w: World, rt: Runtime, inquiry: ProductId -> Result<Option<V>, InquiryError>,
                                     minted: OrderId, keyOrder: seq<ProductId>, target: OrderId,
                                     products: map<ProductId, Quantities.Quantity>)
    requires Fresh(w, minted) && Enumerates(keyOrder, products.Keys)
    requires FindOrReplay(w, rt, target).0.Success?
    requires CheckProducts(inquiry, keyOrder).outcome.Failure?
    ensures Execute(w, rt, inquiry, minted, keyOrder, Some(target), AddProducts(products))
            == (CheckProducts(inquiry, keyOrder).outcome, FindOrReplay(w, rt, target).1)
    ensures var w' := Execute(w, rt, inquiry, minted, keyOrder, Some(target), AddProducts(products)).1;
      w'.logs == w.logs && w'.stream == w.stream
  {
  }

  /** An order whose log holds a `Settled` event cannot be revived: with no
      live actor, every command other than `Create` addressed to it replays
      the log, hits the fault, and fails with `CorruptHistory`, changing
      nothing. */
  lemma SettledOrderIsNotResurrected<V>(w: World, rt: Runtime, inquiry: ProductId -> Result<Option<V>, InquiryError>,
                                        minted: OrderId, keyOrder: seq<ProductId>, target: OrderId, cmd: OrderCommand)
    requires Fresh(w, minted)
    requires cmd.AddProducts? ==> Enumerates(keyOrder, cmd.products.Keys)
    requires !cmd.Create? && !rt.findFails && target !in w.registry
    requires HasSettled(Log(w, target))
    ensures Execute(w, rt, inquiry, minted, keyOrder, Some(target), cmd) == (Failure(CorruptHistory), w)
  {
    var log := Log(w, target);
    ReplayCharacterised(log);
    if log[0].Created? {
      var i :| 0 <= i < |log| && log[i].Settled?;
      assert log[1..][i - 1].Settled?;
    }
    assert ReplayToLatest(w, target).Failure? && ReplayToLatest(w, target).error.HistoryFault?;
  }

  /** Events go to the order the live state names, not to the key the
      request addressed: a log kept under `k` that starts with another
      order's `Created(j, table)` replays to order `j`, so a `Settle`
      addressed to `k` persists and publishes `Settled(j, table)` under `j`,
      leaves `k`'s log as it was, and stops the actor registered under `k`. */
  lemma ForeignLogSettlesItsOwner<V>(w: World, rt: Runtime, inquiry: ProductId -> Result<Option<V>, InquiryError>,
                                     minted: OrderId, keyOrder: seq<ProductId>, k: OrderId, j: OrderId, table: TableId)
    requires Fresh(w, minted) && k != j && k !in w.registry
    requires Log(w, k) == [Created(j, table)] && Log(w, j) == []
    requires !rt.findFails && !rt.spawnFails && !rt.dispatchFails
    ensures var out := Execute(w, rt, inquiry, minted, keyOrder, Some(k), Settle);
      && out.0.Success?
      && Log(out.1, k) == [Created(j, table)]
      && Log(out.1, j) == [Settled(j, table)]
      && out.1.stream == w.stream + [(j, Settled(j, table))]
      && k !in out.1.registry
  {
    var log := Log(w, k);
    ReplayCharacterised(log);
    var (state, version) := ReplayToLatest(w, k).value;
    assert state == OrderAggregate.New(j, table);
    var w1 := FindOrReplay(w, rt, k).1;
    assert w1.registry[k].state == state;
    var out := Execute(w, rt, inquiry, minted, keyOrder, Some(k), Settle);
    assert out == Employ(w1, rt, k, Settle);
  }

  /** A successful `Settle` appends exactly `Settled(target, table)` to the
      order's log, where `table` is the one its `Created` event names: the
      live state the event is published from is the one replayed from the
      log. */
  lemma SettleAppendsSettled<V>(w: World, rt: Runtime, inquiry: ProductId -> Result<Option<V>, InquiryError>,
                                minted: OrderId, keyOrder: seq<ProductId>, target: OrderId)
    requires Consistent(w) && Fresh(w, minted)
    requires Execute(w, rt, inquiry, minted, keyOrder, Some(target), Settle).0.Success?
    ensures var log := Log(w, target);
      && log != [] && log[0].Created?
      && Log(Execute(w, rt, inquiry, minted, keyOrder, Some(target), Settle).1, target)
         == log + [Settled(target, log[0].table)]
  {
    var out := Execute(w, rt, inquiry, minted, keyOrder, Some(target), Settle);
    FindOrReplayKeepsConsistent(w, rt, target);
    var w1 := FindOrReplay(w, rt, target).1;
    assert FindOrReplay(w, rt, target).0.Success?;
    assert out == Employ(w1, rt, target, Settle);
    var log := Log(w, target);
    assert Log(w1, target) == log;
    assert AgreesWithLog(w1, target);
    ReplayCharacterised(log);
    var state := w1.registry[target].state;
    assert state.id == target && state.table == log[0].table;
  }

  /** Settling is final: once a `Settle` succeeds, the order has left the
      registry and its log ends in `Settled`, so every later command other than
      `Create` addressed to it fails with `CorruptHistory` whenever `find`
      answers. */
  lemma SettleIsFinal<V>(w: World, rt: Runtime, inquiry: ProductId -> Result<Option<V>, InquiryError>,
                         minted: OrderId, keyOrder: seq<ProductId>, target: OrderId,
                         rt': Runtime, inquiry': ProductId -> Result<Option<V>, InquiryError>,
                         minted': OrderId, keyOrder': seq<ProductId>, cmd: OrderCommand)
    requires Consistent(w) && Fresh(w, minted)
    requires Execute(w, rt, inquiry, minted, keyOrder, Some(target), Settle).0.Success?
    requires var w' := Execute(w, rt, inquiry, minted, keyOrder, Some(target), Settle).1;
      Fresh(w', minted') && (cmd.AddProducts? ==> Enumerates(keyOrder', cmd.products.Keys))
    requires !cmd.Create? && !rt'.findFails
    ensures var w' := Execute(w, rt, inquiry, minted, keyOrder, Some(target), Settle).1;
      && target !in w'.registry
      && Execute(w', rt', inquiry', minted', keyOrder', Some(target), cmd) == (Failure(CorruptHistory), w')
  {
    var w' := Execute(w, rt, inquiry, minted, keyOrder, Some(target), Settle).1;
    var w1 := FindOrReplay(w, rt, target).1;
    assert w' == Employ(w1, rt, target, Settle).1;
    AddresseeIsTarget(w, rt, minted, Some(target), Settle);
    var log := Log(w', target);
    assert log[|log| - 1].Settled? by {
      assert CommandOf(log[|log| - 1]) == Settle;
    }
    SettledOrderIsNotResurrected(w', rt', inquiry', minted', keyOrder', target, cmd);
  }
}
