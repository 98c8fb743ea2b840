/** `OrderCommandService::execute`: resolve the addressed order (a newly minted one
    for `Create`, find-or-replay otherwise), check every product an
    `AddProducts` names against the catalogue, then employ the command. The
    catalogue is a function argument; the random id `OrderId::default()`
    mints is an argument too, and `HashMap` key iteration order is an
    argument listing the keys. */
module OrderService {
  import opened Wrappers
  import opened OrderIds
  import opened TableIds
  import opened ProductIds
  import opened Errors
  import opened OrderCommands
  import opened OrderEvents
  import opened OrderAggregate
  import opened OrderFormation
  import opened ProcessManager
  import opened Adapter

  /** A catalogue answer that lets the command through: the product exists. */
  predicate Available<V>(answer: Result<Option<V>, InquiryError>) {
    answer.Success? && answer.value.Some?
  }

  /** `keys` lists every element of `s` exactly once (an iteration order). */
  predicate Enumerates(keys: seq<ProductId>, s: set<ProductId>) {
    && (forall i | 0 <= i < |keys| :: keys[i] in s)
    && (forall p | p in s :: p in keys)
    && (forall i, j | 0 <= i < j < |keys| :: keys[i] != keys[j])
  }

  /** A minted id nobody has used: no live order and no log. */
  predicate Fresh(w: World, id: OrderId) {
    id !in w.registry && Log(w, id) == []
  }

  /** The outcome of the product check and the products queried, in order. */
  datatype Inquiry = Inquiry(outcome: Result<(), ApplicationError>, queried: seq<ProductId>)

  /** The product check of `AddProducts`: queries the catalogue key by key and
      stops at the first key that is not available. It passes exactly when
      every key is available, having queried them all; otherwise the last key
      queried is the first unavailable one, and the error is `Io` when its
      query failed and `NotFound` when the product is absent. */
  function CheckProducts<V>(inquiry: ProductId -> Result<Option<V>, InquiryError>, keys: seq<ProductId>): (r: Inquiry)
    ensures r.queried <= keys
    ensures r.outcome.Success? <==> forall i | 0 <= i < |keys| :: Available(inquiry(keys[i]))
    ensures r.outcome.Success? ==> r.queried == keys
    ensures r.outcome.Failure? ==>
      && r.queried != []
      && (forall i | 0 <= i < |r.queried| - 1 :: Available(inquiry(r.queried[i])))
      && var last := inquiry(r.queried[|r.queried| - 1]);
         && !Available(last)
         && (r.outcome.error == Io <==> last.Failure?)
         && (r.outcome.error == NotFound <==> last.Success? && last.value.None?)
    decreases keys
  {
    if keys == [] then Inquiry(Success(()), [])
    else
      var answer := inquiry(keys[0]);
      if answer.Failure? then Inquiry(Failure(Io), [keys[0]])
      else if answer.value.None? then Inquiry(Failure(NotFound), [keys[0]])
      else
        var rest := CheckProducts(inquiry, keys[1..]);
        Inquiry(rest.outcome, [keys[0]] + rest.queried)
  }

  /** The first half of `execute`: which order the command goes to. `Create`
      ignores the caller's id, builds the order from the command under the
      minted id and spawns it at version 0; any other command needs an id
      (`RequiredId` otherwise) and resolves it by find-or-replay. */
  function Resolve(w: World, rt: Runtime, minted: OrderId, id: Option<OrderId>, cmd: OrderCommand)
    : (out: (Result<OrderId, ApplicationError>, World))
    requires Fresh(w, minted)
    ensures out.1.logs == w.logs && out.1.stream == w.stream
    ensures out.0.Success? ==> out.0.value in out.1.registry
    ensures out.0.Failure? ==> out.1 == w && out.0.error != Kernel
    ensures cmd.Create? ==>
      out == if rt.spawnFails then (Failure(Process), w)
             else (Success(minted), w.(registry := w.registry[minted := Entry(OrderAggregate.New(minted, cmd.table), 0)]))
    ensures !cmd.Create? && id.None? ==> out == (Failure(RequiredId), w)
    ensures !cmd.Create? && id.Some? ==> out == FindOrReplay(w, rt, id.value)
  {
    if cmd.Create? then
      match TryFrom(minted, cmd)
      case Failure(_) => (Failure(Formation), w)
      case Success(order) =>
        if rt.spawnFails then (Failure(Process), w)
        else (Success(minted), Spawn(w, minted, order, 0))
    else
      match id
      case None => (Failure(RequiredId), w)
      case Some(target) => FindOrReplay(w, rt, target)
  }

  /** The second half of `execute`, once the order is resolved: the product
      check for `AddProducts`, then the delivery of the command. A failure
      leaves the logs and the stream as they were; a success appends one
      event recording the command to the log of the order the live state
      names, and emits it under that id. */
  function Deliver<V>(w: World, rt: Runtime, inquiry: ProductId -> Result<Option<V>, InquiryError>,
                      keyOrder: seq<ProductId>, target: OrderId, cmd: OrderCommand)
    : (out: (Result<(), ApplicationError>, World))
    requires target in w.registry
    ensures out.0 != Failure(Kernel)
    ensures out.0.Failure? ==> out.1 == w
    ensures out.0.Success? <==>
      (!cmd.AddProducts? || CheckProducts(inquiry, keyOrder).outcome.Success?) && !rt.dispatchFails
    ensures out.0.Success? ==>
      var owner := w.registry[target].state.id;
      var before := Log(w, owner);
      var after := Log(out.1, owner);
      && |after| == |before| + 1 && after[..|before|] == before
      && CommandOf(after[|before|]) == cmd && after[|before|].id == owner
      && out.1.stream == w.stream + [(owner, after[|before|])]
      && (forall k | k != owner :: Log(out.1, k) == Log(w, k))
  {
    var check := if cmd.AddProducts? then CheckProducts(inquiry, keyOrder).outcome else Success(());
    match check
    case Failure(err) => (Failure(err), w)
    case Success(_) => Employ(w, rt, target, cmd)
  }

  /** The order a resolved request is addressed to: the id the live state
      under the resolved key carries, which is where `apply` persists and
      publishes (`aggregate_id`). For `Create` it is the minted id; for
      another command it is the addressed id whenever the live order agrees
      with its log (`AddresseeIsTarget`). */
  function Addressee(w: World, rt: Runtime, minted: OrderId, id: Option<OrderId>, cmd: OrderCommand): OrderId
    requires Fresh(w, minted) && Resolve(w, rt, minted, id, cmd).0.Success?
  {
    var (resolved, w1) := Resolve(w, rt, minted, id, cmd);
    w1.registry[resolved.value].state.id
  }

  /** In a consistent world a request reaches the order it addresses: a
      live order carries the id it is registered under, and a replayed one is
      built from a log stamped with it. */
  lemma AddresseeIsTarget(w: World, rt: Runtime, minted: OrderId, id: Option<OrderId>, cmd: OrderCommand)
    requires Consistent(w) && Fresh(w, minted) && Resolve(w, rt, minted, id, cmd).0.Success?
    ensures Addressee(w, rt, minted, id, cmd) == if cmd.Create? then minted else id.value
  {
    if !cmd.Create? {
      FindOrReplayKeepsConsistent(w, rt, id.value);
      assert AgreesWithLog(Resolve(w, rt, minted, id, cmd).1, id.value);
    }
  }

  /** `execute(id, cmd)`: the result and the world afterwards. */
  function Execute<V>(w: World, rt: Runtime, inquiry: ProductId -> Result<Option<V>, InquiryError>,
                      minted: OrderId, keyOrder: seq<ProductId>, id: Option<OrderId>, cmd: OrderCommand)
    : (out: (Result<(), ApplicationError>, World))
    requires Fresh(w, minted)
    requires cmd.AddProducts? ==> Enumerates(keyOrder, cmd.products.Keys)
    // an order never rejects a command, so `Kernel` never surfaces
    ensures out.0 != Failure(Kernel)
    // a failed request appends no event and emits nothing
    ensures out.0.Failure? ==> out.1.logs == w.logs && out.1.stream == w.stream
    // `Create` cannot fail to form the order; it succeeds unless the runtime fails
    ensures cmd.Create? ==> out.0 != Failure(Formation)
    ensures cmd.Create? ==> (out.0.Success? <==> !rt.spawnFails && !rt.dispatchFails)
    // a mutating command without an id is refused before anything happens
    ensures !cmd.Create? && id.None? ==> out == (Failure(RequiredId), w)
    // success employs exactly one command: one event recording it is
    // appended to the log of the order the resolved live state names, and
    // emitted under that id
    ensures out.0.Success? ==> Resolve(w, rt, minted, id, cmd).0.Success?
    ensures out.0.Success? ==>
      var owner := Addressee(w, rt, minted, id, cmd);
      var before := Log(w, owner);
      var after := Log(out.1, owner);
      && (cmd.Create? ==> owner == minted)
      && |after| == |before| + 1 && after[..|before|] == before
      && CommandOf(after[|before|]) == cmd && after[|before|].id == owner
      && out.1.stream == w.stream + [(owner, after[|before|])]
      && (forall k | k != owner :: Log(out.1, k) == Log(w, k))
  {
    var (resolved, w1) := Resolve(w, rt, minted, id, cmd);
    match resolved
    case Failure(err) => (Failure(err), w1)
    case Success(target) =>
      assert cmd.Create? ==> target == minted;
      assert !cmd.Create? ==> target == id.value;
      Deliver(w1, rt, inquiry, keyOrder, target, cmd)
  }
}
