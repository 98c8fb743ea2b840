/** `OrderEvent`: what an order records. Every variant carries the order's id;
    `Created` and `Settled` carry the table; `AddedProducts` carries one whole
    product-to-quantity map, one batch per event. The payload codec (declared
    as a serde encoder/decoder pair) is modelled on serde's data model. */
module OrderEvents {
  import opened Wrappers
  import opened Primitives
  import opened OrderIds
  import opened TableIds
  import opened ProductIds
  import opened Quantities
  import opened Errors
  import opened Payloads

  datatype OrderEvent =
    | Created(id: OrderId, table: TableId)
    | AddedProducts(id: OrderId, products: map<ProductId, Quantity>)
    | Settled(id: OrderId, tableId: TableId)

  /** A batch as serde writes it: keys by UUID, quantities as plain integers. */
  function EncodeProducts(m: map<ProductId, Quantity>): (r: map<Uuid, int>)
    ensures forall p :: p in m <==> p.uuid in r
    ensures forall p | p in m :: r[p.uuid] == m[p].value as int
  {
    map p | p in m :: p.uuid := m[p].value as int
  }

  /** Reads a batch back; a number outside the `i32` range is rejected. */
  function DecodeProducts(r: map<Uuid, int>): (m: Result<map<ProductId, Quantity>, DecodeError>)
    ensures m.Success? <==> forall u | u in r :: InInt32Range(r[u])
    ensures m.Success? ==> EncodeProducts(m.value) == r
  {
    if forall u | u in r :: InInt32Range(r[u]) then
      var d := map u | u in r :: ProductId(u) := Quantity(r[u] as Int32);
      assert EncodeProducts(d).Keys == r.Keys by {
        forall u | u in r ensures u in EncodeProducts(d) {
          assert ProductId(u) in d;
        }
      }
      Success(d)
    else
      Failure(OutOfRange("products"))
  }

  function Encode(e: OrderEvent): Payload {
    match e
    case Created(id, table) =>
      Payload("Created", map["id" := UuidField(id.uuid), "table" := UuidField(table.uuid)])
    case AddedProducts(id, products) =>
      Payload("AddedProducts", map["id" := UuidField(id.uuid), "products" := QuantitiesField(EncodeProducts(products))])
    case Settled(id, tableId) =>
      Payload("Settled", map["id" := UuidField(id.uuid), "table_id" := UuidField(tableId.uuid)])
  }

  /** Reads the fields of `Created`; the id is read first. */
  function DecodeCreated(p: Payload): (r: Result<OrderEvent, DecodeError>)
    requires p.variant == "Created"
    ensures r.Success? ==> r.value.Created? && Extends(p, Encode(r.value))
  {
    var id := GetUuid(p, "id");
    if id.Failure? then Failure(id.error) else
    var table := GetUuid(p, "table");
    if table.Failure? then Failure(table.error) else
    ExtendsPair(p, "id", UuidField(id.value), "table", UuidField(table.value));
    Success(Created(OrderId(id.value), TableId(table.value)))
  }

  /** The payload of `AddedProducts` whose batch encodes to `entries`. */
  lemma EncodedBatch(id: OrderId, products: map<ProductId, Quantity>, entries: map<Uuid, int>)
    requires EncodeProducts(products) == entries
    ensures Encode(AddedProducts(id, products))
         == Payload("AddedProducts", map["id" := UuidField(id.uuid), "products" := QuantitiesField(entries)])
  {
  }

  /** Reads the fields of `AddedProducts`; the id is read first, then the
      batch, whose quantities must fit in `i32`. */
  function DecodeAddedProducts(p: Payload): (r: Result<OrderEvent, DecodeError>)
    requires p.variant == "AddedProducts"
    ensures r.Success? ==> r.value.AddedProducts? && Extends(p, Encode(r.value))
  {
    var id := GetUuid(p, "id");
    if id.Failure? then Failure(id.error) else
    var entries := GetQuantities(p, "products");
    if entries.Failure? then Failure(entries.error) else
    var products := DecodeProducts(entries.value);
    if products.Failure? then Failure(products.error) else
    EncodedBatch(OrderId(id.value), products.value, entries.value);
    ExtendsPair(p, "id", UuidField(id.value), "products", QuantitiesField(entries.value));
    Success(AddedProducts(OrderId(id.value), products.value))
  }

  /** Reads the fields of `Settled`; the id is read first. */
  function DecodeSettled(p: Payload): (r: Result<OrderEvent, DecodeError>)
    requires p.variant == "Settled"
    ensures r.Success? ==> r.value.Settled? && Extends(p, Encode(r.value))
  {
    var id := GetUuid(p, "id");
    if id.Failure? then Failure(id.error) else
    var tableId := GetUuid(p, "table_id");
    if tableId.Failure? then Failure(tableId.error) else
    ExtendsPair(p, "id", UuidField(id.value), "table_id", UuidField(tableId.value));
    Success(Settled(OrderId(id.value), TableId(tableId.value)))
  }

  /** Reads a payload by its variant name; an unknown name is an error. */
  function Decode(p: Payload): (r: Result<OrderEvent, DecodeError>)
    ensures r.Success? ==> Extends(p, Encode(r.value))
  {
    if p.variant == "Created" then DecodeCreated(p)
    else if p.variant == "AddedProducts" then DecodeAddedProducts(p)
    else if p.variant == "Settled" then DecodeSettled(p)
    else Failure(UnknownVariant(p.variant))
  }

  /** A batch reads back as itself. */
  lemma DecodeEncodeProducts(m: map<ProductId, Quantity>)
    ensures DecodeProducts(EncodeProducts(m)) == Success(m)
  {
    var r := EncodeProducts(m);
    var d := DecodeProducts(r);
    assert d.Success?;
    forall p | p in m ensures p in d.value && d.value[p] == m[p] {
      assert p.uuid in r && ProductId(p.uuid) == p;
      assert r[p.uuid] == m[p].value as int;
    }
    forall p | p in d.value ensures p in m {
      assert p.uuid in r;
    }
    assert d.value == m;
  }

  /** Decoding inverts encoding: every stored event reads back as itself. */
  lemma DecodeEncode(e: OrderEvent)
    ensures Decode(Encode(e)) == Success(e)
  {
    var p := Encode(e);
    assert GetUuid(p, "id") == Success(e.id.uuid);
    match e
    case Created(id, table) =>
      assert GetUuid(p, "table") == Success(table.uuid);
      assert Decode(p) == DecodeCreated(p);
    case AddedProducts(id, products) =>
      assert GetQuantities(p, "products") == Success(EncodeProducts(products));
      DecodeEncodeProducts(products);
      assert Decode(p) == DecodeAddedProducts(p);
    case Settled(id, tableId) =>
      assert GetUuid(p, "table_id") == Success(tableId.uuid);
      assert Decode(p) == DecodeSettled(p);
  }

  /** A stored log reads back, record by record, as the events it was
      written from. */
  lemma LogRoundTrip(es: seq<OrderEvent>)
    ensures DecodeFrom(seq(|es|, i requires 0 <= i < |es| => Encode(es[i])), 0, Decode) == Success(es)
  {
    forall e ensures Decode(Encode(e)) == Success(e) {
      DecodeEncode(e);
    }
    var log := seq(|es|, i requires 0 <= i < |es| => Encode(es[i]));
    Payloads.LogRoundTrip(es, log, Encode, Decode);
  }
}
