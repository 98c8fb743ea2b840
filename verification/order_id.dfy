/** `OrderId`: the identifier of an order aggregate, a newtype over a UUID.
    Equality and hashing are by the wrapped value. */
module OrderIds {
  import opened Primitives

  datatype OrderId = OrderId(uuid: Uuid)

  /** `OrderId::new`: wraps any UUID; nothing is validated. */
  function New(u: Uuid): OrderId {
    OrderId(u)
  }

  /** `AsRef<Uuid>`: a view of the wrapped UUID. */
  function AsRef(o: OrderId): Uuid {
    o.uuid
  }

  /** `From<OrderId> for Uuid`: unwraps. */
  function IntoUuid(o: OrderId): Uuid {
    o.uuid
  }

  /** Wrapping and unwrapping are mutually inverse, and `as_ref` sees what `from` yields. */
  lemma RoundTrip(u: Uuid, o: OrderId)
    ensures IntoUuid(New(u)) == u
    ensures New(IntoUuid(o)) == o
    ensures AsRef(o) == IntoUuid(o)
  {
  }

  /** The derived `PartialEq`: two ids are equal exactly when their UUIDs are. */
  lemma EqualIffSameUuid(a: OrderId, b: OrderId)
    ensures a == b <==> IntoUuid(a) == IntoUuid(b)
  {
  }
}
