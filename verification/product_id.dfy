/** `ProductId`: the identifier of a catalogue product, a newtype over a UUID.
    Equality and hashing are by the wrapped value, so it serves as a map key. */
module ProductIds {
  import opened Primitives

  datatype ProductId = ProductId(uuid: Uuid)

  /** `ProductId::new`: wraps any UUID; nothing is validated. */
  function New(u: Uuid): ProductId {
    ProductId(u)
  }

  /** `AsRef<Uuid>`: a view of the wrapped UUID. */
  function AsRef(p: ProductId): Uuid {
    p.uuid
  }

  /** `From<ProductId> for Uuid`: unwraps. */
  function IntoUuid(p: ProductId): Uuid {
    p.uuid
  }

  /** Wrapping and unwrapping are mutually inverse, and `as_ref` sees what `from` yields. */
  lemma RoundTrip(u: Uuid, p: ProductId)
    ensures IntoUuid(New(u)) == u
    ensures New(IntoUuid(p)) == p
    ensures AsRef(p) == IntoUuid(p)
  {
  }

  /** The derived `PartialEq`/`Hash`: two ids are the same key exactly when
      their UUIDs are. */
  lemma EqualIffSameUuid(a: ProductId, b: ProductId)
    ensures a == b <==> IntoUuid(a) == IntoUuid(b)
  {
  }
}
