/** `TableId`: the identifier of a table aggregate, a newtype over a UUID.
    Equality is by the wrapped value. */
module TableIds {
  import opened Primitives

  datatype TableId = TableId(uuid: Uuid)

  /** `TableId::new`: wraps any UUID; nothing is validated. */
  function New(u: Uuid): TableId {
    TableId(u)
  }

  /** `AsRef<Uuid>`: a view of the wrapped UUID. */
  function AsRef(t: TableId): Uuid {
    t.uuid
  }

  /** `From<TableId> for Uuid`: unwraps. */
  function IntoUuid(t: TableId): Uuid {
    t.uuid
  }

  /** Wrapping and unwrapping are mutually inverse, and `as_ref` sees what `from` yields. */
  lemma RoundTrip(u: Uuid, t: TableId)
    ensures IntoUuid(New(u)) == u
    ensures New(IntoUuid(t)) == t
    ensures AsRef(t) == IntoUuid(t)
  {
  }

  /** The derived `PartialEq`: two ids are equal exactly when their UUIDs are. */
  lemma EqualIffSameUuid(a: TableId, b: TableId)
    ensures a == b <==> IntoUuid(a) == IntoUuid(b)
  {
  }
}
