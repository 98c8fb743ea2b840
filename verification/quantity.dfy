/** `Quantity`: a newtype over `i32`. No invariant is imposed: zero and
    negative counts are accepted. */
module Quantities {
  import opened Primitives

  datatype Quantity = Quantity(value: Int32)

  /** `Quantity::new`: wraps any `i32`. */
  function New(n: Int32): Quantity {
    Quantity(n)
  }

  /** `AsRef<i32>`: a view of the wrapped integer. */
  function AsRef(q: Quantity): Int32 {
    q.value
  }

  /** `From<Quantity> for i32`: unwraps. */
  function IntoInt32(q: Quantity): Int32 {
    q.value
  }

  /** Wrapping and unwrapping are mutually inverse for every `i32`, including
      zero and the negatives, and `as_ref` sees what `from` yields. */
  lemma RoundTrip(n: Int32, q: Quantity)
    ensures IntoInt32(New(n)) == n
    ensures New(IntoInt32(q)) == q
    ensures AsRef(q) == IntoInt32(q)
  {
  }
}
