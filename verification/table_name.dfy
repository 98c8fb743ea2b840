/** `TableName`: a newtype over `String`. Nothing is validated: the empty
    name is accepted. */
module TableNames {

  datatype TableName = TableName(text: string)

  /** `TableName::new`: wraps any string. */
  function New(s: string): TableName {
    TableName(s)
  }

  /** `AsRef<str>`: the whole wrapped string. */
  function AsRef(n: TableName): string {
    n.text
  }

  /** `From<TableName> for String`: unwraps. */
  function IntoString(n: TableName): string {
    n.text
  }

  /** Wrapping and unwrapping are mutually inverse for every string, the empty
      one included, and `as_ref` yields the whole string `from` yields. */
  lemma RoundTrip(s: string, n: TableName)
    ensures IntoString(New(s)) == s
    ensures New(IntoString(n)) == n
    ensures AsRef(n) == IntoString(n)
  {
  }
}
