/** Stored event payloads, at the level of serde's data model: an externally
    tagged enum value is its variant name plus named fields. A UUID is kept as
    a UUID, a `HashMap<ProductId, Quantity>` as a map from UUIDs to integers
    (the integers are unbounded, as numbers in a JSON document are). The JSON
    text syntax itself is not modelled. */
module Payloads {
  import opened Wrappers
  import opened Primitives
  import opened Errors

  datatype Field =
    | UuidField(uuid: Uuid)
    | TextField(text: string)
    | QuantitiesField(entries: map<Uuid, int>)

  datatype Payload = Payload(variant: string, fields: map<string, Field>)

  /** `p` says at least what `q` says: same variant, and every field of `q`
      is in `p` with the same value (a decoder ignores unknown fields). */
  predicate Extends(p: Payload, q: Payload) {
    && p.variant == q.variant
    && q.fields.Keys <= p.fields.Keys
    && forall k | k in q.fields :: p.fields[k] == q.fields[k]
  }

  /** A payload holding the two given fields extends the payload made of
      exactly those fields. */
  lemma ExtendsPair(p: Payload, k1: string, f1: Field, k2: string, f2: Field)
    requires k1 in p.fields && p.fields[k1] == f1
    requires k2 in p.fields && p.fields[k2] == f2
    requires k1 != k2
    ensures Extends(p, Payload(p.variant, map[k1 := f1, k2 := f2]))
  {
    var q := Payload(p.variant, map[k1 := f1, k2 := f2]);
    forall k | k in q.fields ensures k in p.fields && p.fields[k] == q.fields[k] {
      if k == k1 {
        assert q.fields[k] == f1;
      } else {
        assert k == k2 && q.fields[k] == f2;
      }
    }
  }

  /** Reads a UUID field; a missing field and a field of another type are
      different errors, as in serde. */
  function GetUuid(p: Payload, name: string): (r: Result<Uuid, DecodeError>)
    ensures r.Success? <==> name in p.fields && p.fields[name].UuidField?
    ensures r.Success? ==> p.fields[name] == UuidField(r.value)
    ensures name !in p.fields ==> r == Failure(MissingField(name))
    ensures name in p.fields && !p.fields[name].UuidField? ==> r == Failure(InvalidType(name))
  {
    if name !in p.fields then Failure(MissingField(name))
    else if p.fields[name].UuidField? then Success(p.fields[name].uuid)
    else Failure(InvalidType(name))
  }

  /** Reads a text field; a missing field and a field of another type are
      different errors, as in serde. */
  function GetText(p: Payload, name: string): (r: Result<string, DecodeError>)
    ensures r.Success? <==> name in p.fields && p.fields[name].TextField?
    ensures r.Success? ==> p.fields[name] == TextField(r.value)
    ensures name !in p.fields ==> r == Failure(MissingField(name))
    ensures name in p.fields && !p.fields[name].TextField? ==> r == Failure(InvalidType(name))
  {
    if name !in p.fields then Failure(MissingField(name))
    else if p.fields[name].TextField? then Success(p.fields[name].text)
    else Failure(InvalidType(name))
  }

  /** Reads a quantities field; a missing field and a field of another type are
      different errors, as in serde. */
  function GetQuantities(p: Payload, name: string): (r: Result<map<Uuid, int>, DecodeError>)
    ensures r.Success? <==> name in p.fields && p.fields[name].QuantitiesField?
    ensures r.Success? ==> p.fields[name] == QuantitiesField(r.value)
    ensures name !in p.fields ==> r == Failure(MissingField(name))
    ensures name in p.fields && !p.fields[name].QuantitiesField? ==> r == Failure(InvalidType(name))
  {
    if name !in p.fields then Failure(MissingField(name))
    else if p.fields[name].QuantitiesField? then Success(p.fields[name].entries)
    else Failure(InvalidType(name))
  }

  /** Decodes `log[from..]` record by record with `decode`. It succeeds
      exactly when every record decodes, and then yields each record's value
      in place; otherwise it reports the first record that does not decode,
      and why. */
  function DecodeFrom<T>(log: seq<Payload>, from: nat, decode: Payload -> Result<T, DecodeError>)
    : (r: Result<seq<T>, ReplayError>)
    requires from <= |log|
    ensures r.Success? <==> forall j | from <= j < |log| :: decode(log[j]).Success?
    ensures r.Success? ==>
      |r.value| == |log| - from && forall j | from <= j < |log| :: decode(log[j]) == Success(r.value[j - from])
    ensures r.Failure? ==>
      && r.error.Undecodable?
      && from <= r.error.index < |log|
      && decode(log[r.error.index]) == Failure(r.error.reason)
      && forall j | from <= j < r.error.index :: decode(log[j]).Success?
    decreases |log| - from
  {
    if from == |log| then Success([])
    else
      var head := decode(log[from]);
      if head.Failure? then Failure(Undecodable(from, head.error))
      else
        var rest := DecodeFrom(log, from + 1, decode);
        if rest.Failure? then rest
        else Success([head.value] + rest.value)
  }

  /** A log written with an encoder that `decode` inverts reads back, record
      by record, as the values it was written from. */
  lemma LogRoundTrip<T>(es: seq<T>, log: seq<Payload>, encode: T -> Payload, decode: Payload -> Result<T, DecodeError>)
    requires forall e :: decode(encode(e)) == Success(e)
    requires |log| == |es| && forall j | 0 <= j < |log| :: log[j] == encode(es[j])
    ensures DecodeFrom(log, 0, decode) == Success(es)
  {
    forall j | 0 <= j < |log| ensures decode(log[j]) == Success(es[j]) {
      assert log[j] == encode(es[j]);
    }
    var r := DecodeFrom(log, 0, decode);
    assert r.Success?;
    assert r.value == es;
  }
}
