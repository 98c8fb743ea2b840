/** `TableEvent`: what a table records. Every variant carries the table's id;
    `Registered` and `Renamed` carry a `TableName`, `Deregistered` only the id.
    The payload codec (declared as a serde encoder/decoder pair) is modelled on
    serde's data model. */
module TableEvents {
  import opened Wrappers
  import opened TableIds
  import opened TableNames
  import opened Errors
  import opened Payloads

  datatype TableEvent =
    | Registered(id: TableId, name: TableName)
    | Renamed(id: TableId, name: TableName)
    | Deregistered(id: TableId)

  function Encode(e: TableEvent): Payload {
    match e
    case Registered(id, name) =>
      Payload("Registered", map["id" := UuidField(id.uuid), "name" := TextField(name.text)])
    case Renamed(id, name) =>
      Payload("Renamed", map["id" := UuidField(id.uuid), "name" := TextField(name.text)])
    case Deregistered(id) =>
      Payload("Deregistered", map["id" := UuidField(id.uuid)])
  }

  function Decode(p: Payload): (r: Result<TableEvent, DecodeError>)
    ensures r.Success? ==> Extends(p, Encode(r.value))
  {
    if p.variant == "Registered" || p.variant == "Renamed" then
      match (GetUuid(p, "id"), GetText(p, "name"))
      case (Success(id), Success(name)) =>
        if p.variant == "Registered" then Success(Registered(TableId(id), TableName(name)))
        else Success(Renamed(TableId(id), TableName(name)))
      case (Failure(err), _) => Failure(err)
      case (_, Failure(err)) => Failure(err)
    else if p.variant == "Deregistered" then
      match GetUuid(p, "id")
      case Success(id) => Success(Deregistered(TableId(id)))
      case Failure(err) => Failure(err)
    else
      Failure(UnknownVariant(p.variant))
  }

  /** Decoding inverts encoding: every stored event reads back as itself. */
  lemma DecodeEncode(e: TableEvent)
    ensures Decode(Encode(e)) == Success(e)
  {
  }

  /** A stored log reads back, record by record, as the events it was
      written from. */
  lemma LogRoundTrip(es: seq<TableEvent>)
    ensures DecodeFrom(seq(|es|, i requires 0 <= i < |es| => Encode(es[i])), 0, Decode) == Success(es)
  {
    forall e ensures Decode(Encode(e)) == Success(e) {
      DecodeEncode(e);
    }
    var log := seq(|es|, i requires 0 <= i < |es| => Encode(es[i]));
    Payloads.LogRoundTrip(es, log, Encode, Decode);
  }
}
