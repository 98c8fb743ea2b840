/** `TableCommand`: what a caller asks of a table. No variant carries a
    `TableId`; `Register` and `Rename` carry a `TableName`, `Deregister`
    carries nothing. */
module TableCommands {
  import opened TableNames

  datatype TableCommand =
    | Register(name: TableName)
    | Rename(name: TableName)
    | Deregister
}
