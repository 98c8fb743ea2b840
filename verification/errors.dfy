/** The error values of the kernel (kernel/src/errors.rs), of the application
    layer (app-cmd/src/errors.rs), of payload decoding and of replay. */
module Errors {

  /** A command rejected by an aggregate's `publish`. */
  datatype ValidationError = ValidationError

  /** The product catalogue could not be queried. */
  datatype InquiryError = InquiryError

  /** A command cannot build an aggregate (`TryFrom` on a non-creation command). */
  datatype FormationError = FormationError

  /** Why a stored payload does not decode to an event. */
  datatype DecodeError =
    | UnknownVariant(variant: string)
    | MissingField(field: string)
    | InvalidType(field: string)
    | OutOfRange(field: string)

  /** The two ways a history can contradict the aggregate's lifecycle; the
      Rust projection panics on both. */
  datatype Fault =
    | NotACreationEvent    // the first event is not the creation event
    | FoldedTerminalEvent  // a terminal event was folded into a state

  /** Why replaying an event log fails. */
  datatype ReplayError =
    | EmptyHistory
    | Undecodable(index: nat, reason: DecodeError)
    | HistoryFault(fault: Fault)

  /** `ApplicationError`, plus `CorruptHistory`, which stands for the panic the
      Rust code raises while replaying a history that breaks the lifecycle. */
  datatype ApplicationError =
    | Formation
    | Process
    | RequiredId
    | Io
    | NotFound
    | Kernel
    | CorruptHistory
}
