/** Failure-aware return values and the stable error codes every layer shares. */
module Results {

  datatype Option<+T> = None | Some(value: T)

  datatype Result<+T, +E> = Ok(value: T) | Err(error: E)

  /** The codes of `domain.ErrorCode`. `OutcomeUncertain` carries the revision
      the handler observed; `IDSourceFailed` stands for the untyped error an ID
      source may return. */
  datatype ErrorCode =
    | InvalidArgument
    | NotFound
    | Conflict
    | Denied
    | Unsupported
    | IOFailure
    | CursorExpired
    | RecoveryRequired
    | SpawnFailed
    | OutcomeUncertain(observedRevision: nat)
    | IDSourceFailed
}
