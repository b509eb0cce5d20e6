/** The single error taxonomy of the builtin cryptographic plugin, and the
    failure-compatible result type that every fallible conversion returns.
    The source carries a formatted message in one `SecurityError` struct;
    here each cause is a tagged variant that keeps only the payload the
    message reports (an observed count, an observed length, a field name). */
module SecurityErrors {

  /** The four fields `receiver_key_material_for` compares, in the order it
      compares them. */
  datatype KeyMaterialField =
    | SenderKeyId
    | TransformationKind
    | MasterSenderKey
    | MasterSalt

  datatype SecurityError =
    | InvalidTransformationKind
    | KeyLengthMismatch(expected: nat, actual: nat)
    | DeserializationError
    | SerializationError
    | WrongClassId
    | UnexpectedProperties
    | WrongBinaryProperties
    | WrongKeyMaterialCount(count: nat)
    | KeyMaterialMismatch(field: KeyMaterialField)
    | MalformedHeaderExtra(length: nat)

  /** `SecurityResult<T>`: either a value or a security error. */
  datatype Result<+T> = Ok(value: T) | Err(error: SecurityError) {

    predicate IsFailure() {
      Err?
    }

    function PropagateFailure<U>(): Result<U>
      requires Err?
    {
      Err(error)
    }

    function Extract(): T
      requires Ok?
    {
      value
    }
  }

  /** Raw outcome of a Rust expression that may also panic. */
  datatype Outcome<+T> = Returns(result: Result<T>) | Panics
}
