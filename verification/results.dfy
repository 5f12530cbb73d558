/** Option and Result datatypes, and the two failure kinds the custom fields raise. */
module Results {

  datatype Option<+T> = None | Some(value: T)

  /** The failures the fields module raises itself. */
  datatype Error =
    | UnsupportedEngine              // `raise NotImplemented` for an engine with no bigint identifier type
    | ValidationError(message: string) // `exceptions.ValidationError` when a value is not a long integer

  datatype Result<+T> = Ok(value: T) | Err(error: Error)
}
