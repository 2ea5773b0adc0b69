/** Values shared by every part of the model: optional values, results,
    entity identifiers, timestamps and the three user roles. */
module Common {

  /** A value that may be absent; `None` stands for a JavaScript `undefined`. */
  datatype Option<+T> = None | Some(value: T)

  /** The outcome of an operation: its value, or the error code it answers with. */
  datatype Result<+T, +E> = Ok(value: T) | Err(error: E)

  /** Database identifiers (Mongo ObjectIds) are opaque; the model numbers them. */
  type Id = nat

  /** A timestamp in milliseconds, as a JavaScript `Date` holds it. */
  type Time = int

  /** The `role` enum of a user account. */
  datatype Role = Blogger | Advertiser | Admin
}
