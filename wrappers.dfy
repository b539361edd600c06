/** Java's nullable references and thrown exceptions, as values. */
module Wrappers {

  /** A Java reference that may be null: `None` stands for null. */
  datatype Option<+T> = None | Some(value: T)

  /** The outcome of a Java call that either returns or throws. */
  datatype Result<+T, +E> = Ok(value: T) | Err(error: E)

  /** The exceptions the modelled code can throw. */
  datatype JavaException =
    | NullPointerException
    | IOException(message: string)
    | InterruptedException
}
