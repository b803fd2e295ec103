/** Option and Result, used for "no row", "no answer" and thrown errors. */
module Wrappers {

  datatype Option<T> = None | Some(value: T) {

    /** Applies `f` to the value, if there is one. */
    function Map<U>(f: T -> U): Option<U> {
      match this
      case None => None
      case Some(v) => Some(f(v))
    }
  }

  /** The outcome of an operation that can throw: its value, or the error's message. */
  datatype Result<T> = Ok(value: T) | Err(message: string)
}
