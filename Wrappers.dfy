/** Optional values (a TypeScript `T | undefined`, a missing key of a `Partial<T>`)
    and results of operations that can throw. */
module Wrappers {

  datatype Option<+T> = None | Some(value: T) {

    /** The value, or `default` when there is none. */
    function GetOr(default: T): T {
      match this
      case Some(v) => v
      case None => default
    }
  }

  /** The outcome of a call that either returns a value or throws an `Error` with a message. */
  datatype Result<+R> = Ok(value: R) | Thrown(message: string)
}
