/** Absence and failure. `Option` stands for a Java reference that may be
    null; `Result` for a call that either returns normally or throws. */
module Wrappers {

  datatype Option<+T> = None | Some(value: T) {

    /** The wrapped value, or `default` when absent (a null check with a
        fallback). */
    function GetOr(default: T): T {
      match this
      case Some(v) => v
      case None => default
    }
  }

  datatype Result<+T, +E> = Ok(value: T) | Err(error: E)
}

/** The Java exceptions the modelled code can raise. */
module Failures {
  import opened Wrappers

  datatype Failure =
    | NullPointer                          // a field read through a null reference
    | InvalidClusterSize(size: Option<int>) // the builder's RuntimeException
    | NegativeArraySize(length: int)         // `new ConsulContainer[size]` with size < 0
    | IndexOutOfBounds(index: int)          // an array store past the end
    | NoSuchElement                         // `findFirst().get()` on an empty stream
    | StartFailed                           // a container start that threw
}
