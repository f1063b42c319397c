// Shared result shapes for the Go idioms the model needs: nil-able values,
// `(T, error)` returns, iterator/pager reads that may fail, and panics.
module Wrappers {

  datatype Option<T> = None | Some(value: T)
  {
    function GetOr(default: T): (r: T)
      ensures this.Some? ==> r == value
      ensures this.None? ==> r == default
    {
      match this
      case Some(v) => v
      case None => default
    }
  }

  /** The `(T, error)` pair of a Go call: a value, or the error's message. */
  datatype Outcome<T> = Success(value: T) | Failure(error: string)

  /** One step of an iterator or pager: the next item, or the error that ends it. */
  datatype Read<T> = Item(value: T) | ReadError(error: string)

  /**
   * A computation that may panic (a nil dereference, an index out of range,
   * `panic(…)`); a runtime panic's message keeps Go's "runtime error: " prefix.
   */
  datatype Fallible<T> = Done(value: T) | Panic(message: string)

  /** The message of Go's runtime panic on dereferencing a nil pointer. */
  const NilDereference := "runtime error: invalid memory address or nil pointer dereference"
}
