/** Option stands for Kotlin's nullable values and Either for arrow's `Either`. */
module Wrappers {

  /** A value that may be absent: Kotlin's `T?`. */
  datatype Option<+T> = None | Some(value: T)

  /** arrow's `Either`: `Left` carries the error and `Right` carries the success value. */
  datatype Either<+L, +R> = Left(left: L) | Right(right: R)
}
