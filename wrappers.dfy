/** Optional values and results with an error, shared by the other modules. */
module Wrappers {

  /** A value that may be missing (`null` / `undefined` on the TypeScript side). */
  datatype Option<+T> = None | Some(value: T)

  /** The outcome of a step that may fail with an error value (a thrown exception). */
  datatype Result<+T, +E> = Success(value: T) | Failure(error: E)
}
