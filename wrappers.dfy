/** Failure-carrying values used where the source returns None or raises. */
module Wrappers {

  datatype Option<+T> = None | Some(value: T)

  datatype Result<+R, +E> = Success(value: R) | Failure(error: E)

  /** The outcome of a check that either passes or fails with a reason. */
  datatype Outcome<+E> = Pass | Fail(error: E)

  function Min(a: int, b: int): int
  {
    if a <= b then a else b
  }
}

/** Types shared by the stages of the pipeline. */
module Common {

  /** Opaque document identifier (a UUID string in the source, generated on insert). */
  type DocId = nat

  type byte = x: int | 0 <= x < 256

  /** An HTTPException: status code and detail text. */
  datatype HttpError = HttpError(code: nat, detail: string)
}
