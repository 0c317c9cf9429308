/** Failure-carrying values shared by both reconcile passes. */
module Common {

  /** An optional value: Go's nil pointer is `None`. */
  datatype Option<+T> = None | Some(value: T)

  /**
   * Errors reported by the resource store or by a syncer. Only the
   * distinction NotFound / everything else matters to the passes
   * (`errors.IsNotFound` in the source); `Conflict` is what a failed
   * optimistic-concurrency write reports.
   */
  datatype ApiError = NotFound | Conflict | Other(reason: string)

  /** A Go `(value, error)` pair: exactly one of the two is meaningful. */
  datatype Result<+T> = Success(value: T) | Failure(error: ApiError)
}
