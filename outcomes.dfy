/** Optional values, and the outcome of a harness operation that ends in a
    CHECK. A failed CHECK aborts the test process; the model returns it as an
    explicit value naming the check instead. */
module Outcomes {

  datatype Option<T> = None | Some(value: T)
  {
    function GetOr(default: T): T
    {
      match this
      case Some(v) => v
      case None => default
    }
  }

  /** Either the operation completed with a value, or the named CHECK failed
      and the process aborts at that point. */
  datatype Result<T> = Ok(value: T) | CheckFailed(check: string)
}
