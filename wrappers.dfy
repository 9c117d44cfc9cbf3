/** Optional values and results for the agent's "None" returns and raised exceptions. */
module Wrappers {

  datatype Option<+T> = None | Some(value: T) {
    function GetOr(default: T): T {
      match this
      case Some(v) => v
      case None => default
    }
  }

  /** `Failure` stands for a Python exception that escapes the modelled operation. */
  datatype Result<+T> = Success(value: T) | Failure(error: string)
}
