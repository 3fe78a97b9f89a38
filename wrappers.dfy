/** Option and Result, the two failure-carrying datatypes the model uses for
    missing values and for remote calls that either return or raise. */
module Wrappers {

  datatype Option<+T> = None | Some(value: T) {
    function GetOr(default: T): T {
      match this
      case Some(v) => v
      case None => default
    }
  }

  datatype Result<+R, +E> = Success(value: R) | Failure(error: E)

  /** The abstract outcome of one remote call that returns nothing of interest:
      None when it returned, Some(message) when it raised with that message. */
  type Fault = Option<string>
}
