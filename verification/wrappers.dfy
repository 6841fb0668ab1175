/** Option and Result datatypes used for the optional analyzer slots and for
    the analyses that either produce a report or raise one of the source's
    exceptions. */
module Wrappers {

  datatype Option<+T> = None | Some(value: T)

  datatype Result<+R, +E> = Success(value: R) | Failure(error: E)
}
