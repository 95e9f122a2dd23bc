/** Option and Result: the shapes used for the handler's partial steps
    (a decode that can fail, a request rejected before the upstream call). */
module Wrappers {

  datatype Option<+T> = None | Some(value: T)

  datatype Result<+R, +E> = Success(value: R) | Failure(error: E)
}
