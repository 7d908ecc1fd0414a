/** Option and Result values shared by the modules of this model: a missing
    query parameter is None, a thrown error or an error response is Failure. */
module Outcomes {

  datatype Option<+T> = None | Some(value: T)

  datatype Result<+T, +E> = Success(value: T) | Failure(error: E)
}
