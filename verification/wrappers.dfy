/** Option and Result values used throughout the model. A Python exception
    raised by a collaborator is a `Failure` carrying the text `str(e)`. */
module Wrappers {

  datatype Option<+T> = None | Some(value: T)

  datatype Result<+T> = Success(value: T) | Failure(error: string)
}
