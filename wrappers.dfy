/** Option and Result values used to model C# null references and thrown exceptions. */
module Wrappers {
  datatype Option<T> = None | Some(value: T)

  /** Exceptions the modelled C# code can raise; Argument is the ArgumentException of adding a key twice. */
  datatype Error = NullReference | IndexOutOfRange | KeyNotFound | Argument

  datatype Result<T> = Success(value: T) | Failure(error: Error)
}
