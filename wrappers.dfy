// Small value wrappers shared by every module of the model: an optional value
// (Python's None, JavaScript's undefined) and the outcome of an operation that
// can raise.

module Wrappers {
  datatype Option<+T> = None | Some(value: T)

  datatype Result<+T, +E> = Ok(value: T) | Err(error: E)
}

// The exceptions the modelled code raises, by class. The message text is not
// modelled: callers of the source only ever distinguish exceptions by class.
module Exceptions {
  datatype Exception =
    | ValueError
    | TypeError
    | KeyError
    | IndexError
    | AttributeError
    | AssertionError
    | StopIteration
    | ZeroDivisionError
    | NotImplementedError
    | ValidationError     // jsonschema / Django ValidationError
    | HttpError40X        // DGHttpError40X
    | HttpError50X        // DGHttpError50X
    | ShellError          // DGShellError
    | NoContent           // DGNoContent
}
