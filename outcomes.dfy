/** Option and Result types shared by the model, and the Python exceptions the
    training script can raise on the paths the model covers. */
module Outcomes {

  datatype Option<+T> = None | Some(value: T)

  /** The exceptions of the modelled code paths. A RuntimeError keeps its
      message, because the trainer inspects it for "out of memory". */
  datatype Exception =
    | RuntimeError(message: string)
    | AttributeError
    | AssertionError
    | IndexError
    | ZeroDivisionError

  /** A call either returns a value or raises an exception. */
  datatype Result<+T> = Ok(value: T) | Raise(exception: Exception)
}
