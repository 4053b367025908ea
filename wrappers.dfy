/** Option and Result, and the exceptions the modelled code can raise. */
module Wrappers {

  datatype Option<+T> = None | Some(value: T) {
    function GetOr(default: T): T {
      match this
      case Some(v) => v
      case None => default
    }
  }

  /** The exceptions raised on the modelled paths, one constructor per raise site or
      Python built-in error kind. */
  datatype Exception =
    | ConfigurationNotSet                       // aws_hub.py:205, 230
    | MissingGroups                             // aws_hub.py:184
    | UnknownFamily(family: string, region: string)  // aws_hub.py:220
    | TooManyOnDemandInstances                  // aws_hub.py:310
    | NoInstances                               // aws_hub.py:317, 367
    | InvalidType                               // aws_hub.py:426 (a literal message)
    | KeyError(key: string)
    | TypeError(what: string)
    | IndexError
    | ValueError
    | AttributeError(name: string)
    | UnboundLocalError(name: string)

  /** A value, or the exception that ended the computation. */
  datatype Result<+T> = Ok(value: T) | Err(error: Exception) {
    predicate IsFailure() {
      Err?
    }

    function PropagateFailure<U>(): Result<U>
      requires Err?
    {
      Err(error)
    }

    function Extract(): T
      requires Ok?
    {
      value
    }
  }
}
