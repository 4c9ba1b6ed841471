/** Option and Result datatypes, and the Python exceptions the modelled scripts let escape. */
module Wrappers {

  datatype Option<+T> = None | Some(value: T) {
    function GetOr(default: T): T {
      match this
      case Some(v) => v
      case None => default
    }
  }

  /** The exception classes the scripts raise (or let propagate from a collaborator). */
  datatype PyError =
    | KeyError(key: string)
    | ValueError(message: string)
    | TypeError(message: string)
    | IndexError(message: string)
    | NameError(name: string)
    | AttributeError(message: string)
    | StopIteration
    | External(message: string)   // raised by an SDK, an HTTP client or the interpreter's eval
  {
    /** Python's `str(e)`; a KeyError shows its key quoted, as `repr` does for a plain key. */
    function Str(): string {
      match this
      case KeyError(key) => "'" + key + "'"
      case NameError(name) => "name '" + name + "' is not defined"
      case StopIteration => ""
      case ValueError(m) => m
      case TypeError(m) => m
      case IndexError(m) => m
      case AttributeError(m) => m
      case External(m) => m
    }
  }

  /** A computation that either returns a value or raises. */
  datatype Result<+T> = Ok(value: T) | Err(error: PyError) {
    predicate IsFailure() { Err? }
    function PropagateFailure<U>(): Result<U>
      requires Err?
    {
      Err(error)
    }
    function Extract(): T
      requires Ok?
    {
      value
    }
  }
}
