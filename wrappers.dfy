/** Optional values and Python exceptions, as the rest of the model uses them. */
module Wrappers {

  datatype Option<+T> = None | Some(value: T) {
    function GetOr(default: T): T {
      match this
      case Some(v) => v
      case None => default
    }
  }

  /** The exceptions the modelled code raises or lets through. `Collaborator`
      stands for anything raised inside an external collaborator (the language
      model client, JSON decoding of its reply). */
  datatype Exception =
    | ValueError(message: string)
    | TypeError(message: string)
    | KeyError(key: string)
    | AttributeError(message: string)
    | RuntimeError(message: string)
    | IsADirectoryError(path: string)
    | AssertionError
    | Collaborator(what: string)
  {
    /** `str(e)` */
    function Text(): string {
      match this
      case ValueError(m) => m
      case TypeError(m) => m
      case KeyError(k) => "'" + k + "'"
      case AttributeError(m) => m
      case RuntimeError(m) => m
      case IsADirectoryError(p) => "[Errno 21] Is a directory: '" + p + "'"
      case AssertionError => ""
      case Collaborator(w) => w
    }
  }

  /** The outcome of a Python call that may raise. */
  datatype Raising<+T> = Returned(value: T) | Raised(exc: Exception)
}
