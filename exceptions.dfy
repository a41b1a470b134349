/**
 * The exceptions the bot raises or lets escape, as one error datatype.
 * EndpointStatusError and NotCriticalError are the bot's own exception
 * classes; TypeError, KeyError and IndexError are Python's built-in kinds
 * that the validator and the status extractor raise (or trigger).
 */
module Exceptions {

  /** Each kind carries the one argument it was raised with. */
  datatype Error =
    | EndpointStatusError(message: string)
    | NotCriticalError(message: string)
    | TypeError(message: string)
    | KeyError(message: string)
    | IndexError(message: string)

  /** Outcome of an operation that may raise one of the errors above. */
  datatype Result<+T> = Ok(value: T) | Err(error: Error) {
    predicate IsFailure() {
      Err?
    }

    function PropagateFailure<U>(): Result<U>
      requires Err?
    {
      Err(error)
    }

    function Extract(): T
      requires Ok?
    {
      value
    }
  }

  /**
   * `str(error)`, as the f-string in the main loop renders it.  A KeyError
   * renders the repr of its argument, i.e. the text between single quotes
   * (every KeyError argument of the bot is a fixed text without quotes or
   * backslashes); every other kind renders its argument unchanged.
   */
  function Describe(e: Error): (r: string)
    ensures e.KeyError? ==> |r| == |e.message| + 2 && r[0] == '\'' && r[|r| - 1] == '\''
                            && r[1..|r| - 1] == e.message
    ensures !e.KeyError? ==> r == e.message
  {
    match e
    case EndpointStatusError(d) => d
    case NotCriticalError(m) => m
    case TypeError(m) => m
    case KeyError(k) => "'" + k + "'"
    case IndexError(m) => m
  }

  // Texts of errors that the Python interpreter itself raises
  // (worded as CPython 3.11 words them).

  const ListIndexOutOfRange := "list index out of range"
  const StringIndicesMustBeIntegers := "string indices must be integers, not 'str'"
  const ListIndicesMustBeIntegers := "list indices must be integers or slices, not str"

  function NotIterable(typeName: string): string
  {
    "argument of type '" + typeName + "' is not iterable"
  }

  function NotSubscriptable(typeName: string): string
  {
    "'" + typeName + "' object is not subscriptable"
  }

  function Unhashable(typeName: string): string
  {
    "unhashable type: '" + typeName + "'"
  }
}
