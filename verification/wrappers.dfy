/**
 * Optional values and the failures the game raises (Python exceptions on the
 * server, JavaScript throws on the client), shared by every module.
 */
module Wrappers {
  datatype Option<T> = None | Some(value: T)

  /** The kind of failure a source operation ends with. */
  datatype Failure =
    | ValueError          // Python ValueError
    | KeyError            // Python KeyError (missing dict key)
    | IndexError          // Python IndexError
    | AttributeError      // Python AttributeError (missing attribute)
    | TypeError           // Python TypeError; JavaScript TypeError (property of undefined/null)
    | ReferenceError      // JavaScript ReferenceError (undefined free variable)
    | SyntaxError         // JavaScript SyntaxError (`JSON.parse` of malformed text)
    | Thrown(message: string)  // JavaScript `throw "<message>"`

  datatype Result<T> = Ok(value: T) | Err(error: Failure)
  {
    predicate IsFailure()
    {
      Err?
    }

    function PropagateFailure<U>(): Result<U>
      requires Err?
    {
      Err(error)
    }

    function Extract(): T
      requires Ok?
    {
      value
    }
  }
}
