/** Shared value types: an optional value, the outcome of an operation that can abort,
    and the kinds of abort the scanner and parser can end in. */
module Common {

  datatype Option<+T> = None | Some(value: T)

  /** The ways a parse ends abruptly.  SyntaxError and ValueError are raised on purpose;
      the other kinds are crashes of the code as written (an index past the end of the
      text, a local variable read before it is bound, an operation on a missing name or
      device) or a loop that never ends once the input is exhausted. */
  datatype Fatal =
    | SyntaxError
    | ValueError
    | IndexError
    | UnboundLocalError
    | TypeError
    | AttributeError
    | NonTermination

  /** Either a value or the fatal condition that stopped the computation; usable with `:-`. */
  datatype Result<+T> = Ok(value: T) | Err(error: Fatal) {
    predicate IsFailure() {
      Err?
    }

    function PropagateFailure<U>(): Result<U>
      requires Err?
    {
      Err(error)
    }

    function Extract(): T
      requires Ok?
    {
      value
    }
  }
}
