/**
 * Diagnostics of the hawk recogniser: the syntax error record, the result every
 * recognition step returns, and the fixed message texts.
 */
module Diagnostics {

  datatype Option<T> = None | Some(value: T)

  /** An error message together with the line on which it was detected. */
  datatype SyntaxError = SyntaxError(message: string, line: nat)

  /** The outcome of a recognition step; it can be propagated with `:-`. */
  datatype Result = Ok | Err(error: SyntaxError) {

    predicate IsFailure() {
      Err?
    }

    function PropagateFailure(): Result
      requires Err?
    {
      this
    }
  }

  const NotDeclared := "identifier not declared"
  const ExpectedIdentifier := "expected an identifier"
  const ExpectedNumber := "expected a number"
  const ExpectedStatement := "expected a statement"
  const ExpectedComparison := "expected a comparison operator"
  const ExpectedType := "all declarations must have a type of int, float, or double"

  /** The message of a failed literal match, the literal in double quotes. */
  function UnexpectedToken(query: string): string {
    "unexpected token: \"" + query + "\""
  }

  /** The message for an identifier that is one of the reserved words. */
  function ReservedKeyword(name: string): string {
    name + " is a reserved keyword"
  }
}
