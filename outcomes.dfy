/** The error values of the quiz core and the wrappers that carry them. */
module Outcomes {

  /** One constructor per exception the core raises. */
  datatype Error =
    | UnsupportedOperator  // a question built with a symbol other than + - * /
    | NoQuestions          // a question count that is not positive
    | NonPositiveMax       // a maximum number that is not positive
    | NoLegalOperators     // an operator list with no legal symbol in it

  datatype Option<T> = None | Some(value: T)

  datatype Result<T> = Ok(value: T) | Err(error: Error)

  /** What a setter reports: it succeeded, or it raised and left the old value. */
  datatype Outcome = Pass | Fail(error: Error)
}
