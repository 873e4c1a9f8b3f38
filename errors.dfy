/** The errors the engine logs, one constructor per message of the source. */
module Errors {
  import opened Values

  /** An error value declared by the test author with `WithError`. */
  datatype UserError = UserError(message: string)

  datatype TestError =
    /** "Unexpected call to <fn>": no expectation is left. */
    | UnexpectedCall(fn: string)
    /** "Unexpected call to <fn>; expected <expected>". */
    | WrongFunction(fn: string, expected: string)
    /** "Not enough parameters". */
    | NotEnoughParameters
    /** "Too many parameters". */
    | TooManyParameters
    /** "Unexpected parameter <got> in func <fn>; expected <want>". */
    | UnexpectedParameter(got: Param, fn: string, want: Param)
    /** "Out parameters must be pointers. Got kind <kind>." */
    | OutParamNotPointer(kind: Kind)
    /** "Not all expectations met". */
    | NotAllExpectationsMet
}
