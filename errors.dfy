/**
 * The errors the flag library returns and the panics it raises.
 */
module Errors {

  /** The `Err` field of a strconv.NumError. */
  datatype NumCause = ErrSyntax | ErrRange

  /** The errors that reach a caller of the library. */
  datatype Error =
    | NumError(Func: string, Num: string, Err: NumCause)  // a *strconv.NumError from a Value's Set
    | ErrHelp                                             // the user asked for help
    | ParserError(message: string)                        // any error of the external tokenizer
  {
    /** The text of `err.Error()`. */
    function Message(): string
    {
      match this
      case NumError(fn, num, cause) =>
        "strconv." + fn + ": parsing \"" + num + "\": "
        + (if cause == ErrSyntax then "invalid syntax" else "value out of range")
      case ErrHelp => "help requested"
      case ParserError(message) => message
    }
  }

  /** Why a call panicked: a failed runtimex.Assert or an explicit panic(err). */
  datatype Panic = AssertionFailed | PanicWith(err: Error)
}
