/** Values that the modelled code can throw, and the outcome of a call that may throw. */
module Errors {

  /** A thrown value, as the command executor's catch block distinguishes it. */
  datatype Thrown =
      /** The distinguished "command ran and failed" error raised by the process layer. */
    | ExecuteCommandError(message: string)
      /** Any other instance of `Error`; `className` is the name of its constructor. */
    | OtherError(className: string, message: string)
      /** A thrown value that is not an `Error` at all (a string, a number, ...). */
    | NonError(shown: string)

  datatype Option<T> = None | Some(value: T)

  /** The completion of an asynchronous call: it resolves to a value or rejects with a thrown value. */
  datatype Completion<T> = Normal(value: T) | Threw(error: Thrown)
}
