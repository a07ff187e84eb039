/** The Python exceptions the adapter layer can raise, each with the message
    text the source attaches to it. */
module Exceptions {

  datatype Error =
    | KeyError(message: string)
    | AssertionError(message: string)
    | IndexError(message: string)

  /** The message CPython attaches to an out-of-range list subscript. */
  const ListIndexOutOfRange: string := "list index out of range"
}
