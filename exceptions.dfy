/**
 * The exceptions the polling loop can see: the three classes of exceptions.py and the
 * built-in ones that homework.py raises or lets escape. Each carries the argument it was
 * raised with.
 */
module Exceptions {
  import opened PyJson

  datatype Error =
    | TokenNotFound(text: string)
    | UnexpectedStatusCodeError(text: string)
    | EmptyResponseError(text: string)
    | TypeError(text: string)
    | KeyError(text: string)
    | AttributeError(text: string)
    | JsonDecodeError(text: string)

  /**
   * `str(error)`: the argument itself, except for KeyError, whose `str()` is the
   * `repr()` of its argument.
   */
  function ErrorText(e: Error): string
  {
    if e.KeyError? then PyRepr(e.text) else e.text
  }
}
