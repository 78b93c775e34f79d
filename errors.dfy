/** Errors thrown by the application and the Express error handler that answers them. */
module Errors {
  import opened Common

  /**
   * A thrown value as the error handler sees it: the optional `status` and `message`
   * properties, and `text`, the value converted to a string (`"" + error`).
   */
  datatype Error = Error(status: Option<int>, message: Option<string>, text: string)

  /** The outcome of a service call that either returns or throws. */
  datatype Result<+T> = Ok(value: T) | Err(error: Error)

  /** The HTTP answer: status code and body. */
  datatype Response = Response(status: int, body: string)

  /** `String(err)` for an `Error` of the given class name and message. */
  function ErrorText(name: string, message: string): string
  {
    if message == "" then name else name + ": " + message
  }

  /** An error of the named class, thrown without a status: `new Error(message)` or one the engine raises. */
  function Raised(name: string, message: string): (e: Error)
    ensures e.status == None && e.message == Some(message)
    ensures HandleError(e) == Response(500, message)
  {
    Error(None, Some(message), ErrorText(name, message))
  }

  /** `new Error(message)`. */
  function Plain(message: string): Error
  {
    Raised("Error", message)
  }

  /** A `TypeError` raised by the JavaScript engine. */
  function TypeError(message: string): Error
  {
    Raised("TypeError", message)
  }

  /** `errorHandler`: the status defaults to 500, the message to a fixed text and the error. */
  function HandleError(e: Error): (r: Response)
    ensures e.status.Some? ==> r.status == e.status.value
    ensures e.status.None? ==> r.status == 500
    ensures e.message.Some? ==> r.body == e.message.value
    ensures e.message.None? ==> r.body == "internal error server" + e.text
  {
    Response(
      match e.status case Some(s) => s case None => 500,
      match e.message case Some(m) => m case None => "internal error server" + e.text)
  }

  /** `createError(status, message)`, answered by the handler with exactly that status and message. */
  function CreateError(status: int, message: string): (e: Error)
    ensures e.status == Some(status) && e.message == Some(message)
    ensures HandleError(e) == Response(status, message)
  {
    Error(Some(status), Some(message), ErrorText("Error", message))
  }

  /** Every error without a status, such as one the engine throws, is answered with 500. */
  lemma StatuslessErrorIs500(message: string)
    ensures HandleError(Plain(message)) == Response(500, message)
    ensures HandleError(TypeError(message)) == Response(500, message)
  {
  }
}
