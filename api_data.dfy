/** The records the assistant service returns, reduced to the fields the
    client reads, and the failure of a remote call.  The HTTP requests
    themselves are not modelled: every remote call is an input of type
    Result<T> to the code that uses its answer. */
module ApiData {

  /** Identifiers of assistants, threads, messages and runs. */
  type Id = string

  /** Why a remote call failed: the request could not be sent or answered
      (TransportError), or the answer was not the expected record
      (DecodeError).  Both are `reqwest::Error` in the program and both
      are fatal there. */
  datatype ApiError = TransportError | DecodeError

  /** The answer of one remote call. */
  datatype Result<T> = Ok(value: T) | Err(error: ApiError)

  /** `Text`: the string value of a text block (annotations are not read). */
  datatype Text = Text(value: string)

  /** `Content`: one content block of a listed message, with its type tag. */
  datatype Content = Content(contentType: string, text: Text)

  /** `Messages`: one entry of a message listing. */
  datatype ListedMessage = ListedMessage(id: Id, role: string, content: seq<Content>)
}
