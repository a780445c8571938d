/**
 * The server's protocol errors (src/server/errors.js): `BaseError` holds a
 * message and a cause; `BadPayload` and `InvalidCommand` fix the message.
 */
module ServerErrors {
  import opened Wrappers

  const BadPayloadMessage: string := "Bad formatted payload, non JSON"
  const InvalidCommandMessage: string := "Requested method not implemented"
  /** What `#sendError` reports for an error whose message is empty. */
  const UnknownErrorMessage: string := "Unknown error"

  /** The two subclasses of `BaseError`. */
  datatype ErrorClass = BadPayload | InvalidCommand

  /** An error object: its class, its `message` and its `cause` (here the
      text of the error it wraps, when there is one). */
  datatype BaseError = BaseError(kind: ErrorClass, message: string, cause: Option<string>)

  /** `new BadPayload(cause)`. */
  function NewBadPayload(cause: Option<string>): (e: BaseError)
    ensures e.kind == BadPayload && e.message == BadPayloadMessage
    ensures e.cause == cause
  {
    BaseError(BadPayload, BadPayloadMessage, cause)
  }

  /** `new InvalidCommand(cause)`. */
  function NewInvalidCommand(cause: Option<string>): (e: BaseError)
    ensures e.kind == InvalidCommand && e.message == InvalidCommandMessage
    ensures e.cause == cause
  {
    BaseError(InvalidCommand, InvalidCommandMessage, cause)
  }

  /** An error as one of the two constructors builds it. */
  predicate WellFormed(e: BaseError) {
    e == NewBadPayload(e.cause) || e == NewInvalidCommand(e.cause)
  }

  /** `err.message || 'Unknown error'`: the text the error reply carries. */
  function ReportedMessage(e: BaseError): (text: string)
    ensures text != ""
    ensures e.message != "" ==> text == e.message
    ensures e.message == "" ==> text == UnknownErrorMessage
  {
    if e.message != "" then e.message else UnknownErrorMessage
  }

  /** The reported text of an error the server builds is its own fixed
      message, never the fallback, and it tells the two classes apart. */
  lemma ReportedMessageIdentifiesClass(e: BaseError)
    requires WellFormed(e)
    ensures ReportedMessage(e) == e.message != UnknownErrorMessage
    ensures ReportedMessage(e) == BadPayloadMessage <==> e.kind == BadPayload
    ensures ReportedMessage(e) == InvalidCommandMessage <==> e.kind == InvalidCommand
  {
  }
}
