/**
 * The error taxonomy of the API (internal/apierror/api_error.go): an HTTP status
 * code and a user-facing message, with shortcut constructors that fix the code
 * and substitute a default message for an empty one.
 */
module ApiErrors {

  const StatusBadRequest := 400
  const StatusUnauthorized := 401
  const StatusForbidden := 403
  const StatusNotFound := 404
  const StatusInternalServerError := 500

  const DefaultNotFoundMessage := "The requested resource was not found"
  const DefaultInternalMessage := "An unexpected internal error occurred"
  const DefaultBadRequestMessage := "Bad request"

  /** `Code` is sent as the HTTP status, `Message` as the JSON body's "error" field. */
  datatype APIError = APIError(code: int, message: string)

  /** `(*APIError).Error`: the text of an error is its message. */
  function Error(e: APIError): (s: string)
    ensures s == e.message
  {
    e.message
  }

  /** `NewAPIError`: code and message are stored as given, with no default. */
  function NewAPIError(code: int, message: string): (e: APIError)
    ensures e.code == code && Error(e) == message
  {
    APIError(code, message)
  }

  /** The message a shortcut constructor keeps: the caller's, or the fallback when it is empty. */
  function WithDefault(message: string, fallback: string): (m: string)
    requires fallback != ""
    ensures m != ""
    ensures message != "" ==> m == message
    ensures message == "" ==> m == fallback
  {
    if message == "" then fallback else message
  }

  /** `NewNotFoundError`: always 404, never an empty message. */
  function NewNotFoundError(message: string): (e: APIError)
    ensures e.code == StatusNotFound && e.message != ""
    ensures e.message == (if message == "" then DefaultNotFoundMessage else message)
  {
    NewAPIError(StatusNotFound, WithDefault(message, DefaultNotFoundMessage))
  }

  /** `NewInternalServerError`: always 500, never an empty message. */
  function NewInternalServerError(message: string): (e: APIError)
    ensures e.code == StatusInternalServerError && e.message != ""
    ensures e.message == (if message == "" then DefaultInternalMessage else message)
  {
    NewAPIError(StatusInternalServerError, WithDefault(message, DefaultInternalMessage))
  }

  /** `NewBadRequestError`: always 400, never an empty message. */
  function NewBadRequestError(message: string): (e: APIError)
    ensures e.code == StatusBadRequest && e.message != ""
    ensures e.message == (if message == "" then DefaultBadRequestMessage else message)
  {
    NewAPIError(StatusBadRequest, WithDefault(message, DefaultBadRequestMessage))
  }

  /**
   * Re-wrapping the message of an error built by a shortcut constructor gives the
   * same error back: the defaulting is idempotent.
   */
  lemma ShortcutsIdempotent(message: string)
    ensures NewNotFoundError(Error(NewNotFoundError(message))) == NewNotFoundError(message)
    ensures NewInternalServerError(Error(NewInternalServerError(message))) == NewInternalServerError(message)
    ensures NewBadRequestError(Error(NewBadRequestError(message))) == NewBadRequestError(message)
  {
  }
}
