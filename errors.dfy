/** internal/domain/errors/errors.go: the application's error value, an HTTP
    status code, a kind and a list of messages, and its constructors. */
module AppErrors {
  import opened Text

  /** `ErrorType`. */
  datatype ErrorType =
    | InternalError
    | BadRequestError
    | NotFoundError
    | ConflictError
    | UnauthorizedException
    | InvalidCredentials
    | UnprocessableEntityError

  /** The string each `ErrorType` constant holds. */
  function TypeName(t: ErrorType): string {
    match t
    case InternalError => "INTERNAL_ERROR"
    case BadRequestError => "BAD_REQUEST_ERROR"
    case NotFoundError => "NOT_FOUND_ERROR"
    case ConflictError => "CONFLICT_ERROR"
    case UnauthorizedException => "UNAUTHORIZED_EXCEPTION"
    case InvalidCredentials => "INVALID_CREDENTIALS"
    case UnprocessableEntityError => "UNPROCESSABLE_ENTITY_ERROR"
  }

  /** The HTTP status names of `net/http` the constructors use. */
  const StatusBadRequest := 400
  const StatusUnauthorized := 401
  const StatusForbidden := 403
  const StatusNotFound := 404
  const StatusConflict := 409
  const StatusUnprocessableEntity := 422
  const StatusInternalServerError := 500

  /** The status that goes with each kind of error. */
  function StatusOf(t: ErrorType): int {
    match t
    case InternalError => StatusInternalServerError
    case BadRequestError => StatusBadRequest
    case NotFoundError => StatusNotFound
    case ConflictError => StatusConflict
    case UnauthorizedException => StatusUnauthorized
    case InvalidCredentials => StatusForbidden
    case UnprocessableEntityError => StatusUnprocessableEntity
  }

  /** `AppError`. */
  datatype AppError = AppError(code: int, errType: ErrorType, messages: seq<string>)
  {
    /** `Error()`: the messages in order, separated by "; ". */
    function Error(): string {
      Join(messages, "; ")
    }

    /** The code is the status of the kind. */
    predicate WellPaired() {
      code == StatusOf(errType)
    }
  }

  const InternalErrorText := "Internal server error."
  const InvalidCredentialsText := "Credenciais inválidas."
  const InvalidTokenText := "Token inválido ou não fornecido."

  function NewInternalError(): AppError {
    AppError(StatusInternalServerError, InternalError, [InternalErrorText])
  }

  function NewBadRequestError(message: string): AppError {
    AppError(StatusBadRequest, BadRequestError, [message])
  }

  function NewNotFoundError(message: string): AppError {
    AppError(StatusNotFound, NotFoundError, [message])
  }

  function NewConflictError(message: string): AppError {
    AppError(StatusConflict, ConflictError, [message])
  }

  function NewInvalidCredentialsError(): AppError {
    AppError(StatusForbidden, InvalidCredentials, [InvalidCredentialsText])
  }

  function NewUnauthorizedExceptionError(): AppError {
    AppError(StatusUnauthorized, UnauthorizedException, [InvalidTokenText])
  }

  function NewUnprocessableEntityError(messages: seq<string>): AppError {
    AppError(StatusUnprocessableEntity, UnprocessableEntityError, messages)
  }

  /** Every constructor pairs its kind with that kind's status, and no two
      kinds share a status. */
  lemma ConstructorsWellPaired(message: string, messages: seq<string>)
    ensures NewInternalError().WellPaired() && NewInternalError().code == 500
    ensures NewBadRequestError(message).WellPaired() && NewBadRequestError(message).code == 400
    ensures NewNotFoundError(message).WellPaired() && NewNotFoundError(message).code == 404
    ensures NewConflictError(message).WellPaired() && NewConflictError(message).code == 409
    ensures NewInvalidCredentialsError().WellPaired() && NewInvalidCredentialsError().code == 403
    ensures NewUnauthorizedExceptionError().WellPaired() && NewUnauthorizedExceptionError().code == 401
    ensures NewUnprocessableEntityError(messages).WellPaired() && NewUnprocessableEntityError(messages).code == 422
    ensures forall s, t :: StatusOf(s) == StatusOf(t) ==> s == t
  {
  }

  /** The kind names are distinct, so the JSON `type` identifies the kind. */
  lemma TypeNamesDistinct(s: ErrorType, t: ErrorType)
    ensures TypeName(s) == TypeName(t) <==> s == t
  {
    if s != t {
      assert TypeName(s)[..4] != TypeName(t)[..4] || TypeName(s)[4..] != TypeName(t)[4..];
    }
  }

  /** A one-message error reads as its message. */
  lemma SingleMessageError(message: string)
    ensures NewBadRequestError(message).Error() == message
    ensures NewNotFoundError(message).Error() == message
    ensures NewConflictError(message).Error() == message
    ensures NewInternalError().Error() == InternalErrorText
    ensures NewInvalidCredentialsError().Error() == InvalidCredentialsText
    ensures NewUnauthorizedExceptionError().Error() == InvalidTokenText
  {
  }

  /** The unprocessable-entity error keeps its list as given, and its text
      holds every message, in order, with one "; " between neighbours. */
  lemma UnprocessableKeepsMessages(messages: seq<string>)
    ensures NewUnprocessableEntityError(messages).messages == messages
    ensures messages != [] ==>
      |NewUnprocessableEntityError(messages).Error()| == TotalLength(messages) + 2 * (|messages| - 1)
    ensures messages != [] ==> messages[0] <= NewUnprocessableEntityError(messages).Error()
  {
    if messages != [] {
      JoinLength(messages, "; ");
    }
  }

  /** Adding a message to an error's list appends "; " and the message to
      its text. */
  lemma ErrorAppend(e: AppError, message: string)
    requires e.messages != []
    ensures e.(messages := e.messages + [message]).Error() == e.Error() + "; " + message
  {
    JoinSnoc(e.messages, message, "; ");
  }
}
