/** The central mapping of a thrown value to an API error response. */
module ErrorResponse {
  import opened Wrappers
  import opened Text
  import opened AppErrors

  /** The JSON error body and status. `requestId` and `details` are absent
      keys when `None`. */
  datatype ApiError = ApiError(status: int, message: string, requestId: Option<string>, details: Option<string>)

  const Unauthorized := "Unauthorized"
  const InvalidRequestData := "Invalid request data"
  const InternalServerErrorMessage := "Internal server error"
  const UnknownError := "Unknown error"

  /** A message that reads as a missing sign-in. */
  predicate SaysUnauthenticated(message: string) {
    message == Unauthorized || Contains(message, "not authenticated")
  }

  /** A message that reads as a database constraint violation. */
  predicate SaysConstraintViolation(message: string) {
    Contains(message, "violates") || Contains(message, "constraint")
  }

  /** The response for a thrown value. The application's error classes are
      checked first and keep their message; then a plain error's message is
      read for a missing sign-in (401) before a constraint violation (400);
      everything else is a 500 whose details, the error's message, appear
      only in development. */
  function ErrorToApiResponse(e: Thrown, development: bool): (r: ApiError)
    ensures r.status in {400, 401, 403, 404, 500}
    ensures e.NotFoundError? <==> r.status == 404
    ensures e.ForbiddenError? <==> r.status == 403
    ensures r.status == 401 <==>
              e.UnauthorizedError? || (e.PlainError? && SaysUnauthenticated(e.message))
    ensures r.status == 400 <==>
              e.ValidationError? || e.BadRequestError?
              || (e.PlainError? && !SaysUnauthenticated(e.message) && SaysConstraintViolation(e.message))
    ensures r.requestId.Some? <==> e.InternalServerError? && e.requestId.Some? && e.requestId.value != []
    ensures r.requestId.Some? ==> r.requestId == e.requestId
    ensures r.details.Some? <==> development && r.status == 500 && !e.InternalServerError?
    ensures r.details.Some? ==> r.details.value == if e.IsError() then e.message else UnknownError
    ensures !(e.PlainError? || e.NotAnError?) ==> r.message == e.message
    ensures e.PlainError? && r.status == 401 ==> r.message == Unauthorized
    ensures e.PlainError? && r.status == 400 ==> r.message == InvalidRequestData
    ensures r.status == 500 && !e.InternalServerError? ==> r.message == InternalServerErrorMessage
  {
    match e
    case NotFoundError(m) => ApiError(404, m, None, None)
    case ValidationError(m) => ApiError(400, m, None, None)
    case BadRequestError(m) => ApiError(400, m, None, None)
    case UnauthorizedError(m) => ApiError(401, m, None, None)
    case ForbiddenError(m) => ApiError(403, m, None, None)
    case InternalServerError(m, id) =>
      ApiError(500, m, if id.Some? && id.value != [] then id else None, None)
    case PlainError(m) =>
      if SaysUnauthenticated(m) then ApiError(401, Unauthorized, None, None)
      else if SaysConstraintViolation(m) then ApiError(400, InvalidRequestData, None, None)
      else Fallback(e, development)
    case NotAnError => Fallback(e, development)
  }

  /** The generic 500. */
  function Fallback(e: Thrown, development: bool): (r: ApiError)
    ensures r.status == 500 && r.message == InternalServerErrorMessage && r.requestId.None?
  {
    ApiError(500, InternalServerErrorMessage, None,
             if development then Some(if e.IsError() then e.message else UnknownError) else None)
  }

  /** Outside development, a plain error's own message never reaches the
      client. */
  lemma PlainMessageHiddenInProduction(m: string)
    ensures ErrorToApiResponse(PlainError(m), false).message in {Unauthorized, InvalidRequestData, InternalServerErrorMessage}
    ensures ErrorToApiResponse(PlainError(m), false).details.None?
  {
  }

  /** The sign-in check wins over the constraint check. */
  lemma UnauthenticatedBeforeConstraint()
    ensures ErrorToApiResponse(PlainError("constraint: user not authenticated"), false).status == 401
  {
    var m := "constraint: user not authenticated";
    assert OccursAt(m, "not authenticated", 17);
  }

  /** A plain error saying "Recipe not found" is a 500, where the same text
      in a `NotFoundError` is a 404. */
  lemma ClassDecidesNotFound()
    ensures ErrorToApiResponse(PlainError("Recipe not found"), false).status == 500
    ensures ErrorToApiResponse(NotFoundError("Recipe not found"), false).status == 404
  {
    var m := "Recipe not found";
    forall i | 0 <= i <= |m| ensures !OccursAt(m, "not authenticated", i) && !OccursAt(m, "violates", i)
                                     && !OccursAt(m, "constraint", i) {
      if i + 8 <= |m| { assert m[i..i + 8][0] == m[i]; }
      if i + 10 <= |m| { assert m[i..i + 10][0] == m[i] && m[i..i + 10][1] == m[i + 1]; }
    }
  }

  /** An empty request id is left out of the body. */
  lemma EmptyRequestIdOmitted(m: string)
    ensures ErrorToApiResponse(InternalServerError(m, Some("")), false) == ApiError(500, m, None, None)
  {
  }

  /** The table as written: the error module defines only `NotFoundError`
      and `ValidationError`, so the four other imported classes are
      `undefined`. For any other thrown value the third `instanceof` test
      has `undefined` on its right and throws a TypeError; `None` is that
      throw. */
  function ErrorToApiResponseAsWritten(e: Thrown, development: bool): (r: Option<ApiError>)
    ensures r.Some? <==> e.NotFoundError? || e.ValidationError?
    ensures r.Some? ==> r.value == ErrorToApiResponse(e, development)
  {
    match e
    case NotFoundError(m) => Some(ApiError(404, m, None, None))
    case ValidationError(m) => Some(ApiError(400, m, None, None))
    case _ => None
  }

  /** As written, a plain `Error` reading "Unauthorized", which the table
      maps to 401, and a thrown non-`Error` get no response at all. */
  lemma AsWrittenThrowsOnPlainErrors(development: bool)
    ensures ErrorToApiResponse(PlainError(Unauthorized), development).status == 401
    ensures ErrorToApiResponseAsWritten(PlainError(Unauthorized), development).None?
    ensures ErrorToApiResponseAsWritten(NotAnError, development).None?
  {
  }
}
