/** The response vocabulary every service answers with: the `BaseResponse`
    envelope and the `Unauthenticated` status error. */
module Response {
  import opened Grpc

  /** One field-level validation failure. */
  datatype ValidationError = ValidationError(field: string, message: string)

  /** The envelope carried by every service response. */
  datatype BaseResponse = BaseResponse(
    statusCode: int,
    message: string,
    isError: bool,
    validationErrors: seq<ValidationError>)

  /** A successful outcome with a human-readable message. */
  function SuccessResponse(message: string): (r: BaseResponse)
    ensures r.statusCode == 200 && !r.isError
    ensures r.message == message && r.validationErrors == []
  {
    BaseResponse(200, message, false, [])
  }

  /** A rejected request, reported inside a normal (non-error) reply. */
  function BadRequestResponse(message: string): (r: BaseResponse)
    ensures r.statusCode == 400 && r.isError
    ensures r.message == message && r.validationErrors == []
  {
    BaseResponse(400, message, true, [])
  }

  /** A request that failed field validation; the violations travel unchanged. */
  function ValidationErrorResponse(errors: seq<ValidationError>): (r: BaseResponse)
    ensures r.statusCode == 400 && r.isError
    ensures r.message == "Validation Error" && r.validationErrors == errors
  {
    BaseResponse(400, "Validation Error", true, errors)
  }

  /** A missing record, reported inside a normal reply. The helper lives
      outside the response file; status 404 is its evident meaning. */
  function NotFoundResponse(message: string): (r: BaseResponse)
    ensures r.statusCode == 404 && r.isError
    ensures r.message == message && r.validationErrors == []
  {
    BaseResponse(404, message, true, [])
  }

  /** The one error value every authentication failure is reported as. */
  function UnauthenticatedResponse(): (e: Error)
    ensures e.Status? && e.code == Unauthenticated && e.message == "Unauthenticated"
  {
    Status(Unauthenticated, "Unauthenticated")
  }

  /** Only the success envelope is free of the error flag, and the
      constructors never collide whatever their messages. */
  lemma EnvelopesDistinct(m1: string, m2: string, errs: seq<ValidationError>)
    ensures !SuccessResponse(m1).isError
    ensures BadRequestResponse(m1).isError && ValidationErrorResponse(errs).isError
    ensures NotFoundResponse(m1).isError
    ensures SuccessResponse(m1) != BadRequestResponse(m2)
    ensures SuccessResponse(m1) != NotFoundResponse(m2)
    ensures BadRequestResponse(m1) != NotFoundResponse(m2)
    ensures BadRequestResponse(m1) == BadRequestResponse(m2) <==> m1 == m2
  {
  }
}
