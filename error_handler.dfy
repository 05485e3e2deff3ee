/**
 * The exception handlers registered by `register_error_handlers`
 * (src/infrastructure/error_handler.py): one total function from the error kind to the
 * HTTP status and the JSON body. Logging and tracer tagging are side channels and stay out.
 */
module ErrorHandler {
  import opened Strings
  import opened Clock
  import opened Errors

  /**
   * A response body: the application's uniform envelope, or the framework's own
   * `{"detail": ...}` body for a request that fails schema validation, for which the
   * application registers no handler.
   */
  datatype ErrorBody =
    | Envelope(status: string, errorType: string, message: string, timestamp: string)
    | DetailOnly(detail: string)

  datatype ErrorResponse = ErrorResponse(statusCode: int, body: ErrorBody)

  const UnexpectedMessage := "An unexpected error occurred"

  /** The `error_type` each handler writes. */
  function ErrorTypeOf(e: AppError): string
  {
    match e
    case InvalidTenant(_) => "invalid_tenant"
    case ItemNotFound(_) => "item_not_found"
    case ValueError(_) => "validation_error"
    case HttpException(_, _) => "http_exception"
    case RequestValidation(_) => "request_validation"
    case Unexpected(_) => "unexpected_error"
  }

  /** The status code each handler answers with. */
  function StatusOf(e: AppError): int
  {
    match e
    case InvalidTenant(_) => 400
    case ItemNotFound(_) => 404
    case ValueError(_) => 400
    case HttpException(code, _) => code
    case RequestValidation(_) => 422
    case Unexpected(_) => 500
  }

  /** The envelope's `message`: `str(exc)`, the HTTP detail, or a fixed text hiding the cause. */
  function PublicMessage(e: AppError): string
  {
    match e
    case InvalidTenant(m) => m
    case ItemNotFound(m) => m
    case ValueError(m) => m
    case HttpException(_, detail) => detail
    case RequestValidation(detail) => detail
    case Unexpected(_) => UnexpectedMessage
  }

  /**
   * The handler chosen for `e`, run at time `now` (`datetime.utcnow()`): every kind the
   * application handles gets the envelope with status "error" and a UTC timestamp.
   */
  function Handle(e: AppError, now: DateTime): (r: ErrorResponse)
    ensures e.RequestValidation? <==> r.body.DetailOnly?
    ensures r.statusCode == StatusOf(e)
    ensures r.body.Envelope? ==>
              && r.body.status == "error"
              && r.body.errorType == ErrorTypeOf(e)
              && r.body.message == PublicMessage(e)
              && r.body.timestamp == UtcStamp(now)
  {
    if e.RequestValidation? then ErrorResponse(422, DetailOnly(e.detail))
    else ErrorResponse(StatusOf(e), Envelope("error", ErrorTypeOf(e), PublicMessage(e), UtcStamp(now)))
  }

  /** Each application error kind: its status, its `error_type`, and what the client reads. */
  lemma HandlerTable(m: string, code: int, now: DateTime)
    ensures Handle(InvalidTenant(m), now) == ErrorResponse(400, Envelope("error", "invalid_tenant", m, UtcStamp(now)))
    ensures Handle(ItemNotFound(m), now) == ErrorResponse(404, Envelope("error", "item_not_found", m, UtcStamp(now)))
    ensures Handle(ValueError(m), now) == ErrorResponse(400, Envelope("error", "validation_error", m, UtcStamp(now)))
    ensures Handle(HttpException(code, m), now) == ErrorResponse(code, Envelope("error", "http_exception", m, UtcStamp(now)))
    ensures Handle(Unexpected(m), now) == ErrorResponse(500, Envelope("error", "unexpected_error", UnexpectedMessage, UtcStamp(now)))
  {
  }

  /**
   * The 500 body does not depend on the exception: two unexpected failures at the same
   * instant give identical responses, so no detail of the cause reaches the client.
   */
  lemma UnexpectedHidesCause(m1: string, m2: string, now: DateTime)
    ensures Handle(Unexpected(m1), now) == Handle(Unexpected(m2), now)
    ensures Handle(Unexpected(m1), now).body.message == UnexpectedMessage
  {
  }

  /** Every envelope ends its timestamp with "Z" and carries the same status word. */
  lemma EnvelopeUniform(e: AppError, now: DateTime)
    requires !e.RequestValidation?
    ensures var b := Handle(e, now).body;
            && b.Envelope? && b.status == "error"
            && EndsWith(b.timestamp, "Z")
            && StartsWith(b.timestamp, IsoFormat(now))
  {
    var t := UtcStamp(now);
    assert t[..|IsoFormat(now)|] == IsoFormat(now);
  }

  /** The `error_type` identifies the handler: equal types mean the same exception kind. */
  lemma ErrorTypeIdentifiesKind(e1: AppError, e2: AppError, now1: DateTime, now2: DateTime)
    requires !e1.RequestValidation? && !e2.RequestValidation?
    requires Handle(e1, now1).body.errorType == Handle(e2, now2).body.errorType
    ensures e1.InvalidTenant? == e2.InvalidTenant?
    ensures e1.ItemNotFound? == e2.ItemNotFound?
    ensures e1.ValueError? == e2.ValueError?
    ensures e1.HttpException? == e2.HttpException?
    ensures e1.Unexpected? == e2.Unexpected?
  {
  }
}
