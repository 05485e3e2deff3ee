/**
 * The fault-injection endpoints (src/api/controllers/simulate_controller.py):
 * `POST /{tenant_id}/simulate/error` and `POST /{tenant_id}/simulate/latency`.
 * The framework parses the JSON body into the request model before the endpoint runs, so
 * a body outside the schema is refused before the tenant is looked at.
 */
module SimulateApi {
  import opened Strings
  import opened Results
  import opened Config
  import opened Errors
  import opened Tenants
  import opened Monitoring
  import opened Json

  /** `ErrorSimulateRequest`: `error_type: Optional[str] = "generic"`. */
  datatype ErrorSimulateRequest = ErrorSimulateRequest(errorType: Option<string>)

  /** `LatencySimulateRequest`: `duration_ms: int = 1000`, between 100 and 10000. */
  datatype LatencySimulateRequest = LatencySimulateRequest(durationMs: int)

  const MinDurationMs := 100
  const MaxDurationMs := 10000

  /** The error request accepts any `error_type`, `null` included; a missing one is "generic". */
  function ParseErrorRequest(errorType: JsonField<string>): (r: ErrorSimulateRequest)
    ensures errorType.Absent? ==> r.errorType == Some(DefaultErrorType)
    ensures errorType.Null? ==> r.errorType == None
    ensures errorType.Given? ==> r.errorType == Some(errorType.value)
  {
    match errorType
    case Absent => ErrorSimulateRequest(Some(DefaultErrorType))
    case Null => ErrorSimulateRequest(None)
    case Given(s) => ErrorSimulateRequest(Some(s))
  }

  /** The latency request: a missing duration is 1000; `null` or one out of bounds is refused. */
  function ParseLatencyRequest(durationMs: JsonField<int>): (r: Result<LatencySimulateRequest, AppError>)
    ensures r.Ok? <==> durationMs.Absent? || (durationMs.Given? && MinDurationMs <= durationMs.value <= MaxDurationMs)
    ensures r.Ok? ==> MinDurationMs <= r.value.durationMs <= MaxDurationMs
    ensures durationMs.Absent? ==> r == Ok(LatencySimulateRequest(DefaultDurationMs))
    ensures durationMs.Given? && r.Ok? ==> r.value.durationMs == durationMs.value
    ensures r.Err? ==> r.error.RequestValidation?
  {
    match durationMs
    case Absent => Ok(LatencySimulateRequest(DefaultDurationMs))
    case Null => Err(RequestValidation("duration_ms: Input should be a valid integer"))
    case Given(d) =>
      if d < MinDurationMs then Err(RequestValidation("duration_ms: Input should be greater than or equal to 100"))
      else if d > MaxDurationMs then Err(RequestValidation("duration_ms: Input should be less than or equal to 10000"))
      else Ok(LatencySimulateRequest(d))
  }

  /**
   * `simulate_error` endpoint. `body` is the JSON object sent, `None` when there is none
   * (the request model has no default, so the body is required).
   */
  function SimulateErrorEndpoint(cfg: Settings, t: string, body: Option<JsonField<string>>): (r: Result<(), AppError>)
    ensures r.Err?
  {
    if body.None? then Err(RequestValidation("body: Field required"))
    else
      var request := ParseErrorRequest(body.value);
      match ValidateTenant(cfg, t)
      case Err(e) => Err(e)
      case Ok(_) => SimulateError(t, request.errorType)
  }

  /** `simulate_latency` endpoint: the service payload, once the body and the tenant pass. */
  function SimulateLatencyEndpoint(cfg: Settings, t: string, body: Option<JsonField<int>>): (r: Result<LatencyPayload, AppError>)
    ensures body.None? ==> r.Err? && r.error.RequestValidation?
    ensures r.Ok? <==> body.Some? && ParseLatencyRequest(body.value).Ok? && IsValidTenant(cfg, t)
    ensures r.Ok? ==> var d := ParseLatencyRequest(body.value).value.durationMs;
                      r.value == LatencyPayload(t, d, LatencyMessage(d, t))
    ensures r.Err? ==> !r.error.ValueError?
  {
    if body.None? then Err(RequestValidation("body: Field required"))
    else
      match ParseLatencyRequest(body.value)
      case Err(e) => Err(e)
      case Ok(request) =>
        match ValidateTenant(cfg, t)
        case Err(e) => Err(e)
        case Ok(_) => SimulateLatency(t, request.durationMs)
  }

  /**
   * With a well-formed body, an unknown tenant gets the tenant error and no simulation runs;
   * an admitted tenant always gets the simulated 500, whose message names the tenant.
   */
  lemma ErrorEndpointOrder(cfg: Settings, t: string, errorType: JsonField<string>)
    ensures !IsValidTenant(cfg, t) ==>
              SimulateErrorEndpoint(cfg, t, Some(errorType)) == ValidateTenant(cfg, t)
    ensures IsValidTenant(cfg, t) ==>
              && SimulateErrorEndpoint(cfg, t, Some(errorType)) == SimulateError(t, ParseErrorRequest(errorType).errorType)
              && SimulateErrorEndpoint(cfg, t, Some(errorType)).error.Unexpected?
  {
  }

  /**
   * Through the endpoint, error_type "database" fails with the database template: the
   * message names the kind and the tenant.
   */
  lemma DatabaseKindNamed(cfg: Settings, t: string)
    requires IsValidTenant(cfg, t)
    ensures var r := SimulateErrorEndpoint(cfg, t, Some(Given("database")));
            && r.error == Unexpected("Simulated database error for tenant " + t)
            && Contains(r.error.message, "database") && Contains(r.error.message, t)
  {
    var r := SimulateErrorEndpoint(cfg, t, Some(Given("database")));
    var s := SimulateError(t, Some("database"));
    assert ValidateTenant(cfg, t).Ok?;
    assert ParseErrorRequest(Given("database")).errorType == Some("database");
    assert r == s;
    DatabaseMessage(t);
    assert s.error == Unexpected(ErrorMessage(t, Some("database")));
  }

  /** An unknown tenant with a well-formed body gets the tenant error, before any sleep. */
  lemma LatencyEndpointChecksTenant(cfg: Settings, t: string, durationMs: JsonField<int>)
    requires ParseLatencyRequest(durationMs).Ok? && !IsValidTenant(cfg, t)
    ensures SimulateLatencyEndpoint(cfg, t, Some(durationMs)) == Err(ValidateTenant(cfg, t).error)
  {
  }
}
