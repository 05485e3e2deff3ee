/**
 * The fault injector `MonitoringService` (src/services/monitoring_service.py):
 * `simulate_error` always fails, `simulate_latency` answers with a payload. The sleep itself
 * and the log lines are effects outside the model.
 */
module Monitoring {
  import opened Strings
  import opened Results
  import opened Errors

  const DefaultErrorType := "generic"
  const DefaultDurationMs := 1000

  /** The `error_messages` table: the templates for the three known error kinds. */
  function Template(errorType: string, t: string): Option<string>
  {
    if errorType == "generic" then Some("Simulated generic error for tenant " + t)
    else if errorType == "database" then Some("Simulated database error for tenant " + t)
    else if errorType == "external_api" then Some("Simulated external API error for tenant " + t)
    else None
  }

  /**
   * `error_messages.get(error_type, error_messages["generic"])`. The request may carry
   * `error_type: null`, which is no key of the table.
   */
  function ErrorMessage(t: string, errorType: Option<string>): (m: string)
    ensures Contains(m, t)
    ensures errorType.Some? && Template(errorType.value, t).Some? ==> m == Template(errorType.value, t).value
    ensures (errorType.None? || Template(errorType.value, t).None?) ==> m == Template(DefaultErrorType, t).value
  {
    var fallback := "Simulated generic error for tenant " + t;
    var m := if errorType.None? then fallback
             else match Template(errorType.value, t)
                  case Some(msg) => msg
                  case None => fallback;
    TemplateNamesTenant(errorType, t);
    m
  }

  lemma TemplateNamesTenant(errorType: Option<string>, t: string)
    ensures Contains("Simulated generic error for tenant " + t, t)
    ensures errorType.Some? && Template(errorType.value, t).Some? ==> Contains(Template(errorType.value, t).value, t)
  {
    ContainsSuffix("Simulated generic error for tenant ", t);
    ContainsSuffix("Simulated database error for tenant ", t);
    ContainsSuffix("Simulated external API error for tenant ", t);
  }

  /** `simulate_error`: it never returns; it raises a plain Exception carrying the message. */
  function SimulateError(t: string, errorType: Option<string>): (r: Result<(), AppError>)
    ensures r.Err? && r.error.Unexpected?
    ensures r.error.message == ErrorMessage(t, errorType)
    ensures Contains(r.error.message, t)
  {
    Err(Unexpected(ErrorMessage(t, errorType)))
  }

  /** The three templates differ, so the message tells which kind was simulated. */
  lemma TemplatesDistinct(t: string)
    ensures ErrorMessage(t, Some("generic")) != ErrorMessage(t, Some("database"))
    ensures ErrorMessage(t, Some("generic")) != ErrorMessage(t, Some("external_api"))
    ensures ErrorMessage(t, Some("database")) != ErrorMessage(t, Some("external_api"))
  {
    assert ErrorMessage(t, Some("generic"))[10] == 'g';
    assert ErrorMessage(t, Some("database"))[10] == 'd';
    assert ErrorMessage(t, Some("external_api"))[10] == 'e';
  }

  /** error_type "database" selects the database template, which names the kind and the tenant. */
  lemma DatabaseMessage(t: string)
    ensures ErrorMessage(t, Some("database")) == "Simulated database error for tenant " + t
    ensures Contains(ErrorMessage(t, Some("database")), "database")
  {
    var m := "Simulated database error for tenant " + t;
    assert m == "Simulated " + "database" + (" error for tenant " + t);
    ContainsMiddle("Simulated ", "database", " error for tenant " + t);
  }

  /** Any other kind, or none, gets the generic message. */
  lemma UnknownKindIsGeneric(t: string, errorType: Option<string>)
    requires errorType.None? || errorType.value !in ["generic", "database", "external_api"]
    ensures SimulateError(t, errorType) == SimulateError(t, Some(DefaultErrorType))
  {
  }

  /** The latency payload: `{"tenant_id", "latency_ms", "message"}`. */
  datatype LatencyPayload = LatencyPayload(tenantId: string, latencyMs: int, message: string)

  function LatencyMessage(durationMs: int, t: string): string
  {
    "Simulated latency of " + IntToString(durationMs) + "ms for tenant " + t
  }

  /**
   * `simulate_latency`: the payload echoes the tenant and the duration. `time.sleep` refuses
   * a negative length with ValueError, so a negative duration ends in that error instead.
   */
  function SimulateLatency(t: string, durationMs: int): (r: Result<LatencyPayload, AppError>)
    ensures r.Ok? <==> durationMs >= 0
    ensures r.Ok? ==> r.value.tenantId == t && r.value.latencyMs == durationMs
                      && Contains(r.value.message, t) && Contains(r.value.message, IntToString(durationMs))
    ensures r.Err? ==> r.error.ValueError?
  {
    ContainsSuffix("Simulated latency of " + IntToString(durationMs) + "ms for tenant ", t);
    ContainsMiddle("Simulated latency of ", IntToString(durationMs), "ms for tenant " + t);
    assert LatencyMessage(durationMs, t)
        == "Simulated latency of " + IntToString(durationMs) + ("ms for tenant " + t);
    if durationMs < 0 then Err(ValueError("sleep length must be non-negative"))
    else Ok(LatencyPayload(t, durationMs, LatencyMessage(durationMs, t)))
  }
}
