/**
 * The health endpoints (src/api/controllers/health_controller.py): `GET /health` and
 * `GET /{tenant_id}/health`. The database round trip is an input, the probe outcome.
 */
module Health {
  import opened Results
  import opened Clock
  import opened Config
  import opened Errors
  import opened Tenants

  /**
   * What executing the probe query did: it completed (with or without a row), the database
   * layer raised (an SQLAlchemyError), or something else raised.
   */
  datatype ProbeOutcome =
    | Completed(rowsFound: bool)
    | DatabaseError(message: string)
    | OtherError(message: string)

  /** A health body; `tenantId` is present only on the tenant-level check. */
  datatype HealthBody = HealthBody(status: string, tenantId: Option<string>, database: string, timestamp: string)

  datatype HealthResponse = HealthResponse(statusCode: int, body: HealthBody)

  /** `check_db_connection`: whether the query ran; every exception is swallowed into false. */
  function CheckDbConnection(probe: ProbeOutcome): (connected: bool)
    ensures connected <==> probe.Completed?
  {
    match probe
    case Completed(_) => true
    case DatabaseError(_) => false
    case OtherError(_) => false
  }

  function Connected(tenantId: Option<string>, now: DateTime): HealthBody
  {
    HealthBody("ok", tenantId, "connected", UtcStamp(now))
  }

  function Disconnected(tenantId: Option<string>, now: DateTime): HealthBody
  {
    HealthBody("error", tenantId, "disconnected", UtcStamp(now))
  }

  /**
   * `health_check_service`: 200 with "ok"/"connected" when the probe ran, else 503 with
   * "error"/"disconnected". `check_db_connection` returns a boolean and never raises, so the
   * endpoint has no error outcome: its `except SQLAlchemyError` branch cannot be entered.
   */
  function ServiceHealth(probe: ProbeOutcome, now: DateTime): (r: HealthResponse)
    ensures r.statusCode == 200 || r.statusCode == 503
    ensures r.statusCode == 200 <==> probe.Completed?
    ensures r.statusCode == 200 ==> r.body.status == "ok" && r.body.database == "connected"
    ensures r.statusCode == 503 ==> r.body.status == "error" && r.body.database == "disconnected"
    ensures r.body.tenantId.None? && r.body.timestamp == UtcStamp(now)
  {
    var connected := CheckDbConnection(probe);
    if !connected then HealthResponse(503, Disconnected(None, now))
    else HealthResponse(200, Connected(None, now))
  }

  /** Every way the probe can fail, database error or any other, gives the same 503. */
  lemma ServiceHealthFailuresAlike(m1: string, m2: string, now: DateTime)
    ensures ServiceHealth(DatabaseError(m1), now) == ServiceHealth(OtherError(m2), now)
    ensures ServiceHealth(DatabaseError(m1), now) == HealthResponse(503, Disconnected(None, now))
  {
  }

  /**
   * `health_check_tenant`: the tenant is validated first; then the tenant-filtered probe runs.
   * A database error gives 503; any other exception escapes to the generic handler.
   */
  function TenantHealth(cfg: Settings, t: string, probe: ProbeOutcome, now: DateTime): (r: Result<HealthResponse, AppError>)
    ensures !IsValidTenant(cfg, t) ==> r == Err(ValidateTenant(cfg, t).error)
    ensures IsValidTenant(cfg, t) ==>
              && (probe.Completed? ==> r == Ok(HealthResponse(200, Connected(Some(t), now))))
              && (probe.DatabaseError? ==> r == Ok(HealthResponse(503, Disconnected(Some(t), now))))
              && (probe.OtherError? ==> r == Err(Unexpected(probe.message)))
    ensures r.Ok? ==> r.value.body.tenantId == Some(t)
  {
    match ValidateTenant(cfg, t)
    case Err(e) => Err(e)
    case Ok(_) =>
      match probe
      case Completed(_) => Ok(HealthResponse(200, Connected(Some(t), now)))
      case DatabaseError(_) => Ok(HealthResponse(503, Disconnected(Some(t), now)))
      case OtherError(m) => Err(Unexpected(m))
  }

  /** An invalid tenant's answer does not depend on the probe: the query never runs for it. */
  lemma InvalidTenantNeverProbes(cfg: Settings, t: string, p1: ProbeOutcome, p2: ProbeOutcome, now: DateTime)
    requires !IsValidTenant(cfg, t)
    ensures TenantHealth(cfg, t, p1, now) == TenantHealth(cfg, t, p2, now)
    ensures TenantHealth(cfg, t, p1, now).error.InvalidTenant?
  {
  }

  /** The probe's result rows are ignored: "ok" whether or not the tenant has any rows. */
  lemma TenantHealthIgnoresRows(cfg: Settings, t: string, now: DateTime)
    ensures TenantHealth(cfg, t, Completed(true), now) == TenantHealth(cfg, t, Completed(false), now)
  {
  }
}
