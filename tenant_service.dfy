/**
 * Allowlist admission for tenant ids (src/services/tenant_service.py): the single check
 * every tenant-scoped endpoint runs before it touches anything else.
 */
module Tenants {
  import opened Strings
  import opened Results
  import opened Config
  import opened Errors

  /** `get_valid_tenants`: the configured allowlist, as `valid_tenant_list` parses it. */
  function GetValidTenants(cfg: Settings): (valid: seq<string>)
    ensures |valid| >= 1 && forall x :: x in valid ==> Trimmed(x)
  {
    ValidTenantList(cfg)
  }

  const EmptyTenantMessage := "Tenant ID cannot be empty"
  const UnknownTenantLead := "Invalid tenant ID: "
  const UnknownTenantMiddle := ". Valid tenants: "

  /** `f"Invalid tenant ID: {tenant_id}. Valid tenants: {', '.join(valid_tenants)}"`. */
  function UnknownTenantMessage(tenantId: string, valid: seq<string>): string
  {
    UnknownTenantLead + tenantId + UnknownTenantMiddle + Join(valid, ", ")
  }

  /**
   * `validate_tenant`: a blank id fails first; otherwise the id must be an exact,
   * untrimmed member of the allowlist. `Ok(())` is a normal return.
   */
  function ValidateTenant(cfg: Settings, tenantId: string): (r: Result<(), AppError>)
    ensures r.Ok? <==> !AllSpace(tenantId) && tenantId in GetValidTenants(cfg)
    ensures r.Err? ==> r.error.InvalidTenant?
    ensures AllSpace(tenantId) ==> r == Err(InvalidTenant(EmptyTenantMessage))
  {
    BlankIff(tenantId);
    if IsBlank(tenantId) then Err(InvalidTenant(EmptyTenantMessage))
    else if tenantId !in GetValidTenants(cfg) then
      Err(InvalidTenant(UnknownTenantMessage(tenantId, GetValidTenants(cfg))))
    else Ok(())
  }

  /** `is_valid_tenant`: the same decision as a boolean; it has no error result at all. */
  function IsValidTenant(cfg: Settings, tenantId: string): (valid: bool)
    ensures valid <==> !AllSpace(tenantId) && tenantId in GetValidTenants(cfg)
  {
    ValidateTenant(cfg, tenantId).Ok?
  }

  /** A message laid out as lead, id, middle, list names the id and every listed entry. */
  lemma MessageNamesAll(lead: string, tenantId: string, middle: string, valid: seq<string>)
    ensures var m := lead + tenantId + middle + Join(valid, ", ");
            && Contains(m, tenantId)
            && forall k :: 0 <= k < |valid| ==> Contains(m, valid[k])
  {
    var m := lead + tenantId + middle + Join(valid, ", ");
    ContainsMiddle(lead, tenantId, middle + Join(valid, ", "));
    assert m == lead + tenantId + (middle + Join(valid, ", "));
    forall k | 0 <= k < |valid|
      ensures Contains(m, valid[k])
    {
      JoinContainsEach(valid, ", ", k);
      ContainsExtend(Join(valid, ", "), valid[k], lead + tenantId + middle, []);
      assert lead + tenantId + middle + Join(valid, ", ") + [] == m;
    }
  }

  /**
   * A non-blank id outside the allowlist is rejected with a message that names the id
   * and every allowlisted tenant.
   */
  lemma UnknownTenantMessageListsAllowlist(cfg: Settings, tenantId: string)
    requires !AllSpace(tenantId) && tenantId !in GetValidTenants(cfg)
    ensures ValidateTenant(cfg, tenantId).Err?
    ensures var m := ValidateTenant(cfg, tenantId).error.message;
            && Contains(m, tenantId)
            && forall k :: 0 <= k < |GetValidTenants(cfg)| ==> Contains(m, GetValidTenants(cfg)[k])
  {
    BlankIff(tenantId);
    MessageNamesAll(UnknownTenantLead, tenantId, UnknownTenantMiddle, GetValidTenants(cfg));
  }

  /**
   * Membership is exact and entries are trimmed, so whatever the setting, an id that starts
   * or ends with whitespace (" tenant-a", "tenant-a\n") is never admitted.
   */
  lemma PaddedTenantRejected(cfg: Settings, tenantId: string)
    requires |tenantId| > 0 && (IsSpace(tenantId[0]) || IsSpace(tenantId[|tenantId| - 1]))
    ensures !IsValidTenant(cfg, tenantId)
  {
    assert !Trimmed(tenantId);
    EntriesTrimmed(cfg);
    assert tenantId !in GetValidTenants(cfg);
  }

  const DemoTenants: seq<string> := ["tenant-a", "tenant-b", "tenant-c"]

  /** Under the default setting exactly the three demo tenants are admitted. */
  lemma DefaultAdmission(cfg: Settings, tenantId: string)
    requires cfg.validTenants == DefaultValidTenants
    ensures IsValidTenant(cfg, tenantId) <==> tenantId in DemoTenants
  {
    DefaultTenantList(cfg);
    DemoTenantsNotBlank();
  }

  /** With VALID_TENANTS unset, the loaded settings admit exactly the three demo tenants. */
  lemma UnsetAllowlistAdmitsDemoTenants(env: Env, tenantId: string)
    requires "VALID_TENANTS" !in env
    ensures IsValidTenant(Load(env), tenantId) <==> tenantId in DemoTenants
  {
    DefaultAdmission(Load(env), tenantId);
  }

  lemma DemoTenantsNotBlank()
    ensures forall x :: x in DemoTenants ==> !AllSpace(x)
  {
    forall k | 0 <= k < |DemoTenants|
      ensures !AllSpace(DemoTenants[k])
    {
      assert !IsSpace(DemoTenants[k][0]);
    }
  }
}
