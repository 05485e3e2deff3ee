/**
 * Application settings read once from the environment (src/config/settings.py).
 * The environment is an explicit map from variable name to value.
 */
module Config {
  import opened Strings

  type Env = map<string, string>

  /** `os.getenv(key, default)`: a variable that is set, even to "", wins over the default. */
  function GetEnv(env: Env, key: string, default: string): (v: string)
    ensures key in env ==> v == env[key]
    ensures key !in env ==> v == default
  {
    if key in env then env[key] else default
  }

  const SslSuffix := "?sslmode=require"
  const Scheme := "postgresql://"

  /** The pieces of the f-string `postgresql://{user}:{password}@{host}:{port}/{name}?sslmode=require`. */
  function UrlPieces(user: string, password: string, host: string, port: string, name: string): seq<string>
  {
    [Scheme, user, ":", password, "@", host, ":", port, "/", name, SslSuffix]
  }

  function AssembleUrl(user: string, password: string, host: string, port: string, name: string): (url: string)
    ensures StartsWith(url, Scheme) && EndsWith(url, SslSuffix)
    ensures Contains(url, user) && Contains(url, host) && Contains(url, name)
  {
    var pieces := UrlPieces(user, password, host, port, name);
    JoinEnds(pieces, []);
    JoinContainsEach(pieces, [], 1);
    JoinContainsEach(pieces, [], 5);
    JoinContainsEach(pieces, [], 9);
    Concat(pieces)
  }

  /** True when DATABASE_URL is set to a non-empty (truthy) value. */
  predicate HasDirectUrl(env: Env)
  {
    "DATABASE_URL" in env && env["DATABASE_URL"] != []
  }

  /**
   * `_build_database_url`: a non-empty DATABASE_URL is taken as it is; otherwise the URL is
   * assembled from DB_USER, DB_PASSWORD, DB_HOST, DB_PORT and DB_NAME, each with its default,
   * and it always asks for TLS.
   */
  function BuildDatabaseUrl(env: Env): (url: string)
    ensures HasDirectUrl(env) ==> url == env["DATABASE_URL"]
    ensures !HasDirectUrl(env) ==>
              && StartsWith(url, Scheme) && EndsWith(url, SslSuffix)
              && Contains(url, GetEnv(env, "DB_HOST", "localhost"))
              && Contains(url, GetEnv(env, "DB_USER", "demo_user"))
              && Contains(url, GetEnv(env, "DB_NAME", "demo_db"))
  {
    if HasDirectUrl(env) then env["DATABASE_URL"]
    else
      AssembleUrl(GetEnv(env, "DB_USER", "demo_user"), GetEnv(env, "DB_PASSWORD", "demo_password"),
                  GetEnv(env, "DB_HOST", "localhost"), GetEnv(env, "DB_PORT", "5432"),
                  GetEnv(env, "DB_NAME", "demo_db"))
  }

  /** With nothing set, every part takes its default. */
  lemma DefaultDatabaseUrl()
    ensures BuildDatabaseUrl(map[]) == AssembleUrl("demo_user", "demo_password", "localhost", "5432", "demo_db")
  {
    var e: Env := map[];
    assert !HasDirectUrl(e);
  }

  /** A part set to "" stays "": os.getenv only falls back to the default when the variable is missing. */
  lemma EmptyHostKept(env: Env)
    requires !HasDirectUrl(env) && "DB_HOST" in env && env["DB_HOST"] == []
    ensures BuildDatabaseUrl(env) == AssembleUrl(GetEnv(env, "DB_USER", "demo_user"),
                                                 GetEnv(env, "DB_PASSWORD", "demo_password"), [],
                                                 GetEnv(env, "DB_PORT", "5432"), GetEnv(env, "DB_NAME", "demo_db"))
  {
  }

  /** DATABASE_URL set to "" is falsy in Python, so the URL is assembled instead. */
  lemma EmptyDatabaseUrlIgnored(env: Env)
    requires "DATABASE_URL" in env && env["DATABASE_URL"] == []
    ensures BuildDatabaseUrl(env) == BuildDatabaseUrl(env - {"DATABASE_URL"})
  {
    var e := env - {"DATABASE_URL"};
    assert forall k :: k != "DATABASE_URL" ==> GetEnv(e, k, "") == GetEnv(env, k, "");
    assert GetEnv(e, "DB_USER", "demo_user") == GetEnv(env, "DB_USER", "demo_user");
    assert GetEnv(e, "DB_PASSWORD", "demo_password") == GetEnv(env, "DB_PASSWORD", "demo_password");
    assert GetEnv(e, "DB_HOST", "localhost") == GetEnv(env, "DB_HOST", "localhost");
    assert GetEnv(e, "DB_PORT", "5432") == GetEnv(env, "DB_PORT", "5432");
    assert GetEnv(e, "DB_NAME", "demo_db") == GetEnv(env, "DB_NAME", "demo_db");
  }

  /** The `Settings` class attributes, evaluated once at import time. */
  datatype Settings = Settings(databaseUrl: string, ddService: string, ddEnv: string,
                               ddVersion: string, ddAgentHost: string,
                               validTenants: string, logLevel: string)

  const DefaultValidTenants := "tenant-a,tenant-b,tenant-c"

  function Load(env: Env): (s: Settings)
    ensures s.databaseUrl == BuildDatabaseUrl(env)
    ensures "VALID_TENANTS" in env ==> s.validTenants == env["VALID_TENANTS"]
    ensures "VALID_TENANTS" !in env ==> s.validTenants == DefaultValidTenants
    ensures "LOG_LEVEL" in env ==> s.logLevel == env["LOG_LEVEL"]
    ensures "LOG_LEVEL" !in env ==> s.logLevel == "INFO"
    ensures s.ddService == GetEnv(env, "DD_SERVICE", "demo-api")
    ensures s.ddEnv == GetEnv(env, "DD_ENV", "poc")
    ensures s.ddVersion == GetEnv(env, "DD_VERSION", "1.0.0")
    ensures s.ddAgentHost == GetEnv(env, "DD_AGENT_HOST", "datadog-agent")
  {
    Settings(BuildDatabaseUrl(env),
             GetEnv(env, "DD_SERVICE", "demo-api"),
             GetEnv(env, "DD_ENV", "poc"),
             GetEnv(env, "DD_VERSION", "1.0.0"),
             GetEnv(env, "DD_AGENT_HOST", "datadog-agent"),
             GetEnv(env, "VALID_TENANTS", DefaultValidTenants),
             GetEnv(env, "LOG_LEVEL", "INFO"))
  }

  /** With nothing set, every setting takes its default. */
  lemma LoadDefaults()
    ensures Load(map[]) == Settings(AssembleUrl("demo_user", "demo_password", "localhost", "5432", "demo_db"),
                                    "demo-api", "poc", "1.0.0", "datadog-agent", DefaultValidTenants, "INFO")
  {
    DefaultDatabaseUrl();
  }

  /** `valid_tenant_list`: `[t.strip() for t in VALID_TENANTS.split(",")]`. */
  function ValidTenantList(s: Settings): (r: seq<string>)
    ensures |r| == Count(s.validTenants, ',') + 1
    ensures forall x :: x in r ==> Trimmed(x)
  {
    SplitShape(s.validTenants, ',');
    StripEachTrimmed(Split(s.validTenants, ','));
    StripEach(Split(s.validTenants, ','))
  }

  function StripEach(pieces: seq<string>): (r: seq<string>)
    ensures |r| == |pieces| && forall k :: 0 <= k < |r| ==> r[k] == Strip(pieces[k])
  {
    if pieces == [] then [] else [Strip(pieces[0])] + StripEach(pieces[1..])
  }

  lemma StripEachTrimmed(pieces: seq<string>)
    ensures forall x :: x in StripEach(pieces) ==> Trimmed(x)
  {
    var r := StripEach(pieces);
    forall k | 0 <= k < |r|
      ensures Trimmed(r[k])
    {
      StripTrims(pieces[k]);
    }
  }

  /**
   * One entry per comma-separated piece, in order; each entry is its piece trimmed, so it
   * holds no comma and neither starts nor ends with whitespace.
   */
  lemma ValidTenantListShape(s: Settings)
    ensures |ValidTenantList(s)| == Count(s.validTenants, ',') + 1
    ensures forall k :: 0 <= k < |ValidTenantList(s)| ==>
              && ValidTenantList(s)[k] == Strip(Split(s.validTenants, ',')[k])
              && ',' !in ValidTenantList(s)[k]
              && Trimmed(ValidTenantList(s)[k])
  {
    var pieces := Split(s.validTenants, ',');
    SplitShape(s.validTenants, ',');
    forall k | 0 <= k < |pieces|
      ensures ',' !in Strip(pieces[k]) && Trimmed(Strip(pieces[k]))
    {
      StripTrims(pieces[k]);
    }
  }

  /** Every allowlist entry is trimmed. */
  lemma EntriesTrimmed(s: Settings)
    ensures forall x :: x in ValidTenantList(s) ==> Trimmed(x)
  {
    ValidTenantListShape(s);
  }

  lemma StripDemoTenant(x: string)
    requires x == "tenant-a" || x == "tenant-b" || x == "tenant-c"
    ensures Strip(x) == x
  {
    assert !IsSpace(x[0]) && !IsSpace(x[|x| - 1]);
    StripUnchanged(x);
  }

  lemma SplitThree(a: string, b: string, c: string)
    requires ',' !in a && ',' !in b && ',' !in c
    ensures Split(a + [','] + b + [','] + c, ',') == [a, b, c]
  {
    SplitNoSeparator(c, ',');
    SplitAtFirst(b, ',', c);
    SplitAtFirst(a, ',', b + [','] + c);
    assert a + [','] + b + [','] + c == a + [','] + (b + [','] + c);
  }

  lemma DefaultTenantsText(a: string, b: string, c: string)
    requires a == "tenant-a" && b == "tenant-b" && c == "tenant-c"
    ensures a + [','] + b + [','] + c == DefaultValidTenants
  {
  }

  /** The default setting gives exactly the three demo tenants. */
  lemma DefaultTenantList(s: Settings)
    requires s.validTenants == DefaultValidTenants
    ensures ValidTenantList(s) == ["tenant-a", "tenant-b", "tenant-c"]
  {
    var xs := ["tenant-a", "tenant-b", "tenant-c"];
    DefaultTenantsText(xs[0], xs[1], xs[2]);
    SplitThree(xs[0], xs[1], xs[2]);
    StripDemoTenant(xs[0]);
    StripDemoTenant(xs[1]);
    StripDemoTenant(xs[2]);
    var r := StripEach(xs);
    assert r[0] == xs[0] && r[1] == xs[1] && r[2] == xs[2];
  }
}
