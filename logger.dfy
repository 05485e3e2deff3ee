/**
 * Structured logging (src/infrastructure/logger.py): the field selection of
 * `JSONFormatter.format`, `setup_logger` on the logger registry, and the `get_logger`
 * singleton. JSON serialisation and the output stream are outside the model.
 */
module Logging {
  import opened Results
  import opened Clock
  import opened Config
  import opened Errors

  /** A value in a log record or in the formatted object. */
  datatype Value = Str(s: string) | Int(i: int) | Bool(b: bool) | Null

  /**
   * The parts of a `logging.LogRecord` the formatter reads. `extras` are the attributes set
   * through `extra=`; `excInfo` is the formatted traceback when `exc_info` is set.
   */
  datatype LogRecord = LogRecord(levelName: string, message: string, moduleName: string, funcName: string,
                                 lineno: int, extras: map<string, Value>, excInfo: Option<string>)

  /** The active tracer span's ids, when there is one. */
  datatype SpanIds = SpanIds(traceId: int, spanId: int)

  /** What `format` reads besides the record: the clock, the tracer, and two settings. */
  datatype FormatContext = FormatContext(now: DateTime, span: Option<SpanIds>, service: string, env: string)

  /** The keys `format` can write, each with its JSON name. */
  datatype Key =
    | Timestamp | Level | Message | ModuleKey | Function | Line | Service | Env
    | TraceId | SpanId
    | TenantId | ErrorType | Severity | HealthCheckLevel | HealthCheckType
    | Status | Tenant | Exception

  function Name(k: Key): string
  {
    match k
    case Timestamp => "timestamp"
    case Level => "level"
    case Message => "message"
    case ModuleKey => "module"
    case Function => "function"
    case Line => "line"
    case Service => "service"
    case Env => "env"
    case TraceId => "dd.trace_id"
    case SpanId => "dd.span_id"
    case TenantId => "tenant_id"
    case ErrorType => "error_type"
    case Severity => "severity"
    case HealthCheckLevel => "health_check_level"
    case HealthCheckType => "health_check_type"
    case Status => "status"
    case Tenant => "tenant"
    case Exception => "exception"
  }

  /** The formatted object as an ordered dictionary: key/value pairs in insertion order. */
  type Fields = seq<(Key, Value)>

  predicate DistinctKeys(fields: Fields)
  {
    forall i, j :: 0 <= i < j < |fields| ==> fields[i].0 != fields[j].0
  }

  /** `fields.get(key)`. */
  function Get(fields: Fields, key: Key): Option<Value>
  {
    if fields == [] then None
    else if fields[0].0 == key then Some(fields[0].1)
    else Get(fields[1..], key)
  }

  lemma {:induction false} GetAbsent(fields: Fields, key: Key)
    requires forall k :: 0 <= k < |fields| ==> fields[k].0 != key
    ensures Get(fields, key) == None
  {
    if fields != [] {
      GetAbsent(fields[1..], key);
    }
  }

  /** With distinct keys, each key finds its own pair. */
  lemma {:induction false} GetAt(fields: Fields, k: nat)
    requires DistinctKeys(fields) && k < |fields|
    ensures Get(fields, fields[k].0) == Some(fields[k].1)
  {
    if k > 0 {
      GetAt(fields[1..], k - 1);
    }
  }

  /** `fields[key] = v`: a new key goes last, an existing one keeps its place. */
  function Put(fields: Fields, key: Key, v: Value): (r: Fields)
    requires DistinctKeys(fields)
    ensures DistinctKeys(r)
    ensures Get(r, key) == Some(v)
    ensures forall other :: other != key ==> Get(r, other) == Get(fields, other)
    ensures |r| >= |fields| && forall k :: 0 <= k < |fields| ==> r[k].0 == fields[k].0
    ensures forall k :: 0 <= k < |r| ==> r[k].0 == key || Get(fields, r[k].0).Some?
  {
    if fields == [] then [(key, v)]
    else if fields[0].0 == key then
      GetAbsent(fields[1..], key);
      forall k | 0 < k < |fields|
        ensures Get(fields, fields[k].0).Some?
      {
        GetAt(fields, k);
      }
      [(key, v)] + fields[1..]
    else
      var rest := Put(fields[1..], key, v);
      GetAbsent(fields[1..], fields[0].0);
      [fields[0]] + rest
  }

  /** The five `extra` attributes `format` copies when the record has them. */
  predicate Copied(k: Key)
  {
    k.TenantId? || k.ErrorType? || k.Severity? || k.HealthCheckLevel? || k.HealthCheckType?
  }

  /** The eight keys every formatted record starts with, in order. */
  const BaseKeys: seq<Key> := [Timestamp, Level, Message, ModuleKey, Function, Line, Service, Env]

  function Extra(record: LogRecord, name: string): Option<Value>
  {
    if name in record.extras then Some(record.extras[name]) else None
  }

  /**
   * The value `format` gives each key, key by key: the eight base fields always; the span
   * ids when a span is active; a copied extra when the record has it; "status" and "tenant"
   * only on ERROR records; "exception" exactly when `exc_info` is set.
   */
  function Expected(record: LogRecord, ctx: FormatContext, key: Key): Option<Value>
  {
    match key
    case Timestamp => Some(Str(UtcStamp(ctx.now)))
    case Level => Some(Str(record.levelName))
    case Message => Some(Str(record.message))
    case ModuleKey => Some(Str(record.moduleName))
    case Function => Some(Str(record.funcName))
    case Line => Some(Int(record.lineno))
    case Service => Some(Str(ctx.service))
    case Env => Some(Str(ctx.env))
    case TraceId => if ctx.span.Some? then Some(Int(ctx.span.value.traceId)) else None
    case SpanId => if ctx.span.Some? then Some(Int(ctx.span.value.spanId)) else None
    case TenantId => Extra(record, Name(key))
    case ErrorType => Extra(record, Name(key))
    case Severity => Extra(record, Name(key))
    case HealthCheckLevel => Extra(record, Name(key))
    case HealthCheckType => Extra(record, Name(key))
    case Status => if record.levelName == "ERROR" then Some(Str("error")) else None
    case Tenant => if record.levelName == "ERROR" then Extra(record, "tenant_id") else None
    case Exception => if record.excInfo.Some? then Some(Str(record.excInfo.value)) else None
  }

  /** The step of `format` that writes each key: 0 for the base fields, then in source order. */
  function Step(k: Key): nat
  {
    match k
    case TraceId => 1
    case SpanId => 1
    case TenantId => 2
    case ErrorType => 3
    case Severity => 4
    case HealthCheckLevel => 5
    case HealthCheckType => 6
    case Status => 7
    case Tenant => 7
    case Exception => 8
    case _ => 0
  }

  /** The dictionary after step `n`: the keys written so far, with their final values. */
  function UpTo(record: LogRecord, ctx: FormatContext, n: nat, key: Key): Option<Value>
  {
    if Step(key) <= n then Expected(record, ctx, key) else None
  }

  /** `JSONFormatter.format`, up to `json.dumps`: the dictionary it builds, step by step. */
  method Format(record: LogRecord, ctx: FormatContext) returns (fields: Fields)
    ensures DistinctKeys(fields)
    ensures forall key :: Get(fields, key) == Expected(record, ctx, key)
    ensures BaseFirst(fields)
  {
    fields := BaseLiteral(record, ctx);
    BaseFields(record, ctx);
    fields := AddSpan(record, ctx, fields);
    fields := CopyExtra(record, ctx, fields, TenantId);
    fields := CopyExtra(record, ctx, fields, ErrorType);
    fields := CopyExtra(record, ctx, fields, Severity);
    fields := CopyExtra(record, ctx, fields, HealthCheckLevel);
    fields := CopyExtra(record, ctx, fields, HealthCheckType);
    fields := AddErrorFields(record, ctx, fields);
    fields := AddException(record, ctx, fields);
    LastStep(record, ctx);
  }

  /**
   * What the dictionary `format` builds holds: the base fields always; the span ids exactly when
   * a span is active; each copied extra exactly when the record has it; "status" and "tenant"
   * only on ERROR records, "tenant" repeating "tenant_id"; "exception" exactly when `exc_info` is set.
   */
  lemma FieldSelection(record: LogRecord, ctx: FormatContext, fields: Fields)
    requires forall key :: Get(fields, key) == Expected(record, ctx, key)
    ensures forall k :: k in BaseKeys ==> Get(fields, k).Some?
    ensures (Get(fields, TraceId).Some? <==> ctx.span.Some?) && (Get(fields, SpanId).Some? <==> ctx.span.Some?)
    ensures forall k :: Copied(k) ==> (Get(fields, k).Some? <==> Name(k) in record.extras)
    ensures Get(fields, Status).Some? <==> record.levelName == "ERROR"
    ensures Get(fields, Tenant).Some? <==> record.levelName == "ERROR" && "tenant_id" in record.extras
    ensures Get(fields, Tenant).Some? ==> Get(fields, Tenant) == Get(fields, TenantId)
    ensures Get(fields, Exception).Some? <==> record.excInfo.Some?
  {
  }

  lemma LastStep(record: LogRecord, ctx: FormatContext)
    ensures forall k :: UpTo(record, ctx, 8, k) == Expected(record, ctx, k)
  {
    forall k
      ensures Step(k) <= 8
    {
    }
  }

  /** The eight base keys come first, in their order. */
  predicate BaseFirst(fields: Fields)
  {
    |fields| >= |BaseKeys| && forall k :: 0 <= k < |BaseKeys| ==> fields[k].0 == BaseKeys[k]
  }

  /** The keys of `fields` are exactly those written by step `n` and before, with their final values. */
  predicate Matches(fields: Fields, record: LogRecord, ctx: FormatContext, n: nat)
  {
    DistinctKeys(fields) && forall k :: Get(fields, k) == UpTo(record, ctx, n, k)
  }

  /** `span = tracer.current_span()`: the trace and span ids, when a span is active. */
  method AddSpan(record: LogRecord, ctx: FormatContext, fields: Fields) returns (r: Fields)
    requires Matches(fields, record, ctx, 0) && BaseFirst(fields)
    ensures Matches(r, record, ctx, 1) && BaseFirst(r)
  {
    r := fields;
    if ctx.span.Some? {
      r := Put(r, TraceId, Int(ctx.span.value.traceId));
      r := Put(r, SpanId, Int(ctx.span.value.spanId));
    }
    Extend(record, ctx, fields, r, 1);
  }

  /** `if record.exc_info`: the formatted exception. */
  method AddException(record: LogRecord, ctx: FormatContext, fields: Fields) returns (r: Fields)
    requires Matches(fields, record, ctx, 7) && BaseFirst(fields)
    ensures Matches(r, record, ctx, 8) && BaseFirst(r)
  {
    r := fields;
    if record.excInfo.Some? {
      r := Put(r, Exception, Str(record.excInfo.value));
    }
    Extend(record, ctx, fields, r, 8);
  }

  /** `if hasattr(record, name): log_data[name] = record.name`, for one copied extra. */
  method CopyExtra(record: LogRecord, ctx: FormatContext, fields: Fields, key: Key) returns (r: Fields)
    requires Copied(key) && Step(key) >= 2 && Matches(fields, record, ctx, Step(key) - 1)
    requires BaseFirst(fields)
    ensures Matches(r, record, ctx, Step(key)) && BaseFirst(r)
  {
    if Name(key) in record.extras {
      r := Put(fields, key, record.extras[Name(key)]);
    } else {
      r := fields;
    }
    Extend(record, ctx, fields, r, Step(key));
  }

  /** `if record.levelName == "ERROR"`: "status", and "tenant" when the record has a tenant. */
  method AddErrorFields(record: LogRecord, ctx: FormatContext, fields: Fields) returns (r: Fields)
    requires Matches(fields, record, ctx, 6) && BaseFirst(fields)
    ensures Matches(r, record, ctx, 7) && BaseFirst(r)
  {
    r := fields;
    if record.levelName == "ERROR" {
      r := Put(r, Status, Str("error"));
      if "tenant_id" in record.extras {
        r := Put(r, Tenant, record.extras["tenant_id"]);
      }
    }
    Extend(record, ctx, fields, r, 7);
  }

  /** One step of `format` writes exactly the keys of that step, with their final values. */
  lemma Extend(record: LogRecord, ctx: FormatContext, before: Fields, after: Fields, n: nat)
    requires n >= 1
    requires forall k :: Get(before, k) == UpTo(record, ctx, n - 1, k)
    requires forall k :: Step(k) != n ==> Get(after, k) == Get(before, k)
    requires forall k :: Step(k) == n ==> Get(after, k) == Expected(record, ctx, k)
    ensures forall k :: Get(after, k) == UpTo(record, ctx, n, k)
  {
  }

  /** The base literal of `format`. */
  function BaseLiteral(record: LogRecord, ctx: FormatContext): Fields
  {
    [(Timestamp, Str(UtcStamp(ctx.now))), (Level, Str(record.levelName)),
     (Message, Str(record.message)), (ModuleKey, Str(record.moduleName)),
     (Function, Str(record.funcName)), (Line, Int(record.lineno)),
     (Service, Str(ctx.service)), (Env, Str(ctx.env))]
  }

  /** The base literal holds the eight base keys, once each and in order, with their values. */
  lemma BaseFields(record: LogRecord, ctx: FormatContext)
    ensures Matches(BaseLiteral(record, ctx), record, ctx, 0) && BaseFirst(BaseLiteral(record, ctx))
  {
    var fields := BaseLiteral(record, ctx);
    assert forall k :: 0 <= k < |fields| ==> fields[k].0 == BaseKeys[k];
    assert DistinctKeys(fields);
    BasePresent(record, ctx);
    forall key | Step(key) > 0
      ensures Get(fields, key) == None
    {
      GetAbsent(fields, key);
    }
  }

  lemma BasePresent(record: LogRecord, ctx: FormatContext)
    requires DistinctKeys(BaseLiteral(record, ctx))
    ensures forall key :: Step(key) == 0 ==> Get(BaseLiteral(record, ctx), key) == Expected(record, ctx, key)
  {
    var fields := BaseLiteral(record, ctx);
    forall key | Step(key) == 0
      ensures Get(fields, key) == Expected(record, ctx, key)
    {
      match key
      case Timestamp => GetAt(fields, 0);
      case Level => GetAt(fields, 1);
      case Message => GetAt(fields, 2);
      case ModuleKey => GetAt(fields, 3);
      case Function => GetAt(fields, 4);
      case Line => GetAt(fields, 5);
      case Service => GetAt(fields, 6);
      case Env => GetAt(fields, 7);
    }
  }

  /** The JSON names are distinct, so the dictionary of keys is the dictionary of names. */
  lemma NameInjective(a: Key, b: Key)
    ensures Name(a) == Name(b) ==> a == b
  {
  }

  /**
   * `getattr(logging, LOG_LEVEL)` for the level names the `logging` module defines; any other
   * text raises (no such attribute, or an attribute that is not a level).
   */
  function LevelNumber(name: string): (level: Option<int>)
    ensures level.Some? <==> name in LevelNames
    ensures level.Some? ==> 0 <= level.value <= 50 && level.value % 10 == 0
  {
    if name == "CRITICAL" || name == "FATAL" then Some(50)
    else if name == "ERROR" then Some(40)
    else if name == "WARNING" || name == "WARN" then Some(30)
    else if name == "INFO" then Some(20)
    else if name == "DEBUG" then Some(10)
    else if name == "NOTSET" then Some(0)
    else None
  }

  const LevelNames: set<string> := {"CRITICAL", "FATAL", "ERROR", "WARNING", "WARN", "INFO", "DEBUG", "NOTSET"}

  /** With LOG_LEVEL unset, the loaded level is INFO, which names a level. */
  lemma UnsetLevelIsInfo(env: Env)
    requires "LOG_LEVEL" !in env
    ensures LevelNumber(Load(env).logLevel) == Some(20)
  {
  }

  /** The levels are ordered from DEBUG up to CRITICAL, and the aliases share their level. */
  lemma LevelOrder()
    ensures LevelNumber("DEBUG").value < LevelNumber("INFO").value < LevelNumber("WARNING").value
            < LevelNumber("ERROR").value < LevelNumber("CRITICAL").value
    ensures LevelNumber("WARN") == LevelNumber("WARNING") && LevelNumber("FATAL") == LevelNumber("CRITICAL")
  {
  }

  datatype Stream = Stdout | OtherStream

  /** A handler: where it writes, its level, and whether it carries the JSON formatter. */
  datatype Handler = Handler(stream: Stream, level: int, json: bool)

  /** A `logging.Logger`: its name, level, handler list and propagation flag. */
  class Logger {
    const name: string
    var level: int
    var handlers: seq<Handler>
    var propagate: bool

    /** A fresh logger: level NOTSET, no handlers, propagating to its parent. */
    constructor(name: string)
      ensures this.name == name && level == 0 && handlers == [] && propagate
    {
      this.name := name;
      level := 0;
      handlers := [];
      propagate := true;
    }
  }

  /** The process-wide table behind `logging.getLogger`. */
  class Registry {
    var loggers: map<string, Logger>

    ghost predicate Valid()
      reads this, loggers.Values
    {
      forall n :: n in loggers ==> loggers[n].name == n
    }

    constructor()
      ensures loggers == map[] && Valid()
    {
      loggers := map[];
    }

    /** `logging.getLogger(name)`: the logger already registered under `name`, or a new one. */
    method GetLogger(name: string) returns (l: Logger)
      requires Valid()
      modifies this
      ensures Valid()
      ensures l.name == name && loggers == old(loggers)[name := l]
      ensures name in old(loggers) ==> l == old(loggers)[name]
      ensures name !in old(loggers) ==> fresh(l) && l.level == 0 && l.handlers == [] && l.propagate
    {
      if name in loggers {
        l := loggers[name];
      } else {
        l := new Logger(name);
        loggers := loggers[name := l];
      }
    }
  }

  const DefaultLoggerName := "demo-api"

  /**
   * `setup_logger(name)`: fetches the named logger, sets its level from LOG_LEVEL, clears its
   * handlers and attaches exactly one JSON handler on standard output, and stops propagation.
   * An unknown level name raises after the logger is registered and before anything else changes.
   */
  method SetupLogger(registry: Registry, cfg: Settings, name: string) returns (r: Result<Logger, AppError>)
    requires registry.Valid()
    modifies registry, if name in registry.loggers then {registry.loggers[name]} else {}
    ensures registry.Valid()
    ensures name in registry.loggers && registry.loggers == old(registry.loggers)[name := registry.loggers[name]]
    ensures name in old(registry.loggers) ==> registry.loggers[name] == old(registry.loggers[name])
    ensures r.Ok? <==> cfg.logLevel in LevelNames
    ensures r.Err? ==> r.error == Unexpected(cfg.logLevel)
    ensures r.Err? && name in old(registry.loggers) ==> unchanged(old(registry.loggers[name]))
    ensures r.Err? && name !in old(registry.loggers) ==>
              var l := registry.loggers[name]; fresh(l) && l.level == 0 && l.handlers == [] && l.propagate
    ensures r.Ok? ==> && r.value == registry.loggers[name]
                      && r.value.level == LevelNumber(cfg.logLevel).value
                      && r.value.handlers == [Handler(Stdout, r.value.level, true)]
                      && !r.value.propagate
  {
    var logger := registry.GetLogger(name);
    var level := LevelNumber(cfg.logLevel);
    if level.None? {
      return Err(Unexpected(cfg.logLevel));
    }
    logger.level := level.value;
    logger.handlers := [];
    logger.handlers := logger.handlers + [Handler(Stdout, level.value, true)];
    logger.propagate := false;
    r := Ok(logger);
  }

  /** The module global `_logger` and the registry it is drawn from. */
  class LoggerModule {
    var current: Logger?
    const registry: Registry

    constructor(registry: Registry)
      ensures current == null && this.registry == registry
    {
      current := null;
      this.registry := registry;
    }

    /**
     * `get_logger`: the first call sets up the default logger and remembers it; every later
     * call returns that same instance and changes nothing. A failed setup leaves nothing remembered.
     */
    method GetLogger(cfg: Settings) returns (r: Result<Logger, AppError>)
      requires registry.Valid()
      modifies this, registry,
               if DefaultLoggerName in registry.loggers then {registry.loggers[DefaultLoggerName]} else {}
      ensures registry.Valid()
      ensures old(current) != null ==> r == Ok(old(current)) && current == old(current)
                                       && unchanged(registry) && unchanged(old(current))
      ensures old(current) == null ==> && (r.Ok? <==> cfg.logLevel in LevelNames)
                                       && (r.Ok? ==> DefaultLoggerName in registry.loggers && current == r.value == registry.loggers[DefaultLoggerName]
                                                     && |r.value.handlers| == 1)
                                       && (r.Err? ==> current == null)
    {
      if current == null {
        r := SetupLogger(registry, cfg, DefaultLoggerName);
        if r.Ok? {
          current := r.value;
        }
      } else {
        r := Ok(current);
      }
    }
  }
}
