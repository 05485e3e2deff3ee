# Multi-tenant demo API: the request pipeline

A model of the core of a small multi-tenant web API. The API serves tenant-scoped
`items` stored in PostgreSQL, health probes and failure simulations for monitoring.
Every request names a tenant in its path. The model covers:

- tenant admission against the configured allowlist;
- the items service and repository: listing newest first, lookup, insertion, deletion and counting, all filtered by tenant;
- the item's dictionary form with its `isoformat() + "Z"` timestamps;
- the mapping of every error kind to an HTTP status and a JSON error envelope;
- the health and simulation endpoints;
- the settings read from the environment;
- the JSON log formatter's field selection, `setup_logger` and the `get_logger` singleton.

One Dafny module follows each source file:

| module | source file |
|---|---|
| `Config` | src/config/settings.py |
| `Tenants` | src/services/tenant_service.py |
| `Items` | src/models/item.py |
| `Repository` | src/repositories/items_repository.py |
| `Service` | src/services/items_service.py |
| `Monitoring` | src/services/monitoring_service.py |
| `ErrorHandler` | src/infrastructure/error_handler.py |
| `Logging` | src/infrastructure/logger.py |
| `ItemsApi`, `SimulateApi`, `Health` | the three controllers |

There are also helper modules:

- `Strings`: Python's `strip`, `split`, `join`, `in` and `str(int)`.
- `Clock`: `datetime` and `isoformat`.
- `Errors`: the exceptions, as one datatype.
- `Json`: a request field that is absent, null or given.
- `Results`: `Option` and `Result`.

The database is a `Repository.Table` object whose rows the methods of `Repository.ItemsRepository`
change in place. It keeps a
ghost log of every statement sent to it. With that log the controllers state that only an
admitted tenant's statements ever reach the store. The clock, the tracer span, the database
probe's outcome and the environment are parameters.

## Model

| member | source | states |
|---|---|---|
| Config.GetEnv | src/config/settings.py:42-46 | a variable that is set wins over the default, even when it is set to "" |
| Config.BuildDatabaseUrl | src/config/settings.py:36-48 | a non-empty DATABASE_URL is used as it is; otherwise the URL starts with `postgresql://`, ends with `?sslmode=require` and contains the host, user and database name |
| Config.DefaultDatabaseUrl | src/config/settings.py:42-48 | with nothing set, every part takes its default |
| Config.EmptyHostKept | src/config/settings.py:42 | DB_HOST set to "" gives an empty host, not "localhost" |
| Config.EmptyDatabaseUrlIgnored | src/config/settings.py:38-39 | DATABASE_URL set to "" is ignored, the same as when it is unset |
| Config.Load | src/config/settings.py:50-60 | DATABASE_URL is built as above; VALID_TENANTS and LOG_LEVEL take their set value, even "", and otherwise default to the three demo tenants and to INFO; each DD_* setting is its variable or its default, as `getenv` gives it |
| Config.LoadDefaults | src/config/settings.py:42-60 | with nothing set, every setting takes its default |
| Config.ValidTenantList | src/config/settings.py:63-70 | the allowlist has one entry per comma plus one, and no entry has surrounding whitespace |
| Config.StripEach | src/config/settings.py:70 | one stripped entry per piece, in order |
| Config.StripEachTrimmed | src/config/settings.py:70 | every stripped piece is trimmed |
| Config.ValidTenantListShape | src/config/settings.py:63-70 | the allowlist has one entry per comma plus one; each entry is its piece stripped, with no comma and no surrounding whitespace |
| Config.EntriesTrimmed | src/config/settings.py:70 | every allowlist entry is trimmed |
| Config.DefaultTenantList | src/config/settings.py:59-70 | the default setting parses to exactly tenant-a, tenant-b, tenant-c |
| Strings.StripIsTrimmedSlice | src/config/settings.py:70 | `strip()` is the slice of its input between a whitespace-only prefix and a whitespace-only suffix |
| Strings.StripTrims | src/config/settings.py:70 | the stripped text neither starts nor ends with whitespace and holds only characters of its input |
| Strings.StripEmptyIff | src/services/tenant_service.py:75 | a string strips to "" exactly when it is all whitespace |
| Strings.SplitShape | src/config/settings.py:70 | `split(",")` gives one piece per comma plus one, and no piece holds a comma |
| Strings.SplitJoinRoundTrip | src/config/settings.py:70 | joining the pieces of `split(c)` with `c` gives back the text |
| Strings.JoinContainsEach | src/services/tenant_service.py:82 | `", ".join(xs)` contains every element of `xs` |
| Strings.NatToStringRoundTrip | src/services/items_service.py:87 | the decimal text of an id reads back to the id |
| Clock.IsoFormat | src/models/item.py:98-99 | `isoformat()` is 19 characters long, or 26 when the microseconds are non-zero |
| Clock.IsoFormatRoundTrip | src/models/item.py:98-99 | the ISO text determines the datetime: parsing it gives back the datetime |
| Clock.IsoFormatInjective | src/models/item.py:98-99 | two datetimes with the same ISO text are equal |
| Tenants.GetValidTenants | src/services/tenant_service.py:41-48 | the settings' allowlist: at least one entry, none with surrounding whitespace |
| Tenants.ValidateTenant | src/services/tenant_service.py:51-84 | succeeds iff the id is not blank and is an exact member of the allowlist; a blank id fails with "Tenant ID cannot be empty"; every failure is an InvalidTenantError |
| Tenants.IsValidTenant | src/services/tenant_service.py:87-101 | true iff the id is not blank and is in the allowlist; there is no error result |
| Tenants.UnknownTenantMessageListsAllowlist | src/services/tenant_service.py:78-84 | an unknown non-blank id is rejected with a message that names the id and every allowlisted tenant |
| Tenants.MessageNamesAll | src/services/tenant_service.py:81-84 | a message laid out as lead, id, middle and joined list contains the id and every entry |
| Tenants.PaddedTenantRejected | src/services/tenant_service.py:80 | whatever the setting, an id that starts or ends with whitespace is never admitted, because membership is exact and entries are stripped |
| Tenants.DefaultAdmission | src/services/tenant_service.py:75-84 | under the default setting exactly tenant-a, tenant-b and tenant-c are admitted |
| Tenants.UnsetAllowlistAdmitsDemoTenants | src/config/settings.py:59-70 | with VALID_TENANTS unset, a tenant is admitted iff it is one of the three demo tenants |
| Items.RenderStamp | src/models/item.py:98-99 | a timestamp renders iff it is present, as its ISO text followed by "Z" |
| Items.ToDict | src/models/item.py:76-100 | the dictionary copies id, tenant, name and description, and renders both timestamps |
| Items.RenderStampRoundTrip | src/models/item.py:98-99 | a rendered timestamp reads back to the original, absent included |
| Items.ToDictRoundTrip | src/models/item.py:76-100 | `to_dict` loses nothing: the item can be read back from its dictionary |
| Items.ToDictInjective | src/models/item.py:76-100 | two items with the same dictionary are the same item |
| Items.StoreVarchar | src/models/item.py:41-44 | a `varchar(n)` column stores a value iff it fits or everything past n is spaces; the stored value is then its prefix of at most n characters, and only spaces are cut |
| Items.StoreValues | src/repositories/items_repository.py:108-116 | an insert's values are stored iff none holds NUL and tenant id and name each fit their column after cutting trailing spaces; NUL fails with ValueError, an over-long value with a database error |
| Items.FittingValuesStoredAsGiven | src/models/item.py:41-44 | values that fit their columns are stored unchanged |
| Items.PaddedNameTruncated | src/models/item.py:44 | a 100-character name with one trailing space is stored without the space |
| Items.OverlongNameRefused | src/models/item.py:44 | a name over 100 characters whose 101st is not a space is refused with a database error |
| Repository.OfTenant | src/repositories/items_repository.py:58-60 | a row is selected iff it is in the table and has the tenant's id |
| Repository.InsertByAge | src/repositories/items_repository.py:60-62 | inserting into a newest-first list keeps it newest first and adds exactly that row |
| Repository.SortNewestFirst | src/repositories/items_repository.py:60-62 | `ORDER BY created_at DESC`: the result is sorted newest first and is a permutation of its input |
| Repository.Lookup | src/repositories/items_repository.py:81-84 | a found row is in the table with that tenant and id; nothing is found iff no row has both |
| Repository.WithoutId | src/repositories/items_repository.py:139-140 | a row survives iff it was in the table and has a different id |
| Repository.ItemsRepository.FindByTenant | src/repositories/items_repository.py:41-62 | returns the tenant's rows newest first, as a permutation of exactly those rows; one SELECT for that tenant is sent |
| Repository.ItemsRepository.FindById | src/repositories/items_repository.py:64-84 | returns the row with that id only when it belongs to the tenant |
| Repository.ItemsRepository.Create | src/repositories/items_repository.py:86-116 | sends one INSERT for the tenant; when the columns accept the values, appends a row with the next id, the values as the columns store them, the description and the two clock readings, advances the id counter and returns the row, whose id no earlier row has; otherwise fails with the columns' error (ValueError for NUL, a database error for an over-long value) and leaves rows and counter as they were |
| Repository.ItemsRepository.Delete | src/repositories/items_repository.py:118-141 | deletes iff the tenant owns a row with that id, removing exactly the rows with that id; otherwise nothing changes and the result is false |
| Repository.ItemsRepository.CountByTenant | src/repositories/items_repository.py:143-158 | the number of the tenant's rows |
| Repository.WithoutIdKeepsUnique | src/repositories/items_repository.py:139-140 | deleting keeps ids unique |
| Repository.OtherTenantInvisible | src/repositories/items_repository.py:58-84 | another tenant's row is neither listed nor found |
| Repository.ListingIsTenantRows | src/repositories/items_repository.py:58-62 | the listing holds exactly the tenant's rows, no more and no fewer |
| Repository.OfTenantAppend | src/repositories/items_repository.py:58-60 | selection distributes over appended rows |
| Repository.InsertIsolation | src/repositories/items_repository.py:108-116 | an insert for one tenant leaves every other tenant's selection unchanged and adds the row to its own |
| Repository.CreateThenFind | src/repositories/items_repository.py:81-116 | a created row is found by its tenant under its id, and not by another tenant |
| Repository.DeleteRemovesExactlyOne | src/repositories/items_repository.py:139-140 | with unique ids, deleting an owned row removes exactly that one row |
| Repository.WithoutIdAbsent | src/repositories/items_repository.py:139-140 | deleting an id no row has changes nothing |
| Repository.DeleteIsolation | src/repositories/items_repository.py:135-141 | deleting one tenant's row leaves every other tenant's selection unchanged |
| Service.CheckName | src/services/items_service.py:116-120 | a name passes iff it is not blank and has at most 100 characters; blankness is checked first, each failure with its own message |
| Service.BlankBeforeLength | src/services/items_service.py:116-120 | a long run of spaces is reported as empty, not as too long |
| Service.CheckedNameFitsColumn | src/services/items_service.py:119-120 | a name that passes fits the 100-character column |
| Service.FoundOrNotFound | src/services/items_service.py:84-89 | a found item is returned; a missing one raises ItemNotFoundError with a message naming the tenant |
| Service.ItemsService.constructor | src/services/items_service.py:43-50 | the service's repository works on the given session |
| Service.ItemsService.GetItems | src/services/items_service.py:52-65 | the tenant's rows, newest first |
| Service.ItemsService.GetItemById | src/services/items_service.py:67-89 | the tenant's row with that id, or ItemNotFoundError |
| Service.ItemsService.CreateItem | src/services/items_service.py:91-122 | a name that fails the checks raises ValueError and table, counter and log are untouched; otherwise one INSERT is sent and the stored row is appended with the counter advanced, or the columns' error is returned with rows and counter unchanged |
| Service.ItemsService.DeleteItem | src/services/items_service.py:124-138 | the repository's delete: the rows of that id go iff the tenant owns one; the counter is unchanged; a SELECT and, only when deleting, a DELETE are sent |
| Service.ItemsService.CountItems | src/services/items_service.py:140-153 | the number of the tenant's rows |
| Monitoring.ErrorMessage | src/services/monitoring_service.py:56-62 | a known kind selects its template, and any other kind or a missing kind selects the generic one; the message names the tenant |
| Monitoring.TemplateNamesTenant | src/services/monitoring_service.py:56-60 | every template names the tenant |
| Monitoring.SimulateError | src/services/monitoring_service.py:34-75 | never returns normally: always fails with a plain Exception whose message is the template the kind selects, naming the tenant |
| Monitoring.DatabaseMessage | src/services/monitoring_service.py:58 | the "database" kind's message is its template and contains "database" |
| Monitoring.TemplatesDistinct | src/services/monitoring_service.py:56-60 | the three kinds give three different messages |
| Monitoring.UnknownKindIsGeneric | src/services/monitoring_service.py:62 | an unknown kind behaves exactly like "generic" |
| Monitoring.SimulateLatency | src/services/monitoring_service.py:78-121 | succeeds iff the duration is not negative, echoing the tenant and the duration with a message naming both; a negative duration raises ValueError from `sleep`; `sleep`'s OverflowError for durations beyond its range is not modelled |
| ErrorHandler.Handle | src/infrastructure/error_handler.py:40-199 | the status is the error kind's status; every handled error gets an envelope with status "error", its error type, its public message and a UTC timestamp; only request validation gets the framework's `detail` body |
| ErrorHandler.HandlerTable | src/infrastructure/error_handler.py:41-199 | InvalidTenantError gives 400 "invalid_tenant", ItemNotFoundError 404 "item_not_found", ValueError 400 "validation_error", HTTPException its own code with "http_exception", and anything else 500 "unexpected_error" with a fixed message |
| ErrorHandler.UnexpectedHidesCause | src/infrastructure/error_handler.py:168-199 | two unexpected errors give the same response: the cause never reaches the client |
| ErrorHandler.EnvelopeUniform | src/infrastructure/error_handler.py:63-199 | every envelope has status "error" and a timestamp that is the ISO time followed by "Z" |
| ErrorHandler.ErrorTypeIdentifiesKind | src/infrastructure/error_handler.py:50-195 | the error type names the kind of error: two errors with the same type are of the same kind |
| Health.CheckDbConnection | src/api/controllers/health_controller.py:25-40 | true iff the probe query completes; every exception gives false |
| Health.ServiceHealth | src/api/controllers/health_controller.py:43-132 | 200 "ok"/"connected" iff the probe completes, otherwise 503 "error"/"disconnected"; no tenant; the timestamp is the current time |
| Health.ServiceHealthFailuresAlike | src/api/controllers/health_controller.py:106-126 | a database error and any other error give the same 503 response |
| Health.TenantHealth | src/api/controllers/health_controller.py:135-215 | the tenant is validated first; then a completed probe gives 200, a database error 503, and any other error propagates as an unexpected error; successful responses carry the tenant |
| Health.InvalidTenantNeverProbes | src/api/controllers/health_controller.py:164 | for a rejected tenant the probe's outcome makes no difference and the error is an InvalidTenantError |
| Health.TenantHealthIgnoresRows | src/api/controllers/health_controller.py:176-179 | the health answer does not depend on whether the tenant has rows |
| ItemsApi.ParseCreateRequest | src/api/controllers/items_controller.py:24-27 | the body is accepted iff the name is given with 1 to 100 characters; the description is optional; rejections are request-validation errors |
| ItemsApi.LongNameRuleUnreachable | src/api/controllers/items_controller.py:26 | behind the request model the service's length rule can never fire; only its blank rule can |
| ItemsApi.Views | src/api/controllers/items_controller.py:81 | one dictionary per item, in order |
| ItemsApi.GetItems | src/api/controllers/items_controller.py:40-81 | a rejected tenant gets its error and the store is never queried; an admitted tenant gets 200 with its own rows newest first; only admitted tenants reach the store |
| ItemsApi.CreateItem | src/api/controllers/items_controller.py:84-135 | body validation, then tenant validation, then the name rules, then the insert: 201 with the new row, and only admitted tenants reach the store |
| ItemsApi.CreateForTenant | src/api/controllers/items_controller.py:119-135 | the service call for an admitted tenant: 201 with the inserted row, or the rule's error with the table unchanged |
| ItemsApi.GetItem | src/api/controllers/items_controller.py:138-182 | 200 with the tenant's row for that id, or ItemNotFoundError; another tenant's row is never returned; only admitted tenants reach the store |
| SimulateApi.ParseErrorRequest | src/api/controllers/simulate_controller.py:22-24 | a missing error_type becomes "generic" and an explicit null stays null |
| SimulateApi.ParseLatencyRequest | src/api/controllers/simulate_controller.py:27-29 | a missing duration is 1000; a given one is accepted iff it lies in 100..10000; null is rejected |
| SimulateApi.SimulateErrorEndpoint | src/api/controllers/simulate_controller.py:32-68 | never returns normally |
| SimulateApi.DatabaseKindNamed | src/api/controllers/simulate_controller.py:32-68 | for an admitted tenant, error_type "database" fails with an unexpected error whose message contains "database" and the tenant |
| SimulateApi.ErrorEndpointOrder | src/api/controllers/simulate_controller.py:49-68 | a rejected tenant gets the tenant error and no simulation runs; an admitted one gets the simulated exception |
| SimulateApi.SimulateLatencyEndpoint | src/api/controllers/simulate_controller.py:71-112 | a missing body is a request-validation error; succeeds iff the body is valid and the tenant admitted, and then returns the service's payload echoing tenant and duration; never the ValueError of a negative sleep |
| SimulateApi.LatencyEndpointChecksTenant | src/api/controllers/simulate_controller.py:91 | a valid body with a rejected tenant gets exactly the tenant error |
| Logging.Put | src/infrastructure/logger.py:69-96 | `log_data[key] = v`: the key now maps to v, every other key keeps its value, keys stay distinct, and existing keys keep their place |
| Logging.Format | src/infrastructure/logger.py:34-98 | the dictionary `format` builds: every key holds its expected value and no other key appears; the eight base keys come first, in order |
| Logging.FieldSelection | src/infrastructure/logger.py:55-96 | base fields always; span ids iff a span is active; each extra iff the record has it; "status" iff ERROR; "tenant" iff ERROR with a tenant_id, repeating it; "exception" iff exc_info |
| Logging.AddSpan | src/infrastructure/logger.py:67-70 | adds the trace and span ids exactly when a span is active |
| Logging.CopyExtra | src/infrastructure/logger.py:73-86 | copies one extra exactly when the record has it |
| Logging.AddErrorFields | src/infrastructure/logger.py:89-92 | adds "status" and "tenant" only on ERROR records |
| Logging.AddException | src/infrastructure/logger.py:95-96 | adds "exception" exactly when exc_info is set |
| Logging.BaseFields | src/infrastructure/logger.py:55-64 | the base literal holds the eight base keys, once each and in order, with their values |
| Logging.LevelNumber | src/infrastructure/logger.py:123 | LOG_LEVEL names a level iff it is one of the eight standard names |
| Logging.LevelOrder | src/infrastructure/logger.py:123 | DEBUG < INFO < WARNING < ERROR < CRITICAL, and WARN and FATAL are aliases |
| Logging.UnsetLevelIsInfo | src/config/settings.py:60 | with LOG_LEVEL unset the level is INFO, number 20 |
| Logging.Logger.constructor | src/infrastructure/logger.py:122 | a new logger has level NOTSET, no handlers, and propagates |
| Logging.Registry.GetLogger | src/infrastructure/logger.py:122 | the same object for a name already registered, and otherwise a fresh one that is registered |
| Logging.SetupLogger | src/infrastructure/logger.py:101-141 | the named logger ends with the configured level, exactly one JSON handler on stdout and propagation off; an unknown level fails after registration and changes nothing else |
| Logging.LoggerModule.GetLogger | src/infrastructure/logger.py:148-158 | the first successful call sets up "demo-api" and remembers it; every later call returns that same instance and changes nothing |

## Left out

- I/O and vendor integration:
  - the tracer's span tags, `logger.info`/`logger.error` calls in services and controllers, and `json.dumps` output are not modelled;
  - log calls are side effects on the output stream;
  - the span ids and the current time are parameters.
- `time.sleep` is not modelled: only its refusal of a negative length is.
- SQL is not modelled. The table is an in-memory sequence of rows, and sessions, commits, refresh, connection pooling and concurrency are not modelled.
- Repository.ItemsRepository.Create:
  - the failed-insert path returns an unexpected error; the session's failed state and any rollback are not modelled;
  - the id sequence is not modelled as PostgreSQL's: ids come from a counter that only advances on success, and the 32-bit `Integer` column width is not modelled;
  - only NUL characters and the varchar widths, with PostgreSQL's cutting of trailing spaces, are modelled; other database errors (connection loss, for instance) are not;
  - the database error's full text is a placeholder.
- Monitoring.SimulateLatency: `time.sleep` raises OverflowError instead of ValueError for durations beyond its range, positive or negative; the model treats every non-negative duration as a success and every negative one as ValueError. The endpoint's 100..10000 bound keeps such durations out.
- Repository.SortNewestFirst: the order between rows with the same `created_at` is not modelled; PostgreSQL leaves it unspecified, and the contract fixes only descending order and the permutation.
- Timestamps: `created_at` and `updated_at` are two separate clock readings, as SQLAlchemy calls each column default on its own. The project documentation calls them equal at creation; the code does not promise that, so the model does not either.
- Request validation:
  - the framework answers with status 422, not 400 as the project documentation says;
  - the framework's detail text is a placeholder here;
  - pydantic coercions (a numeric string accepted as an int, for instance) and path-parameter parsing (a non-integer item id) are not modelled.
- Logging.LevelNumber:
  - only the eight standard level names of the `logging` module are accepted;
  - lower-case names and module attributes that happen to be integers (such as `raiseExceptions`) are treated as failures;
  - the exception's text is not modelled.
- Logging.Format:
  - `json.dumps` and the formatted traceback text are not modelled;
  - the record's `getMessage()` is taken as already formatted.
- Logging level filtering (which records a logger emits) is not part of the core and is not modelled.
- `MonitoringService.generate_random_metric` uses randomness and is left out.
- Other parts of the repository are not part of this model:
  - src/repositories/database.py (engine, sessions, `init_db`);
  - src/main.py (application wiring);
  - src/infrastructure/datadog_middleware.py (vendor setup);
  - src/api/controllers/admin_controller.py (process signal).
