# Verified model of the analytics service

The analytics service is a data plane. It turns a public write key into a trusted source configuration owned by a
control plane, accepts events for that source, writes them to ClickHouse tables it may have to create first, and serves
internal reads behind rotating bearer tokens. This project models that behaviour in Dafny and proves what its parts
promise together. `dafny verify dfyconfig.toml` checks everything.

How the modules follow the program:

- `Text.dfy`: trimming, lowering and decimal text, and the list passes used all over (clean every item, keep the first of each key).
- `SourceConfig.dfy`, `Resolvers.dfy`: the source configuration, its normalization and validation, the memory resolver and the startup schema gate.
- `HttpResolver.dfy`: the control-plane resolver object with its TTL cache. `ResolverMachine.dfy` interleaves any number of its calls with a
  control plane that changes; `ResolverRefinement.dfy` shows that the cached resolver refines the one whose TTL is zero.
- `WriterMachine.dfy`: any number of writers over the shared set of ensured tables, with a mutex and failures at every call. `TableWriter.dfy` is
  the writer object; each of its methods is shown to be a path of that machine.
- `Worker.dfy`, `Collect.dfy`, `EndToEnd.dfy`: startup tables, the collect boundary, and the run from accepted event to inner writer in all three ways ingestion is deployed.
- `PropertyFilters.dfy`: the two gates a property filter passes.
- `Credentials.dfy`, `CredentialSettings.dfy`, `Readback.dfy`: query credentials from environment to decision, what that makes of each setting, and the gates in front of storage.
- `Exposition.dfy`, `Float64.dfy`, `KafkaMetrics.dfy`: the Prometheus text format with a reader of its own, the conversion of integers to doubles, and the Kafka snapshot written with both.
- `Assembly.dfy`: assembling the runtime with every outside call fallible.
- `Tracker.dfy`, `TrackerPage.dfy`: the browser tracker's properties and its event loop.

Methods follow the code's steps and are proved against specification functions; the lemmas then say what those functions
mean, in terms of the inputs. How each call into a library, a driver or the network ends is an input (whether a close fails is left open), so that success is stated by it as well as
failure: a call that nothing outside fails does what it is for.

## Assumptions

- The control plane conforms to RFC 9110: a 304 answers only an `If-None-Match` that matches (sections 13.1.2 and 15.4.5), and a non-blank ETag names one
  configuration per write key for all time (section 8.8.3). These are `MayAnswer` and `Conforming` in `ResolverMachine.dfy`.
  `UnconditionalNotModified` shows that the first is needed: after a miss the code ignores the not-modified flag.
- The resolver's clock does not go back.
- Tables are not dropped while the process runs.
- Routing is a function of tenant, project and source, and analytics-core keeps those fields of an event.

## Findings

- The visit window (`internal/controlplane/resolver.go:325-333`): more than 9223372036 encoded seconds wrap around, and 9223372037 silently becomes the default of
  30 minutes (`SecondsOverflow`). `SecondsKept` gives the exact range that survives.
- The joined key of repeated property filters (`internal/controlplane/resolver.go:307-312`): the allowlist `LOSSY` passes validation although its second,
  illegal filter was dropped behind the first one's key, and `event.a number` loses its answer (`DedupCanLoseAnswers`). Nothing is lost if and only if no two
  different cleaned filters share a key (`DedupLosesNothing`), and for an allowlist that validates if and only if all were legal (`ValidatedKeepsLegal`).
- A lost pool (`internal/runtime/runtime.go:453-456`, `internal/runtime/worker.go:293-296`): when the first outside call to fail asks a pool that GORM just opened for its SQL handle, the
  pool is dropped without being closed, and in no other case (`Assembly.New`); `LosingAssembly` is such a run.
- A disabled source (`internal/controlplane/http_resolver.go:251-260`): when the control plane answers 200 for it, it is refused as disabled if and only if the body has
  the requested key and is valid (`DisabledAnswer`); `DisabledRefusedForItsKey` is a run with the other refusal.
- Large counts (`internal/collectapi/kafka_metrics.go:125-137`): counters become doubles, so 2^53 and 2^53 + 1 print the same text (`LargeCountsCollide`). Snapshots have the same
  text if and only if they agree after that rounding (`TextDeterminesSnapshot`).

## Model

| member | source | states |
|---|---|---|
| Text.TrimCutsSpace | internal/controlplane/resolver.go:84-94 | Trimming cuts white space off both ends and nothing else. |
| Text.TrimIs | internal/controlplane/resolver.go:84-94 | And there is one way to do so: a trimmed text between white space is what trimming leaves. |
| Text.LowerFoldsCase | internal/controlplane/resolver.go:317-323 | Two texts have the same lower case if and only if they differ in letter case alone. |
| SourceConfigs.NormalizeStringList | internal/controlplane/resolver.go:284-293 | The trimmed non-blank values, in order, repeats kept. |
| SourceConfigs.NormalizeLowerStringList | internal/controlplane/resolver.go:317-323 | The same list in lower case, item by item. |
| SourceConfigs.NormalizeAllowedPropertyFilters | internal/controlplane/resolver.go:295-315 | The loop with its `seen` map keeps exactly the first cleaned filter of each joined key, in order. |
| SourceConfigs.NormalizedFiltersShape | internal/controlplane/resolver.go:295-315 | Every kept filter comes from the input, is clean already, names a scope and a name, and has a key of its own. |
| SourceConfigs.NormalizedFiltersIdempotent | internal/controlplane/resolver.go:295-315 | Normalizing an allowlist twice is normalizing it once. |
| SourceConfigs.JoinInjective | internal/controlplane/resolver.go:307-307 | The comma join of legal value types tells type lists apart. |
| SourceConfigs.DedupKeyInjective | internal/controlplane/resolver.go:307-312 | On legal filters the key `scope NUL name NUL types` names one filter, even when names hold NUL. |
| SourceConfigs.DedupKeyCollides | internal/controlplane/resolver.go:307-312 | Off the legal filters it does not: a concrete illegal type list shares the key of a legal one. |
| SourceConfigs.DedupKeepsAnswers | internal/controlplane/resolver.go:295-315 | When the cleaned filters are legal, deduplication loses no filter and changes no allowlist answer; the exact conditions are the next two rows. |
| SourceConfigs.DedupLosesNothing | internal/controlplane/resolver.go:295-315 | Deduplication loses no filter if and only if no two different cleaned filters share a joined key. |
| SourceConfigs.ValidatedKeepsLegal | internal/controlplane/resolver.go:295-392 | Of an allowlist whose normal form validates exactly the legal cleaned filters are kept; nothing is lost if and only if all were legal, and queries are answered by the legal ones. |
| SourceConfigs.DedupCanLoseAnswers | internal/controlplane/resolver.go:295-315 | A concrete allowlist whose normal form validates although a second, illegal filter was dropped behind the first one's key, and the query that loses its answer. |
| SourceConfigs.AllowsPropertyFilter | internal/controlplane/resolver.go:120-147 | True exactly when some listed filter covers the cleaned scope, name and type; blank parts are never allowed. |
| SourceConfigs.NormalizedVisitWindow | internal/controlplane/resolver.go:325-333 | The window is always positive. |
| SourceConfigs.SecondsKept | internal/controlplane/resolver.go:325-333 | With no preset window, exactly the seconds 1 to 9223372036 survive, and with the one-minute check exactly 60 to 9223372036. |
| SourceConfigs.SecondsOverflow | internal/controlplane/resolver.go:325-333 | One second more wraps around in int64 and becomes the default window. |
| SourceConfigs.NormalizeSource | internal/controlplane/resolver.go:83-103 | The field-by-field normalization gives the normal form `Normalize`, whose fields the next rows fix. |
| SourceConfigs.NormalizedIffClean | internal/controlplane/resolver.go:83-103 | Normalization leaves a config alone if and only if each field is clean by its own rule, written out without `Normalize`. |
| SourceConfigs.NamesAreApart | internal/controlplane/resolver.go:83-103 | Each normalized name, switch and salt depends on its own raw field alone. |
| SourceConfigs.ListsAreApart | internal/controlplane/resolver.go:83-103 | So does each list and policy; the window depends on its two raw forms. |
| SourceConfigs.NormalizationKeepsNames | internal/controlplane/resolver.go:83-103 | Key, tenant, project, source and salts are the trimmed raw fields, a blank type is web, and switches and policies stay. |
| SourceConfigs.NormalizeIsIdempotent | internal/controlplane/resolver.go:83-103 | Normalizing twice is normalizing once, int64 wrap-around included. |
| SourceConfigs.ValidateFilters | internal/controlplane/resolver.go:378-392 | No error exactly when every filter has a legal scope and only legal value types. |
| SourceConfigs.ValidMeaning | internal/controlplane/resolver.go:345-392 | A config is valid exactly when nothing required is blank, the window is at least a minute, and every filter has a legal scope and legal types. |
| SourceConfigs.OriginMeaning | internal/controlplane/resolver.go:105-118 | No origin is allowed, and any other only by a star or by its own name in any case. |
| SourceConfigs.ReadbackMeaning | internal/controlplane/resolver.go:149-166 | Each route has its own switch, and a missing policy allows nothing. |
| SourceConfigs.AllowsMeaning | internal/controlplane/resolver.go:120-147 | A request is allowed exactly when its parts are not blank and a listed filter has its scope, its name and, if it lists types, its type. |
| SourceConfigs.EncodedRoundTrip | internal/controlplane/resolver.go:83-103 | Through its JSON form a valid config loses less than a second of window and nothing else, stays valid, and is unchanged exactly for whole seconds. |
| SourceConfigs.ValidWindowBounds | internal/controlplane/resolver.go:345-376 | Every validated config has a window of a minute to the int64 maximum and encodes 60 to 9223372036 seconds. |
| Resolvers.NewMemoryResolver | internal/controlplane/resolver.go:243-261 | Succeeds exactly when every source is valid and no write key repeats, then indexes exactly the sources; otherwise reports the first fault. |
| Resolvers.MemoryIsTrusted | internal/controlplane/resolver.go:264-282 | A memory resolution is a configured source with the presented key, clean, valid and enabled. |
| Resolvers.MemoryNamesItsBody | internal/controlplane/resolver.go:264-282 | What memory answers has the trimmed key presented, and the trimmed tenant, project, source and type of an enabled configured body. |
| Resolvers.MemoryAnswersEverySource | internal/controlplane/resolver.go:264-282 | Every configured source is answered under its key, or reported disabled. |
| Resolvers.MemoryKnowsNoOtherKey | internal/controlplane/resolver.go:264-282 | Any key no configured body has is not found. |
| Resolvers.NewSchemaBoundResolver | internal/controlplane/resolver.go:202-220 | Succeeds exactly when the enabled sources are valid, and then allows exactly their boundaries. |
| Resolvers.SchemaBoundResolver.ResolveSource | internal/controlplane/resolver.go:223-240 | Errors pass through, and a source passes exactly when its boundary is allowed. |
| Resolvers.BoundIsTrusted | internal/controlplane/resolver.go:223-240 | The gate keeps trust, changes no answer it lets through, and lets through exactly sources with a startup boundary. |
| Resolvers.BoundPassesNamed | internal/controlplane/resolver.go:223-240 | It lets through exactly the sources whose key, tenant, project, source and type an enabled startup body has, field by field. |
| HttpResolver.HTTPResolver.Cached | internal/controlplane/http_resolver.go:159-177 | Finds exactly an unexpired entry and evicts only an expired one of its own key. |
| HttpResolver.HTTPResolver.Store | internal/controlplane/http_resolver.go:179-193 | Stores the source under the key until the TTL has passed; nothing when caching is off. |
| HttpResolver.HTTPResolver.DecodeRuntimeSource | internal/controlplane/http_resolver.go:242-262 | A body is normalized, then refused for a foreign write key, a validation error or a disabled source, in this order. |
| HttpResolver.HTTPResolver.FetchSource | internal/controlplane/http_resolver.go:195-240 | The answer to one request by status: 200 decoded, 304 flagged, 404 not found, 403 and 410 disabled, anything else an error. |
| HttpResolver.HTTPResolver.ResolveSource | internal/controlplane/http_resolver.go:126-157 | One undisturbed call: result and new cache are lookup, one request and store in sequence; a blank key does nothing. |
| HttpResolver.ErrorsDoNotEvict | internal/controlplane/http_resolver.go:126-177 | An error evicts nothing, and a lookup evicts exactly the expired entry of its own key. |
| HttpResolver.StoredIsFound | internal/controlplane/http_resolver.go:159-193 | What was stored under a key is found if and only if caching is on and the TTL has not passed; other keys are untouched. |
| HttpResolver.LookupKeepsOthers | internal/controlplane/http_resolver.go:159-177 | A lookup changes what is found later only under its own key, and only when it finds nothing. |
| HttpResolver.StatusMeaning | internal/controlplane/http_resolver.go:195-240 | What each status and each undecodable body amounts to. |
| HttpResolver.HealthySourceIsServed | internal/controlplane/http_resolver.go:126-157 | An enabled valid body under its own key is answered, normalized, with its ETag. |
| HttpResolver.DecodedMeaning | internal/controlplane/http_resolver.go:242-262 | Which body is refused for its key, for its fields or as disabled, and which is accepted: an exact condition for each. |
| HttpResolver.DecodedIsServable | internal/controlplane/http_resolver.go:242-262 | A decoded source has the requested write key and is clean, valid and enabled; otherwise the error is one of three. |
| HttpResolver.UnconditionalNotModified | internal/controlplane/http_resolver.go:151-156 | A 304 after a miss would hand out the empty source: why 304 may only answer `If-None-Match`. |
| ResolverMachine.NotModifiedIsCurrent | internal/controlplane/http_resolver.go:134-143 | A 304 from a conforming control plane means the in-flight entry is what it holds at that instant. |
| ResolverMachine.AnswerIsCurrent | internal/controlplane/http_resolver.go:126-157 | What a call returns and stores is what the control plane held when it served the request. |
| ResolverMachine.StepKeepsInv | internal/controlplane/http_resolver.go:126-193 | Every step of every call, and every change of the control plane, keeps the cache and call invariant, overwriting newer entries included. |
| ResolverMachine.RunKeepsInv | internal/controlplane/http_resolver.go:126-193 | The invariant holds in every state of every run. |
| ResolverMachine.SuccessIsFresh | internal/controlplane/http_resolver.go:126-157 | In every interleaving a successful call returns a config the control plane held enabled, under the call's key, between the call's start and end. |
| ResolverMachine.SuccessNamesItsBody | internal/controlplane/http_resolver.go:126-157 | And it has the trimmed key, tenant, project, source and type of that published body. |
| ResolverMachine.RevokedSourcesFail | internal/controlplane/http_resolver.go:126-157 | A call served while its source is missing fails as not found, and as disabled while it is disabled, whatever unexpired entries exist; exchange failures aside, another error needs a disabled body that is foreign or invalid. |
| ResolverMachine.DisabledAnswer | internal/controlplane/http_resolver.go:242-262 | A disabled source's full answer is refused as disabled if and only if its normalized body has the requested write key and is valid. |
| ResolverMachine.DisabledRefusedForItsKey | internal/controlplane/http_resolver.go:251-260 | A concrete run: a disabled body under a foreign key, answered with 200, is refused for its key. |
| ResolverMachine.OneCallRun | internal/controlplane/http_resolver.go:126-157 | For every control-plane state and allowed response there is a run of one call with that answer. |
| ResolverMachine.FailedCallsStoreNothing | internal/controlplane/http_resolver.go:136-156 | A call that ends in an error leaves the cache and the stores as they are. |
| ResolverMachine.StoresAreExact | internal/controlplane/http_resolver.go:179-193 | The cache is written exactly when a call ends with a source and caching is on, under its own key with its own ETag. |
| ResolverMachine.ResultIsTrusted | internal/controlplane/http_resolver.go:126-157 | Every call's key is trimmed, and what any call of any run returns is its key's own source, clean, valid and enabled. |
| ResolverMachine.EntriesAreTrusted | internal/controlplane/http_resolver.go:134-147 | Every cached entry and in-flight copy has its own key, is clean, valid and enabled, and its ETag names exactly that config for all time. |
| ResolverMachine.OneFetchPerCall | internal/controlplane/http_resolver.go:126-157 | A finished call fetched once, a blank key never fetches, no call fetches twice. |
| ResolverMachine.HeaderComesFromRecentStore | internal/controlplane/http_resolver.go:134-136 | `If-None-Match` carries only the ETag of an entry stored under the key strictly less than the TTL before the lookup. |
| ResolverMachine.StoredIsFoundAgain | internal/controlplane/http_resolver.go:134-193 | In every run, what a successful call stored is what a lookup of its key less than the TTL later finds, unless the key was stored again between, and its ETag is the header sent. |
| ResolverRefinement.SameAnswer | internal/controlplane/http_resolver.go:134-157 | The answer to a 304 is the answer the full response would have had. |
| ResolverRefinement.StepMatches | internal/controlplane/http_resolver.go:126-193 | Every step of the cached resolver is, with its cache forgotten, a step of the uncached one. |
| ResolverRefinement.CachedRefinesUncached | internal/controlplane/http_resolver.go:126-193 | Every run of the cached resolver is matched by a run with TTL zero beside the same control plane and clock, with the same results. |
| WriterMachine.StepKeepsInv | internal/runtime/dynamic_table_writer.go:62-116 | Every step of any writer keeps the invariant: one mutex holder, ensured names present, the DDL budget, delivered names ensured. |
| WriterMachine.PathKeepsInv | internal/runtime/dynamic_table_writer.go:62-116 | It holds in every state of every run. |
| WriterMachine.EnsuredMeansPresent | internal/runtime/dynamic_table_writer.go:62-109 | In every run an ensured name has its event table, and its property table when indexing is on; only such names are delivered; no waiting thread holds the mutex. |
| WriterMachine.WriteFindsTables | internal/runtime/dynamic_table_writer.go:55-60 | When the inner writer is called the tables of its event exist. |
| WriterMachine.EventDDLBudget | internal/runtime/dynamic_table_writer.go:68-108 | Event DDL for a table runs at most once more than ensuring it has failed. |
| WriterMachine.ExecutedIsExact | internal/runtime/dynamic_table_writer.go:79-85 | What that budget counts: every event DDL that reaches the connection, for its table. |
| WriterMachine.FailuresAreExact | internal/runtime/dynamic_table_writer.go:79-105 | And every failed attempt to ensure a table, and no other failure. |
| WriterMachine.StepEnsures | internal/runtime/dynamic_table_writer.go:68-108 | A step changes `ensured` only by marking the one table just checked; a failed attempt leaves it alone, and no DDL runs for ensured tables. |
| WriterMachine.NoDDLAfterEnsured | internal/runtime/dynamic_table_writer.go:68-79 | Once ensured a table stays ensured and no event DDL for it ever runs again. |
| WriterMachine.StepsAdvance | internal/runtime/dynamic_table_writer.go:62-109 | Every step of a write brings it closer to its end and leaves other writes alone, so a write takes boundedly many steps. |
| WriterMachine.NeverStuck | internal/runtime/dynamic_table_writer.go:62-109 | While some write is not over, some write can step: no deadlock on the mutex. |
| WriterMachine.ThreadKeepsEvent | internal/runtime/dynamic_table_writer.go:55-60 | A write keeps its event unchanged from arrival on. |
| WriterMachine.DeliveryHasThread | internal/runtime/dynamic_table_writer.go:55-60 | The inner writer receives exactly the event and table of the writing thread. |
| WriterMachine.FailsOnFault | internal/runtime/dynamic_table_writer.go:55-109 | A step fails its write if and only if it finds no route, an outside call fails, or a table is missing. |
| WriterMachine.FailedHadFault | internal/runtime/dynamic_table_writer.go:55-109 | In every run a failed write took such a step itself. |
| WriterMachine.DeliveredOnce | internal/runtime/dynamic_table_writer.go:55-60 | In every run the inner writer received the event of each written thread exactly once, with its routed table, and nothing else. |
| WriterMachine.FaultFreeIsWritten | internal/runtime/dynamic_table_writer.go:55-109 | In every run a write that is over without a fault of its own is written: its table is ensured and present, and exactly its event was delivered for it. |
| WriterMachine.KnownTableNeedsNoAttempt | internal/runtime/dynamic_table_writer.go:68-70 | A write that finds its table ensured is ready for the inner writer at once. |
| TableWriter.SchemaConn.RequireTable | internal/runtime/worker.go:260-274 | Succeeds if and only if the count is scanned and the table exists. |
| TableWriter.DynamicTableEnsuringWriter.IsEnsured | internal/runtime/dynamic_table_writer.go:111-116 | Whether the name is in the ensured set. |
| TableWriter.DynamicTableEnsuringWriter.EnsureEventTable | internal/runtime/dynamic_table_writer.go:79-88 | Event DDL and its check: a path of the machine that succeeds if and only if its three outside calls do and the table is there, which it is when the DDL took effect. |
| TableWriter.DynamicTableEnsuringWriter.EnsurePropertyTable | internal/runtime/dynamic_table_writer.go:90-105 | The same for the property table and its four outside calls. |
| TableWriter.DynamicTableEnsuringWriter.EnsureLocked | internal/runtime/dynamic_table_writer.go:72-109 | The critical section: ensured grows by the table exactly on success, success needs exactly its outside calls and the tables, and nothing runs for a table another write ensured meanwhile. |
| TableWriter.DynamicTableEnsuringWriter.EnsureRouted | internal/runtime/dynamic_table_writer.go:68-109 | The double-checked lock: a table known to be ensured costs no outside call, any other goes through the critical section. |
| TableWriter.DynamicTableEnsuringWriter.WriteEvent | internal/runtime/dynamic_table_writer.go:55-109 | One write is a path of the machine from arrival to its end. It succeeds if and only if its event is routed, its outside calls succeed and its tables are there; then it has delivered exactly its event, to an ensured table. A failed write delivers nothing. |
| Worker.CreateClickHouseTables | internal/runtime/worker.go:178-213 | Success means the DDL of all enabled sources ran in order, and follows when every enabled source is routed and the outside calls succeed; a new table is always one of theirs, and all are there when the DDL took effect. |
| Worker.TablesMeaning | internal/runtime/worker.go:183-211 | Startup creates the event table of each enabled routed source, its property table exactly when indexing is on, and nothing else. |
| Worker.ValidateClickHouseTables | internal/runtime/worker.go:215-246 | Success means every enabled source has its event table, and its property table when indexing is on; when they do, only an outside call can fail it. |
| Worker.ProvisionedMeaning | internal/runtime/worker.go:215-246 | Provisioned means routed, with the event table there, and its property table when indexing is on. |
| Worker.EnsureClickHouseTables | internal/runtime/worker.go:163-175 | Startup succeeds only with all those tables in place and, outside calls aside, does succeed then; it runs no DDL without auto migration. |
| Collect.WriteKeyPrecedence | internal/collectapi/handler.go:393-413 | Header, bearer token, query, body: the first non-blank carrier is the key, trimmed, and the key is blank only when all are. |
| Collect.BearerTokenOfScheme | internal/collectapi/handler.go:448-454 | Behind the scheme in any letter case and a blank, the token is the rest, trimmed. |
| Collect.OtherHeadersCarryNoToken | internal/collectapi/handler.go:448-454 | Any other header value carries no token. |
| Collect.PublishedMeaning | internal/collectapi/handler.go:231-262 | Exactly when an event is published, and that its tenant, project, source and type are the resolved source's and its id the client's. |
| Collect.HandleCollect | internal/collectapi/handler.go:212-276 | Publishes one event, under the resolved source's boundary and never the client's, exactly when body, resolution, origin, stages and core allow it; every other ending has its own status. |
| EndToEnd.NewSourceResolver | internal/runtime/runtime.go:516-555 | Which resolver is built for which settings, and exactly when none is; it matches the startup sources, and with ingestion and startup sources it is never the unbound HTTP one. |
| EndToEnd.ResolvedIsProvisioned | internal/controlplane/resolver.go:202-282 | In all three deployments a resolution is trusted, and with startup sources its tables exist. |
| EndToEnd.RunKeepsInv | internal/runtime/worker.go:55-137 | Accepted events are sealed with their source's boundary, and whatever reaches a writer was accepted, in every state of every run. |
| EndToEnd.InnerWriterFindsTables | internal/runtime/worker.go:55-137 | In every run of every deployment, an event the inner writer receives was accepted under the boundary its key resolved to, and the tables of that boundary exist. |
| EndToEnd.AcceptedHasTables | internal/collectapi/handler.go:236-243 | With startup sources the tables exist from the moment the event is accepted. |
| EndToEnd.ServiceRunIsRun | internal/runtime/runtime.go:516-555 | A run of the service whose control-plane answers are results of the HTTP resolver's calls, in any run of those, is a run of the deployment: their trust is proved, not assumed. |
| EndToEnd.ServiceFindsTables | internal/runtime/worker.go:55-137 | So with cache, changing control plane, startup gate and writers together, what the inner writer receives was accepted under the boundary its key resolved to, and the tables exist. |
| EndToEnd.EnabledSourceIsAccepted | internal/collectapi/handler.go:212-276 | In each deployment an acceptable event for an enabled source is accepted, under that source's own tenant, project, source and type. |
| EndToEnd.AcceptedNameBodies | internal/collectapi/handler.go:231-262 | In every run of the service each accepted event carries the trimmed tenant, project, source and type of an enabled body configured, or published, under its write key; with startup sources also of a configured one. |
| EndToEnd.DeliveredNamesBody | internal/runtime/worker.go:55-137 | So does whatever the inner writer receives. |
| PropertyFilters.AssignPropertyFilterValue | internal/collectapi/query.go:712-741 | The JSON scalar goes into the slot of the filter's type, or the kind mismatch or unknown type is reported. |
| PropertyFilters.ParsePropertyFilter | internal/collectapi/query.go:672-710 | The checks on one parameter in order give its verdict. |
| PropertyFilters.ParsePropertyFilters | internal/collectapi/query.go:615-636 | At most 5 filters, in input order; otherwise the first bad index with its reason. |
| PropertyFilters.AcceptedFilterIsSound | internal/collectapi/query.go:672-741 | An accepted filter is clean, has a legal type, carries the payload's value in its own slot only, and is covered by the allowlist. |
| PropertyFilters.ParsedMeaning | internal/collectapi/query.go:672-741 | Exactly which parameters are accepted, and what each of the others is told; a blank operator is eq. |
| PropertyFilters.ToPropertySelectors | internal/collectapi/query.go:748-771 | The loop with its `seen` map gives the first occurrences of the cleaned selectors. |
| PropertyFilters.AllowedPropertySelectors | internal/runtime/runtime.go:418-442 | The startup list is the first occurrences of the enabled sources' selectors, in order. |
| PropertyFilters.StartupSelectorsExact | internal/runtime/runtime.go:418-442 | It has exactly the scope and name pairs that some enabled source lists, each once. |
| PropertyFilters.QuerySelectorsExact | internal/collectapi/query.go:748-771 | For a clean allowlist the query list has exactly its scope and name pairs, each once. |
| PropertyFilters.AcceptedFilterPassesStorage | internal/collectapi/query.go:672-771 | For a normalized source every accepted filter has its selector in the list sent to storage, which has no repeats. |
| PropertyFilters.AcceptedFilterPassesStartup | internal/runtime/runtime.go:418-442 | In memory mode it is in the startup list too. |
| PropertyFilters.GatesAgree | internal/collectapi/query.go:672-771 | Storage lets a clean selector through exactly when the HTTP gate allows it some legal type. |
| Credentials.NormalizeUniqueStrings | internal/config/config.go:566-587 | The first occurrences of the trimmed non-blank values; the handler's list pass is the same code. |
| Credentials.UniqueStringsShape | internal/collectapi/query_auth.go:140-161 | Exactly the trimmed non-blank values, each once; a second pass changes nothing. |
| Credentials.SplitJoins | internal/config/config.go:559-564 | Splitting cuts at every comma and loses nothing. |
| Credentials.ParseQueryTokenScope | internal/config/config.go:525-545 | A blank scope names none, a known name its route, anything else is an error. |
| Credentials.ParseQueryTokenScopesList | internal/config/config.go:498-523 | The named routes, each once, or the first error. |
| Credentials.GatheredShape | internal/config/config.go:498-523 | The scopes are exactly the routes named, each once, and any unknown name fails the list. |
| Credentials.DecodeQueryRotationCredential | internal/config/config.go:444-489 | One rotation entry read from a bare token or an object, with its errors in order. |
| Credentials.QueryCredentialsFromEnv | internal/config/config.go:364-418 | The merge of everything offered, primary first, or the error of the first bad offer. |
| CredentialSettings.RouteNamesAre | internal/config/config.go:525-545 | The six route names. |
| CredentialSettings.PartsAreScopes | internal/config/config.go:491-523 | A list of parts reads as exactly the routes its parts name, once each, and fails for a part that is neither blank nor a name. |
| CredentialSettings.PartsAreKeys | internal/config/config.go:559-587 | A list of write keys reads as exactly its trimmed non-blank parts, once each. |
| CredentialSettings.OfferReads | internal/config/config.go:364-489 | Every entry, the primary one and each of the rotation list, is read as the token, id, bounds, scopes and write keys that its settings write, and fails exactly when they cannot be read. |
| CredentialSettings.LoadsWhenReadable | internal/config/config.go:364-418 | An environment loads if and only if all its settings can be read. |
| CredentialSettings.FirstOfferWins | internal/config/config.go:371-389 | Of the credentials offered with one token exactly the first is kept. |
| CredentialSettings.WinnerIsKept | internal/config/config.go:371-418 | The first settings with a token are kept as the credential they describe. |
| CredentialSettings.KeptIsWinner | internal/config/config.go:371-418 | Every credential kept is described by the first settings with its token. |
| CredentialSettings.PrimaryIsCurrent | internal/config/config.go:391-442 | With a primary token the first credential has that token, the configured bounds, exactly the routes named in its scopes and exactly the write keys listed. |
| CredentialSettings.TokenIsDecidedBySettings | internal/collectapi/query_auth.go:76-138 | A bearer token is live, in scope and good for a write key exactly as the first settings that carry it say. |
| CredentialSettings.OtherTokensAreUnknown | internal/collectapi/query_auth.go:76-105 | Any other token is unknown. |
| Credentials.ConfiguredAreOrderly | internal/config/config.go:364-418 | Configured credentials have clean, distinct, non-blank tokens and ids and no inverted window, and hold the primary token when set. |
| Credentials.QueryTokenValues | internal/config/config.go:547-557 | The trimmed non-blank tokens in order. |
| Credentials.ToQueryCredentials | internal/runtime/runtime.go:400-416 | The copy equals the original, field by field. |
| Credentials.NormalizeQueryCredentials | internal/collectapi/query_auth.go:39-74 | The merge of structured credentials, the primary token and the plain tokens, in this order. |
| Credentials.HandlerKeepsEveryToken | internal/collectapi/query_auth.go:39-74 | The handler has exactly the tokens given in any of the three ways, each once. |
| Credentials.KnownTokensAddNothing | internal/collectapi/query_auth.go:39-74 | Offers that bring no new token change nothing. |
| Credentials.SecondPassIsIdentity | internal/collectapi/query_auth.go:39-74 | Orderly credentials go through the handler's pass unchanged. |
| Credentials.LoadQueryConfig | internal/config/config.go:205-261 | Loads exactly the merged credentials and tokens, or fails for the first bad offer or for routes that lack a token or Kafka, each with its own error. |
| Credentials.LoadedMeaning | internal/config/config.go:231-261 | A configuration that loads has a credential for its read routes and the Kafka bus for the Kafka ones. |
| Credentials.NewHandlerCredentials | internal/collectapi/handler.go:132-139 | Credentials of the assembled handler, or the missing-token error when read routes have none. |
| Credentials.RefusedWithoutToken | internal/collectapi/handler.go:132-139 | The handler is refused exactly when a read route is on and no token is given in any way. |
| Credentials.PipelineIsStable | internal/collectapi/handler.go:132-139 | For every environment that loads, the handler ends up with exactly config's credentials, and never with the missing-token error. |
| Credentials.AuthorizeQueryToken | internal/collectapi/query_auth.go:76-105 | The full scan gives the decision of the last match. |
| Credentials.UniqueMatchDecides | internal/collectapi/query_auth.go:76-105 | With distinct tokens the one match decides, and only a blank or unlisted token is unknown. |
| Credentials.TokenLifecycle | internal/collectapi/query_auth.go:92-104 | A token moves only from not yet valid to accepted to expired, is accepted exactly in its window, is in grace exactly when not first, and has an accepting instant exactly when its window is not inverted. |
| Readback.ReceivedIsClean | internal/collectapi/query.go:547-552 | The header's write key wins over the query's, and key, origin and bearer token are trimmed. |
| Readback.RequireProcessQueryToken | internal/collectapi/query.go:466-492 | Passes exactly for a live credential in scope; otherwise exactly one audit note, if credentials exist, and one refusal. |
| Readback.RequireQueryToken | internal/collectapi/query.go:449-464 | Passes exactly when the token may also be used for the presented write key. |
| Readback.AssembledMeaning | internal/collectapi/handler.go:182-206 | Each route is served by its own reader; realtime, events and goals share one. |
| Readback.TokenRefusalMeaning | internal/collectapi/query.go:449-545 | The exact note and status of each refused token: 404 without credentials, 401 when not live, 403 outside its scopes or write keys. |
| Readback.ResolveQuerySource | internal/collectapi/query.go:494-515 | Blank key, resolution and origin in this order; a rotated token is noted once the origin is accepted. |
| Readback.OpenSource | internal/collectapi/query.go:153-167 | Token, source and policy gates in sequence, with the exact effects of each refusal. |
| Readback.SourceRefusalMeaning | internal/collectapi/query.go:494-531 | The exact status of each refusal behind the token, and exactly when a rotated token is noted. |
| Readback.ReadEventQuery | internal/collectapi/query.go:222-264 | The events query of the request, through the filter and selector loops, or none when a parameter is bad. |
| Readback.EventQueryMeaning | internal/collectapi/query.go:222-264 | Both ends of the range, a limit of at least 1, no negative offset and all filters accepted, each parameter in its own field; no query exactly when one of these fails. |
| Readback.RealtimeQueryMeaning | internal/collectapi/query.go:168-187 | The limit is at least 1 (50 by default), a blank since is exactly 30 minutes ago, and there is no query exactly for malformed parameters. |
| Readback.GoalQueryMeaning | internal/collectapi/query.go:300-322 | One valid, trimmed event name over an explicit range; no query exactly when the name is invalid or the range incomplete. |
| Readback.CatalogQueryMeaning | internal/collectapi/query.go:359-376 | A limit of 1 to 200 and a scope that is blank, event or user; no query exactly otherwise. |
| Readback.HandleRead | internal/collectapi/query.go:147-387 | A source-scoped request, from the raw headers and parameters on, leaves exactly the trace `Trace`. |
| Readback.StorageNeedsEveryGate | internal/collectapi/query.go:147-387 | Storage is asked exactly when reader, token, scope, write key, resolution, origin, policy and parameters all hold, with exactly the request's query. |
| Readback.ResolverNeedsToken | internal/collectapi/query.go:449-515 | The resolver is asked exactly when the token gates hold and a key is presented, and only for that key. |
| Readback.OneResponseLast | internal/collectapi/query.go:147-387 | Every request gets one response, last, and it is 200 exactly when storage was asked and answered. |
| Readback.RefusedStatus | internal/collectapi/query.go:147-492 | The status of a request stopped before its source is resolved. |
| Readback.AdmittedStatus | internal/collectapi/query.go:147-562 | Behind the token gates: exactly which gate, parameter or storage outcome each status stands for. |
| Readback.PassingTokenServes | internal/collectapi/query_auth.go:76-138 | A passing token is a listed credential in its window that covers the route and the key. |
| Readback.QueryStaysInSource | internal/collectapi/query.go:175-346 | With a trusted resolution, what reaches storage has tenant, project and source of the enabled source that owns the presented key, under a credential that lists the key when it lists any. |
| Readback.MemoryQueryStaysInSource | internal/controlplane/resolver.go:264-282 | So it has with the memory resolver, and the source is a configured one. |
| Readback.HTTPQueryStaysInSource | internal/controlplane/http_resolver.go:126-157 | So it has with the result of any call of the HTTP resolver in any run. |
| Readback.BoundQueryStaysInSource | internal/controlplane/resolver.go:223-240 | So it has with that result behind the startup gate, and the source has a startup boundary. |
| Readback.MemoryQueryReadsBody | internal/controlplane/resolver.go:264-282 | With the memory resolver the query's scope holds the trimmed tenant, project and source of an enabled configured body whose trimmed key was presented. |
| Readback.HTTPQueryReadsBody | internal/controlplane/http_resolver.go:126-157 | With the HTTP resolver those of an enabled body published under the presented key between the call's start and end. |
| Readback.BoundQueryReadsBody | internal/controlplane/resolver.go:223-240 | Behind the startup gate those of a configured body as well. |
| Readback.SettingsDecideTheGate | internal/collectapi/query.go:449-492 | With credentials loaded from an environment a token passes exactly when the first settings that carry it have an open window, name the route or no route, and list the presented write key or none. |
| Readback.OnlySettingsPass | internal/collectapi/query.go:466-492 | No other token passes. |
| Readback.UnnamedRouteIsClosed | internal/collectapi/query.go:449-492 | A token whose scopes say something but do not name the route reaches no resolver, no storage and no snapshot there. |
| Readback.QueriedFiltersAreListed | internal/collectapi/query.go:241-263 | Every filter that reaches storage has its selector in the list sent along and sets only its own slot. |
| Readback.HandleKafka | internal/collectapi/kafka_diagnostics.go:74-92 | A process-scoped request, from the raw headers on, leaves exactly the trace `ProcessTrace`. |
| Readback.SnapshotNeedsToken | internal/collectapi/kafka_metrics.go:31-49 | A snapshot is taken exactly behind a live token in scope; the resolver, storage and the write key play no part. |
| Readback.ProcessStatusMeaning | internal/collectapi/kafka_diagnostics.go:74-92 | Exactly how a process-scoped request ends: 200 only with a snapshot, refusals as for any token. |
| Exposition.EscapeIsPerCharacter | internal/collectapi/kafka_metrics.go:167-171 | The three replacements in sequence are one replacement per character. |
| Exposition.EscapedValueReadsBack | internal/collectapi/kafka_metrics.go:167-171 | An escaped value reads back whole up to its own closing quote, and holds no line feed, for every value. |
| Exposition.EscapesAre | internal/collectapi/kafka_metrics.go:167-171 | The three escapes, character by character; every other character stays. |
| Exposition.LineForms | internal/collectapi/kafka_metrics.go:57-77 | What HELP, TYPE and sample lines look like, with and without labels. |
| Exposition.PairsReadBack | internal/collectapi/kafka_metrics.go:148-164 | The label part reads back as exactly its pairs. |
| Exposition.LineReadsBack | internal/collectapi/kafka_metrics.go:60-76 | A printed line is one line and reads back as itself. |
| Exposition.PrintedReadsBack | internal/collectapi/kafka_metrics.go:52-79 | A reader of the printed text recovers exactly its lines. |
| KafkaMetrics.KafkaPrometheusMetrics | internal/collectapi/kafka_metrics.go:82-122 | 20 process metrics, then 8 for each commit, in order. |
| KafkaMetrics.NamesArePrefixed | internal/collectapi/kafka_metrics.go:82-122 | Every metric name is the common prefix, its group and its suffix. |
| KafkaMetrics.HandlingMetricsAre | internal/collectapi/kafka_metrics.go:84-85 | Consumed and succeeded records are reported as counters under their own names. |
| KafkaMetrics.AttemptMetricsAre | internal/collectapi/kafka_metrics.go:86-87 | So are failed attempts and retries. |
| KafkaMetrics.MalformedMetricsAre | internal/collectapi/kafka_metrics.go:88-88 | So are malformed records. |
| KafkaMetrics.DeadLetterMetricsAre | internal/collectapi/kafka_metrics.go:89-90 | So are dead-letter writes and their failures. |
| KafkaMetrics.BackpressureMetricsAre | internal/collectapi/kafka_metrics.go:91-93 | So are pauses and resumes; paused partitions are a gauge. |
| KafkaMetrics.PoolMetricsAre | internal/collectapi/kafka_metrics.go:94-96 | Queue usage, queued tasks and capacity are gauges of the worker group. |
| KafkaMetrics.WorkerMetricsAre | internal/collectapi/kafka_metrics.go:97-98 | So is the number of workers; submitted tasks are a counter. |
| KafkaMetrics.CompletionMetricsAre | internal/collectapi/kafka_metrics.go:99-103 | Completed and rejected tasks are counters; messages in flight and waiting tasks gauges and completed messages a counter of the completion group. |
| KafkaMetrics.CommitMetricsAre | internal/collectapi/kafka_metrics.go:105-120 | Each commit reports eight gauges under its topic and partition, the first of them 1 or 0. |
| KafkaMetrics.CommitsInOrder | internal/collectapi/kafka_metrics.go:105-122 | Eight gauges for each commit, in the order of the commits. |
| KafkaMetrics.WritePrometheusLabels | internal/collectapi/kafka_metrics.go:148-164 | Nothing for no labels, else topic and partition, escaped. |
| KafkaMetrics.RenderMetrics | internal/collectapi/kafka_metrics.go:52-79 | The renderer with its set of emitted names prints exactly the lines of the metrics. |
| KafkaMetrics.RenderKafkaMetrics | internal/collectapi/kafka_metrics.go:52-79 | The snapshot's text. |
| KafkaMetrics.EveryMetricSampled | internal/collectapi/kafka_metrics.go:56-77 | The samples of the text are exactly the metrics, in order. |
| KafkaMetrics.MetadataOnce | internal/collectapi/kafka_metrics.go:57-70 | For any metrics, HELP and TYPE come once per name, directly before its first sample. |
| KafkaMetrics.MetadataIsOfFirst | internal/collectapi/kafka_metrics.go:57-70 | With the help text and the kind of the first metric of that name. |
| KafkaMetrics.SnapshotReadsBack | internal/collectapi/kafka_metrics.go:52-122 | For every snapshot and every topic a reader recovers exactly the sample list, 20 and 8 per commit, with metadata once per name. |
| KafkaMetrics.LabelsNameThePartition | internal/collectapi/kafka_metrics.go:105-109 | The labels give back topic and partition number. |
| KafkaMetrics.TextDeterminesSnapshot | internal/collectapi/kafka_metrics.go:52-137 | Two snapshots have the same text if and only if they agree once every integer is rounded to double precision. |
| KafkaMetrics.TextDeterminesSmallSnapshot | internal/collectapi/kafka_metrics.go:52-137 | While no count exceeds 2^53 in size, two snapshots have the same text if and only if they are equal. |
| KafkaMetrics.LargeCountsCollide | internal/collectapi/kafka_metrics.go:125-127 | 2^53 and 2^53 + 1 records consumed print the same text. |
| Float64.SmallIsExact | internal/collectapi/kafka_metrics.go:125-137 | The conversion keeps integers up to 2^53 in size. |
| Float64.NextIsRounded | internal/collectapi/kafka_metrics.go:125-137 | It rounds 2^53 + 1 to 2^53. |
| Float64.RoundedIsFloat64 | internal/collectapi/kafka_metrics.go:125-137 | The conversion of every int64 is a double. |
| Float64.RoundedIsNear | internal/collectapi/kafka_metrics.go:125-137 | For a count it is off by at most half the weight of the last bit kept. |
| Float64.TiesGoToEven | internal/collectapi/kafka_metrics.go:125-137 | A tie goes to the even neighbour. |
| Float64.QuotientIsFull | internal/collectapi/kafka_metrics.go:125-137 | From 2^53 on all 53 bits of the significand are used, so the last bit kept is the right one. |
| Assembly.GivenBackOnce | internal/runtime/runtime.go:500-509 | Along every log of openings and closings that nests, what is no longer open was given back exactly once and what is open never. |
| Assembly.CloseAll | internal/runtime/runtime.go:500-509 | Closes each resource once, last first, skipping nil closers and going on after failures, which it counts. |
| Assembly.NewGeoResolver | internal/runtime/runtime.go:253-262 | Keeps the database it opens, or nothing. |
| Assembly.NewRedisBus | internal/runtime/runtime.go:469-498 | Keeps the client, or closes it when the ping or the bus fails. |
| Assembly.NewKafkaBus | internal/runtime/kafka_bus.go:17-48 | Keeps the bus it builds, or nothing. |
| Assembly.NewEventBus | internal/runtime/runtime.go:338-349 | One closer for Redis or Kafka, none for direct, an error otherwise. |
| Assembly.OpenMySQL | internal/runtime/worker.go:276-298 | The probe is closed before the pool is opened; only a missing handle loses the pool. |
| Assembly.OpenClickHouseQuery | internal/runtime/runtime.go:444-463 | The pool is closed when the ping fails; only a missing handle loses it. |
| Assembly.OpenClickHouseNative | internal/runtime/worker.go:300-321 | The connection is closed when the ping fails. |
| Assembly.NewQueryReader | internal/runtime/runtime.go:357-388 | Keeps its pool, or closes it at whichever step fails. |
| Assembly.NewPropertyCatalogReader | internal/runtime/runtime.go:264-294 | Keeps its pool, or closes it at whichever step fails. |
| Assembly.NewIngestionProcessor | internal/runtime/worker.go:21-53 | Hands back a closer list that holds everything open, on failure too. |
| Assembly.New | internal/runtime/runtime.go:37-154 | Succeeds if and only if the configuration is supported and every outside call succeeds, and then owns exactly what is open, in order of acquisition; a failure has given back everything, latest first, and lost one pool exactly when the first call to fail asked for a handle. |
| Assembly.RanDecided | internal/runtime/runtime.go:37-154 | How far an assembly gets and whether it loses a pool follow from the outcomes of the outside calls alone. |
| Assembly.PlanSpelled | internal/runtime/runtime.go:37-154 | Every outside call of an assembly, in order, for every configuration. |
| Assembly.OwnedSpelled | internal/runtime/runtime.go:37-154 | What a runtime owns, in order of acquisition, for every configuration. |
| Assembly.LosingAssembly | internal/runtime/runtime.go:444-456 | A run that loses the read pool: only its handle fails. |
| Assembly.CloseRuntime | internal/runtime/runtime.go:331-336 | Closes everything owned once, latest first, and reports no failure exactly when every close went well. |
| TrackerProperties.SanitizePropertyValue | public/tracker.js:213-220 | A string is kept up to exactly its first 2048 characters, other sendable values as they are; undefined exactly for what cannot be sent. |
| TrackerProperties.SanitizeProperties | public/tracker.js:179-202 | The first 64 sendable properties, cleaned; undefined when none. |
| TrackerProperties.KeyMeaning | public/tracker.js:204-211 | A key has 1 to 128 letters, digits and, after the first, also underscores, dots, colons and dashes. |
| TrackerProperties.SanitizedMeaning | public/tracker.js:179-202 | Below the cap exactly the properties with a legal key and a sendable value are kept, each with its own value. |
| TrackerProperties.SanitizedIsBounded | public/tracker.js:179-220 | The result has at most 64 legal keys, each once, with bounded values; sanitizing again changes nothing. |
| TrackerProperties.MergeProperties | public/tracker.js:222-236 | The first occurrences of base then extra, cut at 64. |
| TrackerProperties.UnshadowedMeaning | public/tracker.js:222-236 | The base shadows exactly the properties under its own keys. |
| TrackerProperties.MergeIsLeftBiasedUnion | public/tracker.js:222-236 | Merging is the order-preserving union that prefers the base, which it never loses or overrides, and stays bounded. |
| TrackerProperties.AddQueryProperties | public/tracker.js:165-177 | Adds the mapped parameters that have a value; nothing when the address does not parse. |
| TrackerProperties.BaseProperties | public/tracker.js:144-163 | The page's own properties, sanitized. |
| TrackerProperties.BaseSurvivesSanitizing | public/tracker.js:144-163 | At most 21 of them, none dropped, each at most shortened. |
| TrackerProperties.BaseHoldsEveryFact | public/tracker.js:144-177 | Every page fact, and every mapped query parameter with a value, is there under its own key; none overwrites another. |
| TrackerProperties.PageFactsAre | public/tracker.js:144-158 | The seven page facts, each under its own name. |
| TrackerProperties.CampaignKeysAre | public/tracker.js:14-21 | Each campaign parameter becomes the key with a dot for its underscore. |
| TrackerProperties.ClickKeysAre | public/tracker.js:22-31 | Each click id becomes the key behind the click prefix. |
| TrackerProperties.EveryFactIsSent | public/tracker.js:144-163 | Each of them, at most shortened, is among the properties every event starts with. |
| TrackerProperties.BaseHoldsOnlyFacts | public/tracker.js:144-177 | And nothing else: a query parameter that is missing or empty adds nothing. |
| TrackerProperties.SentAreBounded | public/tracker.js:222-274 | For every page and every caller's properties, what is sent is bounded and starts with the page's own. |
| TrackerProperties.SentMeaning | public/tracker.js:179-274 | Below the cap an event has exactly the page's properties and the caller's sendable ones under other keys. |
| TrackerProperties.EventProperties | public/tracker.js:263-274 | An event's properties are the page's own, all and unchanged, then the caller's that they do not shadow, at most 64, legal and bounded. |
| TrackerPage.Tracker.BuildRequest | public/tracker.js:263-274 | The request carries the event name, the distinct id, the page's and the caller's properties merged, and the sanitized user properties. |
| TrackerPage.Tracker.Send | public/tracker.js:276-312 | Sends that request exactly when configured, not suppressed, validly named and fetch exists. |
| TrackerPage.Tracker.Pageview | public/tracker.js:314-317 | Remembers the current URL, whether or not anything is sent. |
| TrackerPage.Tracker.ChangeURL | public/tracker.js:355-369 | A navigation changes the URL and schedules one timer when history is tracked. |
| TrackerPage.Tracker.RouteTimer | public/tracker.js:371-378 | A due timer sends a pageview only for a URL other than the last one. |
| TrackerPage.Tracker.Identify | public/tracker.js:327-338 | A non-empty id replaces the distinct id before the event is sent. |
| TrackerPage.Tracker.AutoPageview | public/tracker.js:401-405 | The automatic pageview happens once and reports the current URL. |
| TrackerPage.Tracker.Track | public/tracker.js:319-325 | Sends the event under the current distinct id exactly when it may be sent. |
| TrackerPage.RunKeepsInv | public/tracker.js:314-378 | The tracker invariant holds in every state of every run. |
| TrackerPage.DrainedIsCurrent | public/tracker.js:355-378 | In every run with history tracking, once timers have drained the last reported URL is the current one. |
| TrackerPage.RequestsAreBounded | public/tracker.js:263-312 | Every request of every run has a valid event name, bounded properties that start with a page's own, and bounded user properties. |
| TrackerPage.MaySendMeaning | public/tracker.js:238-261 | An event may be sent exactly when configured, not suppressed, fetch exists, and its name is legal like a key. |
| TrackerPage.StepMeaning | public/tracker.js:263-378 | What each call and timer sends, under which name, distinct id and properties, and what else it changes. |
| TrackerPage.EveryViewIsSent | public/tracker.js:276-317 | In every run a tracker that may send pageviews sends one for each view, and any other tracker sends nothing at all. |
| TrackerPage.TimersReportChangesOnly | public/tracker.js:371-378 | A timer's pageview never repeats the URL reported before it, and there are no more of them than navigations. |
| TrackerPage.BurstReportsOnce | public/tracker.js:371-378 | A burst of navigations before the timers fire gives one pageview and at most one request, for where it ends, or none if that was reported already. |
| TrackerPage.UntrackedGoesStale | public/tracker.js:355-356 | Without history tracking navigations are never reported. |

## Left out

- Lower case is ASCII only; Go's Unicode lower case, and characters outside the Unicode scalar values, are not modelled. Trimming covers all Unicode white space.
- JSON decoding, URL parsing and time parsing: their outcomes are inputs (a decoded value, blank, or malformed).
- Fiber routing and route paths, CORS, Swagger, TLS and PEM loading, GeoIP lookup, transport checks of the control-plane URL, and the database and broker drivers: foreign or input and output.
- analytics-core: query building, collect stages and ordered Kafka commits are not part of this model.
- Response bodies other than the status, `queryPressure`, and the copying of storage records into responses: simple field copies.
- Kafka security validation and defaulting of settings: independent checks on single fields.
- The unbound HTTP deployment accepts sources startup never saw; there the tables are shown to exist only when the inner writer is called.
- Events left in a durable queue by an earlier process may name sources outside this process's startup sources; the end-to-end result covers events this process accepted.
- Contiguity of metric families: with two or more commits the code interleaves families, and nothing is claimed about it.
- KafkaMetrics.SnapshotReadsBack: the text of a double is a parameter without blanks or line feeds, because shortest float formatting is the library's; a queue usage ratio that is not a finite number is not modelled.
- KafkaMetrics.TextDeterminesSnapshot: asks that the number format writes different doubles differently, which the shortest round-trip format does.
- ResolverMachine.SuccessIsFresh: a call's request is served at one instant of the control plane; a response mixed from several instants is not modelled.
- ResolverRefinement.CachedRefinesUncached: the uncached run receives the full response where the cached one received a 304, because that is what the same conforming control plane answers without `If-None-Match`.
- WriterMachine.StepsAdvance: fairness of Go's mutex is not modelled, so a write is shown to need boundedly many steps and some write can always step, not that each is scheduled.
- EndToEnd.NewSourceResolver: whether the control-plane options are usable is an input.
- Readback.HandleRead: the handlers read headers and query values through the request's accessors; the model reads them once, up front.
- Credentials.AuthorizeQueryToken: the constant-time comparison is equality; timing is not modelled.
- Assembly.New: whether each outside call succeeds is an input; the ten-second startup contexts are part of that, and starting and stopping the worker goroutine is not modelled.
- Assembly.OpenMySQL: a driver that opens a connection and then fails inside its own open call is outside the model; so is the same case in Assembly.OpenClickHouseQuery.
- TrackerProperties.MergeProperties: objects enumerate in insertion order; JavaScript lists integer-like keys first.
- TrackerProperties.SanitizePropertyValue: lengths count characters; JavaScript counts UTF-16 units, which differs outside the basic plane.
- TrackerPage.DrainedIsCurrent: the page's facts change only with its URL, and the URL changes only by pushState, replaceState and popstate, each followed at once by its listener.
- Storage of the distinct id across page loads, queued calls made before the script loads, and random ids.
