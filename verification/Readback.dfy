/** The readback gate: what an internal read request makes the service do, and in which order. */
module Readback {
  import opened Wrappers
  import opened Text
  import opened Lists
  import opened SourceConfigs
  import opened Resolvers
  import opened Credentials
  import Collect
  import F = PropertyFilters
  import S = CredentialSettings
  import RM = ResolverMachine

  const REALTIME_WINDOW: int := 30 * MINUTE
  const REALTIME_CAP: int := 50
  const EVENTS_CAP: int := 100
  const CATALOG_LIMIT: int := 100
  const CATALOG_LIMIT_MAX: int := 200

  // ---- Requests and effects ----

  datatype IntText = NoInt | NotInteger | Int(value: int)

  datatype Params = Params(
    since: TimeText, from: TimeText, to: TimeText, limit: IntText, offset: IntText,
    eventName: string, distinctID: string, visitID: string, sortField: string, sortDirection: string,
    filters: seq<F.Payload>, scope: string)

  /** One request as it arrives. */
  datatype Raw = Raw(authorization: string, keyHeader: string, keyQuery: string, origin: string, now: int, params: Params)

  /** What the gates read of it: the bearer token, the presented write key and the origin. */
  datatype ReadRequest = ReadRequest(bearer: string, key: string, origin: string, now: int, params: Params)

  function Received(raw: Raw): ReadRequest {
    var key := if Trim(raw.keyHeader) != "" then Trim(raw.keyHeader) else Trim(raw.keyQuery);
    ReadRequest(Collect.BearerToken(raw.authorization), key, Trim(raw.origin), raw.now, raw.params)
  }

  /** The header's key wins, and the key, the bearer token and the origin are trimmed. */
  lemma ReceivedIsClean(raw: Raw)
    ensures
      var req := Received(raw);
      && Trim(req.key) == req.key && Trim(req.origin) == req.origin && Trim(req.bearer) == req.bearer
      && req.bearer == Collect.BearerToken(raw.authorization) && req.origin == Trim(raw.origin)
      && req.now == raw.now && req.params == raw.params
      && (req.key == "" <==> Trim(raw.keyHeader) == "" && Trim(raw.keyQuery) == "")
      && (Trim(raw.keyHeader) != "" ==> req.key == Trim(raw.keyHeader))
      && (Trim(raw.keyHeader) == "" ==> req.key == Trim(raw.keyQuery))
  {
    TrimIsIdempotent(raw.keyHeader);
    TrimIsIdempotent(raw.keyQuery);
    TrimIsIdempotent(raw.origin);
    Collect.BearerIsTrimmed(raw.authorization);
  }

  datatype Scope = Scope(tenantID: string, projectID: string, sourceID: string)

  datatype StorageQuery =
    | RealtimeQuery(scope: Scope, since: int, limit: int)
    | EventListQuery(scope: Scope, eventName: string, distinctID: string, visitID: string, from: int, to: int, limit: int, offset: int,
                     sortField: string, sortDirection: string, filters: seq<F.EventPropertyFilter>, selectors: seq<F.Selector>)
    | EventCountQuery(scope: Scope, eventName: string, from: int, to: int)
    | CatalogQuery(scope: Scope, property: string, limit: int)

  datatype StorageOutcome = Answered | InvalidQuery | StorageFailed

  datatype Note = UnknownToken | ExpiredToken | NotYetValidToken | OutOfScopeToken | OutOfSourceToken | RotatedToken

  /** What the outside sees of one request. */
  datatype Effect =
    | Resolved(key: string)
    | Queried(query: StorageQuery)
    | Snapshot
    | Logged(note: Note, tokenID: string)
    | Responded(status: int)

  class Exchange {
    var effects: seq<Effect>

    constructor ()
      ensures effects == []
    {
      effects := [];
    }

    method Do(e: Effect)
      modifies this
      ensures effects == old(effects) + [e]
    {
      effects := effects + [e];
    }
  }

  /** The assembled handler: which readers exist, and how the outside answers. */
  datatype Handler = Handler(
    credentials: seq<Credential>,
    queryReader: bool, propertyCatalog: bool, kafkaDiagnostics: bool, kafkaMetrics: bool,
    resolve: string -> Resolution, storage: StorageQuery -> StorageOutcome, validEventName: string -> bool, snapshotTaken: bool)

  predicate SourceScoped(route: ReadbackRoute) {
    route.Realtime? || route.Events? || route.Goals? || route.Properties?
  }

  predicate Assembled(h: Handler, route: ReadbackRoute) {
    match route
    case Properties => h.propertyCatalog
    case KafkaDiagnostics => h.kafkaDiagnostics
    case KafkaMetrics => h.kafkaMetrics
    case _ => h.queryReader
  }

  // ---- The token gates ----

  ghost function TokenDecision(h: Handler, req: ReadRequest): Decision {
    Authorized(req.bearer, h.credentials, req.now)
  }

  /** The bearer token is a live credential of this process whose scopes include the route. */
  ghost predicate ProcessTokenPasses(h: Handler, req: ReadRequest, route: ReadbackRoute) {
    && h.credentials != []
    && Accepted(TokenDecision(h, req).state)
    && AllowsReadbackRoute(TokenDecision(h, req).credential, route)
  }

  /** It may also be used for the presented write key. */
  ghost predicate TokenPasses(h: Handler, req: ReadRequest, route: ReadbackRoute) {
    && ProcessTokenPasses(h, req, route)
    && AllowsWriteKey(TokenDecision(h, req).credential, req.key)
  }

  ghost function TokenStatus(h: Handler, req: ReadRequest): int {
    if h.credentials == [] then 404
    else if !Accepted(TokenDecision(h, req).state) then 401
    else 403
  }

  ghost function Rejection(h: Handler, req: ReadRequest, route: ReadbackRoute): Note {
    match TokenDecision(h, req).state
    case Unknown => UnknownToken
    case Expired => ExpiredToken
    case NotYetValid => NotYetValidToken
    case _ => if AllowsReadbackRoute(TokenDecision(h, req).credential, route) then OutOfSourceToken else OutOfScopeToken
  }

  /** What a request whose token is refused leaves behind. */
  ghost function TokenRefused(h: Handler, req: ReadRequest, route: ReadbackRoute): seq<Effect> {
    (if h.credentials == [] then [] else [Logged(Rejection(h, req, route), TokenDecision(h, req).credential.id)])
    + [Responded(TokenStatus(h, req))]
  }

  method RequireProcessQueryToken(h: Handler, req: ReadRequest, route: ReadbackRoute, x: Exchange) returns (d: Decision, ok: bool)
    modifies x
    ensures ok <==> ProcessTokenPasses(h, req, route)
    ensures ok ==> d == TokenDecision(h, req) && x.effects == old(x.effects)
    ensures !ok ==> x.effects == old(x.effects) + TokenRefused(h, req, route)
  {
    ok, d := false, Decision(EMPTY_CREDENTIAL, Unknown);
    if |h.credentials| == 0 {
      x.Do(Responded(404));
      return;
    }
    var decision := AuthorizeQueryToken(req.bearer, h.credentials, req.now);
    if decision.state == Unknown || decision.state == Expired || decision.state == NotYetValid {
      x.Do(Logged(match decision.state case Expired => ExpiredToken case NotYetValid => NotYetValidToken case _ => UnknownToken,
                  decision.credential.id));
      x.Do(Responded(401));
      return;
    }
    if !AllowsReadbackRoute(decision.credential, route) {
      x.Do(Logged(OutOfScopeToken, decision.credential.id));
      x.Do(Responded(403));
      return;
    }
    return decision, true;
  }

  method RequireQueryToken(h: Handler, req: ReadRequest, route: ReadbackRoute, x: Exchange) returns (d: Decision, ok: bool)
    modifies x
    ensures ok <==> TokenPasses(h, req, route)
    ensures ok ==> d == TokenDecision(h, req) && x.effects == old(x.effects)
    ensures !ok ==> x.effects == old(x.effects) + TokenRefused(h, req, route)
  {
    d, ok := RequireProcessQueryToken(h, req, route, x);
    if !ok {
      return;
    }
    var writeKey := req.key;
    if writeKey != "" && !AllowsWriteKey(d.credential, writeKey) {
      x.Do(Logged(OutOfSourceToken, d.credential.id));
      x.Do(Responded(403));
      ok := false;
    }
  }

  /** Each route is served when its own reader was assembled; realtime, events and goals share one. */
  lemma AssembledMeaning(h: Handler, route: ReadbackRoute)
    ensures Assembled(h, route) <==>
            || (route in [Realtime, Events, Goals] && h.queryReader) || (route == Properties && h.propertyCatalog)
            || (route == KafkaDiagnostics && h.kafkaDiagnostics) || (route == KafkaMetrics && h.kafkaMetrics)
  {
  }

  /** What each refusal of a token looks like: 404 without credentials, 401 for one that is not live, 403 outside its scopes or write keys. */
  lemma TokenRefusalMeaning(h: Handler, req: ReadRequest, route: ReadbackRoute)
    ensures
      var t, d := TokenRefused(h, req, route), TokenDecision(h, req);
      && (h.credentials == [] ==> t == [Responded(404)])
      && (h.credentials != [] && d.state == Unknown ==> t == [Logged(UnknownToken, ""), Responded(401)])
      && (h.credentials != [] && d.state == Expired ==> t == [Logged(ExpiredToken, d.credential.id), Responded(401)])
      && (h.credentials != [] && d.state == NotYetValid ==> t == [Logged(NotYetValidToken, d.credential.id), Responded(401)])
      && (h.credentials != [] && d.state in [Allowed, AllowedGrace] ==>
            t == [Logged(if d.credential.scopes == [] || route in d.credential.scopes then OutOfSourceToken else OutOfScopeToken, d.credential.id),
                  Responded(403)])
  {
  }

  // ---- The source gates ----

  /** The source a request may read on a route, if every source gate lets it through. */
  ghost predicate SourcePasses(h: Handler, req: ReadRequest, route: ReadbackRoute) {
    var key := req.key;
    && key != ""
    && h.resolve(key).Ok?
    && AllowsOrigin(h.resolve(key).value, req.origin)
    && AllowsReadback(h.resolve(key).value, route)
  }

  ghost function SourceStatus(h: Handler, req: ReadRequest): int {
    var key := req.key;
    if key == "" then 400
    else if h.resolve(key).Err? then
      match h.resolve(key).error
      case SourceNotFound => 401
      case SourceDisabled => 403
      case _ => 500
    else 403
  }

  /** The resolver is asked for the presented key; a rotated token is noted once the origin is accepted. */
  ghost function SourceEffects(h: Handler, req: ReadRequest): seq<Effect> {
    var key, d := req.key, TokenDecision(h, req);
    (if key == "" then [] else [Resolved(key)])
    + if key != "" && h.resolve(key).Ok? && AllowsOrigin(h.resolve(key).value, req.origin) && d.state.AllowedGrace?
      then [Logged(RotatedToken, d.credential.id)] else []
  }

  /** Token and source gates in sequence: the start of every source-scoped route. */
  method OpenSource(h: Handler, req: ReadRequest, route: ReadbackRoute, x: Exchange) returns (source: SourceConfig, ok: bool)
    modifies x
    ensures ok <==> TokenPasses(h, req, route) && SourcePasses(h, req, route)
    ensures ok ==> source == h.resolve(req.key).value && x.effects == old(x.effects) + SourceEffects(h, req)
    ensures !TokenPasses(h, req, route) ==> x.effects == old(x.effects) + TokenRefused(h, req, route)
    ensures TokenPasses(h, req, route) && !ok ==> x.effects == old(x.effects) + SourceEffects(h, req) + [Responded(SourceStatus(h, req))]
  {
    var decision, passed := RequireQueryToken(h, req, route, x);
    source, ok := EMPTY_SOURCE, passed;
    if !ok {
      return;
    }
    source, ok := ResolveQuerySource(h, req, decision, x);
    if !ok {
      return;
    }
    if !AllowsReadback(source, route) {
      x.Do(Responded(403));
      ok := false;
    }
  }

  method ResolveQuerySource(h: Handler, req: ReadRequest, decision: Decision, x: Exchange) returns (source: SourceConfig, ok: bool)
    requires decision == TokenDecision(h, req)
    modifies x
    ensures
      var key := req.key;
      ok <==> key != "" && h.resolve(key).Ok? && AllowsOrigin(h.resolve(key).value, req.origin)
    ensures ok ==> source == h.resolve(req.key).value && x.effects == old(x.effects) + SourceEffects(h, req)
    ensures !ok ==> x.effects == old(x.effects) + SourceEffects(h, req) + [Responded(SourceStatus(h, req))]
  {
    source, ok := EMPTY_SOURCE, false;
    var writeKey := req.key;
    if writeKey == "" {
      x.Do(Responded(400));
      return;
    }
    x.Do(Resolved(writeKey));
    var resolution := h.resolve(writeKey);
    if resolution.Err? {
      x.Do(Responded(match resolution.error case SourceNotFound => 401 case SourceDisabled => 403 case _ => 500));
      return;
    }
    if !AllowsOrigin(resolution.value, req.origin) {
      x.Do(Responded(403));
      return;
    }
    if decision.state == AllowedGrace {
      x.Do(Logged(RotatedToken, decision.credential.id));
    }
    return resolution.value, true;
  }

  /** How a request past the token gates is refused, and when a rotated token is noted. */
  lemma SourceRefusalMeaning(h: Handler, req: ReadRequest)
    ensures
      var r := h.resolve(req.key);
      && (req.key == "" ==> SourceStatus(h, req) == 400 && SourceEffects(h, req) == [])
      && (req.key != "" && r == Err(SourceNotFound) ==> SourceStatus(h, req) == 401)
      && (req.key != "" && r == Err(SourceDisabled) ==> SourceStatus(h, req) == 403)
      && (req.key != "" && r.Err? && r.error != SourceNotFound && r.error != SourceDisabled ==> SourceStatus(h, req) == 500)
      && (req.key != "" && r.Ok? ==> SourceStatus(h, req) == 403)
      && (req.key != "" && (r.Err? || !AllowsOrigin(r.value, req.origin)) ==> SourceEffects(h, req) == [Resolved(req.key)])
      && (req.key != "" && r.Ok? && AllowsOrigin(r.value, req.origin) ==>
            var d := TokenDecision(h, req);
            SourceEffects(h, req) == if d.state == AllowedGrace then [Resolved(req.key), Logged(RotatedToken, d.credential.id)] else [Resolved(req.key)])
  {
  }

  // ---- Parameters ----

  function RequiredTime(t: TimeText): Option<int> {
    if t.At? then Some(t.instant) else None
  }

  function TimeOr(t: TimeText, fallback: int): Option<int> {
    if t.Blank? then Some(fallback) else RequiredTime(t)
  }

  function IntOr(t: IntText, fallback: int, min: int): Option<int> {
    match t
    case NoInt => Some(fallback)
    case NotInteger => None
    case Int(value) => if value < min then None else Some(value)
  }

  function CatalogScope(raw: string): Option<string> {
    var value := Canonical(raw);
    if value == "" || value == "event" || value == "user" then Some(value) else None
  }

  function CatalogLimit(t: IntText): Option<int> {
    var limit := IntOr(t, CATALOG_LIMIT, 1);
    if limit.Some? && limit.value > CATALOG_LIMIT_MAX then None else limit
  }

  function ScopeOf(source: SourceConfig): Scope {
    Scope(source.tenantID, source.projectID, source.sourceID)
  }

  ghost function ParsedFilters(raw: seq<F.Payload>, source: SourceConfig): Option<seq<F.EventPropertyFilter>> {
    if |raw| <= F.FILTER_CAP && forall i :: 0 <= i < |raw| ==> F.Parsed(raw[i], source.allowedPropertyFilters).Ok?
    then Some(seq(|raw|, i requires 0 <= i < |raw| => F.Parsed(raw[i], source.allowedPropertyFilters).value))
    else None
  }

  ghost function RealtimeQueryFor(req: ReadRequest, source: SourceConfig): Option<StorageQuery> {
    var since, limit := TimeOr(req.params.since, req.now - REALTIME_WINDOW), IntOr(req.params.limit, REALTIME_CAP, 1);
    if since.Some? && limit.Some? then Some(RealtimeQuery(ScopeOf(source), since.value, limit.value)) else None
  }

  ghost function EventQueryFor(req: ReadRequest, source: SourceConfig): Option<StorageQuery> {
    var p := req.params;
    var limit, offset, filters := IntOr(p.limit, EVENTS_CAP, 1), IntOr(p.offset, 0, 0), ParsedFilters(p.filters, source);
    if p.from.At? && p.to.At? && limit.Some? && offset.Some? && filters.Some?
    then Some(EventListQuery(ScopeOf(source), Trim(p.eventName), Trim(p.distinctID), Trim(p.visitID), p.from.instant, p.to.instant,
                             limit.value, offset.value, Trim(p.sortField), Trim(p.sortDirection),
                             filters.value, F.QuerySelectors(source.allowedPropertyFilters)))
    else None
  }

  ghost function GoalQueryFor(h: Handler, req: ReadRequest, source: SourceConfig): Option<StorageQuery> {
    var p := req.params;
    if h.validEventName(Trim(p.eventName)) && p.from.At? && p.to.At?
    then Some(EventCountQuery(ScopeOf(source), Trim(p.eventName), p.from.instant, p.to.instant)) else None
  }

  ghost function CatalogQueryFor(req: ReadRequest, source: SourceConfig): Option<StorageQuery> {
    var scope, limit := CatalogScope(req.params.scope), CatalogLimit(req.params.limit);
    if scope.Some? && limit.Some? then Some(CatalogQuery(ScopeOf(source), scope.value, limit.value)) else None
  }

  /** The storage query a request stands for on a source, when its parameters are good. */
  ghost function QueryFor(h: Handler, req: ReadRequest, route: ReadbackRoute, source: SourceConfig): Option<StorageQuery> {
    match route
    case Realtime => RealtimeQueryFor(req, source)
    case Events => EventQueryFor(req, source)
    case Goals => GoalQueryFor(h, req, source)
    case Properties => CatalogQueryFor(req, source)
    case _ => None
  }

  /** A realtime query has a limit of at least 1 and looks back 30 minutes unless the request says otherwise. */
  lemma RealtimeQueryMeaning(req: ReadRequest, source: SourceConfig)
    ensures
      var p, q := req.params, RealtimeQueryFor(req, source);
      && (q.None? <==> p.since.Malformed? || p.limit.NotInteger? || (p.limit.Int? && p.limit.value < 1))
      && (q.Some? ==>
            && q.value.RealtimeQuery? && q.value.limit >= 1
            && (p.limit.Int? ==> q.value.limit == p.limit.value) && (p.limit.NoInt? ==> q.value.limit == 50)
            && (p.since.At? ==> q.value.since == p.since.instant) && (p.since.Blank? ==> q.value.since == req.now - 30 * MINUTE))
  {
  }

  /** An events query has both ends of its range, a limit of at least 1, no negative offset, and all its filters accepted. */
  lemma EventQueryMeaning(req: ReadRequest, source: SourceConfig)
    ensures
      var p, q := req.params, EventQueryFor(req, source);
      && (q.Some? ==>
            && q.value.EventListQuery? && p.from == At(q.value.from) && p.to == At(q.value.to)
            && q.value.limit >= 1 && (p.limit.Int? ==> q.value.limit == p.limit.value) && (p.limit.NoInt? ==> q.value.limit == 100)
            && q.value.offset >= 0 && (p.offset.Int? ==> q.value.offset == p.offset.value) && (p.offset.NoInt? ==> q.value.offset == 0)
            && q.value.eventName == Trim(p.eventName) && q.value.distinctID == Trim(p.distinctID) && q.value.visitID == Trim(p.visitID)
            && q.value.selectors == F.QuerySelectors(source.allowedPropertyFilters)
            && q.value.sortField == Trim(p.sortField) && q.value.sortDirection == Trim(p.sortDirection)
            && ParsedFilters(p.filters, source) == Some(q.value.filters))
      && (q.None? <==>
            || !p.from.At? || !p.to.At? || ParsedFilters(p.filters, source).None?
            || p.limit.NotInteger? || (p.limit.Int? && p.limit.value < 1)
            || p.offset.NotInteger? || (p.offset.Int? && p.offset.value < 0))
  {
  }

  /** A goal query counts one valid, trimmed event name over an explicit range. */
  lemma GoalQueryMeaning(h: Handler, req: ReadRequest, source: SourceConfig)
    ensures
      var p, q := req.params, GoalQueryFor(h, req, source);
      && (q.None? <==> !h.validEventName(Trim(p.eventName)) || !p.from.At? || !p.to.At?)
      && (q.Some? ==>
            && q.value.EventCountQuery? && h.validEventName(q.value.eventName)
            && q.value.eventName == Trim(p.eventName) && Trim(q.value.eventName) == q.value.eventName
            && p.from == At(q.value.from) && p.to == At(q.value.to))
  {
    TrimIsIdempotent(req.params.eventName);
  }

  /** A catalog query lists 1 to 200 properties of the event scope, the user scope or both. */
  lemma CatalogQueryMeaning(req: ReadRequest, source: SourceConfig)
    ensures
      var p, q := req.params, CatalogQueryFor(req, source);
      && (q.None? <==>
            || Canonical(p.scope) !in ["", "event", "user"]
            || p.limit.NotInteger? || (p.limit.Int? && !(1 <= p.limit.value <= 200)))
      && (q.Some? ==>
            && q.value.CatalogQuery? && 1 <= q.value.limit <= 200
            && (p.limit.Int? ==> q.value.limit == p.limit.value) && (p.limit.NoInt? ==> q.value.limit == 100)
            && q.value.property == Canonical(p.scope) && q.value.property in ["", "event", "user"])
  {
  }

  /** Storage failures read as 400 only for a query it calls invalid, and never on the catalog route. */
  function StorageStatus(route: ReadbackRoute, outcome: StorageOutcome): int {
    if outcome.Answered? then 200 else if outcome.InvalidQuery? && !route.Properties? then 400 else 500
  }

  lemma StorageStatusMeaning(route: ReadbackRoute, outcome: StorageOutcome)
    ensures StorageStatus(route, outcome) == 200 <==> outcome == Answered
    ensures StorageStatus(route, outcome) == 400 <==> outcome == InvalidQuery && route != Properties
    ensures StorageStatus(route, outcome) == 500 <==> outcome == StorageFailed || (outcome == InvalidQuery && route == Properties)
  {
  }

  // ---- The source-scoped routes ----

  /** The whole trace of a source-scoped request. */
  ghost function Trace(h: Handler, req: ReadRequest, route: ReadbackRoute): seq<Effect> {
    if !Assembled(h, route) then [Responded(404)]
    else if !TokenPasses(h, req, route) then TokenRefused(h, req, route)
    else if !SourcePasses(h, req, route) then SourceEffects(h, req) + [Responded(SourceStatus(h, req))]
    else SourceEffects(h, req) + Ending(h, route, QueryFor(h, req, route, h.resolve(req.key).value))
  }

  ghost function Ending(h: Handler, route: ReadbackRoute, query: Option<StorageQuery>): seq<Effect> {
    if query.None? then [Responded(400)] else [Queried(query.value), Responded(StorageStatus(route, h.storage(query.value)))]
  }

  /** The end of every source-scoped route: bad parameters, or storage's answer. */
  method Answer(h: Handler, route: ReadbackRoute, query: Option<StorageQuery>, x: Exchange)
    modifies x
    ensures x.effects == old(x.effects) + Ending(h, route, query)
  {
    if query.None? {
      x.Do(Responded(400));
      return;
    }
    x.Do(Queried(query.value));
    match h.storage(query.value) {
      case Answered => x.Do(Responded(200));
      case InvalidQuery =>
        if route == Properties {
          x.Do(Responded(500));
        } else {
          x.Do(Responded(400));
        }
      case StorageFailed => x.Do(Responded(500));
    }
  }

  method ReadRealtimeQuery(req: ReadRequest, source: SourceConfig) returns (query: Option<StorageQuery>)
    ensures query == RealtimeQueryFor(req, source)
  {
    var since := TimeOr(req.params.since, req.now - REALTIME_WINDOW);
    if since.None? {
      return None;
    }
    var limit := IntOr(req.params.limit, REALTIME_CAP, 1);
    if limit.None? {
      return None;
    }
    return Some(RealtimeQuery(ScopeOf(source), since.value, limit.value));
  }

  lemma FiltersAreUnique(raw: seq<F.Payload>, source: SourceConfig, filters: seq<F.EventPropertyFilter>)
    requires |filters| == |raw| <= F.FILTER_CAP && F.ParsedSoFar(raw, source.allowedPropertyFilters, filters)
    ensures ParsedFilters(raw, source) == Some(filters)
  {
    assert forall i :: 0 <= i < |raw| ==> F.Parsed(raw[i], source.allowedPropertyFilters).Ok?;
    var parsed := ParsedFilters(raw, source).value;
    assert forall i :: 0 <= i < |raw| ==> parsed[i] == filters[i];
    assert parsed == filters;
  }

  method ReadFilters(raw: seq<F.Payload>, source: SourceConfig) returns (filters: Option<seq<F.EventPropertyFilter>>)
    ensures filters == ParsedFilters(raw, source)
  {
    var parsed := F.ParsePropertyFilters(raw, source);
    if parsed.Err? {
      return None;
    }
    FiltersAreUnique(raw, source, parsed.value);
    return Some(parsed.value);
  }

  method ReadEventQuery(req: ReadRequest, source: SourceConfig) returns (query: Option<StorageQuery>)
    ensures query == EventQueryFor(req, source)
  {
    var p := req.params;
    var from, to := RequiredTime(p.from), RequiredTime(p.to);
    var limit, offset := IntOr(p.limit, EVENTS_CAP, 1), IntOr(p.offset, 0, 0);
    if from.None? || to.None? || limit.None? || offset.None? {
      return None;
    }
    var filters := ReadFilters(p.filters, source);
    if filters.None? {
      return None;
    }
    var selectors := F.ToPropertySelectors(source.allowedPropertyFilters);
    return Some(EventListQuery(ScopeOf(source), Trim(p.eventName), Trim(p.distinctID), Trim(p.visitID), from.value, to.value,
                               limit.value, offset.value, Trim(p.sortField), Trim(p.sortDirection), filters.value, selectors));
  }

  method ReadGoalQuery(h: Handler, req: ReadRequest, source: SourceConfig) returns (query: Option<StorageQuery>)
    ensures query == GoalQueryFor(h, req, source)
  {
    var eventName := Trim(req.params.eventName);
    if !h.validEventName(eventName) {
      return None;
    }
    var from, to := RequiredTime(req.params.from), RequiredTime(req.params.to);
    if from.None? || to.None? {
      return None;
    }
    return Some(EventCountQuery(ScopeOf(source), eventName, from.value, to.value));
  }

  method ReadCatalogQuery(req: ReadRequest, source: SourceConfig) returns (query: Option<StorageQuery>)
    ensures query == CatalogQueryFor(req, source)
  {
    var scope := CatalogScope(req.params.scope);
    if scope.None? {
      return None;
    }
    var limit := CatalogLimit(req.params.limit);
    if limit.None? {
      return None;
    }
    return Some(CatalogQuery(ScopeOf(source), scope.value, limit.value));
  }

  method ReadQuery(h: Handler, req: ReadRequest, route: ReadbackRoute, source: SourceConfig) returns (query: Option<StorageQuery>)
    requires SourceScoped(route)
    ensures query == QueryFor(h, req, route, source)
  {
    match route {
      case Realtime => query := ReadRealtimeQuery(req, source);
      case Events => query := ReadEventQuery(req, source);
      case Goals => query := ReadGoalQuery(h, req, source);
      case Properties => query := ReadCatalogQuery(req, source);
    }
  }

  /** The four source-scoped handlers: they differ in the reader they need and the query they read. */
  method HandleRead(h: Handler, raw: Raw, route: ReadbackRoute, x: Exchange)
    requires SourceScoped(route)
    modifies x
    ensures x.effects == old(x.effects) + Trace(h, Received(raw), route)
  {
    Read(h, Received(raw), route, x);
  }

  method Read(h: Handler, req: ReadRequest, route: ReadbackRoute, x: Exchange)
    requires SourceScoped(route)
    modifies x
    ensures x.effects == old(x.effects) + Trace(h, req, route)
  {
    if !Assembled(h, route) {
      x.Do(Responded(404));
      return;
    }
    var source, ok := OpenSource(h, req, route, x);
    if !ok {
      return;
    }
    var query := ReadQuery(h, req, route, source);
    Answer(h, route, query, x);
  }

  lemma RefusalsSayNothingElse(h: Handler, req: ReadRequest, route: ReadbackRoute)
    ensures
      var t := TokenRefused(h, req, route);
      && t != [] && t[|t| - 1].Responded? && t[|t| - 1].status != 200
      && forall i :: 0 <= i < |t| - 1 ==> t[i].Logged?
  {
  }

  lemma SourceEffectsAreQuiet(h: Handler, req: ReadRequest)
    ensures forall e <- SourceEffects(h, req) :: e.Resolved? || e.Logged?
    ensures forall key :: Resolved(key) in SourceEffects(h, req) <==> key == req.key != ""
  {
  }

  lemma SourceRefusalIsNoSuccess(h: Handler, req: ReadRequest)
    ensures SourceStatus(h, req) != 200
  {
  }

  /** Storage is asked exactly when every gate holds, with exactly the query the request stands for. */
  lemma StorageNeedsEveryGate(h: Handler, req: ReadRequest, route: ReadbackRoute, q: StorageQuery)
    ensures Queried(q) in Trace(h, req, route) <==>
            && Assembled(h, route) && TokenPasses(h, req, route) && SourcePasses(h, req, route)
            && QueryFor(h, req, route, h.resolve(req.key).value) == Some(q)
  {
    RefusalsSayNothingElse(h, req, route);
    SourceEffectsAreQuiet(h, req);
  }

  /** The resolver is asked exactly when the token gates hold and a key is presented, and only for that key. */
  lemma ResolverNeedsToken(h: Handler, req: ReadRequest, route: ReadbackRoute, key: string)
    ensures Resolved(key) in Trace(h, req, route) <==>
            Assembled(h, route) && TokenPasses(h, req, route) && key == req.key != ""
  {
    RefusalsSayNothingElse(h, req, route);
    SourceEffectsAreQuiet(h, req);
  }

  ghost predicate OneResponse(t: seq<Effect>) {
    t != [] && forall i :: 0 <= i < |t| ==> (t[i].Responded? <==> i == |t| - 1)
  }

  lemma QuietBefore(quiet: seq<Effect>, t: seq<Effect>)
    requires (forall e <- quiet :: !e.Responded?) && OneResponse(t)
    ensures OneResponse(quiet + t)
  {
    forall i | 0 <= i < |quiet + t|
      ensures (quiet + t)[i].Responded? <==> i == |quiet + t| - 1
    {
      if i < |quiet| {
        assert quiet[i] in quiet;
      } else {
        assert (quiet + t)[i] == t[i - |quiet|];
      }
    }
  }

  /** Either the request ends at a gate, without a success, or it reaches its parameters. */
  lemma TraceShape(h: Handler, req: ReadRequest, route: ReadbackRoute) returns (quiet: seq<Effect>, end: seq<Effect>)
    ensures Trace(h, req, route) == quiet + end
    ensures forall e <- quiet :: e.Resolved? || e.Logged?
    ensures (exists query :: end == Ending(h, route, query)) || (exists status :: end == [Responded(status)] && status != 200)
  {
    RefusalsSayNothingElse(h, req, route);
    SourceEffectsAreQuiet(h, req);
    SourceRefusalIsNoSuccess(h, req);
    var t := Trace(h, req, route);
    quiet, end := t[..|t| - 1], [t[|t| - 1]];
    if Assembled(h, route) && TokenPasses(h, req, route) && SourcePasses(h, req, route) {
      quiet, end := SourceEffects(h, req), Ending(h, route, QueryFor(h, req, route, h.resolve(req.key).value));
    } else if Assembled(h, route) && TokenPasses(h, req, route) {
      quiet, end := SourceEffects(h, req), [Responded(SourceStatus(h, req))];
    }
  }

  lemma EndsWell(h: Handler, route: ReadbackRoute, quiet: seq<Effect>, end: seq<Effect>)
    requires forall e <- quiet :: e.Resolved? || e.Logged?
    requires (exists query :: end == Ending(h, route, query)) || (exists status :: end == [Responded(status)] && status != 200)
    ensures OneResponse(quiet + end)
    ensures Responded(200) in quiet + end <==> exists q :: Queried(q) in quiet + end && h.storage(q).Answered?
  {
    QuietBefore(quiet, end);
    if q :| Queried(q) in end {
      assert Queried(q) in quiet + end;
    }
  }

  /** Every request gets one response, last, and it is 200 exactly when storage was asked and answered. */
  lemma OneResponseLast(h: Handler, req: ReadRequest, route: ReadbackRoute)
    ensures OneResponse(Trace(h, req, route))
    ensures Responded(200) in Trace(h, req, route) <==> exists q :: Queried(q) in Trace(h, req, route) && h.storage(q).Answered?
  {
    var quiet, end := TraceShape(h, req, route);
    EndsWell(h, route, quiet, end);
  }

  ghost function StatusOf(h: Handler, req: ReadRequest, route: ReadbackRoute): int {
    var t := Trace(h, req, route);
    if t != [] && t[|t| - 1].Responded? then t[|t| - 1].status else 0
  }

  ghost predicate BadParameters(h: Handler, req: ReadRequest, route: ReadbackRoute) {
    SourcePasses(h, req, route) && QueryFor(h, req, route, h.resolve(req.key).value).None?
  }

  /** Storage is asked and ends like this. */
  ghost predicate StorageEnds(h: Handler, req: ReadRequest, route: ReadbackRoute, outcome: StorageOutcome) {
    SourcePasses(h, req, route) && var q := QueryFor(h, req, route, h.resolve(req.key).value); q.Some? && h.storage(q.value) == outcome
  }

  ghost predicate Unresolved(h: Handler, req: ReadRequest, e: ResolveError) {
    req.key != "" && h.resolve(req.key) == Err(e)
  }

  /** The status of a request stopped before the source gates. */
  lemma RefusedStatus(h: Handler, req: ReadRequest, route: ReadbackRoute)
    ensures !Assembled(h, route) ==> StatusOf(h, req, route) == 404
    ensures Assembled(h, route) && h.credentials == [] ==> StatusOf(h, req, route) == 404
    ensures Assembled(h, route) && h.credentials != [] && !TokenPasses(h, req, route) ==>
              StatusOf(h, req, route) == if TokenDecision(h, req).state in [Allowed, AllowedGrace] then 403 else 401
  {
    TokenRefusalMeaning(h, req, route);
  }

  /** The status of a request whose token passed: which gate, parameter or storage outcome each status stands for. */
  lemma AdmittedStatus(h: Handler, req: ReadRequest, route: ReadbackRoute)
    requires Assembled(h, route) && TokenPasses(h, req, route)
    ensures
      var status := StatusOf(h, req, route);
      && (status == 200 <==> StorageEnds(h, req, route, StorageOutcome.Answered))
      && (status == 400 <==>
            req.key == "" || BadParameters(h, req, route) || (route != Properties && StorageEnds(h, req, route, InvalidQuery)))
      && (status == 401 <==> Unresolved(h, req, SourceNotFound))
      && (status == 403 <==>
            Unresolved(h, req, SourceDisabled) || (req.key != "" && h.resolve(req.key).Ok? && !SourcePasses(h, req, route)))
      && status in [200, 400, 401, 403, 500]
  {
    AdmittedEnds(h, req, route);
    if SourcePasses(h, req, route) {
      var q := QueryFor(h, req, route, h.resolve(req.key).value);
      if q.Some? {
        StorageStatusMeaning(route, h.storage(q.value));
      }
    } else {
      SourceRefusalMeaning(h, req);
    }
  }

  lemma AdmittedEnds(h: Handler, req: ReadRequest, route: ReadbackRoute)
    requires Assembled(h, route) && TokenPasses(h, req, route)
    ensures !SourcePasses(h, req, route) ==> StatusOf(h, req, route) == SourceStatus(h, req)
    ensures BadParameters(h, req, route) ==> StatusOf(h, req, route) == 400
    ensures forall outcome :: StorageEnds(h, req, route, outcome) ==> StatusOf(h, req, route) == StorageStatus(route, outcome)
  {
    var quiet := SourceEffects(h, req);
    if !SourcePasses(h, req, route) {
      LastIsStatus(h, req, route, quiet, [Responded(SourceStatus(h, req))]);
    } else {
      LastIsStatus(h, req, route, quiet, Ending(h, route, QueryFor(h, req, route, h.resolve(req.key).value)));
    }
  }

  lemma LastIsStatus(h: Handler, req: ReadRequest, route: ReadbackRoute, quiet: seq<Effect>, end: seq<Effect>)
    requires Trace(h, req, route) == quiet + end && end != [] && end[|end| - 1].Responded?
    ensures StatusOf(h, req, route) == end[|end| - 1].status
  {
  }

  /** A token that passes is a live credential for the route and the presented key. */
  lemma PassingTokenServes(h: Handler, req: ReadRequest, route: ReadbackRoute)
    requires TokenPasses(h, req, route) && Trim(req.key) == req.key != ""
    ensures exists i :: 0 <= i < |h.credentials| && Serves(h.credentials[i], req, route, req.key)
  {
    var token := Trim(req.bearer);
    var i := LastWith(h.credentials, token);
    LastWithIsLast(h.credentials, token);
    TokenLifecycle(h.credentials[i], i, req.now, req.now);
    assert Serves(h.credentials[i], req, route, req.key);
  }

  lemma QueryKeepsScope(h: Handler, req: ReadRequest, route: ReadbackRoute, source: SourceConfig)
    ensures QueryFor(h, req, route, source).Some? ==> QueryFor(h, req, route, source).value.scope == ScopeOf(source)
  {
  }

  /** The query stays inside the source that owns the presented key, under a credential that serves the request. */
  ghost predicate StaysInSource(h: Handler, req: ReadRequest, route: ReadbackRoute, q: StorageQuery, source: SourceConfig) {
    && source.writeKey == req.key && source.enabled && Normalized(source) && Valid(source)
    && q.scope.tenantID == source.tenantID && q.scope.projectID == source.projectID && q.scope.sourceID == source.sourceID
    && AllowsReadback(source, route)
    && exists i :: 0 <= i < |h.credentials| && Serves(h.credentials[i], req, route, source.writeKey)
  }

  lemma CleanQueryStaysInSource(h: Handler, req: ReadRequest, route: ReadbackRoute, q: StorageQuery)
    requires Trim(req.key) == req.key && Trusted(req.key, h.resolve(req.key))
    requires Queried(q) in Trace(h, req, route)
    ensures h.resolve(req.key).Ok? && StaysInSource(h, req, route, q, h.resolve(req.key).value)
  {
    StorageNeedsEveryGate(h, req, route, q);
    PassingTokenServes(h, req, route);
    KeyOwnsSource(h.resolve(req.key), req);
    QueryKeepsScope(h, req, route, h.resolve(req.key).value);
  }

  /**
   * With a resolution trusted for the presented key, whatever a request makes reach storage stays inside the source whose
   * write key was presented, under a live credential that lists that key when it lists any.
   */
  lemma QueryStaysInSource(h: Handler, raw: Raw, req: ReadRequest, route: ReadbackRoute, q: StorageQuery)
    requires req == Received(raw) && Trusted(req.key, h.resolve(req.key))
    requires Queried(q) in Trace(h, req, route)
    ensures h.resolve(req.key).Ok? && StaysInSource(h, req, route, q, h.resolve(req.key).value)
  {
    ReceivedIsClean(raw);
    CleanQueryStaysInSource(h, req, route, q);
  }

  /** So it does with the memory resolver: the source is one of the configured ones. */
  lemma MemoryQueryStaysInSource(h: Handler, memory: MemoryResolver, configured: seq<SourceConfig>,
                                 raw: Raw, req: ReadRequest, route: ReadbackRoute, q: StorageQuery)
    requires Sound(NormalizedAll(configured)) && memory.Indexes(NormalizedAll(configured))
    requires req == Received(raw) && h.resolve(req.key) == memory.ResolveSource(req.key)
    requires Queried(q) in Trace(h, req, route)
    ensures exists source :: source in NormalizedAll(configured) && StaysInSource(h, req, route, q, source)
  {
    MemoryIsTrusted(memory, configured, req.key);
    QueryStaysInSource(h, raw, req, route, q);
  }

  /** With the HTTP resolver: the resolution is the result of one of its calls, in any run. */
  lemma HTTPQueryStaysInSource(h: Handler, ttl: int, run: seq<RM.State>, n: nat, id: nat, req: ReadRequest, route: ReadbackRoute, q: StorageQuery)
    requires RM.IsRun(RM.Service(ttl), run) && n < |run| && id in run[n].calls && run[n].calls[id].phase.Returned?
    requires req.key == run[n].calls[id].key && h.resolve(req.key) == run[n].calls[id].phase.result
    requires Queried(q) in Trace(h, req, route)
    ensures exists source :: StaysInSource(h, req, route, q, source)
  {
    RM.ResultIsTrusted(ttl, run, n, id);
    CleanQueryStaysInSource(h, req, route, q);
  }

  /** With the bound resolver around it: the source has a startup boundary besides. */
  lemma BoundQueryStaysInSource(h: Handler, bound: SchemaBoundResolver, cs: seq<SourceConfig>, ttl: int, run: seq<RM.State>, n: nat, id: nat,
                                req: ReadRequest, route: ReadbackRoute, q: StorageQuery)
    requires bound.Covers(cs)
    requires RM.IsRun(RM.Service(ttl), run) && n < |run| && id in run[n].calls && run[n].calls[id].phase.Returned?
    requires req.key == run[n].calls[id].key && h.resolve(req.key) == bound.Bound(run[n].calls[id].phase.result)
    requires Queried(q) in Trace(h, req, route)
    ensures exists source :: OnSurface(cs, SurfaceKey(source)) && StaysInSource(h, req, route, q, source)
  {
    RM.ResultIsTrusted(ttl, run, n, id);
    BoundIsTrusted(bound, cs, req.key, run[n].calls[id].phase.result);
    CleanQueryStaysInSource(h, req, route, q);
  }

  // ---- From the environment to the gates ----

  /** The handler has the credentials that this environment loads. */
  ghost predicate LoadedFrom(h: Handler, env: CredentialEnv, routes: ReadRoutes) {
    exists cfg :: Loaded(env, routes, cfg) && AssembledCredentials(cfg, routes) == Some(h.credentials)
  }

  lemma LoadedCredentials(h: Handler, env: CredentialEnv, routes: ReadRoutes)
    requires LoadedFrom(h, env, routes)
    ensures Merges(Offers(env), Ok(h.credentials))
  {
    var cfg :| Loaded(env, routes, cfg) && AssembledCredentials(cfg, routes) == Some(h.credentials);
    PipelineIsStable(env, routes, cfg);
  }

  /**
   * With credentials loaded from an environment, a bearer token passes the gates exactly when the first settings that carry
   * it have an open window, name the route in their scopes, or name nothing, and likewise list the presented write key.
   */
  lemma SettingsDecideTheGate(h: Handler, env: CredentialEnv, routes: ReadRoutes, i: nat, req: ReadRequest, route: ReadbackRoute)
    requires LoadedFrom(h, env, routes) && S.Wins(env, i) && Trim(req.bearer) == Trim(S.SettingsAt(env, i).token)
    ensures ProcessTokenPasses(h, req, route) <==>
            S.WindowOpen(S.SettingsAt(env, i), req.now) && S.ScopesAllow(S.SettingsAt(env, i).scopes, route)
    ensures TokenPasses(h, req, route) <==>
            && S.WindowOpen(S.SettingsAt(env, i), req.now) && S.ScopesAllow(S.SettingsAt(env, i).scopes, route)
            && S.KeysAllow(S.SettingsAt(env, i).writeKeys, req.key)
  {
    LoadedCredentials(h, env, routes);
    var at := S.WinnerIsKept(env, h.credentials, i);
    S.TokenIsDecidedBySettings(env, h.credentials, i, req.bearer, route, req.key, req.now);
  }

  /** No other token passes. */
  lemma OnlySettingsPass(h: Handler, env: CredentialEnv, routes: ReadRoutes, req: ReadRequest, route: ReadbackRoute)
    requires LoadedFrom(h, env, routes) && ProcessTokenPasses(h, req, route)
    ensures exists i: nat :: S.Wins(env, i) && Trim(S.SettingsAt(env, i).token) == Trim(req.bearer)
  {
    LoadedCredentials(h, env, routes);
    if forall i: nat :: S.Wins(env, i) ==> Trim(S.SettingsAt(env, i).token) != Trim(req.bearer) {
      S.OtherTokensAreUnknown(env, h.credentials, req.bearer, req.now);
    }
  }

  /** A token whose scopes say something but do not name the route reaches neither storage, nor the resolver, nor a snapshot there. */
  lemma UnnamedRouteIsClosed(h: Handler, env: CredentialEnv, routes: ReadRoutes, i: nat, req: ReadRequest, route: ReadbackRoute, part: string)
    requires LoadedFrom(h, env, routes) && S.Wins(env, i) && Trim(req.bearer) == Trim(S.SettingsAt(env, i).token)
    requires part in S.SettingsAt(env, i).scopes && Canonical(part) != "" && !S.Names(S.SettingsAt(env, i).scopes, route)
    ensures forall e <- Trace(h, req, route) :: !e.Queried? && !e.Resolved?
    ensures Snapshot !in ProcessTrace(h, req, route)
  {
    SettingsDecideTheGate(h, env, routes, i, req, route);
    SnapshotNeedsToken(h, req, route, req.key);
    forall e | e in Trace(h, req, route)
      ensures !e.Queried? && !e.Resolved?
    {
      match e
      case Queried(q) => StorageNeedsEveryGate(h, req, route, q);
      case Resolved(key) => ResolverNeedsToken(h, req, route, key);
      case _ =>
    }
  }

  // ---- Whose scope is read ----

  /** The query's scope holds the trimmed names of this enabled body, whose trimmed key was presented. */
  ghost predicate ReadsBody(body: SourceConfig, req: ReadRequest, q: StorageQuery) {
    && body.enabled && Trim(body.writeKey) == req.key
    && q.scope == Scope(Trim(body.tenantID), Trim(body.projectID), Trim(body.sourceID))
  }

  lemma DescribedIsRead(h: Handler, req: ReadRequest, route: ReadbackRoute, q: StorageQuery, body: SourceConfig, source: SourceConfig)
    requires StaysInSource(h, req, route, q, source) && DescribesSource(body, source)
    ensures ReadsBody(body, req, q)
  {
  }

  /** With the memory resolver a query reads the tenant, project and source that a configured body writes for the presented key. */
  lemma MemoryQueryReadsBody(h: Handler, memory: MemoryResolver, configured: seq<SourceConfig>,
                             raw: Raw, req: ReadRequest, route: ReadbackRoute, q: StorageQuery)
    requires Sound(NormalizedAll(configured)) && memory.Indexes(NormalizedAll(configured))
    requires req == Received(raw) && h.resolve(req.key) == memory.ResolveSource(req.key)
    requires Queried(q) in Trace(h, req, route)
    ensures exists body :: body in configured && ReadsBody(body, req, q)
  {
    MemoryIsTrusted(memory, configured, req.key);
    QueryStaysInSource(h, raw, req, route, q);
    MemoryNamesItsBody(memory, configured, req.key);
    var source := h.resolve(req.key).value;
    var body :| body in configured && DescribesSource(body, source);
    DescribedIsRead(h, req, route, q, body, source);
  }

  /** With the HTTP resolver it reads those of a body published under the key between the call's start and its end. */
  lemma HTTPQueryReadsBody(h: Handler, ttl: int, run: seq<RM.State>, n: nat, id: nat, req: ReadRequest, route: ReadbackRoute, q: StorageQuery)
    returns (i: nat)
    requires RM.IsRun(RM.Service(ttl), run) && n < |run| && id in run[n].calls && run[n].calls[id].phase.Returned?
    requires req.key == run[n].calls[id].key && h.resolve(req.key) == run[n].calls[id].phase.result
    requires Queried(q) in Trace(h, req, route)
    ensures run[n].calls[id].startedAt <= i <= run[n].calls[id].phase.endedAt && i < |run[n].history|
    ensures req.key in run[n].history[i] && ReadsBody(run[n].history[i][req.key].body, req, q)
  {
    RM.ResultIsTrusted(ttl, run, n, id);
    CleanQueryStaysInSource(h, req, route, q);
    i := RM.SuccessNamesItsBody(ttl, run, n, id);
    DescribedIsRead(h, req, route, q, run[n].history[i][req.key].body, h.resolve(req.key).value);
  }

  /** Behind the startup gate it reads those of a configured body as well. */
  lemma BoundQueryReadsBody(h: Handler, bound: SchemaBoundResolver, configured: seq<SourceConfig>, ttl: int, run: seq<RM.State>, n: nat, id: nat,
                            req: ReadRequest, route: ReadbackRoute, q: StorageQuery)
    requires bound.Covers(NormalizedAll(configured))
    requires RM.IsRun(RM.Service(ttl), run) && n < |run| && id in run[n].calls && run[n].calls[id].phase.Returned?
    requires req.key == run[n].calls[id].key && h.resolve(req.key) == bound.Bound(run[n].calls[id].phase.result)
    requires Queried(q) in Trace(h, req, route)
    ensures exists body :: body in configured && ReadsBody(body, req, q)
  {
    var inner := run[n].calls[id].phase.result;
    RM.ResultIsTrusted(ttl, run, n, id);
    BoundIsTrusted(bound, NormalizedAll(configured), req.key, inner);
    CleanQueryStaysInSource(h, req, route, q);
    BoundPassesNamed(bound, configured, req.key, inner);
    var source := h.resolve(req.key).value;
    var body :| body in configured && DescribesSource(body, source);
    DescribedIsRead(h, req, route, q, body, source);
  }

  lemma KeyOwnsSource(r: Resolution, req: ReadRequest)
    requires Trusted(req.key, r) && r.Ok? && Trim(req.key) == req.key
    ensures Servable(req.key, r.value)
  {
  }

  /** The credential carries the request's bearer token, is in its window, and covers the route and the write key. */
  ghost predicate Serves(c: Credential, req: ReadRequest, route: ReadbackRoute, key: string) {
    && c.token == Trim(req.bearer) != ""
    && (c.notBefore == 0 || c.notBefore <= req.now) && (c.expiresAt == 0 || req.now < c.expiresAt)
    && (c.scopes == [] || route in c.scopes)
    && (c.allowedWriteKeys == [] || key in c.allowedWriteKeys)
  }

  lemma EventQueryParts(h: Handler, req: ReadRequest, source: SourceConfig, q: StorageQuery)
    requires QueryFor(h, req, Events, source) == Some(q)
    ensures ParsedFilters(req.params.filters, source) == Some(q.filters)
    ensures q.selectors == F.QuerySelectors(source.allowedPropertyFilters)
  {
  }

  /** Every property filter that reaches storage has its selector in the list sent along, which has no repeats. */
  lemma QueriedFiltersAreListed(h: Handler, raw: Raw, req: ReadRequest, q: StorageQuery, i: nat)
    requires req == Received(raw) && Trusted(req.key, h.resolve(req.key))
    requires Queried(q) in Trace(h, req, Events) && q.EventListQuery? && i < |q.filters|
    ensures F.Selector(q.filters[i].scope, q.filters[i].name) in q.selectors
    ensures DistinctBy(q.selectors, F.Itself)
    ensures |q.filters| <= F.FILTER_CAP && LegalType(q.filters[i].valueType) && F.OwnSlotOnly(q.filters[i])
  {
    ReceivedIsClean(raw);
    StorageNeedsEveryGate(h, req, Events, q);
    FiltersOfQueryAreListed(h, req, h.resolve(req.key).value, q, i);
  }

  lemma FiltersOfQueryAreListed(h: Handler, req: ReadRequest, source: SourceConfig, q: StorageQuery, i: nat)
    requires Normalized(source) && QueryFor(h, req, Events, source) == Some(q) && i < |q.filters|
    ensures F.Selector(q.filters[i].scope, q.filters[i].name) in q.selectors
    ensures DistinctBy(q.selectors, F.Itself)
    ensures |q.filters| <= F.FILTER_CAP && LegalType(q.filters[i].valueType) && F.OwnSlotOnly(q.filters[i])
  {
    EventQueryParts(h, req, source, q);
    F.AcceptedFilterPassesStorage(req.params.filters[i], source);
    F.AcceptedFilterIsSound(req.params.filters[i], source.allowedPropertyFilters);
  }

  // ---- The process-scoped routes ----

  ghost function ProcessTrace(h: Handler, req: ReadRequest, route: ReadbackRoute): seq<Effect> {
    if !Assembled(h, route) then [Responded(404)]
    else if !ProcessTokenPasses(h, req, route) then TokenRefused(h, req, route)
    else [Snapshot, Responded(if h.snapshotTaken then 200 else 404)]
  }

  method HandleKafka(h: Handler, raw: Raw, route: ReadbackRoute, x: Exchange)
    requires !SourceScoped(route)
    modifies x
    ensures x.effects == old(x.effects) + ProcessTrace(h, Received(raw), route)
  {
    Export(h, Received(raw), route, x);
  }

  method Export(h: Handler, req: ReadRequest, route: ReadbackRoute, x: Exchange)
    requires !SourceScoped(route)
    modifies x
    ensures x.effects == old(x.effects) + ProcessTrace(h, req, route)
  {
    if !Assembled(h, route) {
      x.Do(Responded(404));
      return;
    }
    var _, ok := RequireProcessQueryToken(h, req, route, x);
    if !ok {
      return;
    }
    x.Do(Snapshot);
    if !h.snapshotTaken {
      x.Do(Responded(404));
      return;
    }
    x.Do(Responded(200));
  }

  /** Which response ends a process-scoped request: 200 only with a snapshot taken, and a refusal as for any token. */
  lemma ProcessStatusMeaning(h: Handler, req: ReadRequest, route: ReadbackRoute)
    ensures
      var t := ProcessTrace(h, req, route);
      && (!Assembled(h, route) ==> t == [Responded(404)])
      && (Assembled(h, route) && !ProcessTokenPasses(h, req, route) ==> t == TokenRefused(h, req, route))
      && (Responded(200) in t <==> Assembled(h, route) && ProcessTokenPasses(h, req, route) && h.snapshotTaken)
      && (Assembled(h, route) && ProcessTokenPasses(h, req, route) && !h.snapshotTaken ==> t == [Snapshot, Responded(404)])
  {
    TokenRefusalMeaning(h, req, route);
  }

  /** A snapshot needs a live token in scope; these routes never reach the resolver or storage and never look at the write key. */
  lemma SnapshotNeedsToken(h: Handler, req: ReadRequest, route: ReadbackRoute, key: string)
    ensures Snapshot in ProcessTrace(h, req, route) <==> Assembled(h, route) && ProcessTokenPasses(h, req, route)
    ensures forall e <- ProcessTrace(h, req, route) :: !e.Resolved? && !e.Queried?
    ensures ProcessTrace(h, req.(key := key), route) == ProcessTrace(h, req, route)
  {
  }
}
