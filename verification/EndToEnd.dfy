/**
 * From accepted event to inner writer, in the three ways ingestion is deployed: sources from memory, from the control
 * plane bound to a startup list, and from the control plane alone.
 */
module EndToEnd {
  import opened Wrappers
  import opened Text
  import opened SourceConfigs
  import opened Resolvers
  import opened Worker
  import opened Collect
  import M = WriterMachine
  import RM = ResolverMachine

  datatype Deployment = FromMemory(memory: MemoryResolver) | FromBoundHTTP(bound: SchemaBoundResolver) | FromHTTP

  datatype AssemblyError = ControlPlaneRejected | BadStartupSources(e: StartupError) | UnsupportedResolver

  /** The resolver an ingesting service is built with. */
  method NewSourceResolver(resolver: string, controlPlaneUsable: bool, ingestion: bool, configured: seq<SourceConfig>)
    returns (r: Result<Deployment, AssemblyError>)
    ensures r.Ok? ==> Matches(r.value, configured)
    ensures r.Ok? <==>
            || (resolver in ["", "memory"] && Sound(NormalizedAll(configured)))
            || (resolver == "http" && controlPlaneUsable && (ingestion && configured != [] ==> EnabledAreValid(NormalizedAll(configured))))
    ensures r.Ok? ==> (r.value.FromBoundHTTP? <==> resolver == "http" && ingestion && configured != [])
    ensures r == Err(ControlPlaneRejected) <==> resolver == "http" && !controlPlaneUsable
    ensures r.Ok? ==> (r.value.FromMemory? <==> resolver == "" || resolver == "memory")
    ensures resolver != "" && resolver != "memory" && resolver != "http" ==> r == Err(UnsupportedResolver)
  {
    if resolver == "" || resolver == "memory" {
      var memory := NewMemoryResolver(configured);
      if memory.Err? {
        return Err(BadStartupSources(memory.error));
      }
      return Ok(FromMemory(memory.value));
    }
    if resolver != "http" {
      return Err(UnsupportedResolver);
    }
    if !controlPlaneUsable {
      return Err(ControlPlaneRejected);
    }
    if ingestion && |configured| > 0 {
      var bound := NewSchemaBoundResolver(configured);
      if bound.Err? {
        return Err(BadStartupSources(bound.error));
      }
      return Ok(FromBoundHTTP(bound.value));
    }
    return Ok(FromHTTP);
  }

  /** The deployment was built from the startup sources. */
  ghost predicate Matches(d: Deployment, configured: seq<SourceConfig>) {
    match d
    case FromMemory(memory) => Sound(NormalizedAll(configured)) && memory.Indexes(NormalizedAll(configured))
    case FromBoundHTTP(bound) => bound.Covers(NormalizedAll(configured))
    case FromHTTP => true
  }

  /** What collect resolves a key to; remote is the HTTP resolver's answer at that moment. */
  ghost function Resolve(d: Deployment, rawKey: string, remote: Resolution): Resolution {
    match d
    case FromMemory(memory) => memory.ResolveSource(rawKey)
    case FromBoundHTTP(bound) => bound.Bound(remote)
    case FromHTTP => remote
  }

  datatype Accepted = Accepted(envelope: M.Envelope, key: string, source: SourceConfig)

  /** direct lists what the inner writer received without the dynamic writer in front of it. */
  datatype State = State(writer: M.State, accepted: seq<Accepted>, direct: seq<M.Envelope>)

  datatype Action =
    | CollectEvent(req: CollectRequest, remote: Resolution, stagesBuilt: bool, core: CoreOutcome)
    | StartWrite(i: nat, id: nat)
    | WriteDirectly(i: nat)
    | StepWriter(a: M.Action)

  /** A queued event may be delivered any number of times, in any order. */
  ghost predicate Feasible(d: Deployment, s: State, a: Action) {
    match a
    case CollectEvent(_, _, _, _) => true
    case StartWrite(i, id) => !d.FromMemory? && i < |s.accepted| && M.Enabled(s.writer, M.Arrive(id, s.accepted[i].envelope))
    case WriteDirectly(i) => d.FromMemory? && i < |s.accepted|
    case StepWriter(b) => !b.Arrive? && M.Enabled(s.writer, b)
  }

  /** What the HTTP resolver answers is trusted. */
  ghost predicate Enabled(d: Deployment, s: State, a: Action) {
    Feasible(d, s, a) && (a.CollectEvent? ==> Trusted(WriteKey(a.req.carriers), a.remote))
  }

  ghost function Apply(setup: M.Setup, d: Deployment, s: State, a: Action): State
    requires Feasible(d, s, a)
  {
    match a
    case CollectEvent(req, remote, stagesBuilt, core) =>
      var key := WriteKey(req.carriers);
      var r := Resolve(d, key, remote);
      var published := PublishedFor(req, r, stagesBuilt, core);
      if published.None? then s else s.(accepted := s.accepted + [Accepted(published.value, key, r.value)])
    case StartWrite(i, id) => s.(writer := M.Apply(setup, s.writer, M.Arrive(id, s.accepted[i].envelope)))
    case WriteDirectly(i) => s.(direct := s.direct + [s.accepted[i].envelope])
    case StepWriter(b) => s.(writer := M.Apply(setup, s.writer, b))
  }

  /** A process that started: its startup check of the tables passed, and nothing has happened yet. */
  ghost predicate Init(setup: M.Setup, d: Deployment, configured: seq<SourceConfig>, s: State) {
    && Matches(d, configured) && StartedUp(setup, s.writer.tables, NormalizedAll(configured))
    && M.Init(s.writer) && s.accepted == [] && s.direct == []
  }

  ghost predicate Next(setup: M.Setup, d: Deployment, s: State, t: State) {
    exists a :: Enabled(d, s, a) && t == Apply(setup, d, s, a)
  }

  ghost predicate IsRun(setup: M.Setup, d: Deployment, configured: seq<SourceConfig>, run: seq<State>) {
    && run != [] && Init(setup, d, configured, run[0])
    && forall i :: 0 <= i < |run| - 1 ==> Next(setup, d, run[i], run[i + 1])
  }

  // ---- The invariant ----

  /** The event carries the boundary of the source its key resolved to. */
  ghost predicate Sealed(a: Accepted) {
    && a.envelope.key.tenantID == a.source.tenantID && a.envelope.key.projectID == a.source.projectID
    && a.envelope.key.sourceID == a.source.sourceID && a.envelope.sourceType == a.source.sourceType
    && Servable(a.key, a.source)
  }

  ghost predicate WasAccepted(s: State, e: M.Envelope) {
    exists a :: a in s.accepted && a.envelope == e
  }

  ghost predicate GoodAccepted(setup: M.Setup, d: Deployment, s: State) {
    forall a <- s.accepted :: Sealed(a) && (!d.FromHTTP? ==> Provisioned(setup, s.writer.tables, a.source))
  }

  /** Whatever is on its way to the inner writer, or reached it, was accepted. */
  ghost predicate Traced(d: Deployment, s: State) {
    && (forall id :: id in s.writer.threads ==> WasAccepted(s, s.writer.threads[id].envelope))
    && (forall x <- s.writer.delivered :: WasAccepted(s, x.envelope))
    && (forall e <- s.direct :: WasAccepted(s, e) && d.FromMemory?)
  }

  ghost predicate Inv(setup: M.Setup, d: Deployment, s: State) {
    M.Inv(setup, s.writer) && GoodAccepted(setup, d, s) && Traced(d, s)
  }

  /** Startup names every boundary collect can accept, unless the control plane alone decides. */
  lemma ResolvedIsProvisioned(setup: M.Setup, d: Deployment, configured: seq<SourceConfig>, tables: set<string>, rawKey: string, remote: Resolution)
    requires Matches(d, configured) && StartedUp(setup, tables, NormalizedAll(configured)) && Trusted(rawKey, remote)
    ensures Trusted(rawKey, Resolve(d, rawKey, remote))
    ensures Resolve(d, rawKey, remote).Ok? && !d.FromHTTP? ==> Provisioned(setup, tables, Resolve(d, rawKey, remote).value)
  {
    var cs := NormalizedAll(configured);
    match d
    case FromMemory(memory) => MemoryIsTrusted(memory, configured, rawKey);
    case FromBoundHTTP(bound) =>
      BoundIsTrusted(bound, cs, rawKey, remote);
      if bound.Bound(remote).Ok? {
        var c :| c in cs && c.enabled && SurfaceKey(remote.value) == SurfaceKey(c);
        assert KeyOf(c) == KeyOf(remote.value);
      }
    case FromHTTP =>
  }

  lemma PublishedIsSealed(req: CollectRequest, r: Resolution, stagesBuilt: bool, core: CoreOutcome)
    requires Trusted(WriteKey(req.carriers), r) && PublishedFor(req, r, stagesBuilt, core).Some?
    ensures Sealed(Accepted(PublishedFor(req, r, stagesBuilt, core).value, WriteKey(req.carriers), r.value))
  {
    WriteKeyPrecedence(req.carriers);
  }

  lemma AcceptOneMore(setup: M.Setup, d: Deployment, s: State, x: Accepted)
    requires GoodAccepted(setup, d, s) && Sealed(x) && (!d.FromHTTP? ==> Provisioned(setup, s.writer.tables, x.source))
    ensures GoodAccepted(setup, d, s.(accepted := s.accepted + [x]))
  {
  }

  lemma CollectKeepsGood(setup: M.Setup, d: Deployment, configured: seq<SourceConfig>, s: State, a: Action)
    requires GoodAccepted(setup, d, s) && Enabled(d, s, a) && a.CollectEvent?
    requires Matches(d, configured) && StartedUp(setup, s.writer.tables, NormalizedAll(configured))
    ensures GoodAccepted(setup, d, Apply(setup, d, s, a))
  {
    var key := WriteKey(a.req.carriers);
    var r := Resolve(d, key, a.remote);
    ResolvedIsProvisioned(setup, d, configured, s.writer.tables, key, a.remote);
    var published := PublishedFor(a.req, r, a.stagesBuilt, a.core);
    if published.Some? {
      PublishedIsSealed(a.req, r, a.stagesBuilt, a.core);
      AcceptOneMore(setup, d, s, Accepted(published.value, key, r.value));
    }
  }

  lemma CollectKeepsInv(setup: M.Setup, d: Deployment, configured: seq<SourceConfig>, s: State, a: Action)
    requires Inv(setup, d, s) && Enabled(d, s, a) && a.CollectEvent?
    requires Matches(d, configured) && StartedUp(setup, s.writer.tables, NormalizedAll(configured))
    ensures Inv(setup, d, Apply(setup, d, s, a))
  {
    CollectKeepsGood(setup, d, configured, s, a);
    AcceptedKept(s, Apply(setup, d, s, a));
  }

  lemma AcceptedKept(s: State, t: State)
    requires s.accepted <= t.accepted
    ensures forall e :: WasAccepted(s, e) ==> WasAccepted(t, e)
  {
  }

  lemma WriterKeepsTrace(setup: M.Setup, d: Deployment, s: State, b: M.Action)
    requires Traced(d, s) && M.Enabled(s.writer, b)
    requires b.Arrive? ==> WasAccepted(s, b.envelope)
    ensures Traced(d, s.(writer := M.Apply(setup, s.writer, b)))
  {
    var t := s.(writer := M.Apply(setup, s.writer, b));
    AcceptedKept(s, t);
    forall id | id in t.writer.threads
      ensures WasAccepted(t, t.writer.threads[id].envelope)
    {
      M.ThreadKeepsEvent(setup, s.writer, b, id);
    }
    forall x | x in t.writer.delivered
      ensures WasAccepted(t, x.envelope)
    {
      if x !in s.writer.delivered {
        M.DeliveryHasThread(setup, s.writer, b, x);
      }
    }
  }

  lemma ProvisionedKept(setup: M.Setup, tables: set<string>, more: set<string>, c: SourceConfig)
    requires tables <= more && Provisioned(setup, tables, c)
    ensures Provisioned(setup, more, c)
  {
  }

  lemma WriterKeepsInv(setup: M.Setup, d: Deployment, s: State, b: M.Action)
    requires Inv(setup, d, s) && M.Enabled(s.writer, b)
    requires b.Arrive? ==> WasAccepted(s, b.envelope)
    ensures Inv(setup, d, s.(writer := M.Apply(setup, s.writer, b)))
  {
    var t := s.(writer := M.Apply(setup, s.writer, b));
    WriterKeepsTrace(setup, d, s, b);
    M.StepKeepsInv(setup, s.writer, b);
    M.StepGrows(setup, s.writer, b);
    forall a | a in t.accepted
      ensures Sealed(a) && (!d.FromHTTP? ==> Provisioned(setup, t.writer.tables, a.source))
    {
      if !d.FromHTTP? {
        ProvisionedKept(setup, s.writer.tables, t.writer.tables, a.source);
      }
    }
  }

  lemma StepKeepsInv(setup: M.Setup, d: Deployment, configured: seq<SourceConfig>, s: State, a: Action)
    requires Inv(setup, d, s) && Enabled(d, s, a)
    requires Matches(d, configured) && StartedUp(setup, s.writer.tables, NormalizedAll(configured))
    ensures Inv(setup, d, Apply(setup, d, s, a)) && StartedUp(setup, Apply(setup, d, s, a).writer.tables, NormalizedAll(configured))
  {
    match a
    case CollectEvent(_, _, _, _) => CollectKeepsInv(setup, d, configured, s, a);
    case StartWrite(i, id) =>
      assert s.accepted[i] in s.accepted;
      WriterKeepsInv(setup, d, s, M.Arrive(id, s.accepted[i].envelope));
    case WriteDirectly(i) =>
      assert s.accepted[i] in s.accepted;
      AcceptedKept(s, Apply(setup, d, s, a));
    case StepWriter(b) =>
      WriterKeepsInv(setup, d, s, b);
      M.StepGrows(setup, s.writer, b);
  }

  lemma {:induction false} RunKeepsInv(setup: M.Setup, d: Deployment, configured: seq<SourceConfig>, run: seq<State>, n: nat)
    requires IsRun(setup, d, configured, run) && n < |run|
    ensures Inv(setup, d, run[n]) && StartedUp(setup, run[n].writer.tables, NormalizedAll(configured))
  {
    if n > 0 {
      RunKeepsInv(setup, d, configured, run, n - 1);
      assert Next(setup, d, run[n - 1], run[(n - 1) + 1]);
      var a :| Enabled(d, run[n - 1], a) && run[n] == Apply(setup, d, run[n - 1], a);
      StepKeepsInv(setup, d, configured, run[n - 1], a);
    } else {
      M.InitInv(setup, run[0].writer);
    }
  }

  // ---- Main result ----

  /**
   * In every run of every deployment, each event the inner writer receives was accepted by this process under the
   * boundary of the source its write key resolved to, and the tables of that boundary exist.
   */
  lemma InnerWriterFindsTables(setup: M.Setup, d: Deployment, configured: seq<SourceConfig>, run: seq<State>, n: nat, e: M.Envelope)
    requires IsRun(setup, d, configured, run) && n < |run|
    requires e in run[n].direct || exists x :: x in run[n].writer.delivered && x.envelope == e
    ensures exists a :: a in run[n].accepted && a.envelope == e && Sealed(a) && Provisioned(setup, run[n].writer.tables, a.source)
  {
    RunKeepsInv(setup, d, configured, run, n);
    var s := run[n];
    assert WasAccepted(s, e);
    var a :| a in s.accepted && a.envelope == e;
    assert Sealed(a);
  }

  /** With startup sources, the tables of an event exist from the moment it is accepted. */
  lemma AcceptedHasTables(setup: M.Setup, d: Deployment, configured: seq<SourceConfig>, run: seq<State>, n: nat, a: Accepted)
    requires IsRun(setup, d, configured, run) && n < |run| && a in run[n].accepted
    ensures Sealed(a)
    ensures !d.FromHTTP? ==> Provisioned(setup, run[n].writer.tables, a.source)
  {
    RunKeepsInv(setup, d, configured, run, n);
  }

  // ---- With the HTTP resolver itself ----

  /** The HTTP resolver answers r for the key, somewhere in a run of its calls. */
  ghost predicate Answers(calls: seq<RM.State>, key: string, r: Resolution) {
    || (key == "" && r == Err(SourceNotFound))
    || exists n: nat, id: nat :: n < |calls| && id in calls[n].calls && Returns(calls[n].calls[id], key, r)
  }

  predicate Returns(call: RM.Call, key: string, r: Resolution) {
    call.key == key && call.phase.Returned? && call.phase.result == r
  }

  lemma AnswersAreTrusted(ttl: int, calls: seq<RM.State>, key: string, r: Resolution)
    requires RM.IsRun(RM.Service(ttl), calls) && Answers(calls, key, r)
    ensures Trusted(key, r)
  {
    if exists n: nat, id: nat :: n < |calls| && id in calls[n].calls && Returns(calls[n].calls[id], key, r) {
      var n: nat, id: nat :| n < |calls| && id in calls[n].calls && Returns(calls[n].calls[id], key, r);
      RM.ResultIsTrusted(ttl, calls, n, id);
    }
  }

  /** A step in which whatever the control plane contributes to a collect request is an answer of the HTTP resolver. */
  ghost predicate ServiceNext(setup: M.Setup, d: Deployment, calls: seq<RM.State>, s: State, t: State) {
    exists a :: Feasible(d, s, a) && (a.CollectEvent? ==> Answers(calls, WriteKey(a.req.carriers), a.remote)) && t == Apply(setup, d, s, a)
  }

  /** A run of the service beside a run of its HTTP resolver's calls, against a control plane that changes. */
  ghost predicate IsServiceRun(setup: M.Setup, d: Deployment, configured: seq<SourceConfig>, ttl: int, calls: seq<RM.State>, run: seq<State>) {
    && RM.IsRun(RM.Service(ttl), calls)
    && run != [] && Init(setup, d, configured, run[0])
    && forall i :: 0 <= i < |run| - 1 ==> ServiceNext(setup, d, calls, run[i], run[i + 1])
  }

  lemma ServiceRunIsRun(setup: M.Setup, d: Deployment, configured: seq<SourceConfig>, ttl: int, calls: seq<RM.State>, run: seq<State>)
    requires IsServiceRun(setup, d, configured, ttl, calls, run)
    ensures IsRun(setup, d, configured, run)
  {
    forall i | 0 <= i < |run| - 1
      ensures Next(setup, d, run[i], run[i + 1])
    {
      assert ServiceNext(setup, d, calls, run[i], run[i + 1]);
      var a :| Feasible(d, run[i], a) && (a.CollectEvent? ==> Answers(calls, WriteKey(a.req.carriers), a.remote))
               && run[i + 1] == Apply(setup, d, run[i], a);
      if a.CollectEvent? {
        AnswersAreTrusted(ttl, calls, WriteKey(a.req.carriers), a.remote);
      }
      assert Enabled(d, run[i], a);
    }
  }

  /**
   * With cache, control plane, startup gate and writers together: whatever the inner writer receives in any run of the
   * service was accepted under the boundary its write key resolved to, and the tables of that boundary exist.
   */
  lemma ServiceFindsTables(setup: M.Setup, d: Deployment, configured: seq<SourceConfig>, ttl: int, calls: seq<RM.State>,
                           run: seq<State>, n: nat, e: M.Envelope)
    requires IsServiceRun(setup, d, configured, ttl, calls, run) && n < |run|
    requires e in run[n].direct || exists x :: x in run[n].writer.delivered && x.envelope == e
    ensures exists a :: a in run[n].accepted && a.envelope == e && Sealed(a) && Provisioned(setup, run[n].writer.tables, a.source)
  {
    ServiceRunIsRun(setup, d, configured, ttl, calls, run);
    InnerWriterFindsTables(setup, d, configured, run, n, e);
  }

  // ---- What is accepted ----

  /** What a request needs besides its source to be accepted. */
  predicate Acceptable(req: CollectRequest, source: SourceConfig, stagesBuilt: bool, core: CoreOutcome) {
    req.payload.Some? && AllowsOrigin(source, req.origin) && stagesBuilt && core == Publishes
  }

  /**
   * An acceptable event for an enabled source is accepted under that source: a configured one with the memory resolver, what
   * the control plane answers on its own, and that too behind the startup gate when startup names it.
   */
  lemma EnabledSourceIsAccepted(setup: M.Setup, d: Deployment, configured: seq<SourceConfig>, s: State, req: CollectRequest,
                                remote: Resolution, stagesBuilt: bool, core: CoreOutcome, source: SourceConfig)
    requires Matches(d, configured) && source.enabled && Acceptable(req, source, stagesBuilt, core)
    requires d.FromMemory? ==> source in NormalizedAll(configured) && source.writeKey == WriteKey(req.carriers)
    requires !d.FromMemory? ==> remote == Ok(source) && Trusted(WriteKey(req.carriers), remote)
    requires d.FromBoundHTTP? ==> exists body :: body in configured && DescribesSource(body, source)
    ensures
      var e := M.Envelope(req.payload.value.id, M.RoutingKey(source.tenantID, source.projectID, source.sourceID), source.sourceType);
      Apply(setup, d, s, CollectEvent(req, remote, stagesBuilt, core)).accepted == s.accepted + [Accepted(e, WriteKey(req.carriers), source)]
  {
    WriteKeyPrecedence(req.carriers);
    EnabledSourceIsResolved(d, configured, WriteKey(req.carriers), remote, source);
  }

  lemma EnabledSourceIsResolved(d: Deployment, configured: seq<SourceConfig>, key: string, remote: Resolution, source: SourceConfig)
    requires Matches(d, configured) && source.enabled && Trim(key) == key
    requires d.FromMemory? ==> source in NormalizedAll(configured) && source.writeKey == key
    requires !d.FromMemory? ==> remote == Ok(source) && Trusted(key, remote)
    requires d.FromBoundHTTP? ==> exists body :: body in configured && DescribesSource(body, source)
    ensures Resolve(d, key, remote) == Ok(source)
  {
    match d
    case FromMemory(memory) => MemoryAnswersEverySource(memory, configured, key, source);
    case FromBoundHTTP(bound) => BoundPassesNamed(bound, configured, key, remote);
    case FromHTTP =>
  }

  // ---- Whose names an event carries ----

  /** A configured body, or one the control plane held under the key. */
  ghost predicate Known(d: Deployment, configured: seq<SourceConfig>, calls: seq<RM.State>, key: string, body: SourceConfig) {
    if d.FromMemory? then body in configured
    else exists n, i :: 0 <= n < |calls| && 0 <= i < |calls[n].history| && Published(calls[n].history[i], key, body)
  }

  ghost predicate Published(table: RM.Table, key: string, body: SourceConfig) {
    key in table && table[key].body == body
  }

  /** The event carries the trimmed key, names and type of an enabled known body; behind the startup gate of a configured one besides. */
  ghost predicate NamesBody(d: Deployment, configured: seq<SourceConfig>, calls: seq<RM.State>, a: Accepted) {
    && (exists body :: Known(d, configured, calls, a.key, body) && DescribesEvent(body, a))
    && (!d.FromHTTP? ==> exists body :: body in configured && DescribesEvent(body, a))
  }

  ghost predicate DescribesEvent(body: SourceConfig, a: Accepted) {
    var k := a.envelope.key;
    Describes(body, a.key, k.tenantID, k.projectID, k.sourceID, a.envelope.sourceType)
  }

  lemma RemoteNamesItsBody(d: Deployment, configured: seq<SourceConfig>, ttl: int, calls: seq<RM.State>, key: string, c: SourceConfig)
    requires RM.IsRun(RM.Service(ttl), calls) && Answers(calls, key, Ok(c)) && !d.FromMemory?
    ensures c.writeKey == key
    ensures exists body :: Known(d, configured, calls, key, body) && DescribesSource(body, c)
  {
    var n: nat, id: nat :| n < |calls| && id in calls[n].calls && Returns(calls[n].calls[id], key, Ok(c));
    var i := RM.SuccessNamesItsBody(ttl, calls, n, id);
    var body := calls[n].history[i][key].body;
    assert Published(calls[n].history[i], key, body);
    assert Known(d, configured, calls, key, body);
  }

  /** Whatever a key resolves to has that key and the names of a known body. */
  lemma ResolvedNamesItsBody(d: Deployment, configured: seq<SourceConfig>, ttl: int, calls: seq<RM.State>, key: string, remote: Resolution)
    requires Matches(d, configured) && RM.IsRun(RM.Service(ttl), calls) && Answers(calls, key, remote) && Trim(key) == key
    requires Resolve(d, key, remote).Ok?
    ensures
      var c := Resolve(d, key, remote).value;
      && c.writeKey == key
      && (exists body :: Known(d, configured, calls, key, body) && DescribesSource(body, c))
      && (!d.FromHTTP? ==> exists body :: body in configured && DescribesSource(body, c))
  {
    match d
    case FromMemory(memory) => MemoryNamesItsBody(memory, configured, key);
    case FromBoundHTTP(bound) =>
      AnswersAreTrusted(ttl, calls, key, remote);
      BoundIsTrusted(bound, NormalizedAll(configured), key, remote);
      BoundPassesNamed(bound, configured, key, remote);
      RemoteNamesItsBody(d, configured, ttl, calls, key, remote.value);
    case FromHTTP =>
      RemoteNamesItsBody(d, configured, ttl, calls, key, remote.value);
  }

  /** What one collect request adds to the accepted events. */
  ghost predicate AcceptedBy(d: Deployment, req: CollectRequest, remote: Resolution, stagesBuilt: bool, core: CoreOutcome, a: Accepted) {
    var r := Resolve(d, WriteKey(req.carriers), remote);
    PublishedFor(req, r, stagesBuilt, core).Some? && a == Accepted(PublishedFor(req, r, stagesBuilt, core).value, WriteKey(req.carriers), r.value)
  }

  lemma CollectNamesItsBody(d: Deployment, configured: seq<SourceConfig>, ttl: int, calls: seq<RM.State>, req: CollectRequest,
                            remote: Resolution, stagesBuilt: bool, core: CoreOutcome, a: Accepted)
    requires Matches(d, configured) && RM.IsRun(RM.Service(ttl), calls) && Answers(calls, WriteKey(req.carriers), remote)
    requires AcceptedBy(d, req, remote, stagesBuilt, core, a)
    ensures NamesBody(d, configured, calls, a)
  {
    var key := WriteKey(req.carriers);
    var r := Resolve(d, key, remote);
    WriteKeyPrecedence(req.carriers);
    PublishedMeaning(req, r, stagesBuilt, core);
    ResolvedNamesItsBody(d, configured, ttl, calls, key, remote);
    forall body | DescribesSource(body, r.value)
      ensures DescribesEvent(body, a)
    {
    }
  }

  ghost predicate AllNamed(d: Deployment, configured: seq<SourceConfig>, calls: seq<RM.State>, s: State) {
    forall a <- s.accepted :: NamesBody(d, configured, calls, a)
  }

  lemma NewlyAccepted(setup: M.Setup, d: Deployment, s: State, act: Action, a: Accepted)
    requires Feasible(d, s, act) && a in Apply(setup, d, s, act).accepted && a !in s.accepted
    ensures act.CollectEvent? && AcceptedBy(d, act.req, act.remote, act.stagesBuilt, act.core, a)
  {
  }

  lemma StepNamesBodies(setup: M.Setup, d: Deployment, configured: seq<SourceConfig>, ttl: int, calls: seq<RM.State>, s: State, t: State)
    requires Matches(d, configured) && RM.IsRun(RM.Service(ttl), calls) && ServiceNext(setup, d, calls, s, t)
    requires AllNamed(d, configured, calls, s)
    ensures AllNamed(d, configured, calls, t)
  {
    var act :| Feasible(d, s, act) && (act.CollectEvent? ==> Answers(calls, WriteKey(act.req.carriers), act.remote)) && t == Apply(setup, d, s, act);
    forall a | a in t.accepted && a !in s.accepted
      ensures NamesBody(d, configured, calls, a)
    {
      NewlyAccepted(setup, d, s, act, a);
      CollectNamesItsBody(d, configured, ttl, calls, act.req, act.remote, act.stagesBuilt, act.core, a);
    }
  }

  /** In every run of the service each accepted event carries the names of a body configured, or published, under its write key. */
  lemma {:induction false} AcceptedNameBodies(setup: M.Setup, d: Deployment, configured: seq<SourceConfig>, ttl: int, calls: seq<RM.State>,
                                              run: seq<State>, n: nat)
    requires IsServiceRun(setup, d, configured, ttl, calls, run) && n < |run|
    ensures AllNamed(d, configured, calls, run[n])
  {
    if n > 0 {
      AcceptedNameBodies(setup, d, configured, ttl, calls, run, n - 1);
      assert ServiceNext(setup, d, calls, run[n - 1], run[(n - 1) + 1]);
      StepNamesBodies(setup, d, configured, ttl, calls, run[n - 1], run[n]);
    }
  }

  /** So does whatever the inner writer receives. */
  lemma DeliveredNamesBody(setup: M.Setup, d: Deployment, configured: seq<SourceConfig>, ttl: int, calls: seq<RM.State>,
                           run: seq<State>, n: nat, e: M.Envelope)
    requires IsServiceRun(setup, d, configured, ttl, calls, run) && n < |run|
    requires e in run[n].direct || exists x :: x in run[n].writer.delivered && x.envelope == e
    ensures exists a :: a in run[n].accepted && a.envelope == e && NamesBody(d, configured, calls, a)
  {
    ServiceFindsTables(setup, d, configured, ttl, calls, run, n, e);
    AcceptedNameBodies(setup, d, configured, ttl, calls, run, n);
  }
}
