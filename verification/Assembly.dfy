/** Assembling the runtime: every resource taken on the way is owned at the end or given back. */
module Assembly {
  import opened Wrappers

  // ---- Resources ----

  datatype Kind = GeoDatabase | RedisClient | KafkaBus | MySQLProbe | MySQLPool | ClickHousePool | ClickHouseConn

  datatype Resource = Resource(id: nat, kind: Kind)

  /** Lost: the last reference to an open resource is dropped without closing it. */
  datatype Event = Opened(r: Resource) | Closed(r: Resource, ok: bool) | Lost(r: Resource)

  /** The open resources in order of acquisition; None once a log opens an id twice or gives back anything but the latest. */
  ghost function Replay(log: seq<Event>): Option<seq<Resource>> {
    if log == [] then Some([])
    else
      var n := |log| - 1;
      match Replay(log[..n])
      case None => None
      case Some(open) =>
        match log[n]
        case Opened(r) => if r.id == Openings(log[..n]) then Some(open + [r]) else None
        case Closed(r, _) => if open != [] && open[|open| - 1] == r then Some(open[..|open| - 1]) else None
        case Lost(r) => if open != [] && open[|open| - 1] == r then Some(open[..|open| - 1]) else None
  }

  ghost function Openings(log: seq<Event>): nat {
    if log == [] then 0 else Openings(log[..|log| - 1]) + if log[|log| - 1].Opened? then 1 else 0
  }

  ghost function Losses(log: seq<Event>): nat {
    if log == [] then 0 else Losses(log[..|log| - 1]) + if log[|log| - 1].Lost? then 1 else 0
  }

  /** How often the log gives back the resource with this id. */
  ghost function GivenBack(log: seq<Event>, id: nat): nat {
    if log == [] then 0
    else GivenBack(log[..|log| - 1], id) + if !log[|log| - 1].Opened? && log[|log| - 1].r.id == id then 1 else 0
  }

  ghost predicate StillOpen(open: seq<Resource>, id: nat) {
    exists i :: 0 <= i < |open| && open[i].id == id
  }

  /** The ids are apart, and below n. */
  ghost predicate Fresh(open: seq<Resource>, n: nat) {
    && (forall i :: 0 <= i < |open| ==> open[i].id < n)
    && (forall i, j :: 0 <= i < j < |open| ==> open[i].id != open[j].id)
  }

  lemma StillOpenPushed(open: seq<Resource>, r: Resource, id: nat)
    ensures StillOpen(open + [r], id) <==> StillOpen(open, id) || r.id == id
  {
    var more := open + [r];
    assert more[|open|] == r;
    if StillOpen(open, id) {
      var i :| 0 <= i < |open| && open[i].id == id;
      assert more[i].id == id;
    }
  }

  lemma FreshPushed(open: seq<Resource>, r: Resource, n: nat)
    ensures Fresh(open, n) && r.id == n ==> Fresh(open + [r], n + 1)
    ensures Fresh(open + [r], n) ==> Fresh(open, n) && !StillOpen(open, r.id) && r.id < n
  {
    var more := open + [r];
    assert more[|open|] == r;
    assert forall i :: 0 <= i < |open| ==> more[i] == open[i];
  }

  /** In a log that replays, what is not open any more was given back exactly once, and what is open never. */
  lemma {:induction false} GivenBackOnce(log: seq<Event>, id: nat)
    requires Replay(log).Some?
    ensures Fresh(Replay(log).value, Openings(log))
    ensures GivenBack(log, id) == if id < Openings(log) && !StillOpen(Replay(log).value, id) then 1 else 0
  {
    if log != [] {
      var n := |log| - 1;
      GivenBackOnce(log[..n], id);
      var before, after := Replay(log[..n]).value, Replay(log).value;
      if log[n].Opened? {
        FreshPushed(before, log[n].r, Openings(log[..n]));
        StillOpenPushed(before, log[n].r, id);
      } else {
        assert before == after + [log[n].r];
        FreshPushed(after, log[n].r, Openings(log[..n]));
        StillOpenPushed(after, log[n].r, id);
      }
    }
  }

  // ---- The outside calls of an assembly ----

  datatype Step =
    | SourceResolver | GeoOpen | RedisPing | RedisStream | KafkaTLS | KafkaNew | TrackerFile
    | ClickHouseOpen | ClickHouseHandle | ClickHousePing | TableRouter | QueryBuilder | EventReader
    | MySQLParse | MySQLPing | MySQLOpen | MySQLHandle | CatalogNew | CatalogMigrate | CatalogTable
    | AppNew | NativeOpen | NativePing | WriterNew | ProcessorNew

  /** The step asks an open pool for its SQL handle. */
  predicate TakesHandle(s: Step) {
    s.ClickHouseHandle? || s.MySQLHandle?
  }

  /** Step p is the first to fail when the steps start at the given call number. */
  ghost predicate FailsAt(outcomes: Outcomes, from: nat, steps: seq<Step>, p: nat) {
    p < |steps| && AllSucceed(outcomes, from, p) && !outcomes(from + p)
  }

  /** The first step to fail is one that asks for a handle. */
  ghost predicate LosesHandle(outcomes: Outcomes, from: nat, steps: seq<Step>) {
    exists p: nat :: FailsAt(outcomes, from, steps, p) && TakesHandle(steps[p])
  }

  /** The first p steps were made, and succeeded. */
  ghost predicate Through(outcomes: Outcomes, start: nat, now: nat, p: nat) {
    now == start + p && AllSucceed(outcomes, start, p)
  }

  /** The steps were made in order, all of them or up to the first that failed; a handle that failed cost one pool. */
  ghost predicate Ran(outcomes: Outcomes, start: nat, now: nat, lost: int, steps: seq<Step>, ok: bool) {
    if ok then Through(outcomes, start, now, |steps|) && lost == 0
    else
      && start < now <= start + |steps|
      && FailsAt(outcomes, start, steps, now - start - 1)
      && lost == if TakesHandle(steps[now - start - 1]) then 1 else 0
  }

  lemma RanBoth(outcomes: Outcomes, start: nat, mid: nat, now: nat, lost: int, a: seq<Step>, b: seq<Step>, ok: bool)
    requires Ran(outcomes, start, mid, 0, a, true) && Ran(outcomes, mid, now, lost, b, ok)
    ensures Ran(outcomes, start, now, lost, a + b, ok)
  {
  }

  lemma RanFailed(outcomes: Outcomes, start: nat, now: nat, lost: int, a: seq<Step>, b: seq<Step>)
    requires Ran(outcomes, start, now, lost, a, false)
    ensures Ran(outcomes, start, now, lost, a + b, false)
  {
  }

  /** What a run of steps came to follows from the outcomes alone. */
  lemma RanDecided(outcomes: Outcomes, start: nat, now: nat, lost: int, steps: seq<Step>, ok: bool)
    requires Ran(outcomes, start, now, lost, steps, ok)
    ensures ok <==> AllSucceed(outcomes, start, |steps|)
    ensures lost == if LosesHandle(outcomes, start, steps) then 1 else 0
  {
    if LosesHandle(outcomes, start, steps) {
      var p: nat :| FailsAt(outcomes, start, steps, p) && TakesHandle(steps[p]);
      if !ok {
        FirstFailureIsUnique(outcomes, start, steps, p, now - start - 1);
      }
    }
  }

  lemma FirstFailureIsUnique(outcomes: Outcomes, from: nat, steps: seq<Step>, p: nat, q: nat)
    requires FailsAt(outcomes, from, steps, p) && FailsAt(outcomes, from, steps, q)
    ensures p == q
  {
  }

  // ---- The environment ----

  /** Where every call outside the service may fail. */
  class Environment {
    const outcomes: Outcomes
    var calls: nat
    var log: seq<Event>
    var count: nat

    constructor (outcomes: Outcomes)
      ensures this.outcomes == outcomes && calls == 0 && log == [] && count == 0
    {
      this.outcomes := outcomes;
      calls, log, count := 0, [], 0;
    }

    ghost predicate Holds(open: seq<Resource>)
      reads this
    {
      Replay(log) == Some(open) && count == Openings(log)
    }

    /** Makes step p of the steps begun at call number start. */
    method Try(step: Step, ghost start: nat, ghost steps: seq<Step>, ghost p: nat) returns (ok: bool)
      requires Through(outcomes, start, calls, p) && p < |steps| && steps[p] == step
      modifies this`calls
      ensures ok == outcomes(old(calls)) && calls == old(calls) + 1
      ensures if ok then Through(outcomes, start, calls, p + 1)
              else Ran(outcomes, start, calls, if TakesHandle(step) then 1 else 0, steps, false)
    {
      ok := outcomes(calls);
      calls := calls + 1;
    }

    method Open(kind: Kind, ghost open: seq<Resource>) returns (r: Resource)
      requires Holds(open)
      modifies this`log, this`count
      ensures Holds(open + [r]) && r.kind == kind
      ensures log == old(log) + [Opened(r)]
      ensures Losses(log) == Losses(old(log))
    {
      r := Resource(count, kind);
      assert (log + [Opened(r)])[..|log|] == log;
      log, count := log + [Opened(r)], count + 1;
    }

    method Close(r: Resource, ghost open: seq<Resource>) returns (ok: bool)
      requires Holds(open + [r])
      modifies this`log, this`count
      ensures Holds(open)
      ensures log == old(log) + [Closed(r, ok)]
      ensures Losses(log) == Losses(old(log))
    {
      ok := *;
      assert (log + [Closed(r, ok)])[..|log|] == log;
      assert (open + [r])[..|open|] == open;
      log := log + [Closed(r, ok)];
    }

    method Lose(r: Resource, ghost open: seq<Resource>)
      requires Holds(open + [r])
      modifies this`log, this`count
      ensures Holds(open)
      ensures log == old(log) + [Lost(r)]
      ensures Losses(log) == Losses(old(log)) + 1
    {
      assert (log + [Lost(r)])[..|log|] == log;
      assert (open + [r])[..|open|] == open;
      log := log + [Lost(r)];
    }
  }

  // ---- Closing ----

  /** A closer may be nil. */
  type Closer = Option<Resource>

  ghost function Handles(closers: seq<Closer>): seq<Resource> {
    if closers == [] then []
    else
      var last := closers[|closers| - 1];
      Handles(closers[..|closers| - 1]) + if last.Some? then [last.value] else []
  }

  lemma {:induction false} HandlesConcat(a: seq<Closer>, b: seq<Closer>)
    ensures Handles(a + b) == Handles(a) + Handles(b)
  {
    if b == [] {
      assert a + b == a;
    } else {
      assert (a + b)[..|a + b| - 1] == a + b[..|b| - 1];
      HandlesConcat(a, b[..|b| - 1]);
    }
  }

  /** The events close exactly the given resources, last first, and count the failures. */
  ghost predicate ClosesInReverse(events: seq<Event>, rs: seq<Resource>, failures: nat) {
    ClosesLast(events, rs, |rs|) && failures == Failures(events)
  }

  /** The events close the last n resources, last first. */
  ghost predicate ClosesLast(events: seq<Event>, rs: seq<Resource>, n: nat) {
    && |events| == n <= |rs|
    && forall i :: 0 <= i < n ==> events[i].Closed? && events[i].r == rs[|rs| - 1 - i]
  }

  ghost function Failures(events: seq<Event>): nat {
    if events == [] then 0
    else Failures(events[..|events| - 1]) + if events[|events| - 1].Closed? && !events[|events| - 1].ok then 1 else 0
  }

  /** No failure is counted exactly when every close went well. */
  lemma {:induction false} FailuresMeaning(events: seq<Event>)
    ensures Failures(events) == 0 <==> forall i :: 0 <= i < |events| && events[i].Closed? ==> events[i].ok
    ensures Failures(events) <= |events|
  {
    if events != [] {
      FailuresMeaning(events[..|events| - 1]);
      assert events == events[..|events| - 1] + [events[|events| - 1]];
    }
  }

  lemma CloseOneMore(events: seq<Event>, rs: seq<Resource>, left: seq<Resource>, r: Resource, ok: bool)
    requires |left| < |rs| && left + [r] == rs[..|left| + 1]
    requires ClosesLast(events, rs, |rs| - |left| - 1)
    ensures left == rs[..|left|] && ClosesLast(events + [Closed(r, ok)], rs, |rs| - |left|)
    ensures Failures(events + [Closed(r, ok)]) == Failures(events) + if ok then 0 else 1
  {
    assert (events + [Closed(r, ok)])[..|events|] == events;
    assert (left + [r])[..|left|] == left;
    assert rs[|left|] == (left + [r])[|left|];
  }

  /** Closes everything, last first, whatever fails; errors are joined. */
  method CloseAll(e: Environment, closers: seq<Closer>) returns (failures: nat)
    requires e.Holds(Handles(closers))
    modifies e`log, e`count
    ensures e.Holds([])
    ensures |old(e.log)| <= |e.log| && e.log[..|old(e.log)|] == old(e.log)
    ensures ClosesInReverse(e.log[|old(e.log)|..], Handles(closers), failures)
    ensures Losses(e.log) == Losses(old(e.log))
  {
    failures := 0;
    ghost var events: seq<Event> := [];
    ghost var all := Handles(closers);
    ghost var left := all;
    assert closers[..|closers|] == closers;
    var idx := |closers| - 1;
    while idx >= 0
      invariant -1 <= idx < |closers|
      invariant e.log == old(e.log) + events
      invariant left == Handles(closers[..idx + 1]) && e.Holds(left)
      invariant |left| <= |all| && left == all[..|left|] && ClosesLast(events, all, |all| - |left|)
      invariant failures == Failures(events)
      invariant Losses(e.log) == Losses(old(e.log))
      decreases idx
    {
      assert closers[..idx + 1][..idx] == closers[..idx];
      if closers[idx].Some? {
        left := Handles(closers[..idx]);
        var ok := e.Close(closers[idx].value, left);
        CloseOneMore(events, all, left, closers[idx].value, ok);
        events := events + [Closed(closers[idx].value, ok)];
        failures := if ok then failures else failures + 1;
      }
      idx := idx - 1;
    }
  }

  // ---- The parts ----

  datatype BusKind = Redis | Kafka | Direct | UnsupportedBus

  datatype Config = Config(
    geoFile: bool, bus: BusKind, kafkaDiagnostics: bool, kafkaMetrics: bool,
    query: bool, mysqlDSN: bool, mysqlAutoMigrate: bool, ingestion: bool)

  /** Why assembly stops. NoHandle: the SQL handle of an opened pool cannot be had. */
  datatype Failure = BadConfig | OpenFailed | PingFailed | NoHandle | BuildFailed

  type Parts = Result<seq<Closer>, Failure>

  function GeoSteps(cfg: Config): seq<Step> {
    if cfg.geoFile then [GeoOpen] else []
  }

  const REDIS_STEPS: seq<Step> := [RedisPing, RedisStream]
  const KAFKA_STEPS: seq<Step> := [KafkaTLS, KafkaNew]

  function BusSteps(cfg: Config): seq<Step> {
    match cfg.bus
    case Redis => REDIS_STEPS
    case Kafka => KAFKA_STEPS
    case _ => []
  }

  const POOL_STEPS: seq<Step> := [ClickHouseOpen, ClickHouseHandle, ClickHousePing]
  const PROBE_STEPS: seq<Step> := [MySQLParse, MySQLPing]
  const GORM_STEPS: seq<Step> := [MySQLOpen, MySQLHandle]
  const MYSQL_STEPS: seq<Step> := PROBE_STEPS + GORM_STEPS
  const READER_STEPS: seq<Step> := [TableRouter, QueryBuilder, EventReader]
  const NATIVE_STEPS: seq<Step> := [NativeOpen, NativePing]
  const WORKER_STEPS: seq<Step> := [WriterNew, ProcessorNew]

  function QuerySteps(cfg: Config): seq<Step> {
    if cfg.query then POOL_STEPS + READER_STEPS else []
  }

  function CatalogTableSteps(cfg: Config): seq<Step> {
    [CatalogNew, if cfg.mysqlAutoMigrate then CatalogMigrate else CatalogTable]
  }

  function CatalogSteps(cfg: Config): seq<Step> {
    if cfg.query && cfg.mysqlDSN then MYSQL_STEPS + CatalogTableSteps(cfg) else []
  }

  function IngestionSteps(cfg: Config): seq<Step> {
    if cfg.ingestion then MYSQL_STEPS + NATIVE_STEPS + WORKER_STEPS else []
  }

  function IngressSteps(cfg: Config): seq<Step> {
    [SourceResolver] + GeoSteps(cfg) + BusSteps(cfg)
  }

  function ReaderSteps(cfg: Config): seq<Step> {
    QuerySteps(cfg) + CatalogSteps(cfg)
  }

  function ServingSteps(cfg: Config): seq<Step> {
    [AppNew] + IngestionSteps(cfg)
  }

  function InnerSteps(cfg: Config): seq<Step> {
    ReaderSteps(cfg) + ServingSteps(cfg)
  }

  function TrackerSteps(cfg: Config): seq<Step> {
    [TrackerFile] + InnerSteps(cfg)
  }

  /** Every outside call a complete assembly makes, in order. */
  function Plan(cfg: Config): seq<Step> {
    IngressSteps(cfg) + TrackerSteps(cfg)
  }

  /** The calls since the old state are the steps, and each handle that failed cost one pool. */
  twostate predicate Made(e: Environment, steps: seq<Step>, ok: bool)
    reads e
  {
    Ran(e.outcomes, old(e.calls), e.calls, Losses(e.log) - Losses(old(e.log)), steps, ok)
  }

  /** A part of the assembly makes its steps, keeps what it returns, gives back everything else, and loses a pool only without its handle. */
  twostate predicate Settles(e: Environment, open: seq<Resource>, new r: Parts, steps: seq<Step>)
    reads e
  {
    && e.Holds(if r.Ok? then open + Handles(r.value) else open)
    && Made(e, steps, r.Ok?)
    && Losses(e.log) == Losses(old(e.log)) + (if r == Err(NoHandle) then 1 else 0)
  }

  /** The same for a part that returns one resource. */
  twostate predicate Opens(e: Environment, open: seq<Resource>, new r: Result<Resource, Failure>, steps: seq<Step>)
    reads e
  {
    && e.Holds(if r.Ok? then open + [r.value] else open)
    && Made(e, steps, r.Ok?)
    && Losses(e.log) == Losses(old(e.log)) + (if r == Err(NoHandle) then 1 else 0)
  }

  ghost predicate HasKinds(closers: seq<Closer>, kinds: seq<Kind>) {
    |closers| == |kinds| && forall i :: 0 <= i < |kinds| ==> closers[i].Some? && closers[i].value.kind == kinds[i]
  }

  lemma HandlesOfOne(c: Closer)
    ensures Handles([c]) == if c.Some? then [c.value] else []
    ensures Handles([]) == []
  {
    assert [c][..0] == [];
    assert [] + (if c.Some? then [c.value] else []) == if c.Some? then [c.value] else [];
  }

  method NewGeoResolver(cfg: Config, e: Environment, ghost open: seq<Resource>) returns (r: Parts)
    requires e.Holds(open)
    modifies e
    ensures Settles(e, open, r, GeoSteps(cfg)) && r != Err(NoHandle)
    ensures r.Ok? ==> HasKinds(r.value, GeoKinds(cfg))
  {
    assert open + Handles([]) == open;
    ghost var start := e.calls;
    if !cfg.geoFile {
      return Ok([]);
    }
    var ok := e.Try(GeoOpen, start, GeoSteps(cfg), 0);
    if !ok {
      return Err(OpenFailed);
    }
    var resolver := e.Open(GeoDatabase, open);
    HandlesOfOne(Some(resolver));
    return Ok([Some(resolver)]);
  }

  /** One step of building on an open resource: a failure closes the resource. */
  method BuildOrClose(pool: Resource, e: Environment, step: Step, ghost open: seq<Resource>, ghost start: nat, ghost steps: seq<Step>, ghost p: nat)
    returns (ok: bool)
    requires e.Holds(open + [pool]) && !TakesHandle(step)
    requires Through(e.outcomes, start, e.calls, p) && p < |steps| && steps[p] == step
    modifies e
    ensures e.Holds(if ok then open + [pool] else open)
    ensures if ok then Through(e.outcomes, start, e.calls, p + 1) else Ran(e.outcomes, start, e.calls, 0, steps, false)
    ensures Losses(e.log) == Losses(old(e.log))
  {
    ok := e.Try(step, start, steps, p);
    if !ok {
      var _ := e.Close(pool, open);
    }
  }

  method NewRedisBus(e: Environment, ghost open: seq<Resource>) returns (r: Parts)
    requires e.Holds(open)
    modifies e
    ensures Settles(e, open, r, REDIS_STEPS) && r != Err(NoHandle)
    ensures r.Ok? ==> HasKinds(r.value, [RedisClient])
  {
    ghost var start := e.calls;
    var client := e.Open(RedisClient, open);
    var pinged := BuildOrClose(client, e, RedisPing, open, start, REDIS_STEPS, 0);
    if !pinged {
      return Err(PingFailed);
    }
    var built := BuildOrClose(client, e, RedisStream, open, start, REDIS_STEPS, 1);
    if !built {
      return Err(BuildFailed);
    }
    HandlesOfOne(Some(client));
    return Ok([Some(client)]);
  }

  method NewKafkaBus(e: Environment, ghost open: seq<Resource>) returns (r: Parts)
    requires e.Holds(open)
    modifies e
    ensures Settles(e, open, r, KAFKA_STEPS) && r != Err(NoHandle)
    ensures r.Ok? ==> HasKinds(r.value, [KafkaBus])
  {
    ghost var start := e.calls;
    var tls := e.Try(KafkaTLS, start, KAFKA_STEPS, 0);
    if !tls {
      return Err(BadConfig);
    }
    var built := e.Try(KafkaNew, start, KAFKA_STEPS, 1);
    if !built {
      return Err(BuildFailed);
    }
    var bus := e.Open(KafkaBus, open);
    HandlesOfOne(Some(bus));
    return Ok([Some(bus)]);
  }

  method NewEventBus(cfg: Config, e: Environment, ghost open: seq<Resource>) returns (r: Parts)
    requires e.Holds(open)
    modifies e
    ensures r != Err(NoHandle) && Losses(e.log) == Losses(old(e.log))
    ensures cfg.bus.UnsupportedBus? ==> r.Err? && e.Holds(open)
    ensures !cfg.bus.UnsupportedBus? ==> Settles(e, open, r, BusSteps(cfg))
    ensures r.Ok? ==> HasKinds(r.value, BusKinds(cfg))
  {
    assert open + Handles([]) == open;
    match cfg.bus {
      case Redis => r := NewRedisBus(e, open);
      case Kafka => r := NewKafkaBus(e, open);
      case Direct => r := Ok([]);
      case UnsupportedBus => r := Err(BadConfig);
    }
  }

  /** Takes the handle of a pool that was just opened; without it the pool cannot be closed any more. */
  method HandleOf(pool: Resource, e: Environment, step: Step, ghost open: seq<Resource>, ghost start: nat, ghost steps: seq<Step>, ghost p: nat)
    returns (ok: bool)
    requires e.Holds(open + [pool]) && TakesHandle(step)
    requires Through(e.outcomes, start, e.calls, p) && p < |steps| && steps[p] == step
    modifies e
    ensures e.Holds(if ok then open + [pool] else open)
    ensures if ok then Through(e.outcomes, start, e.calls, p + 1) else Ran(e.outcomes, start, e.calls, 1, steps, false)
    ensures Losses(e.log) == Losses(old(e.log)) + if ok then 0 else 1
  {
    ok := e.Try(step, start, steps, p);
    if !ok {
      e.Lose(pool, open);
    }
  }

  /** Pings the probe and closes it again. */
  method PingAndClose(probe: Resource, e: Environment, ghost open: seq<Resource>, ghost start: nat) returns (pinged: bool)
    requires e.Holds(open + [probe]) && Through(e.outcomes, start, e.calls, 1)
    modifies e
    ensures e.Holds(open) && Losses(e.log) == Losses(old(e.log))
    ensures Ran(e.outcomes, start, e.calls, 0, PROBE_STEPS, pinged)
  {
    pinged := e.Try(MySQLPing, start, PROBE_STEPS, 1);
    var _ := e.Close(probe, open);
  }

  /** Opens a plain connection, pings it and closes it again. */
  method ProbeMySQL(e: Environment, ghost open: seq<Resource>) returns (failure: Option<Failure>)
    requires e.Holds(open)
    modifies e
    ensures e.Holds(open) && Made(e, PROBE_STEPS, failure.None?)
    ensures failure != Some(NoHandle) && Losses(e.log) == Losses(old(e.log))
  {
    ghost var start := e.calls;
    var parsed := e.Try(MySQLParse, start, PROBE_STEPS, 0);
    if !parsed {
      return Some(OpenFailed);
    }
    var probe := e.Open(MySQLProbe, open);
    var pinged := PingAndClose(probe, e, open, start);
    return if pinged then None else Some(PingFailed);
  }

  method OpenGorm(e: Environment, ghost open: seq<Resource>) returns (r: Result<Resource, Failure>)
    requires e.Holds(open)
    modifies e
    ensures Opens(e, open, r, GORM_STEPS)
    ensures r.Ok? ==> r.value.kind == MySQLPool
  {
    ghost var start := e.calls;
    var connected := e.Try(MySQLOpen, start, GORM_STEPS, 0);
    if !connected {
      return Err(OpenFailed);
    }
    var pool := e.Open(MySQLPool, open);
    var handle := HandleOf(pool, e, MySQLHandle, open, start, GORM_STEPS, 1);
    if !handle {
      return Err(NoHandle);
    }
    return Ok(pool);
  }

  method OpenMySQL(e: Environment, ghost open: seq<Resource>) returns (r: Result<Resource, Failure>)
    requires e.Holds(open)
    modifies e
    ensures Opens(e, open, r, MYSQL_STEPS)
    ensures r.Ok? ==> r.value.kind == MySQLPool
  {
    ghost var start := e.calls;
    var failure := ProbeMySQL(e, open);
    if failure.Some? {
      RanFailed(e.outcomes, start, e.calls, 0, PROBE_STEPS, GORM_STEPS);
      return Err(failure.value);
    }
    ghost var mid := e.calls;
    r := OpenGorm(e, open);
    RanBoth(e.outcomes, start, mid, e.calls, Losses(e.log) - Losses(old(e.log)), PROBE_STEPS, GORM_STEPS, r.Ok?);
  }

  method OpenClickHouseQuery(e: Environment, ghost open: seq<Resource>) returns (r: Result<Resource, Failure>)
    requires e.Holds(open)
    modifies e
    ensures Opens(e, open, r, POOL_STEPS)
    ensures r.Ok? ==> r.value.kind == ClickHousePool
  {
    ghost var start := e.calls;
    var connected := e.Try(ClickHouseOpen, start, POOL_STEPS, 0);
    if !connected {
      return Err(OpenFailed);
    }
    var pool := e.Open(ClickHousePool, open);
    var handle := HandleOf(pool, e, ClickHouseHandle, open, start, POOL_STEPS, 1);
    if !handle {
      return Err(NoHandle);
    }
    var pinged := BuildOrClose(pool, e, ClickHousePing, open, start, POOL_STEPS, 2);
    if !pinged {
      return Err(PingFailed);
    }
    return Ok(pool);
  }

  method BuildReader(pool: Resource, e: Environment, ghost open: seq<Resource>) returns (ok: bool)
    requires e.Holds(open + [pool])
    modifies e
    ensures e.Holds(if ok then open + [pool] else open)
    ensures Made(e, READER_STEPS, ok) && Losses(e.log) == Losses(old(e.log))
  {
    ghost var start := e.calls;
    ok := BuildOrClose(pool, e, TableRouter, open, start, READER_STEPS, 0);
    if ok {
      ok := BuildOrClose(pool, e, QueryBuilder, open, start, READER_STEPS, 1);
    }
    if ok {
      ok := BuildOrClose(pool, e, EventReader, open, start, READER_STEPS, 2);
    }
  }

  method NewQueryReader(cfg: Config, e: Environment, ghost open: seq<Resource>) returns (r: Parts)
    requires e.Holds(open)
    modifies e
    ensures Settles(e, open, r, QuerySteps(cfg))
    ensures r.Ok? ==> HasKinds(r.value, QueryKinds(cfg))
  {
    assert open + Handles([]) == open;
    ghost var start := e.calls;
    if !cfg.query {
      return Ok([]);
    }
    var pool := OpenClickHouseQuery(e, open);
    if pool.Err? {
      RanFailed(e.outcomes, start, e.calls, Losses(e.log) - Losses(old(e.log)), POOL_STEPS, READER_STEPS);
      return Err(pool.error);
    }
    ghost var mid := e.calls;
    var built := BuildReader(pool.value, e, open);
    RanBoth(e.outcomes, start, mid, e.calls, 0, POOL_STEPS, READER_STEPS, built);
    if !built {
      return Err(BuildFailed);
    }
    HandlesOfOne(Some(pool.value));
    return Ok([Some(pool.value)]);
  }

  method BuildCatalog(cfg: Config, pool: Resource, e: Environment, ghost open: seq<Resource>) returns (ok: bool)
    requires e.Holds(open + [pool])
    modifies e
    ensures e.Holds(if ok then open + [pool] else open)
    ensures Made(e, CatalogTableSteps(cfg), ok) && Losses(e.log) == Losses(old(e.log))
  {
    ghost var start := e.calls;
    ok := BuildOrClose(pool, e, CatalogNew, open, start, CatalogTableSteps(cfg), 0);
    if !ok {
      return;
    }
    if cfg.mysqlAutoMigrate {
      ok := BuildOrClose(pool, e, CatalogMigrate, open, start, CatalogTableSteps(cfg), 1);
    } else {
      ok := BuildOrClose(pool, e, CatalogTable, open, start, CatalogTableSteps(cfg), 1);
    }
  }

  method NewPropertyCatalogReader(cfg: Config, e: Environment, ghost open: seq<Resource>) returns (r: Parts)
    requires e.Holds(open)
    modifies e
    ensures Settles(e, open, r, CatalogSteps(cfg))
    ensures r.Ok? ==> HasKinds(r.value, CatalogKinds(cfg))
  {
    assert open + Handles([]) == open;
    ghost var start := e.calls;
    if !cfg.query || !cfg.mysqlDSN {
      return Ok([]);
    }
    var pool := OpenMySQL(e, open);
    if pool.Err? {
      RanFailed(e.outcomes, start, e.calls, Losses(e.log) - Losses(old(e.log)), MYSQL_STEPS, CatalogTableSteps(cfg));
      return Err(pool.error);
    }
    ghost var mid := e.calls;
    var built := BuildCatalog(cfg, pool.value, e, open);
    RanBoth(e.outcomes, start, mid, e.calls, 0, MYSQL_STEPS, CatalogTableSteps(cfg), built);
    if !built {
      return Err(BuildFailed);
    }
    HandlesOfOne(Some(pool.value));
    return Ok([Some(pool.value)]);
  }

  method OpenClickHouseNative(e: Environment, ghost open: seq<Resource>) returns (r: Result<Resource, Failure>)
    requires e.Holds(open)
    modifies e
    ensures Opens(e, open, r, NATIVE_STEPS)
    ensures r.Ok? ==> r.value.kind == ClickHouseConn
    ensures r.Err? ==> !r.error.NoHandle?
  {
    ghost var start := e.calls;
    var connected := e.Try(NativeOpen, start, NATIVE_STEPS, 0);
    if !connected {
      return Err(OpenFailed);
    }
    var conn := e.Open(ClickHouseConn, open);
    var pinged := BuildOrClose(conn, e, NativePing, open, start, NATIVE_STEPS, 1);
    if !pinged {
      return Err(PingFailed);
    }
    return Ok(conn);
  }

  method Append(closers: seq<Closer>, r: Resource, ghost kinds: seq<Kind>) returns (grown: seq<Closer>)
    requires HasKinds(closers, kinds)
    ensures HasKinds(grown, kinds + [r.kind]) && Handles(grown) == Handles(closers) + [r]
  {
    grown := closers + [Some(r)];
    HandlesOfOne(Some(r));
    HandlesConcat(closers, [Some(r)]);
  }

  method BuildWorker(e: Environment) returns (ok: bool)
    modifies e`calls
    ensures Made(e, WORKER_STEPS, ok)
  {
    ghost var start := e.calls;
    ok := e.Try(WriterNew, start, WORKER_STEPS, 0);
    if ok {
      ok := e.Try(ProcessorNew, start, WORKER_STEPS, 1);
    }
  }

  /** Opens the worker's two stores; hands back the grown closer list even when it fails. */
  method OpenStores(e: Environment, closers: seq<Closer>, ghost kinds: seq<Kind>) returns (failure: Option<Failure>, grown: seq<Closer>)
    requires e.Holds(Handles(closers)) && HasKinds(closers, kinds)
    modifies e
    ensures e.Holds(Handles(grown))
    ensures Made(e, MYSQL_STEPS + NATIVE_STEPS, failure.None?)
    ensures Losses(e.log) == Losses(old(e.log)) + if failure == Some(NoHandle) then 1 else 0
    ensures failure.None? ==> HasKinds(grown, kinds + [MySQLPool] + [ClickHouseConn])
  {
    grown := closers;
    ghost var start := e.calls;
    var mysql := OpenMySQL(e, Handles(closers));
    if mysql.Err? {
      RanFailed(e.outcomes, start, e.calls, Losses(e.log) - Losses(old(e.log)), MYSQL_STEPS, NATIVE_STEPS);
      return Some(mysql.error), grown;
    }
    grown := Append(closers, mysql.value, kinds);
    ghost var mid := e.calls;
    var conn := OpenClickHouseNative(e, Handles(grown));
    RanBoth(e.outcomes, start, mid, e.calls, 0, MYSQL_STEPS, NATIVE_STEPS, conn.Ok?);
    if conn.Err? {
      return Some(conn.error), grown;
    }
    grown := Append(grown, conn.value, kinds + [MySQLPool]);
    return None, grown;
  }

  /** Unlike the other parts, hands back the grown closer list even when it fails. */
  method NewIngestionProcessor(e: Environment, closers: seq<Closer>, ghost kinds: seq<Kind>) returns (failure: Option<Failure>, grown: seq<Closer>)
    requires e.Holds(Handles(closers)) && HasKinds(closers, kinds)
    modifies e
    ensures e.Holds(Handles(grown))
    ensures Made(e, MYSQL_STEPS + NATIVE_STEPS + WORKER_STEPS, failure.None?)
    ensures Losses(e.log) == Losses(old(e.log)) + if failure == Some(NoHandle) then 1 else 0
    ensures failure.None? ==> HasKinds(grown, kinds + [MySQLPool] + [ClickHouseConn])
  {
    ghost var start := e.calls;
    failure, grown := OpenStores(e, closers, kinds);
    if failure.Some? {
      RanFailed(e.outcomes, start, e.calls, Losses(e.log) - Losses(old(e.log)), MYSQL_STEPS + NATIVE_STEPS, WORKER_STEPS);
      return;
    }
    ghost var mid := e.calls;
    var built := BuildWorker(e);
    RanBoth(e.outcomes, start, mid, e.calls, 0, MYSQL_STEPS + NATIVE_STEPS, WORKER_STEPS, built);
    if !built {
      failure := Some(BuildFailed);
    }
  }

  // ---- New ----

  function GeoKinds(cfg: Config): seq<Kind> {
    if cfg.geoFile then [GeoDatabase] else []
  }

  function BusKinds(cfg: Config): seq<Kind> {
    match cfg.bus
    case Redis => [RedisClient]
    case Kafka => [KafkaBus]
    case _ => []
  }

  function QueryKinds(cfg: Config): seq<Kind> {
    if cfg.query then [ClickHousePool] else []
  }

  function CatalogKinds(cfg: Config): seq<Kind> {
    if cfg.query && cfg.mysqlDSN then [MySQLPool] else []
  }

  function IngestionKinds(cfg: Config): seq<Kind> {
    if cfg.ingestion then [MySQLPool, ClickHouseConn] else []
  }

  /** What a runtime with this configuration owns, in order of acquisition. */
  function OwnedKinds(cfg: Config): seq<Kind> {
    GeoKinds(cfg) + BusKinds(cfg) + QueryKinds(cfg) + CatalogKinds(cfg) + IngestionKinds(cfg)
  }

  predicate Supported(cfg: Config) {
    !cfg.bus.UnsupportedBus? && (cfg.kafkaDiagnostics || cfg.kafkaMetrics ==> cfg.bus.Kafka?)
  }

  /** The plan of every configuration, spelled out. */
  lemma PlanSpelled(cfg: Config)
    ensures Plan(cfg) ==
            ([SourceResolver] + (if cfg.geoFile then [GeoOpen] else [])
             + (if cfg.bus == Redis then [RedisPing, RedisStream] else if cfg.bus == Kafka then [KafkaTLS, KafkaNew] else []))
            + ([TrackerFile]
               + (((if cfg.query then [ClickHouseOpen, ClickHouseHandle, ClickHousePing, TableRouter, QueryBuilder, EventReader] else [])
                   + (if !cfg.query || !cfg.mysqlDSN then []
                      else [MySQLParse, MySQLPing, MySQLOpen, MySQLHandle, CatalogNew, if cfg.mysqlAutoMigrate then CatalogMigrate else CatalogTable]))
                  + ([AppNew]
                     + if cfg.ingestion then [MySQLParse, MySQLPing, MySQLOpen, MySQLHandle, NativeOpen, NativePing, WriterNew, ProcessorNew] else [])))
  {
    QueryPlanSpelled(cfg);
    CatalogPlanSpelled(cfg);
    IngestionPlanSpelled(cfg);
  }

  lemma QueryPlanSpelled(cfg: Config)
    ensures QuerySteps(cfg) == if cfg.query then [ClickHouseOpen, ClickHouseHandle, ClickHousePing, TableRouter, QueryBuilder, EventReader] else []
  {
    assert POOL_STEPS + READER_STEPS == [ClickHouseOpen, ClickHouseHandle, ClickHousePing, TableRouter, QueryBuilder, EventReader];
  }

  lemma CatalogPlanSpelled(cfg: Config)
    ensures CatalogSteps(cfg) ==
            if !cfg.query || !cfg.mysqlDSN then []
            else [MySQLParse, MySQLPing, MySQLOpen, MySQLHandle, CatalogNew, if cfg.mysqlAutoMigrate then CatalogMigrate else CatalogTable]
  {
    assert MYSQL_STEPS == [MySQLParse, MySQLPing, MySQLOpen, MySQLHandle];
  }

  lemma IngestionPlanSpelled(cfg: Config)
    ensures IngestionSteps(cfg) ==
            if cfg.ingestion then [MySQLParse, MySQLPing, MySQLOpen, MySQLHandle, NativeOpen, NativePing, WriterNew, ProcessorNew] else []
  {
    assert MYSQL_STEPS == [MySQLParse, MySQLPing, MySQLOpen, MySQLHandle];
    assert MYSQL_STEPS + NATIVE_STEPS + WORKER_STEPS
           == [MySQLParse, MySQLPing, MySQLOpen, MySQLHandle, NativeOpen, NativePing, WriterNew, ProcessorNew];
  }

  /** A runtime owns one resource per part configured; its pool for the catalog and the one for ingestion are two. */
  lemma OwnedSpelled(cfg: Config)
    ensures OwnedKinds(cfg) ==
            (if cfg.geoFile then [GeoDatabase] else [])
            + (if cfg.bus == Redis then [RedisClient] else if cfg.bus == Kafka then [KafkaBus] else [])
            + (if cfg.query then [ClickHousePool] else []) + (if cfg.query && cfg.mysqlDSN then [MySQLPool] else [])
            + if cfg.ingestion then [MySQLPool, ClickHouseConn] else []
  {
  }

  datatype Runtime = Runtime(closers: seq<Closer>)

  lemma KindsConcat(a: seq<Closer>, b: seq<Closer>, j: seq<Kind>, k: seq<Kind>)
    requires HasKinds(a, j) && HasKinds(b, k)
    ensures HasKinds(a + b, j + k)
  {
  }

  /** What every failed assembly does; whether a close fails does not matter. */
  method GiveBack(e: Environment, closers: seq<Closer>)
    requires e.Holds(Handles(closers))
    modifies e`log, e`count
    ensures e.Holds([]) && Losses(e.log) == Losses(old(e.log))
  {
    var _ := CloseAll(e, closers);
  }

  method Grow(closers: seq<Closer>, part: seq<Closer>, ghost kinds: seq<Kind>, ghost more: seq<Kind>) returns (grown: seq<Closer>)
    requires HasKinds(closers, kinds) && HasKinds(part, more)
    ensures grown == closers + part && HasKinds(grown, kinds + more) && Handles(grown) == Handles(closers) + Handles(part)
  {
    HandlesConcat(closers, part);
    KindsConcat(closers, part, kinds, more);
    grown := closers + part;
  }

  /** A stretch of New: made its steps, and holds what it hands on or nothing. */
  twostate predicate Reaches(e: Environment, new r: Parts, steps: seq<Step>, kinds: seq<Kind>)
    reads e
  {
    && e.Holds(if r.Ok? then Handles(r.value) else [])
    && Made(e, steps, r.Ok?)
    && Losses(e.log) == Losses(old(e.log)) + (if r == Err(NoHandle) then 1 else 0)
    && (r.Ok? ==> HasKinds(r.value, kinds))
  }

  /** Source resolver and GeoIP database. */
  method NewLookups(cfg: Config, e: Environment) returns (r: Parts)
    requires e.Holds([])
    modifies e
    ensures Reaches(e, r, [SourceResolver] + GeoSteps(cfg), GeoKinds(cfg)) && r != Err(NoHandle)
  {
    ghost var start := e.calls;
    var resolver := e.Try(SourceResolver, start, [SourceResolver], 0);
    if !resolver {
      RanFailed(e.outcomes, start, e.calls, 0, [SourceResolver], GeoSteps(cfg));
      return Err(BadConfig);
    }
    ghost var mid := e.calls;
    r := NewGeoResolver(cfg, e, []);
    RanBoth(e.outcomes, start, mid, e.calls, 0, [SourceResolver], GeoSteps(cfg), r.Ok?);
    if r.Ok? {
      assert [] + Handles(r.value) == Handles(r.value);
    }
  }

  /** Lookups and event bus. */
  method NewIngress(cfg: Config, e: Environment) returns (r: Parts)
    requires e.Holds([])
    modifies e
    ensures r != Err(NoHandle) && Losses(e.log) == Losses(old(e.log))
    ensures cfg.bus.UnsupportedBus? ==> r.Err? && e.Holds([])
    ensures !cfg.bus.UnsupportedBus? ==> Reaches(e, r, IngressSteps(cfg), GeoKinds(cfg) + BusKinds(cfg))
  {
    ghost var start, steps := e.calls, [SourceResolver] + GeoSteps(cfg);
    var lookups := NewLookups(cfg, e);
    if lookups.Err? {
      RanFailed(e.outcomes, start, e.calls, 0, steps, BusSteps(cfg));
      return Err(lookups.error);
    }
    ghost var mid := e.calls;
    var bus := NewEventBus(cfg, e, Handles(lookups.value));
    if !cfg.bus.UnsupportedBus? {
      RanBoth(e.outcomes, start, mid, e.calls, 0, steps, BusSteps(cfg), bus.Ok?);
    }
    if bus.Err? {
      GiveBack(e, lookups.value);
      return Err(bus.error);
    }
    var closers := Grow(lookups.value, bus.value, GeoKinds(cfg), BusKinds(cfg));
    return Ok(closers);
  }

  /** The readers of internal queries, on top of what is held so far. */
  method NewReaders(cfg: Config, e: Environment, soFar: seq<Closer>, ghost kinds: seq<Kind>) returns (r: Parts)
    requires e.Holds(Handles(soFar)) && HasKinds(soFar, kinds)
    modifies e
    ensures Reaches(e, r, ReaderSteps(cfg), kinds + QueryKinds(cfg) + CatalogKinds(cfg))
  {
    ghost var start := e.calls;
    var query := NewQueryReader(cfg, e, Handles(soFar));
    if query.Err? {
      RanFailed(e.outcomes, start, e.calls, Losses(e.log) - Losses(old(e.log)), QuerySteps(cfg), CatalogSteps(cfg));
      GiveBack(e, soFar);
      return query;
    }
    var closers := Grow(soFar, query.value, kinds, QueryKinds(cfg));
    ghost var mid := e.calls;
    var catalog := NewPropertyCatalogReader(cfg, e, Handles(closers));
    RanBoth(e.outcomes, start, mid, e.calls, Losses(e.log) - Losses(old(e.log)), QuerySteps(cfg), CatalogSteps(cfg), catalog.Ok?);
    if catalog.Err? {
      GiveBack(e, closers);
      return catalog;
    }
    closers := Grow(closers, catalog.value, kinds + QueryKinds(cfg), CatalogKinds(cfg));
    return Ok(closers);
  }

  /** The ingestion worker, when configured. */
  method NewIngestion(cfg: Config, e: Environment, soFar: seq<Closer>, ghost kinds: seq<Kind>) returns (r: Parts)
    requires e.Holds(Handles(soFar)) && HasKinds(soFar, kinds)
    modifies e
    ensures Reaches(e, r, IngestionSteps(cfg), kinds + IngestionKinds(cfg))
  {
    if !cfg.ingestion {
      assert kinds + [] == kinds;
      return Ok(soFar);
    }
    var failure, grown := NewIngestionProcessor(e, soFar, kinds);
    if failure.Some? {
      GiveBack(e, grown);
      return Err(failure.value);
    }
    assert kinds + [MySQLPool] + [ClickHouseConn] == kinds + IngestionKinds(cfg);
    return Ok(grown);
  }

  /** One call of New itself: a failure gives back what is held. */
  method TryOrGiveBack(step: Step, e: Environment, held: seq<Closer>) returns (ok: bool)
    requires e.Holds(Handles(held)) && !TakesHandle(step)
    modifies e
    ensures e.Holds(if ok then Handles(held) else [])
    ensures Made(e, [step], ok) && Losses(e.log) == Losses(old(e.log))
  {
    ok := e.Try(step, e.calls, [step], 0);
    if !ok {
      GiveBack(e, held);
    }
  }

  /** The HTTP app and the worker behind it. */
  method NewServing(cfg: Config, e: Environment, soFar: seq<Closer>, ghost kinds: seq<Kind>) returns (r: Parts)
    requires e.Holds(Handles(soFar)) && HasKinds(soFar, kinds)
    modifies e
    ensures Reaches(e, r, ServingSteps(cfg), kinds + IngestionKinds(cfg))
  {
    ghost var start := e.calls;
    var app := TryOrGiveBack(AppNew, e, soFar);
    if !app {
      RanFailed(e.outcomes, start, e.calls, 0, [AppNew], IngestionSteps(cfg));
      return Err(BuildFailed);
    }
    ghost var mid := e.calls;
    r := NewIngestion(cfg, e, soFar, kinds);
    RanBoth(e.outcomes, start, mid, e.calls, Losses(e.log) - Losses(old(e.log)), [AppNew], IngestionSteps(cfg), r.Ok?);
  }

  /** From the readers to the end of New. */
  method NewInner(cfg: Config, e: Environment, soFar: seq<Closer>, ghost kinds: seq<Kind>) returns (r: Parts)
    requires e.Holds(Handles(soFar)) && HasKinds(soFar, kinds)
    modifies e
    ensures Reaches(e, r, InnerSteps(cfg), kinds + QueryKinds(cfg) + CatalogKinds(cfg) + IngestionKinds(cfg))
  {
    ghost var start := e.calls;
    r := NewReaders(cfg, e, soFar, kinds);
    if r.Err? {
      RanFailed(e.outcomes, start, e.calls, Losses(e.log) - Losses(old(e.log)), ReaderSteps(cfg), ServingSteps(cfg));
      return;
    }
    ghost var mid := e.calls;
    r := NewServing(cfg, e, r.value, kinds + QueryKinds(cfg) + CatalogKinds(cfg));
    RanBoth(e.outcomes, start, mid, e.calls, Losses(e.log) - Losses(old(e.log)), ReaderSteps(cfg), ServingSteps(cfg), r.Ok?);
  }

  /** From the tracker file to the end of New. */
  method NewTracker(cfg: Config, e: Environment, soFar: seq<Closer>, ghost kinds: seq<Kind>) returns (r: Parts)
    requires e.Holds(Handles(soFar)) && HasKinds(soFar, kinds)
    modifies e
    ensures Reaches(e, r, TrackerSteps(cfg), kinds + QueryKinds(cfg) + CatalogKinds(cfg) + IngestionKinds(cfg))
  {
    ghost var start := e.calls;
    var tracker := TryOrGiveBack(TrackerFile, e, soFar);
    if !tracker {
      RanFailed(e.outcomes, start, e.calls, 0, [TrackerFile], InnerSteps(cfg));
      return Err(OpenFailed);
    }
    ghost var mid := e.calls;
    r := NewInner(cfg, e, soFar, kinds);
    RanBoth(e.outcomes, start, mid, e.calls, Losses(e.log) - Losses(old(e.log)), [TrackerFile], InnerSteps(cfg), r.Ok?);
  }

  /**
   * Assembles the runtime. On success it owns exactly what is open. On failure everything was given back, latest first;
   * exactly when the first outside call to fail asked an open pool for its handle, that pool was dropped instead of closed.
   * It succeeds exactly when the configuration is supported and every outside call it needs succeeds.
   */
  method New(cfg: Config, e: Environment) returns (r: Result<Runtime, Failure>)
    requires e.Holds([])
    modifies e
    ensures e.Holds(if r.Ok? then Handles(r.value.closers) else [])
    ensures r.Ok? ==> HasKinds(r.value.closers, OwnedKinds(cfg)) && e.calls == old(e.calls) + |Plan(cfg)|
    ensures r.Ok? <==> cfg.bus != UnsupportedBus && (cfg.kafkaDiagnostics || cfg.kafkaMetrics ==> cfg.bus == Kafka)
                       && AllSucceed(e.outcomes, old(e.calls), |Plan(cfg)|)
    ensures Losses(e.log) == Losses(old(e.log))
                             + if Supported(cfg) && LosesHandle(e.outcomes, old(e.calls), Plan(cfg)) then 1 else 0
    ensures r == Err(NoHandle) <==> Supported(cfg) && LosesHandle(e.outcomes, old(e.calls), Plan(cfg))
  {
    ghost var start := e.calls;
    var parts := Assemble(cfg, e);
    if Supported(cfg) {
      RanDecided(e.outcomes, start, e.calls, Losses(e.log) - Losses(old(e.log)), Plan(cfg), parts.Ok?);
    }
    return if parts.Ok? then Ok(Runtime(parts.value)) else Err(parts.error);
  }

  /** The Kafka routes are checked against the bus before the tracker file is read. */
  method NewBehindIngress(cfg: Config, e: Environment, ingress: seq<Closer>) returns (r: Parts)
    requires e.Holds(Handles(ingress)) && HasKinds(ingress, GeoKinds(cfg) + BusKinds(cfg)) && !cfg.bus.UnsupportedBus?
    modifies e
    ensures Supported(cfg) ==> Reaches(e, r, TrackerSteps(cfg), OwnedKinds(cfg))
    ensures !Supported(cfg) ==> r.Err? && r != Err(NoHandle) && e.Holds([]) && Losses(e.log) == Losses(old(e.log))
  {
    if (cfg.kafkaDiagnostics || cfg.kafkaMetrics) && cfg.bus != Kafka {
      GiveBack(e, ingress);
      return Err(BadConfig);
    }
    r := NewTracker(cfg, e, ingress, GeoKinds(cfg) + BusKinds(cfg));
  }

  method Assemble(cfg: Config, e: Environment) returns (r: Parts)
    requires e.Holds([])
    modifies e
    ensures Supported(cfg) ==> Reaches(e, r, Plan(cfg), OwnedKinds(cfg))
    ensures !Supported(cfg) ==> r.Err? && r != Err(NoHandle) && e.Holds([]) && Losses(e.log) == Losses(old(e.log))
  {
    ghost var start := e.calls;
    r := NewIngress(cfg, e);
    if r.Err? {
      if !cfg.bus.UnsupportedBus? {
        RanFailed(e.outcomes, start, e.calls, 0, IngressSteps(cfg), TrackerSteps(cfg));
      }
      return;
    }
    ghost var mid := e.calls;
    r := NewBehindIngress(cfg, e, r.value);
    if Supported(cfg) {
      RanBoth(e.outcomes, start, mid, e.calls, Losses(e.log) - Losses(old(e.log)), IngressSteps(cfg), TrackerSteps(cfg), r.Ok?);
    }
  }

  /** With query enabled, an assembly whose one failing call is the read pool's handle loses that pool. */
  method LosingAssembly(cfg: Config) returns (e: Environment, r: Result<Runtime, Failure>)
    requires Supported(cfg) && cfg.query
    ensures r == Err(NoHandle) && Losses(e.log) == 1 && e.Holds([])
  {
    var at := |IngressSteps(cfg)| + 2;
    e := new Environment(i => i != at);
    assert TrackerSteps(cfg)[2] == ClickHouseHandle;
    assert FailsAt(e.outcomes, 0, Plan(cfg), at) && TakesHandle(Plan(cfg)[at]);
    r := New(cfg, e);
  }

  /** Shutting down: everything owned is closed once, latest first, and the error says whether any close failed. */
  method CloseRuntime(rt: Runtime, e: Environment) returns (failures: nat)
    requires e.Holds(Handles(rt.closers))
    modifies e`log, e`count
    ensures e.Holds([])
    ensures |old(e.log)| <= |e.log| && e.log[..|old(e.log)|] == old(e.log)
    ensures ClosesInReverse(e.log[|old(e.log)|..], Handles(rt.closers), failures)
    ensures failures == 0 <==> forall i :: |old(e.log)| <= i < |e.log| ==> e.log[i].Closed? && e.log[i].ok
  {
    failures := CloseAll(e, rt.closers);
    FailuresMeaning(e.log[|old(e.log)|..]);
    assert forall i :: |old(e.log)| <= i < |e.log| ==> e.log[i] == e.log[|old(e.log)|..][i - |old(e.log)|];
  }
}
