/**
 * Any number of ResolveSource calls, interleaved with each other and with a control plane that changes.
 * A call holds the mutex only inside its lookup and its store, so those two are the atomic steps around its fetch.
 */
module ResolverMachine {
  import opened Wrappers
  import opened Text
  import opened SourceConfigs
  import opened Resolvers
  import opened HttpResolver

  /** What the control plane holds for one write key: the runtime config and the ETag it sends with it. */
  datatype Published = Published(body: SourceConfig, etag: string)

  type Table = map<string, Published>

  /** What a resolver is built with. */
  datatype Setup = Setup(ttl: int, decode: Decoder)

  datatype Phase =
    | Started
    | Sending(found: Option<CachedSource>, lookedAt: int)
    | Answered(found: Option<CachedSource>, response: Response, servedAt: nat)
    | Returned(result: Resolution, servedAt: nat, endedAt: nat)
    | Refused

  /** key is the trimmed write key, startedAt the number of the control-plane state at the call's start. */
  datatype Call = Call(key: string, startedAt: nat, phase: Phase, fetches: nat)

  datatype Stored = Stored(key: string, etag: string, at: int)

  /** history lists every state the control plane has had; stores logs the cache writes. */
  datatype State = State(history: seq<Table>, clock: int, cache: Cache, calls: map<nat, Call>, stores: seq<Stored>)

  datatype Action =
    | Publish(table: Table)
    | Tick(elapsed: nat)
    | Begin(id: nat, rawKey: string)
    | LookUp(id: nat)
    | Serve(id: nat, response: Response)
    | Finish(id: nat)

  // ---- The control plane ----

  /** A non-blank ETag names one config per write key, for all time. */
  ghost predicate Conforming(decode: Decoder, history: seq<Table>) {
    forall i, j, k :: 0 <= i < |history| && 0 <= j < |history| ==> Agree(decode, history[i], history[j], k)
  }

  ghost predicate Agree(decode: Decoder, a: Table, b: Table, k: string) {
    k in a && k in b && Trim(a[k].etag) == Trim(b[k].etag) != "" ==> decode(a[k].body, k) == decode(b[k].body, k)
  }

  /** What the control plane may answer while it holds table. A 304 only answers a matching If-None-Match. */
  predicate MayAnswer(table: Table, key: string, header: string, response: Response) {
    match response
    case NoResponse => true
    case OtherStatus(_) => true
    case StatusOK(body, etag) => body.None? || (key in table && body.value == table[key].body && etag == table[key].etag)
    case StatusNotModified(_) => header != "" && key in table && Trim(table[key].etag) == header
    case StatusNotFound => key !in table
    case StatusForbidden => key in table && !table[key].body.enabled
    case StatusGone => key in table && !table[key].body.enabled
  }

  // ---- Steps ----

  ghost predicate Init(setup: Setup, s: State) {
    |s.history| == 1 && Conforming(setup.decode, s.history) && s.cache == map[] && s.calls == map[] && s.stores == []
  }

  ghost predicate Enabled(setup: Setup, s: State, a: Action) {
    s.history != [] &&
    match a
    case Publish(table) => Conforming(setup.decode, s.history + [table])
    case Tick(_) => true
    case Begin(id, _) => id !in s.calls
    case LookUp(id) => id in s.calls && s.calls[id].phase.Started?
    case Serve(id, response) =>
      id in s.calls && s.calls[id].phase.Sending? &&
      MayAnswer(s.history[|s.history| - 1], s.calls[id].key, RequestHeader(s.calls[id].phase.found), response)
    case Finish(id) => id in s.calls && s.calls[id].phase.Answered?
  }

  ghost function Apply(setup: Setup, s: State, a: Action): State
    requires Enabled(setup, s, a)
  {
    var present := |s.history| - 1;
    match a
    case Publish(table) => s.(history := s.history + [table])
    case Tick(elapsed) => s.(clock := s.clock + elapsed)
    case Begin(id, rawKey) =>
      var key := Trim(rawKey);
      s.(calls := s.calls[id := Call(key, present, if key == "" then Refused else Started, 0)])
    case LookUp(id) =>
      var call := s.calls[id];
      s.(cache := AfterLookup(setup.ttl, s.cache, call.key, s.clock),
         calls := s.calls[id := call.(phase := Sending(Found(setup.ttl, s.cache, call.key, s.clock), s.clock))])
    case Serve(id, response) =>
      var call := s.calls[id];
      s.(calls := s.calls[id := call.(phase := Answered(call.phase.found, response, present), fetches := call.fetches + 1)])
    case Finish(id) =>
      var call := s.calls[id];
      var answer := Answer(setup.decode, call.phase.found, call.phase.response, call.key);
      s.(cache := AfterAnswer(setup.ttl, s.cache, call.key, answer, s.clock),
         stores := if answer.Ok? && setup.ttl > 0 then s.stores + [Stored(call.key, Trim(answer.value.1), s.clock)] else s.stores,
         calls := s.calls[id := call.(phase := Returned(ResultOf(answer), call.phase.servedAt, present))])
  }

  ghost predicate Next(setup: Setup, s: State, t: State) {
    exists a :: Enabled(setup, s, a) && t == Apply(setup, s, a)
  }

  /** A run, as the states it goes through. */
  ghost predicate IsRun(setup: Setup, run: seq<State>) {
    run != [] && Init(setup, run[0]) && forall i :: 0 <= i < |run| - 1 ==> Next(setup, run[i], run[i + 1])
  }

  // ---- What a call may return ----

  /** The answer of a resolver that asks the control plane once, with no cache, while it holds table. */
  ghost function Direct(decode: Decoder, table: Table, key: string): Resolution {
    if key !in table then Err(SourceNotFound) else decode(table[key].body, key)
  }

  /** The request or its response was lost or garbled on the way. */
  predicate ExchangeFailed(r: Resolution) {
    r.Err? && (r.error.TransportFailed? || r.error.Undecodable? || r.error.UnexpectedStatus?)
  }

  /** The direct answer, or a failed exchange, or the disabled status of a disabled source. */
  ghost predicate Reflects(decode: Decoder, table: Table, key: string, r: Resolution) {
    || r == Direct(decode, table, key)
    || ExchangeFailed(r)
    || (r == Err(SourceDisabled) && key in table && !table[key].body.enabled)
  }

  // ---- The invariant ----

  /** Some control-plane state carried this ETag for the key, with a body that decodes to c. */
  ghost predicate Named(decode: Decoder, history: seq<Table>, key: string, etag: string, c: SourceConfig) {
    exists i :: 0 <= i < |history| && NamedIn(decode, history[i], key, etag, c)
  }

  ghost predicate NamedIn(decode: Decoder, table: Table, key: string, etag: string, c: SourceConfig) {
    key in table && Trim(table[key].etag) == etag && decode(table[key].body, key) == Ok(c)
  }

  /**
   * A cached entry, or a copy a call took of one: a config the control plane once offered for the key,
   * under the entry's own ETag.
   */
  ghost predicate GoodEntry(decode: Decoder, history: seq<Table>, key: string, e: CachedSource) {
    Trim(e.etag) == e.etag && Named(decode, history, key, e.etag, e.source)
  }

  ghost predicate StoredBefore(stores: seq<Stored>, ttl: int, key: string, e: CachedSource, now: int) {
    e.expiresAt - ttl <= now && Stored(key, e.etag, e.expiresAt - ttl) in stores
  }

  ghost predicate GoodCall(setup: Setup, s: State, call: Call) {
    && call.startedAt < |s.history|
    && (call.phase.Refused? <==> call.key == "")
    && call.fetches == (if call.phase.Answered? || call.phase.Returned? then 1 else 0)
    && (match call.phase
        case Started => true
        case Refused => true
        case Sending(found, lookedAt) =>
          found.Some? ==>
            && GoodEntry(setup.decode, s.history, call.key, found.value)
            && lookedAt < found.value.expiresAt
            && StoredBefore(s.stores, setup.ttl, call.key, found.value, lookedAt)
        case Answered(found, response, servedAt) =>
          && call.startedAt <= servedAt < |s.history|
          && (found.Some? ==> GoodEntry(setup.decode, s.history, call.key, found.value))
          && MayAnswer(s.history[servedAt], call.key, RequestHeader(found), response)
        case Returned(result, servedAt, endedAt) =>
          && call.startedAt <= servedAt <= endedAt < |s.history|
          && Reflects(setup.decode, s.history[servedAt], call.key, result))
  }

  ghost predicate GoodCache(setup: Setup, s: State) {
    forall k :: k in s.cache ==> GoodEntry(setup.decode, s.history, k, s.cache[k]) && StoredBefore(s.stores, setup.ttl, k, s.cache[k], s.clock)
  }

  ghost predicate Inv(setup: Setup, s: State) {
    && s.history != [] && Conforming(setup.decode, s.history)
    && GoodCache(setup, s)
    && (forall id :: id in s.calls ==> GoodCall(setup, s, s.calls[id]))
  }

  // ---- What was known stays known ----

  lemma EntryKept(decode: Decoder, h: seq<Table>, more: seq<Table>, key: string, e: CachedSource)
    requires h <= more && GoodEntry(decode, h, key, e)
    ensures GoodEntry(decode, more, key, e)
  {
    var i :| 0 <= i < |h| && NamedIn(decode, h[i], key, e.etag, e.source);
    assert more[i] == h[i];
  }

  lemma OthersKept(setup: Setup, s: State, t: State)
    requires Inv(setup, s) && s.history <= t.history && s.clock <= t.clock && s.stores <= t.stores
    ensures forall id :: id in s.calls ==> GoodCall(setup, t, s.calls[id])
    ensures forall k :: k in s.cache ==>
              GoodEntry(setup.decode, t.history, k, s.cache[k]) && StoredBefore(t.stores, setup.ttl, k, s.cache[k], t.clock)
  {
    forall id | id in s.calls
      ensures GoodCall(setup, t, s.calls[id])
    {
      var call := s.calls[id];
      assert GoodCall(setup, s, call);
      if (call.phase.Sending? || call.phase.Answered?) && call.phase.found.Some? {
        EntryKept(setup.decode, s.history, t.history, call.key, call.phase.found.value);
      }
    }
    forall k | k in s.cache
      ensures GoodEntry(setup.decode, t.history, k, s.cache[k]) && StoredBefore(t.stores, setup.ttl, k, s.cache[k], t.clock)
    {
      EntryKept(setup.decode, s.history, t.history, k, s.cache[k]);
    }
  }

  // ---- A call's last step ----

  /** A 304 answers a request whose ETag names the config the control plane holds at that very instant. */
  lemma NotModifiedIsCurrent(decode: Decoder, h: seq<Table>, key: string, found: Option<CachedSource>, etag: string, servedAt: nat)
    requires Conforming(decode, h) && servedAt < |h|
    requires MayAnswer(h[servedAt], key, RequestHeader(found), StatusNotModified(etag))
    requires found.Some? ==> GoodEntry(decode, h, key, found.value)
    ensures found.Some? && NamedIn(decode, h[servedAt], key, found.value.etag, found.value.source)
  {
    var e := found.value;
    var i :| 0 <= i < |h| && NamedIn(decode, h[i], key, e.etag, e.source);
    assert Agree(decode, h[i], h[servedAt], key);
  }

  /** Whatever a call returns and stores is what the control plane held when it served the request. */
  lemma AnswerIsCurrent(decode: Decoder, h: seq<Table>, key: string, found: Option<CachedSource>, response: Response, servedAt: nat)
    requires Conforming(decode, h) && servedAt < |h|
    requires MayAnswer(h[servedAt], key, RequestHeader(found), response)
    requires found.Some? ==> GoodEntry(decode, h, key, found.value)
    ensures
      var answer := Answer(decode, found, response, key);
      && Reflects(decode, h[servedAt], key, ResultOf(answer))
      && (answer.Ok? ==> NamedIn(decode, h[servedAt], key, answer.value.1, answer.value.0) && Trim(answer.value.1) == answer.value.1)
  {
    if response.StatusNotModified? {
      NotModifiedIsCurrent(decode, h, key, found, response.etag, servedAt);
    } else if response.StatusOK? && response.body.Some? {
      TrimIsIdempotent(response.etag);
    }
  }

  // ---- Every step keeps the invariant ----

  lemma StepKeepsInv(setup: Setup, s: State, a: Action)
    requires Inv(setup, s) && Enabled(setup, s, a)
    ensures Inv(setup, Apply(setup, s, a))
  {
    if a.Finish? {
      FinishKeepsInv(setup, s, a.id);
    } else if a.LookUp? {
      LookUpKeepsInv(setup, s, a.id);
    } else if a.Serve? {
      ServeKeepsInv(setup, s, a.id, a.response);
    } else {
      EnvironmentKeepsInv(setup, s, a);
    }
  }

  lemma EnvironmentKeepsInv(setup: Setup, s: State, a: Action)
    requires Inv(setup, s) && Enabled(setup, s, a) && (a.Publish? || a.Tick? || a.Begin?)
    ensures Inv(setup, Apply(setup, s, a))
  {
    OthersKept(setup, s, Apply(setup, s, a));
  }

  lemma LookUpKeepsInv(setup: Setup, s: State, id: nat)
    requires Inv(setup, s) && Enabled(setup, s, LookUp(id))
    ensures Inv(setup, Apply(setup, s, LookUp(id)))
  {
    OthersKept(setup, s, Apply(setup, s, LookUp(id)));
    assert GoodCall(setup, s, s.calls[id]);
  }

  lemma ServedCallIsGood(setup: Setup, s: State, id: nat, response: Response)
    requires s.history != [] && Enabled(setup, s, Serve(id, response)) && GoodCall(setup, s, s.calls[id])
    ensures var t := Apply(setup, s, Serve(id, response)); GoodCall(setup, t, t.calls[id])
  {
  }

  lemma ServeKeepsInv(setup: Setup, s: State, id: nat, response: Response)
    requires Inv(setup, s) && Enabled(setup, s, Serve(id, response))
    ensures Inv(setup, Apply(setup, s, Serve(id, response)))
  {
    OthersKept(setup, s, Apply(setup, s, Serve(id, response)));
    ServedCallIsGood(setup, s, id, response);
  }

  lemma FinishKeepsCalls(setup: Setup, s: State, id: nat)
    requires Inv(setup, s) && Enabled(setup, s, Finish(id))
    ensures var t := Apply(setup, s, Finish(id)); forall i :: i in t.calls ==> GoodCall(setup, t, t.calls[i])
  {
    OthersKept(setup, s, Apply(setup, s, Finish(id)));
    var call := s.calls[id];
    assert GoodCall(setup, s, call);
    AnswerIsCurrent(setup.decode, s.history, call.key, call.phase.found, call.phase.response, call.phase.servedAt);
  }

  lemma StoredEntryIsGood(decode: Decoder, table: Table, history: seq<Table>, key: string, source: SourceConfig, etag: string, expiresAt: int, servedAt: nat)
    requires servedAt < |history| && table == history[servedAt]
    requires NamedIn(decode, table, key, etag, source) && Trim(etag) == etag
    ensures GoodEntry(decode, history, key, CachedSource(source, etag, expiresAt))
  {
  }

  lemma FinishKeepsCache(setup: Setup, s: State, id: nat)
    requires Inv(setup, s) && Enabled(setup, s, Finish(id))
    ensures GoodCache(setup, Apply(setup, s, Finish(id)))
  {
    var t := Apply(setup, s, Finish(id));
    OthersKept(setup, s, t);
    var call := s.calls[id];
    assert GoodCall(setup, s, call);
    var answer := Answer(setup.decode, call.phase.found, call.phase.response, call.key);
    AnswerIsCurrent(setup.decode, s.history, call.key, call.phase.found, call.phase.response, call.phase.servedAt);
    CacheAfterAnswer(setup, s, t, call.key, answer, call.phase.servedAt);
  }

  lemma CacheAfterAnswer(setup: Setup, s: State, t: State, key: string, answer: Result<(SourceConfig, string), ResolveError>, servedAt: nat)
    requires GoodCache(setup, t.(cache := s.cache)) && servedAt < |t.history|
    requires t.cache == AfterAnswer(setup.ttl, s.cache, key, answer, t.clock)
    requires answer.Ok? && setup.ttl > 0 ==> Stored(key, answer.value.1, t.clock) in t.stores
    requires answer.Ok? ==> NamedIn(setup.decode, t.history[servedAt], key, answer.value.1, answer.value.0) && Trim(answer.value.1) == answer.value.1
    ensures GoodCache(setup, t)
  {
    if answer.Ok? && setup.ttl > 0 {
      StoredEntryIsGood(setup.decode, t.history[servedAt], t.history, key, answer.value.0, answer.value.1, t.clock + setup.ttl, servedAt);
    }
  }

  lemma FinishKeepsInv(setup: Setup, s: State, id: nat)
    requires Inv(setup, s) && Enabled(setup, s, Finish(id))
    ensures Inv(setup, Apply(setup, s, Finish(id)))
  {
    FinishKeepsCache(setup, s, id);
    FinishKeepsCalls(setup, s, id);
  }

  /** The cache and call invariant holds in every state of every run. */
  lemma {:induction false} RunKeepsInv(setup: Setup, run: seq<State>, n: nat)
    requires IsRun(setup, run) && n < |run|
    ensures Inv(setup, run[n])
  {
    if n > 0 {
      RunKeepsInv(setup, run, n - 1);
      assert Next(setup, run[n - 1], run[(n - 1) + 1]);
      var a :| Enabled(setup, run[n - 1], a) && run[n] == Apply(setup, run[n - 1], a);
      StepKeepsInv(setup, run[n - 1], a);
    }
  }

  /** Every call's key is trimmed. */
  ghost predicate KeysClean(s: State) {
    forall id :: id in s.calls ==> Trim(s.calls[id].key) == s.calls[id].key
  }

  lemma StepKeepsKeysClean(setup: Setup, s: State, a: Action)
    requires KeysClean(s) && Enabled(setup, s, a)
    ensures KeysClean(Apply(setup, s, a))
  {
    if a.Begin? {
      TrimIsIdempotent(a.rawKey);
    }
  }

  lemma {:induction false} RunKeepsKeysClean(setup: Setup, run: seq<State>, n: nat)
    requires IsRun(setup, run) && n < |run|
    ensures KeysClean(run[n])
  {
    if n > 0 {
      RunKeepsKeysClean(setup, run, n - 1);
      assert Next(setup, run[n - 1], run[(n - 1) + 1]);
      var a :| Enabled(setup, run[n - 1], a) && run[n] == Apply(setup, run[n - 1], a);
      StepKeepsKeysClean(setup, run[n - 1], a);
    }
  }

  // ---- Main results ----

  ghost function Service(ttl: int): Setup {
    Setup(ttl, RuntimeDecoder())
  }

  /** The control plane held c, enabled, under key at some instant from one state number to another. */
  ghost predicate HeldBetween(history: seq<Table>, key: string, c: SourceConfig, first: nat, last: nat) {
    exists i :: first <= i <= last && i < |history| && Holds(history[i], key, c)
  }

  ghost predicate Holds(table: Table, key: string, c: SourceConfig) {
    key in table && table[key].body.enabled && Normalize(table[key].body) == c
  }

  /**
   * In every run, a call that succeeded returned a config the control plane held, enabled, under the call's own key
   * at an instant between the call's start and its end, and that config is clean, valid and enabled.
   */
  lemma SuccessIsFresh(ttl: int, run: seq<State>, n: nat, id: nat)
    requires IsRun(Service(ttl), run) && n < |run| && id in run[n].calls
    requires run[n].calls[id].phase.Returned? && run[n].calls[id].phase.result.Ok?
    ensures
      var s, call := run[n], run[n].calls[id];
      && Servable(call.key, call.phase.result.value)
      && call.startedAt <= call.phase.endedAt < |s.history|
      && HeldBetween(s.history, call.key, call.phase.result.value, call.startedAt, call.phase.endedAt)
  {
    RunKeepsInv(Service(ttl), run, n);
    var s, call := run[n], run[n].calls[id];
    assert GoodCall(Service(ttl), s, call);
    var table := s.history[call.phase.servedAt];
    DecodedIsServable(table[call.key].body, call.key);
    assert Holds(table, call.key, call.phase.result.value);
  }

  lemma HeldNamesItsBody(history: seq<Table>, key: string, c: SourceConfig, first: nat, last: nat) returns (i: nat)
    requires HeldBetween(history, key, c, first, last)
    ensures first <= i <= last && i < |history| && key in history[i] && DescribesSource(history[i][key].body, c)
  {
    i :| first <= i <= last && i < |history| && Holds(history[i], key, c);
    NormalFormIsDescribed(history[i][key].body, c);
  }

  /** A call that succeeded returned the trimmed key and names of an enabled body published under its key between its start and its end. */
  lemma SuccessNamesItsBody(ttl: int, run: seq<State>, n: nat, id: nat) returns (i: nat)
    requires IsRun(Service(ttl), run) && n < |run| && id in run[n].calls
    requires run[n].calls[id].phase.Returned? && run[n].calls[id].phase.result.Ok?
    ensures
      var s, call := run[n], run[n].calls[id];
      && call.startedAt <= i <= call.phase.endedAt && i < |s.history| && call.key in s.history[i]
      && call.phase.result.value.writeKey == call.key
      && DescribesSource(s.history[i][call.key].body, call.phase.result.value)
  {
    SuccessIsFresh(ttl, run, n, id);
    var s, call := run[n], run[n].calls[id];
    i := HeldNamesItsBody(s.history, call.key, call.phase.result.value, call.startedAt, call.phase.endedAt);
  }

  /** What a call returns is trusted under its write key. */
  lemma ResultIsTrusted(ttl: int, run: seq<State>, n: nat, id: nat)
    requires IsRun(Service(ttl), run) && n < |run| && id in run[n].calls && run[n].calls[id].phase.Returned?
    ensures Trim(run[n].calls[id].key) == run[n].calls[id].key
    ensures Trusted(run[n].calls[id].key, run[n].calls[id].phase.result)
  {
    RunKeepsKeysClean(Service(ttl), run, n);
    if run[n].calls[id].phase.result.Ok? {
      SuccessIsFresh(ttl, run, n, id);
    }
  }

  /** Why a call on a missing or disabled source failed. */
  predicate RefusesMissing(r: Resolution) {
    r == Err(SourceNotFound) || ExchangeFailed(r)
  }

  /** The body is the key's own and passes validation. */
  ghost predicate OwnAndValid(body: SourceConfig, key: string) {
    Normalize(body).writeKey == key && Valid(Normalize(body))
  }

  /** A disabled source answers as disabled, unless its body fails one of the two earlier checks. */
  ghost predicate RefusesDisabled(body: SourceConfig, key: string, r: Resolution) {
    || r == Err(SourceDisabled)
    || ExchangeFailed(r)
    || (!OwnAndValid(body, key) && r.Err? && (r.error.WriteKeyMismatch? || r.error.InvalidSource?))
  }

  /** A call whose request was served while the source was missing or disabled failed accordingly, whatever the cache held. */
  lemma RevokedSourcesFail(ttl: int, run: seq<State>, n: nat, id: nat)
    requires IsRun(Service(ttl), run) && n < |run| && id in run[n].calls && run[n].calls[id].phase.Returned?
    ensures
      var s, call := run[n], run[n].calls[id];
      && call.startedAt <= call.phase.servedAt < |s.history|
      && (call.key !in s.history[call.phase.servedAt] ==> RefusesMissing(call.phase.result))
      && (call.key in s.history[call.phase.servedAt] && !s.history[call.phase.servedAt][call.key].body.enabled ==>
            RefusesDisabled(s.history[call.phase.servedAt][call.key].body, call.key, call.phase.result))
  {
    RunKeepsInv(Service(ttl), run, n);
    var s, call := run[n], run[n].calls[id];
    assert GoodCall(Service(ttl), s, call);
    var table := s.history[call.phase.servedAt];
    if call.key in table && !table[call.key].body.enabled {
      DisabledAnswer(table, call.key);
    }
  }

  /** A disabled source's full answer is refused as disabled if and only if the body is the key's own and valid. */
  lemma DisabledAnswer(table: Table, key: string)
    requires key in table && !table[key].body.enabled
    ensures Direct(RuntimeDecoder(), table, key) == Err(SourceDisabled) <==> OwnAndValid(table[key].body, key)
    ensures !OwnAndValid(table[key].body, key) ==>
              var r := Direct(RuntimeDecoder(), table, key); r.Err? && (r.error.WriteKeyMismatch? || r.error.InvalidSource?)
  {
  }

  lemma OneCallBegins(setup: Setup, table: Table, rawKey: string) returns (s1: State, s2: State)
    requires Conforming(setup.decode, [table]) && Trim(rawKey) != ""
    ensures
      var s0 := State([table], 0, map[], map[], []);
      && Init(setup, s0) && Next(setup, s0, s1) && Next(setup, s1, s2)
      && s2 == s0.(calls := map[0 := Call(Trim(rawKey), 0, Sending(None, 0), 0)])
  {
    var s0 := State([table], 0, map[], map[], []);
    s1 := Apply(setup, s0, Begin(0, rawKey));
    s2 := Apply(setup, s1, LookUp(0));
  }

  lemma OneCallEnds(setup: Setup, s2: State, table: Table, key: string, response: Response) returns (s3: State, s4: State)
    requires s2.history == [table] && s2.calls == map[0 := Call(key, 0, Sending(None, 0), 0)] && MayAnswer(table, key, "", response)
    ensures Next(setup, s2, s3) && Next(setup, s3, s4) && s4.history == [table] && 0 in s4.calls
    ensures s4.calls[0].phase == Returned(ResultOf(Answer(setup.decode, None, response, key)), 0, 0)
  {
    s3 := Apply(setup, s2, Serve(0, response));
    s4 := Apply(setup, s3, Finish(0));
  }

  /** One call on its own against an unchanging control plane, as a run. */
  lemma OneCallRun(setup: Setup, table: Table, rawKey: string, response: Response) returns (run: seq<State>)
    requires Conforming(setup.decode, [table]) && Trim(rawKey) != "" && MayAnswer(table, Trim(rawKey), "", response)
    ensures IsRun(setup, run) && |run| == 5 && run[4].history == [table]
    ensures 0 in run[4].calls
    ensures run[4].calls[0].phase == Returned(ResultOf(Answer(setup.decode, None, response, Trim(rawKey))), 0, 0)
  {
    var s1, s2 := OneCallBegins(setup, table, rawKey);
    var s3, s4 := OneCallEnds(setup, s2, table, Trim(rawKey), response);
    run := [State([table], 0, map[], map[], []), s1, s2, s3, s4];
  }

  /** A disabled source published under a foreign key, answered with 200, is refused for its key and not as disabled. */
  lemma DisabledRefusedForItsKey(ttl: int, key: string) returns (run: seq<State>)
    requires Trim(key) == key != ""
    ensures IsRun(Service(ttl), run) && |run| == 5 && run[4].history == [map[key := Published(EMPTY_SOURCE, "")]]
    ensures !EMPTY_SOURCE.enabled
    ensures 0 in run[4].calls && run[4].calls[0].phase == Returned(Err(WriteKeyMismatch), 0, 0)
  {
    var table: Table := map[key := Published(EMPTY_SOURCE, "")];
    TrimIsIdempotent("");
    assert Trim("") == "";
    assert Conforming(Service(ttl).decode, [table]);
    run := OneCallRun(Service(ttl), table, key, StatusOK(Some(EMPTY_SOURCE), ""));
    assert Normalize(EMPTY_SOURCE).writeKey == "";
    assert Decoded(EMPTY_SOURCE, key) == Err(WriteKeyMismatch);
  }

  /** A call that ends in an error leaves the cache and the log of stores as they are. */
  lemma FailedCallsStoreNothing(setup: Setup, s: State, id: nat)
    requires Enabled(setup, s, Finish(id))
    ensures
      var t := Apply(setup, s, Finish(id));
      t.calls[id].phase.result.Err? ==> t.cache == s.cache && t.stores == s.stores
  {
  }

  /**
   * Every cached entry, and every copy of one that a call still carries, is the key's own clean, valid and enabled
   * source, and its non-blank ETag names exactly that source among all the control plane ever held.
   */
  lemma EntriesAreTrusted(ttl: int, run: seq<State>, n: nat, key: string, e: CachedSource)
    requires IsRun(Service(ttl), run) && n < |run|
    requires (key in run[n].cache && run[n].cache[key] == e) || InFlight(run[n], key, e)
    ensures Servable(key, e.source)
    ensures forall i :: 0 <= i < |run[n].history| && key in run[n].history[i] && e.etag != "" && Trim(run[n].history[i][key].etag) == e.etag
              ==> Decoded(run[n].history[i][key].body, key) == Ok(e.source)
  {
    var setup, s := Service(ttl), run[n];
    RunKeepsInv(setup, run, n);
    if InFlight(s, key, e) {
      var id :| id in s.calls && CarriesEntry(s.calls[id], key, e);
      assert GoodCall(setup, s, s.calls[id]);
    }
    assert GoodEntry(setup.decode, s.history, key, e);
    var j :| 0 <= j < |s.history| && NamedIn(setup.decode, s.history[j], key, e.etag, e.source);
    DecodedIsServable(s.history[j][key].body, key);
    forall i | 0 <= i < |s.history| && key in s.history[i] && e.etag != "" && Trim(s.history[i][key].etag) == e.etag
      ensures Decoded(s.history[i][key].body, key) == Ok(e.source)
    {
      assert Agree(setup.decode, s.history[i], s.history[j], key);
    }
  }

  predicate CarriesEntry(call: Call, key: string, e: CachedSource) {
    call.key == key && (call.phase.Sending? || call.phase.Answered?) && call.phase.found == Some(e)
  }

  ghost predicate InFlight(s: State, key: string, e: CachedSource) {
    exists id :: id in s.calls && CarriesEntry(s.calls[id], key, e)
  }

  /** A finished call made one fetch, a call refused for a blank key made none, and no call ever makes two. */
  lemma OneFetchPerCall(setup: Setup, run: seq<State>, n: nat, id: nat)
    requires IsRun(setup, run) && n < |run| && id in run[n].calls
    ensures
      var call := run[n].calls[id];
      && call.fetches <= 1
      && (call.phase.Returned? ==> call.fetches == 1 && call.key != "")
      && (call.key == "" ==> call.phase.Refused? && call.fetches == 0)
  {
    RunKeepsInv(setup, run, n);
    assert GoodCall(setup, run[n], run[n].calls[id]);
  }

  /** If-None-Match only carries the ETag of an entry stored under the key strictly less than the TTL before the lookup. */
  lemma HeaderComesFromRecentStore(setup: Setup, run: seq<State>, n: nat, id: nat)
    requires IsRun(setup, run) && n < |run| && id in run[n].calls && run[n].calls[id].phase.Sending?
    requires RequestHeader(run[n].calls[id].phase.found) != ""
    ensures
      var s, call := run[n], run[n].calls[id];
      exists stored <- s.stores :: stored.key == call.key && stored.etag == RequestHeader(call.phase.found)
                                   && stored.at <= call.phase.lookedAt < stored.at + setup.ttl
  {
    RunKeepsInv(setup, run, n);
    var s, call := run[n], run[n].calls[id];
    assert GoodCall(setup, s, call);
    var e := call.phase.found.value;
    assert Stored(call.key, e.etag, e.expiresAt - setup.ttl) in s.stores;
  }

  // ---- What is stored is found again ----

  /** No entry for the key was stored between the two states. */
  ghost predicate NotRestored(s: State, t: State, key: string) {
    |s.stores| <= |t.stores| && forall i :: |s.stores| <= i < |t.stores| ==> t.stores[i].key != key
  }

  ghost predicate HoldsEntry(s: State, key: string, e: CachedSource) {
    key in s.cache && s.cache[key] == e
  }

  /** Time and the log of stores only grow. */
  lemma StepGrows(setup: Setup, s: State, a: Action)
    requires Enabled(setup, s, a)
    ensures s.clock <= Apply(setup, s, a).clock && s.stores <= Apply(setup, s, a).stores
  {
  }

  /** The log gains an entry exactly when a call ends with a source to cache: its key, its ETag and the time. */
  lemma StoresAreExact(setup: Setup, s: State, a: Action)
    requires Enabled(setup, s, a)
    ensures
      var t := Apply(setup, s, a);
      if a.Finish? && t.calls[a.id].phase.result.Ok? && setup.ttl > 0
      then exists etag :: FinishStores(setup, s, a.id, t.calls[a.id].phase.result.value, etag)
                          && t.stores == s.stores + [Stored(s.calls[a.id].key, Trim(etag), s.clock)]
      else t.stores == s.stores
  {
    if a.Finish? {
      var call := s.calls[a.id];
      var answer := Answer(setup.decode, call.phase.found, call.phase.response, call.key);
      if answer.Ok? {
        assert FinishStores(setup, s, a.id, answer.value.0, answer.value.1);
      }
    }
  }

  lemma {:induction false} RunGrows(setup: Setup, run: seq<State>, n: nat, m: nat)
    requires IsRun(setup, run) && n <= m < |run|
    ensures run[n].clock <= run[m].clock && run[n].stores <= run[m].stores
    decreases m
  {
    if n < m {
      RunGrows(setup, run, n, m - 1);
      assert Next(setup, run[m - 1], run[(m - 1) + 1]);
      var a :| Enabled(setup, run[m - 1], a) && run[m] == Apply(setup, run[m - 1], a);
      StepGrows(setup, run[m - 1], a);
    }
  }

  /** A step keeps an unexpired entry unless it stores under its key. */
  lemma StepKeepsEntry(setup: Setup, s: State, a: Action, key: string, e: CachedSource)
    requires Enabled(setup, s, a) && HoldsEntry(s, key, e) && setup.ttl > 0 && s.clock < e.expiresAt
    requires NotRestored(s, Apply(setup, s, a), key)
    ensures HoldsEntry(Apply(setup, s, a), key, e)
  {
    var t := Apply(setup, s, a);
    if a.Finish? && t.stores != s.stores {
      assert t.stores[|s.stores|].key == s.calls[a.id].key;
    }
  }

  lemma {:induction false} RunKeepsEntry(setup: Setup, run: seq<State>, n: nat, m: nat, key: string, e: CachedSource)
    requires IsRun(setup, run) && n <= m < |run| && setup.ttl > 0
    requires HoldsEntry(run[n], key, e) && run[m].clock < e.expiresAt && NotRestored(run[n], run[m], key)
    ensures HoldsEntry(run[m], key, e)
    decreases m
  {
    if n < m {
      RunGrows(setup, run, n, m - 1);
      RunGrows(setup, run, m - 1, m);
      assert NotRestored(run[n], run[m - 1], key) && NotRestored(run[m - 1], run[m], key);
      RunKeepsEntry(setup, run, n, m - 1, key, e);
      assert Next(setup, run[m - 1], run[(m - 1) + 1]);
      var a :| Enabled(setup, run[m - 1], a) && run[m] == Apply(setup, run[m - 1], a);
      StepKeepsEntry(setup, run[m - 1], a, key, e);
    }
  }

  /** How a call that returns a source leaves the cache. */
  ghost predicate FinishStores(setup: Setup, s: State, id: nat, source: SourceConfig, etag: string) {
    && Enabled(setup, s, Finish(id))
    && Answer(setup.decode, s.calls[id].phase.found, s.calls[id].phase.response, s.calls[id].key) == Ok((source, etag))
  }

  lemma FinishLeavesEntry(setup: Setup, s: State, id: nat, source: SourceConfig, etag: string)
    requires FinishStores(setup, s, id, source, etag) && setup.ttl > 0
    ensures HoldsEntry(Apply(setup, s, Finish(id)), s.calls[id].key, CachedSource(source, Trim(etag), s.clock + setup.ttl))
  {
  }

  /**
   * A source a call returned is what the next lookups of its key find, until the TTL has passed or another call stores
   * under the key; and its ETag is what their requests carry.
   */
  lemma StoredIsFoundAgain(setup: Setup, run: seq<State>, n: nat, first: nat, source: SourceConfig, etag: string, m: nat, second: nat)
    requires IsRun(setup, run) && n < m && m + 1 < |run| && setup.ttl > 0
    requires FinishStores(setup, run[n], first, source, etag) && run[n + 1] == Apply(setup, run[n], Finish(first))
    requires Enabled(setup, run[m], LookUp(second)) && run[m + 1] == Apply(setup, run[m], LookUp(second))
    requires run[m].calls[second].key == run[n].calls[first].key
    requires run[m].clock < run[n].clock + setup.ttl && NotRestored(run[n + 1], run[m], run[n].calls[first].key)
    ensures
      var found := Some(CachedSource(source, Trim(etag), run[n].clock + setup.ttl));
      && run[m + 1].calls[second].phase == Sending(found, run[m].clock)
      && RequestHeader(found) == Trim(etag)
  {
    var key, e := run[n].calls[first].key, CachedSource(source, Trim(etag), run[n].clock + setup.ttl);
    FinishLeavesEntry(setup, run[n], first, source, etag);
    RunKeepsEntry(setup, run, n + 1, m, key, e);
    TrimIsIdempotent(etag);
  }
}
