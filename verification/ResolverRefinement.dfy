/** The cached resolver does nothing an uncached one could not: it refines the resolver whose TTL is zero. */
module ResolverRefinement {
  import opened Wrappers
  import opened Text
  import opened SourceConfigs
  import opened Resolvers
  import opened HttpResolver
  import opened ResolverMachine

  /** The same service with caching off. */
  function Uncached(setup: Setup): Setup {
    setup.(ttl := 0)
  }

  /** A call as the uncached resolver would have it: nothing found, and the full response where a 304 came. */
  ghost function UncachedPhase(history: seq<Table>, key: string, phase: Phase): Phase {
    match phase
    case Sending(_, lookedAt) => Sending(None, lookedAt)
    case Answered(_, response, servedAt) => Answered(None, FullResponse(history, key, response, servedAt), servedAt)
    case _ => phase
  }

  ghost function FullResponse(history: seq<Table>, key: string, response: Response, servedAt: nat): Response {
    if response.StatusNotModified? && servedAt < |history| && key in history[servedAt]
    then StatusOK(Some(history[servedAt][key].body), history[servedAt][key].etag)
    else response
  }

  ghost function UncachedCall(history: seq<Table>, call: Call): Call {
    call.(phase := UncachedPhase(history, call.key, call.phase))
  }

  /** What the uncached resolver's state is beside s: no cache, same control plane, same calls with the same results. */
  ghost function Forget(s: State): State {
    s.(cache := map[], stores := [], calls := map id | id in s.calls :: UncachedCall(s.history, s.calls[id]))
  }

  ghost function UncachedAction(s: State, a: Action): Action {
    match a
    case Serve(id, response) =>
      if id in s.calls && s.history != [] then Serve(id, FullResponse(s.history, s.calls[id].key, response, |s.history| - 1)) else a
    case _ => a
  }

  lemma CallsStay(setup: Setup, s: State, table: Table)
    requires Inv(setup, s)
    ensures forall id :: id in s.calls ==> UncachedCall(s.history + [table], s.calls[id]) == UncachedCall(s.history, s.calls[id])
  {
    forall id | id in s.calls
      ensures UncachedCall(s.history + [table], s.calls[id]) == UncachedCall(s.history, s.calls[id])
    {
      assert GoodCall(setup, s, s.calls[id]);
    }
  }

  /** The answer to a 304 is the answer the full response would have had. */
  lemma SameAnswer(setup: Setup, s: State, id: nat)
    requires Inv(setup, s) && id in s.calls && s.calls[id].phase.Answered?
    ensures
      var call := s.calls[id];
      var full := FullResponse(s.history, call.key, call.phase.response, call.phase.servedAt);
      ResultOf(Answer(setup.decode, None, full, call.key))
        == ResultOf(Answer(setup.decode, call.phase.found, call.phase.response, call.key))
  {
    var call := s.calls[id];
    assert GoodCall(setup, s, call);
    if call.phase.response.StatusNotModified? {
      NotModifiedIsCurrent(setup.decode, s.history, call.key, call.phase.found, call.phase.response.etag, call.phase.servedAt);
    }
  }

  /** How a call ends, given its answer. */
  function Ended(call: Call, result: Resolution, at: nat): Call
    requires call.phase.Answered?
  {
    call.(phase := Returned(result, call.phase.servedAt, at))
  }

  lemma FinishChangesOneCall(setup: Setup, s: State, id: nat)
    requires Enabled(setup, s, Finish(id))
    ensures
      var call, t := s.calls[id], Apply(setup, s, Finish(id));
      && t.history == s.history && t.clock == s.clock
      && t.calls == s.calls[id := Ended(call, ResultOf(Answer(setup.decode, call.phase.found, call.phase.response, call.key)), |s.history| - 1)]
      && (setup.ttl == 0 ==> t.cache == s.cache && t.stores == s.stores)
  {
  }

  lemma FinishMatches(setup: Setup, s: State, id: nat)
    requires Inv(setup, s) && Enabled(setup, s, Finish(id))
    ensures Enabled(Uncached(setup), Forget(s), Finish(id))
    ensures Forget(Apply(setup, s, Finish(id))) == Apply(Uncached(setup), Forget(s), Finish(id))
  {
    SameAnswer(setup, s, id);
    FinishChangesOneCall(setup, s, id);
    FinishChangesOneCall(Uncached(setup), Forget(s), id);
    var call, t := s.calls[id], Apply(setup, s, Finish(id));
    var result := ResultOf(Answer(setup.decode, call.phase.found, call.phase.response, call.key));
    ForgetUpdated(s, id, Ended(call, result, |s.history| - 1));
    assert Forget(t) == Forget(s.(calls := t.calls));
  }

  lemma FullResponseAllowed(table: Table, key: string, header: string, response: Response)
    requires MayAnswer(table, key, header, response)
    ensures MayAnswer(table, key, "", FullResponse([table], key, response, 0))
  {
  }

  lemma ServeIsAllowed(setup: Setup, s: State, id: nat, response: Response)
    requires Inv(setup, s) && Enabled(setup, s, Serve(id, response))
    ensures Enabled(Uncached(setup), Forget(s), Serve(id, FullResponse(s.history, s.calls[id].key, response, |s.history| - 1)))
  {
    var call, present := s.calls[id], |s.history| - 1;
    FullResponseAllowed(s.history[present], call.key, RequestHeader(call.phase.found), response);
    assert Forget(s).calls[id] == call.(phase := Sending(None, call.phase.lookedAt));
  }

  function Served(call: Call, response: Response, at: nat): Call
    requires call.phase.Sending?
  {
    call.(phase := Answered(call.phase.found, response, at), fetches := call.fetches + 1)
  }

  lemma ServeChangesOneCall(setup: Setup, s: State, id: nat, response: Response)
    requires Enabled(setup, s, Serve(id, response))
    ensures Apply(setup, s, Serve(id, response)) == s.(calls := s.calls[id := Served(s.calls[id], response, |s.history| - 1)])
  {
  }

  lemma ServedUncached(history: seq<Table>, call: Call, response: Response)
    requires history != [] && call.phase.Sending?
    ensures
      var present := |history| - 1;
      UncachedCall(history, Served(call, response, present)) ==
      Served(UncachedCall(history, call), FullResponse(history, call.key, response, present), present)
  {
  }

  lemma ServeUpdates(s: State, id: nat, call: Call, response: Response)
    requires s.history != [] && call.phase.Sending?
    ensures
      var present := |s.history| - 1;
      Forget(s.(calls := s.calls[id := Served(call, response, present)])) ==
      Forget(s).(calls := Forget(s).calls[id := Served(UncachedCall(s.history, call), FullResponse(s.history, call.key, response, present), present)])
  {
    ServedUncached(s.history, call, response);
    ForgetUpdated(s, id, Served(call, response, |s.history| - 1));
  }

  lemma ServeForgets(setup: Setup, s: State, id: nat, response: Response)
    requires Enabled(setup, s, Serve(id, response))
    requires Enabled(Uncached(setup), Forget(s), Serve(id, FullResponse(s.history, s.calls[id].key, response, |s.history| - 1)))
    ensures
      var b := Serve(id, FullResponse(s.history, s.calls[id].key, response, |s.history| - 1));
      Forget(Apply(setup, s, Serve(id, response))) == Apply(Uncached(setup), Forget(s), b)
  {
    var call := s.calls[id];
    ServeChangesOneCall(setup, s, id, response);
    ServeChangesOneCall(Uncached(setup), Forget(s), id, FullResponse(s.history, call.key, response, |s.history| - 1));
    ServeUpdates(s, id, call, response);
    assert Forget(s).history == s.history && Forget(s).calls[id] == UncachedCall(s.history, call);
  }

  lemma ServeMatches(setup: Setup, s: State, id: nat, response: Response)
    requires Inv(setup, s) && Enabled(setup, s, Serve(id, response))
    ensures
      var b := Serve(id, FullResponse(s.history, s.calls[id].key, response, |s.history| - 1));
      Enabled(Uncached(setup), Forget(s), b) && Forget(Apply(setup, s, Serve(id, response))) == Apply(Uncached(setup), Forget(s), b)
  {
    ServeIsAllowed(setup, s, id, response);
    ServeForgets(setup, s, id, response);
  }

  lemma ForgetUpdated(s: State, id: nat, call: Call)
    ensures Forget(s.(calls := s.calls[id := call])) == Forget(s).(calls := Forget(s).calls[id := UncachedCall(s.history, call)])
  {
    assert Forget(s.(calls := s.calls[id := call])).calls == Forget(s).calls[id := UncachedCall(s.history, call)];
  }

  lemma LookUpMatches(setup: Setup, s: State, id: nat)
    requires Inv(setup, s) && Enabled(setup, s, LookUp(id))
    ensures Enabled(Uncached(setup), Forget(s), LookUp(id))
    ensures Forget(Apply(setup, s, LookUp(id))) == Apply(Uncached(setup), Forget(s), LookUp(id))
  {
    var t, u := Forget(Apply(setup, s, LookUp(id))), Apply(Uncached(setup), Forget(s), LookUp(id));
    assert t.calls == u.calls;
  }

  lemma PublishMatches(setup: Setup, s: State, table: Table)
    requires Inv(setup, s) && Enabled(setup, s, Publish(table))
    ensures Enabled(Uncached(setup), Forget(s), Publish(table))
    ensures Forget(Apply(setup, s, Publish(table))) == Apply(Uncached(setup), Forget(s), Publish(table))
  {
    CallsStay(setup, s, table);
    assert Forget(Apply(setup, s, Publish(table))).calls == Forget(s).calls;
  }

  lemma TickMatches(setup: Setup, s: State, elapsed: nat)
    requires Enabled(setup, s, Tick(elapsed))
    ensures Enabled(Uncached(setup), Forget(s), Tick(elapsed))
    ensures Forget(Apply(setup, s, Tick(elapsed))) == Apply(Uncached(setup), Forget(s), Tick(elapsed))
  {
  }

  function Begun(s: State, rawKey: string): Call
    requires s.history != []
  {
    Call(Trim(rawKey), |s.history| - 1, if Trim(rawKey) == "" then Refused else Started, 0)
  }

  lemma BeginAddsOneCall(setup: Setup, s: State, id: nat, rawKey: string)
    requires s.history != [] && Enabled(setup, s, Begin(id, rawKey))
    ensures Apply(setup, s, Begin(id, rawKey)) == s.(calls := s.calls[id := Begun(s, rawKey)])
  {
  }

  lemma BeginMatches(setup: Setup, s: State, id: nat, rawKey: string)
    requires s.history != [] && Enabled(setup, s, Begin(id, rawKey))
    ensures Enabled(Uncached(setup), Forget(s), Begin(id, rawKey))
    ensures Forget(Apply(setup, s, Begin(id, rawKey))) == Apply(Uncached(setup), Forget(s), Begin(id, rawKey))
  {
    BeginAddsOneCall(setup, s, id, rawKey);
    BeginAddsOneCall(Uncached(setup), Forget(s), id, rawKey);
    ForgetUpdated(s, id, Begun(s, rawKey));
  }

  /** Every step of the cached resolver is, with its cache forgotten, a step of the uncached one. */
  lemma StepMatches(setup: Setup, s: State, a: Action)
    requires Inv(setup, s) && Enabled(setup, s, a)
    ensures Enabled(Uncached(setup), Forget(s), UncachedAction(s, a))
    ensures Forget(Apply(setup, s, a)) == Apply(Uncached(setup), Forget(s), UncachedAction(s, a))
  {
    match a
    case Finish(id) => FinishMatches(setup, s, id);
    case Serve(id, response) => ServeMatches(setup, s, id, response);
    case LookUp(id) => LookUpMatches(setup, s, id);
    case Publish(table) => PublishMatches(setup, s, table);
    case Tick(elapsed) => TickMatches(setup, s, elapsed);
    case Begin(id, rawKey) => BeginMatches(setup, s, id, rawKey);
  }

  ghost function ForgetAll(run: seq<State>): (r: seq<State>)
    ensures |r| == |run| && forall i :: 0 <= i < |run| ==> r[i] == Forget(run[i])
  {
    seq(|run|, i requires 0 <= i < |run| => Forget(run[i]))
  }

  /**
   * For every run of the cached resolver, whatever its TTL, there is a run of the uncached resolver beside the same
   * control plane and clock, with the same calls at the same times and the same results.
   */
  lemma CachedRefinesUncached(setup: Setup, run: seq<State>)
    requires IsRun(setup, run)
    ensures IsRun(Uncached(setup), ForgetAll(run))
    ensures forall i :: 0 <= i < |run| ==>
              && ForgetAll(run)[i].history == run[i].history && ForgetAll(run)[i].clock == run[i].clock
              && ForgetAll(run)[i].calls.Keys == run[i].calls.Keys
    ensures forall i, id :: 0 <= i < |run| && id in run[i].calls && run[i].calls[id].phase.Returned? ==>
              ForgetAll(run)[i].calls[id] == run[i].calls[id]
  {
    var other := ForgetAll(run);
    assert Forget(run[0]).calls == map[];
    forall i | 0 <= i < |run| - 1
      ensures Next(Uncached(setup), other[i], other[i + 1])
    {
      RunKeepsInv(setup, run, i);
      assert Next(setup, run[i], run[i + 1]);
      var a :| Enabled(setup, run[i], a) && run[i + 1] == Apply(setup, run[i], a);
      StepMatches(setup, run[i], a);
    }
  }
}
