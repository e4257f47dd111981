/**
 * First-write table ensuring by any number of concurrent writers: a double-checked lock around DDL that can fail
 * at every call. Tables are only ever created, by these writers or by anyone else, and never dropped.
 */
module WriterMachine {
  import opened Wrappers

  datatype RoutingKey = RoutingKey(tenantID: string, projectID: string, sourceID: string)

  datatype Envelope = Envelope(id: string, key: RoutingKey, sourceType: string)

  /** route maps a routing key to its physical event table; propertyTable names the table beside it. */
  datatype Setup = Setup(indexing: bool, route: RoutingKey -> Option<string>, propertyTable: string -> string)

  datatype Phase =
    | Arrived            // before routing
    | Peeking            // asks for the mutex to read ensured
    | PeekHeld
    | Queued             // asks for the mutex to ensure the tables
    | Rechecking         // from here to Marking the thread holds the mutex
    | CreatingEvent
    | CheckingEvent
    | CreatingProperty
    | CheckingProperty
    | Marking
    | Ensured            // mutex released, the inner writer is next
    | Written(ok: bool)
    | Failed

  datatype Thread = Thread(envelope: Envelope, table: string, phase: Phase)

  datatype Delivery = Delivery(envelope: Envelope, table: string)

  /** executed counts event-DDL executions and failures counts failed ensure attempts, per physical table. */
  datatype State = State(
    tables: set<string>,
    ensured: set<string>,
    holder: Option<nat>,
    threads: map<nat, Thread>,
    executed: multiset<string>,
    failures: multiset<string>,
    delivered: seq<Delivery>)

  datatype DDL = NotBuilt | ExecFailed | ExecOk

  datatype Action =
    | CreatedElsewhere(tables: set<string>)
    | Arrive(id: nat, envelope: Envelope)
    | Route(id: nat)
    | Acquire(id: nat)
    | Peek(id: nat)
    | Recheck(id: nat)
    | CreateEvent(id: nat, ddl: DDL, appears: bool)
    | CheckEvent(id: nat, scanned: bool)
    | CreateProperty(id: nat, ddl: DDL, appears: bool)
    | CheckProperty(id: nat, scanned: bool)
    | Mark(id: nat)
    | Write(id: nat, ok: bool)

  predicate Waiting(p: Phase) {
    p.Peeking? || p.Queued?
  }

  predicate Holding(p: Phase) {
    p.PeekHeld? || p.Rechecking? || p.CreatingEvent? || p.CheckingEvent? || p.CreatingProperty? || p.CheckingProperty? || p.Marking?
  }

  predicate Over(p: Phase) {
    p.Written? || p.Failed?
  }

  // ---- Steps ----

  predicate At(s: State, id: nat, p: Phase) {
    id in s.threads && s.threads[id].phase == p
  }

  predicate Enabled(s: State, a: Action) {
    match a
    case CreatedElsewhere(_) => true
    case Arrive(id, _) => id !in s.threads
    case Route(id) => At(s, id, Arrived)
    case Acquire(id) => id in s.threads && Waiting(s.threads[id].phase) && s.holder.None?
    case Peek(id) => At(s, id, PeekHeld)
    case Recheck(id) => At(s, id, Rechecking)
    case CreateEvent(id, _, _) => At(s, id, CreatingEvent)
    case CheckEvent(id, _) => At(s, id, CheckingEvent)
    case CreateProperty(id, _, _) => At(s, id, CreatingProperty)
    case CheckProperty(id, _) => At(s, id, CheckingProperty)
    case Mark(id) => At(s, id, Marking)
    case Write(id, _) => At(s, id, Ensured)
  }

  function Moved(s: State, id: nat, p: Phase): State
    requires id in s.threads
  {
    s.(threads := s.threads[id := s.threads[id].(phase := p)])
  }

  function Released(s: State): State {
    s.(holder := None)
  }

  /** An ensure attempt fails: the mutex is released, the table stays unmarked. */
  function Abandoned(s: State, id: nat): State
    requires id in s.threads
  {
    Moved(Released(s), id, Failed).(failures := s.failures + multiset{s.threads[id].table})
  }

  function Created(s: State, table: string, ddl: DDL, appears: bool): State {
    if !ddl.NotBuilt? && appears then s.(tables := s.tables + {table}) else s
  }

  function Apply(setup: Setup, s: State, a: Action): State
    requires Enabled(s, a)
  {
    match a
    case CreatedElsewhere(tables) => s.(tables := s.tables + tables)
    case Arrive(id, envelope) => s.(threads := s.threads[id := Thread(envelope, "", Arrived)])
    case Route(id) =>
      var table := setup.route(s.threads[id].envelope.key);
      if table.None? then Moved(s, id, Failed)
      else s.(threads := s.threads[id := Thread(s.threads[id].envelope, table.value, Peeking)])
    case Acquire(id) => Moved(s.(holder := Some(id)), id, if s.threads[id].phase.Peeking? then PeekHeld else Rechecking)
    case Peek(id) => Moved(Released(s), id, if s.threads[id].table in s.ensured then Ensured else Queued)
    case Recheck(id) => if s.threads[id].table in s.ensured then Moved(Released(s), id, Ensured) else Moved(s, id, CreatingEvent)
    case CreateEvent(id, ddl, appears) =>
      var table := s.threads[id].table;
      var tried := Created(s, table, ddl, appears).(executed := if ddl.NotBuilt? then s.executed else s.executed + multiset{table});
      if ddl.ExecOk? then Moved(tried, id, CheckingEvent) else Abandoned(tried, id)
    case CheckEvent(id, scanned) =>
      if scanned && s.threads[id].table in s.tables
      then Moved(s, id, if setup.indexing then CreatingProperty else Marking)
      else Abandoned(s, id)
    case CreateProperty(id, ddl, appears) =>
      var tried := Created(s, setup.propertyTable(s.threads[id].table), ddl, appears);
      if ddl.ExecOk? then Moved(tried, id, CheckingProperty) else Abandoned(tried, id)
    case CheckProperty(id, scanned) =>
      if scanned && setup.propertyTable(s.threads[id].table) in s.tables then Moved(s, id, Marking) else Abandoned(s, id)
    case Mark(id) => Moved(Released(s.(ensured := s.ensured + {s.threads[id].table})), id, Ensured)
    case Write(id, ok) =>
      Moved(s, id, Written(ok)).(delivered := s.delivered + [Delivery(s.threads[id].envelope, s.threads[id].table)])
  }

  ghost predicate Next(setup: Setup, s: State, t: State) {
    exists a :: Enabled(s, a) && t == Apply(setup, s, a)
  }

  /** A stretch of a run, as the states it goes through. */
  ghost predicate IsPath(setup: Setup, path: seq<State>) {
    path != [] && forall i :: 0 <= i < |path| - 1 ==> Next(setup, path[i], path[i + 1])
  }

  ghost predicate Reaches(setup: Setup, s: State, t: State) {
    exists path :: IsPath(setup, path) && path[0] == s && path[|path| - 1] == t
  }

  lemma ReachesSelf(setup: Setup, s: State)
    ensures Reaches(setup, s, s)
  {
    assert IsPath(setup, [s]);
  }

  lemma ReachesMore(setup: Setup, s: State, t: State, a: Action)
    requires Reaches(setup, s, t) && Enabled(t, a)
    ensures Reaches(setup, s, Apply(setup, t, a))
  {
    var path :| IsPath(setup, path) && path[0] == s && path[|path| - 1] == t;
    var more := path + [Apply(setup, t, a)];
    forall i | 0 <= i < |more| - 1
      ensures Next(setup, more[i], more[i + 1])
    {
      if i < |path| - 1 {
        assert Next(setup, path[i], path[i + 1]);
      }
    }
    assert IsPath(setup, more);
  }

  predicate Init(s: State) {
    s.ensured == {} && s.holder.None? && s.threads == map[] && s.executed == multiset{} && s.failures == multiset{} && s.delivered == []
  }

  /** The thread an action belongs to. */
  function ActorOf(a: Action): Option<nat> {
    match a
    case CreatedElsewhere(_) => None
    case Arrive(_, _) => None
    case Route(id) => Some(id)
    case Acquire(id) => Some(id)
    case Peek(id) => Some(id)
    case Recheck(id) => Some(id)
    case CreateEvent(id, _, _) => Some(id)
    case CheckEvent(id, _) => Some(id)
    case CreateProperty(id, _, _) => Some(id)
    case CheckProperty(id, _) => Some(id)
    case Mark(id) => Some(id)
    case Write(id, _) => Some(id)
  }

  predicate Looking(a: Action) {
    a.Route? || a.Acquire? || a.Peek? || a.Recheck?
  }

  predicate OnEventTable(a: Action) {
    a.CreateEvent? || a.CheckEvent?
  }

  predicate OnPropertyTable(a: Action) {
    a.CreateProperty? || a.CheckProperty?
  }

  // ---- The invariant ----

  /** The event table exists, and its property table when indexing is on. */
  predicate Present(setup: Setup, tables: set<string>, table: string) {
    table in tables && (setup.indexing ==> setup.propertyTable(table) in tables)
  }

  /** What a thread's phase says about its table. */
  predicate GoodThread(setup: Setup, s: State, t: Thread) {
    && (!t.phase.Arrived? && !t.phase.Failed? ==> setup.route(t.envelope.key) == Some(t.table))
    && (t.phase.Ensured? || t.phase.Written? ==> t.table in s.ensured)
    && (InAttempt(t.phase) ==> t.table !in s.ensured)
    && (t.phase.CreatingProperty? || t.phase.CheckingProperty? || t.phase.Marking? ==> t.table in s.tables)
    && (t.phase.Marking? ==> Present(setup, s.tables, t.table))
  }

  predicate InAttempt(p: Phase) {
    p.CreatingEvent? || AfterEventDDL(p)
  }

  predicate AfterEventDDL(p: Phase) {
    p.CheckingEvent? || p.CreatingProperty? || p.CheckingProperty? || p.Marking?
  }

  /** 1 while the mutex holder has executed the table's event DDL and not yet failed or marked it. */
  function Underway(s: State, table: string): nat {
    if s.holder.Some? && s.holder.value in s.threads && AfterEventDDL(s.threads[s.holder.value].phase) && s.threads[s.holder.value].table == table
    then 1 else 0
  }

  predicate Budget(s: State, table: string) {
    s.executed[table] <= s.failures[table] + (if table in s.ensured then 1 else 0) + Underway(s, table)
  }

  ghost predicate OneHolder(s: State) {
    && (forall id :: id in s.threads ==> (Holding(s.threads[id].phase) <==> s.holder == Some(id)))
    && (s.holder.Some? ==> s.holder.value in s.threads)
  }

  ghost predicate EnsuredPresent(setup: Setup, s: State) {
    forall table :: table in s.ensured ==> Present(setup, s.tables, table)
  }

  ghost predicate GoodThreads(setup: Setup, s: State) {
    forall id :: id in s.threads ==> GoodThread(setup, s, s.threads[id])
  }

  ghost predicate WithinBudget(s: State) {
    forall table :: Budget(s, table)
  }

  ghost predicate GoodDeliveries(setup: Setup, s: State) {
    forall d <- s.delivered :: d.table in s.ensured && setup.route(d.envelope.key) == Some(d.table)
  }

  ghost predicate Inv(setup: Setup, s: State) {
    OneHolder(s) && EnsuredPresent(setup, s) && GoodThreads(setup, s) && WithinBudget(s) && GoodDeliveries(setup, s)
  }

  lemma InitInv(setup: Setup, s: State)
    requires Init(s)
    ensures Inv(setup, s)
  {
  }

  lemma StepsAreLocal(setup: Setup, s: State, a: Action, id: nat, other: nat)
    requires Enabled(s, a) && ActorOf(a) == Some(id) && other != id
    ensures other in s.threads <==> other in Apply(setup, s, a).threads
    ensures other in s.threads ==> Apply(setup, s, a).threads[other] == s.threads[other]
  {
  }

  lemma LookingMovesHolder(setup: Setup, s: State, a: Action, id: nat)
    requires OneHolder(s) && Enabled(s, a) && ActorOf(a) == Some(id) && Looking(a)
    ensures id in Apply(setup, s, a).threads
    ensures Holding(Apply(setup, s, a).threads[id].phase) <==> Apply(setup, s, a).holder == Some(id)
    ensures Apply(setup, s, a).holder == Some(id) ==> s.holder == Some(id) || s.holder.None?
    ensures Apply(setup, s, a).holder != Some(id) ==> Apply(setup, s, a).holder == if s.holder == Some(id) then None else s.holder
  {
  }

  lemma EventDDLMovesHolder(setup: Setup, s: State, a: Action, id: nat)
    requires OneHolder(s) && Enabled(s, a) && ActorOf(a) == Some(id) && OnEventTable(a)
    ensures id in Apply(setup, s, a).threads
    ensures Holding(Apply(setup, s, a).threads[id].phase) <==> Apply(setup, s, a).holder == Some(id)
    ensures Apply(setup, s, a).holder == Some(id) ==> s.holder == Some(id) || s.holder.None?
    ensures Apply(setup, s, a).holder != Some(id) ==> Apply(setup, s, a).holder == if s.holder == Some(id) then None else s.holder
  {
  }

  lemma OthersMoveHolder(setup: Setup, s: State, a: Action, id: nat)
    requires OneHolder(s) && Enabled(s, a) && ActorOf(a) == Some(id) && !Looking(a) && !OnEventTable(a)
    ensures id in Apply(setup, s, a).threads
    ensures Holding(Apply(setup, s, a).threads[id].phase) <==> Apply(setup, s, a).holder == Some(id)
    ensures Apply(setup, s, a).holder == Some(id) ==> s.holder == Some(id) || s.holder.None?
    ensures Apply(setup, s, a).holder != Some(id) ==> Apply(setup, s, a).holder == if s.holder == Some(id) then None else s.holder
  {
  }

  /** The mutex goes only to the acting thread, when free, and only from it; and that thread knows. */
  lemma HolderMoves(setup: Setup, s: State, a: Action, id: nat)
    requires OneHolder(s) && Enabled(s, a) && ActorOf(a) == Some(id)
    ensures id in Apply(setup, s, a).threads
    ensures Holding(Apply(setup, s, a).threads[id].phase) <==> Apply(setup, s, a).holder == Some(id)
    ensures Apply(setup, s, a).holder == Some(id) ==> s.holder == Some(id) || s.holder.None?
    ensures Apply(setup, s, a).holder != Some(id) ==> Apply(setup, s, a).holder == if s.holder == Some(id) then None else s.holder
  {
    if Looking(a) {
      LookingMovesHolder(setup, s, a, id);
    } else if OnEventTable(a) {
      EventDDLMovesHolder(setup, s, a, id);
    } else {
      OthersMoveHolder(setup, s, a, id);
    }
  }

  lemma StepKeepsHolder(setup: Setup, s: State, a: Action)
    requires OneHolder(s) && Enabled(s, a)
    ensures OneHolder(Apply(setup, s, a))
  {
    var t := Apply(setup, s, a);
    if ActorOf(a).Some? {
      var actor := ActorOf(a).value;
      HolderMoves(setup, s, a, actor);
      forall id | id in t.threads
        ensures Holding(t.threads[id].phase) <==> t.holder == Some(id)
      {
        if id != actor {
          StepsAreLocal(setup, s, a, actor, id);
        }
      }
      if t.holder.Some? && t.holder.value != actor {
        StepsAreLocal(setup, s, a, actor, t.holder.value);
      }
    }
  }

  lemma StepKeepsEnsured(setup: Setup, s: State, a: Action)
    requires EnsuredPresent(setup, s) && GoodThreads(setup, s) && Enabled(s, a)
    ensures EnsuredPresent(setup, Apply(setup, s, a))
  {
  }

  /** Tables and ensured names only grow, and only the mutex holder adds an ensured name. */
  lemma StepGrows(setup: Setup, s: State, a: Action)
    requires Enabled(s, a)
    ensures s.tables <= Apply(setup, s, a).tables && s.ensured <= Apply(setup, s, a).ensured
    ensures Apply(setup, s, a).ensured != s.ensured ==> a.Mark? && Holding(s.threads[a.id].phase)
  {
  }

  lemma BystanderStaysGood(setup: Setup, s: State, a: Action, id: nat)
    requires OneHolder(s) && GoodThreads(setup, s) && Enabled(s, a)
    requires id in s.threads && ActorOf(a).Some? && ActorOf(a).value != id
    ensures id in Apply(setup, s, a).threads && GoodThread(setup, Apply(setup, s, a), Apply(setup, s, a).threads[id])
  {
    StepsAreLocal(setup, s, a, ActorOf(a).value, id);
    StepGrows(setup, s, a);
    assert GoodThread(setup, s, s.threads[id]);
  }

  lemma ActorStaysGood(setup: Setup, s: State, a: Action, id: nat)
    requires GoodThreads(setup, s) && Enabled(s, a) && ActorOf(a) == Some(id)
    ensures id in Apply(setup, s, a).threads && GoodThread(setup, Apply(setup, s, a), Apply(setup, s, a).threads[id])
  {
    assert GoodThread(setup, s, s.threads[id]);
    if OnEventTable(a) {
      EventDDLStaysGood(setup, s, a, id);
    } else if OnPropertyTable(a) {
      PropertyDDLStaysGood(setup, s, a, id);
    } else {
      OthersStayGood(setup, s, a, id);
    }
  }

  lemma EventDDLStaysGood(setup: Setup, s: State, a: Action, id: nat)
    requires Enabled(s, a) && ActorOf(a) == Some(id) && GoodThread(setup, s, s.threads[id]) && OnEventTable(a)
    ensures id in Apply(setup, s, a).threads && GoodThread(setup, Apply(setup, s, a), Apply(setup, s, a).threads[id])
  {
  }

  lemma PropertyDDLStaysGood(setup: Setup, s: State, a: Action, id: nat)
    requires Enabled(s, a) && ActorOf(a) == Some(id) && GoodThread(setup, s, s.threads[id]) && OnPropertyTable(a)
    ensures id in Apply(setup, s, a).threads && GoodThread(setup, Apply(setup, s, a), Apply(setup, s, a).threads[id])
  {
  }

  lemma OthersStayGood(setup: Setup, s: State, a: Action, id: nat)
    requires Enabled(s, a) && ActorOf(a) == Some(id) && GoodThread(setup, s, s.threads[id]) && !OnEventTable(a) && !OnPropertyTable(a)
    ensures id in Apply(setup, s, a).threads && GoodThread(setup, Apply(setup, s, a), Apply(setup, s, a).threads[id])
  {
  }

  lemma StepKeepsThreads(setup: Setup, s: State, a: Action)
    requires OneHolder(s) && GoodThreads(setup, s) && Enabled(s, a)
    ensures GoodThreads(setup, Apply(setup, s, a))
  {
    var t := Apply(setup, s, a);
    if ActorOf(a).Some? {
      var actor := ActorOf(a).value;
      ActorStaysGood(setup, s, a, actor);
      forall id | id in t.threads && id != actor
        ensures GoodThread(setup, t, t.threads[id])
      {
        StepsAreLocal(setup, s, a, actor, id);
        BystanderStaysGood(setup, s, a, id);
      }
    }
  }

  lemma EventDDLKeepsBudget(setup: Setup, s: State, a: Action, table: string)
    requires OneHolder(s) && GoodThreads(setup, s) && Budget(s, table) && Enabled(s, a) && OnEventTable(a)
    ensures Budget(Apply(setup, s, a), table)
  {
  }

  lemma OthersKeepBudget(setup: Setup, s: State, a: Action, table: string)
    requires OneHolder(s) && GoodThreads(setup, s) && Budget(s, table) && Enabled(s, a) && !OnEventTable(a)
    ensures Budget(Apply(setup, s, a), table)
  {
  }

  lemma StepKeepsBudget(setup: Setup, s: State, a: Action, table: string)
    requires OneHolder(s) && GoodThreads(setup, s) && Budget(s, table) && Enabled(s, a)
    ensures Budget(Apply(setup, s, a), table)
  {
    if OnEventTable(a) {
      EventDDLKeepsBudget(setup, s, a, table);
    } else {
      OthersKeepBudget(setup, s, a, table);
    }
  }

  lemma StepKeepsDeliveries(setup: Setup, s: State, a: Action)
    requires GoodThreads(setup, s) && GoodDeliveries(setup, s) && Enabled(s, a)
    ensures GoodDeliveries(setup, Apply(setup, s, a))
  {
  }

  lemma StepKeepsInv(setup: Setup, s: State, a: Action)
    requires Inv(setup, s) && Enabled(s, a)
    ensures Inv(setup, Apply(setup, s, a))
  {
    StepKeepsHolder(setup, s, a);
    StepKeepsEnsured(setup, s, a);
    StepKeepsThreads(setup, s, a);
    StepKeepsDeliveries(setup, s, a);
    forall table
      ensures Budget(Apply(setup, s, a), table)
    {
      StepKeepsBudget(setup, s, a, table);
    }
  }

  lemma {:induction false} PathKeepsInv(setup: Setup, path: seq<State>, n: nat)
    requires IsPath(setup, path) && Inv(setup, path[0]) && n < |path|
    ensures Inv(setup, path[n])
  {
    if n > 0 {
      PathKeepsInv(setup, path, n - 1);
      assert Next(setup, path[n - 1], path[(n - 1) + 1]);
      var a :| Enabled(path[n - 1], a) && path[n] == Apply(setup, path[n - 1], a);
      StepKeepsInv(setup, path[n - 1], a);
    }
  }

  // ---- Main results ----

  /**
   * In every run, whatever the interleaving and the failures: an ensured name has its tables, everything the inner
   * writer received was routed to an ensured name, and at most one thread holds the mutex and it never asks for it again.
   */
  lemma EnsuredMeansPresent(setup: Setup, path: seq<State>, n: nat)
    requires IsPath(setup, path) && Init(path[0]) && n < |path|
    ensures
      var s := path[n];
      && (forall table :: table in s.ensured ==> table in s.tables && (setup.indexing ==> setup.propertyTable(table) in s.tables))
      && (forall d <- s.delivered :: setup.route(d.envelope.key) == Some(d.table) && d.table in s.ensured)
      && (forall id :: id in s.threads && Waiting(s.threads[id].phase) ==> s.holder != Some(id))
      && (forall i, j :: i in s.threads && j in s.threads && Holding(s.threads[i].phase) && Holding(s.threads[j].phase) ==> i == j)
  {
    InitInv(setup, path[0]);
    PathKeepsInv(setup, path, n);
  }

  /** When the inner writer is called, the tables of its event exist already. */
  lemma WriteFindsTables(setup: Setup, path: seq<State>, n: nat, id: nat, ok: bool)
    requires IsPath(setup, path) && Init(path[0]) && n < |path| && Enabled(path[n], Write(id, ok))
    ensures
      var t := path[n].threads[id];
      setup.route(t.envelope.key) == Some(t.table) && Present(setup, path[n].tables, t.table)
  {
    InitInv(setup, path[0]);
    PathKeepsInv(setup, path, n);
  }

  /** Event DDL for a table is executed at most once more than ensuring that table has failed. */
  lemma EventDDLBudget(setup: Setup, path: seq<State>, n: nat, table: string)
    requires IsPath(setup, path) && Init(path[0]) && n < |path|
    ensures path[n].executed[table] <= 1 + path[n].failures[table]
  {
    InitInv(setup, path[0]);
    PathKeepsInv(setup, path, n);
    assert Budget(path[n], table);
  }

  /** One step changes ensured only by marking a table whose tables were just checked; a failure leaves it alone. */
  lemma StepEnsures(setup: Setup, s: State, a: Action)
    requires Inv(setup, s) && Enabled(s, a)
    ensures
      var t := Apply(setup, s, a);
      && s.ensured <= t.ensured && s.tables <= t.tables
      && (t.ensured != s.ensured ==> a.Mark? && t.ensured == s.ensured + {s.threads[a.id].table} && t.failures == s.failures)
      && (forall table :: table in s.ensured ==> t.executed[table] == s.executed[table])
  {
  }

  lemma StepRunsNoDDLForEnsured(setup: Setup, path: seq<State>, n: nat, table: string)
    requires IsPath(setup, path) && Init(path[0]) && n + 1 < |path| && table in path[n].ensured
    ensures table in path[n + 1].ensured && path[n + 1].executed[table] == path[n].executed[table]
  {
    InitInv(setup, path[0]);
    PathKeepsInv(setup, path, n);
    assert Next(setup, path[n], path[n + 1]);
    var a :| Enabled(path[n], a) && path[n + 1] == Apply(setup, path[n], a);
    StepEnsures(setup, path[n], a);
  }

  /** Once a table is ensured it stays so, and no event DDL for it ever runs again. */
  lemma {:induction false} NoDDLAfterEnsured(setup: Setup, path: seq<State>, m: nat, n: nat, table: string)
    requires IsPath(setup, path) && Init(path[0]) && m <= n < |path| && table in path[m].ensured
    ensures table in path[n].ensured && path[n].executed[table] == path[m].executed[table]
    decreases n
  {
    if m < n {
      NoDDLAfterEnsured(setup, path, m, n - 1, table);
      StepRunsNoDDLForEnsured(setup, path, n - 1, table);
    }
  }

  lemma ActorKeepsEvent(setup: Setup, s: State, a: Action, id: nat)
    requires Enabled(s, a) && ActorOf(a) == Some(id)
    ensures id in s.threads && id in Apply(setup, s, a).threads
    ensures Apply(setup, s, a).threads[id].envelope == s.threads[id].envelope
  {
  }

  /** A thread keeps its event from arrival on. */
  lemma ThreadKeepsEvent(setup: Setup, s: State, a: Action, id: nat)
    requires Enabled(s, a) && id in Apply(setup, s, a).threads
    ensures
      var e := Apply(setup, s, a).threads[id].envelope;
      if a.Arrive? && id == a.id then e == a.envelope else id in s.threads && e == s.threads[id].envelope
  {
    if ActorOf(a) == Some(id) {
      ActorKeepsEvent(setup, s, a, id);
    } else if ActorOf(a).Some? {
      StepsAreLocal(setup, s, a, ActorOf(a).value, id);
    }
  }

  /** The inner writer receives only what a thread carries. */
  lemma DeliveryHasThread(setup: Setup, s: State, a: Action, d: Delivery)
    requires Enabled(s, a) && d in Apply(setup, s, a).delivered && d !in s.delivered
    ensures a.Write? && a.id in s.threads && d == Delivery(s.threads[a.id].envelope, s.threads[a.id].table)
  {
  }

  // ---- Writes succeed unless something outside fails them ----

  /** The step finds no route, or its outside call fails or finds the table missing. */
  predicate Faulty(setup: Setup, s: State, a: Action)
    requires Enabled(s, a)
  {
    match a
    case Route(id) => setup.route(s.threads[id].envelope.key).None?
    case CreateEvent(_, ddl, _) => !ddl.ExecOk?
    case CheckEvent(id, scanned) => !scanned || s.threads[id].table !in s.tables
    case CreateProperty(_, ddl, _) => !ddl.ExecOk?
    case CheckProperty(id, scanned) => !scanned || setup.propertyTable(s.threads[id].table) !in s.tables
    case _ => false
  }

  lemma LookingFailsOnFault(setup: Setup, s: State, a: Action, id: nat)
    requires Enabled(s, a) && ActorOf(a) == Some(id) && Looking(a)
    ensures id in Apply(setup, s, a).threads
    ensures Apply(setup, s, a).threads[id].phase.Failed? <==> Faulty(setup, s, a)
  {
  }

  lemma EventDDLFailsOnFault(setup: Setup, s: State, a: Action, id: nat)
    requires Enabled(s, a) && ActorOf(a) == Some(id) && OnEventTable(a)
    ensures id in Apply(setup, s, a).threads
    ensures Apply(setup, s, a).threads[id].phase.Failed? <==> Faulty(setup, s, a)
  {
  }

  lemma PropertyDDLFailsOnFault(setup: Setup, s: State, a: Action, id: nat)
    requires Enabled(s, a) && ActorOf(a) == Some(id) && OnPropertyTable(a)
    ensures id in Apply(setup, s, a).threads
    ensures Apply(setup, s, a).threads[id].phase.Failed? <==> Faulty(setup, s, a)
  {
  }

  lemma EndingFailsOnFault(setup: Setup, s: State, a: Action, id: nat)
    requires Enabled(s, a) && ActorOf(a) == Some(id) && (a.Mark? || a.Write?)
    ensures id in Apply(setup, s, a).threads
    ensures Apply(setup, s, a).threads[id].phase.Failed? <==> Faulty(setup, s, a)
  {
  }

  /** A step fails its write if and only if it is faulty. */
  lemma FailsOnFault(setup: Setup, s: State, a: Action, id: nat)
    requires Enabled(s, a) && ActorOf(a) == Some(id)
    ensures id in Apply(setup, s, a).threads
    ensures Apply(setup, s, a).threads[id].phase.Failed? <==> Faulty(setup, s, a)
  {
    if Looking(a) {
      LookingFailsOnFault(setup, s, a, id);
    } else if OnEventTable(a) {
      EventDDLFailsOnFault(setup, s, a, id);
    } else if OnPropertyTable(a) {
      PropertyDDLFailsOnFault(setup, s, a, id);
    } else {
      EndingFailsOnFault(setup, s, a, id);
    }
  }

  /** A write that finds its table ensured is ready for the inner writer right after its first look, without the mutex. */
  lemma KnownTableNeedsNoAttempt(setup: Setup, s: State, id: nat, ok: bool)
    requires Enabled(s, Peek(id)) && s.threads[id].table in s.ensured
    ensures Apply(setup, s, Peek(id)).holder == None && Enabled(Apply(setup, s, Peek(id)), Write(id, ok))
  {
  }

  /** What is counted: every event DDL that reaches the connection, for its table. */
  lemma ExecutedIsExact(setup: Setup, s: State, a: Action)
    requires Enabled(s, a)
    ensures if a.CreateEvent? && a.ddl != NotBuilt
            then Apply(setup, s, a).executed == s.executed + multiset{s.threads[a.id].table}
            else Apply(setup, s, a).executed == s.executed
  {
  }

  /** And every failed attempt to ensure a table. */
  lemma FailuresAreExact(setup: Setup, s: State, a: Action, id: nat)
    requires Enabled(s, a)
    ensures ActorOf(a) == Some(id) && Faulty(setup, s, a) && !a.Route? ==>
              Apply(setup, s, a).failures == s.failures + multiset{s.threads[id].table}
    ensures !Faulty(setup, s, a) || a.Route? ==> Apply(setup, s, a).failures == s.failures
  {
  }

  /** Whoever else steps, and however this write began, it does not fail without a faulty step of its own. */
  lemma FailsOnlyByItself(setup: Setup, s: State, a: Action, id: nat)
    requires Enabled(s, a) && id in Apply(setup, s, a).threads && Apply(setup, s, a).threads[id].phase.Failed?
    ensures (id in s.threads && s.threads[id].phase.Failed?) || (ActorOf(a) == Some(id) && Faulty(setup, s, a))
  {
    if ActorOf(a) == Some(id) {
      FailsOnFault(setup, s, a, id);
    } else if ActorOf(a).Some? {
      StepsAreLocal(setup, s, a, ActorOf(a).value, id);
    }
  }

  /** In every run a write that failed took a faulty step of its own. */
  lemma {:induction false} FailedHadFault(setup: Setup, path: seq<State>, n: nat, id: nat) returns (m: nat, a: Action)
    requires IsPath(setup, path) && Init(path[0]) && n < |path|
    requires id in path[n].threads && path[n].threads[id].phase.Failed?
    ensures m < n && Enabled(path[m], a) && path[m + 1] == Apply(setup, path[m], a)
    ensures ActorOf(a) == Some(id) && Faulty(setup, path[m], a)
  {
    m := n - 1;
    assert Next(setup, path[m], path[m + 1]);
    a :| Enabled(path[m], a) && path[m + 1] == Apply(setup, path[m], a);
    FailsOnlyByItself(setup, path[m], a, id);
    if id in path[m].threads && path[m].threads[id].phase.Failed? {
      m, a := FailedHadFault(setup, path, m, id);
    }
  }

  /** The deliveries are exactly those of the written threads, one each, in this order. */
  ghost predicate InOrder(s: State, order: seq<nat>) {
    && |order| == |s.delivered|
    && (forall i, j :: 0 <= i < j < |order| ==> order[i] != order[j])
    && (forall id :: id in order <==> id in s.threads && s.threads[id].phase.Written?)
    && (forall i :: 0 <= i < |order| ==> s.delivered[i] == Delivery(s.threads[order[i]].envelope, s.threads[order[i]].table))
  }

  lemma WriteDelivers(setup: Setup, s: State, id: nat, ok: bool, order: seq<nat>)
    requires Enabled(s, Write(id, ok)) && InOrder(s, order)
    ensures InOrder(Apply(setup, s, Write(id, ok)), order + [id])
  {
  }

  /** No other step delivers, ends a write well, or touches one that has ended. */
  lemma OthersDeliverNothing(setup: Setup, s: State, a: Action, id: nat)
    requires Enabled(s, a) && !a.Write?
    ensures Apply(setup, s, a).delivered == s.delivered
    ensures id in Apply(setup, s, a).threads && Apply(setup, s, a).threads[id].phase.Written? ==> id in s.threads && s.threads[id].phase.Written?
    ensures id in s.threads && s.threads[id].phase.Written? ==> id in Apply(setup, s, a).threads && Apply(setup, s, a).threads[id] == s.threads[id]
  {
    if ActorOf(a) == Some(id) {
      ActorIsNotWritten(setup, s, a, id);
    } else if ActorOf(a).Some? {
      StepsAreLocal(setup, s, a, ActorOf(a).value, id);
    }
    OnlyWritesDeliver(setup, s, a);
  }

  lemma OnlyWritesDeliver(setup: Setup, s: State, a: Action)
    requires Enabled(s, a) && !a.Write?
    ensures Apply(setup, s, a).delivered == s.delivered
  {
  }

  lemma ActorIsNotWritten(setup: Setup, s: State, a: Action, id: nat)
    requires Enabled(s, a) && ActorOf(a) == Some(id) && !a.Write?
    ensures id in s.threads && !s.threads[id].phase.Written?
    ensures id in Apply(setup, s, a).threads && !Apply(setup, s, a).threads[id].phase.Written?
  {
    StepsLowerRank(setup, s, a, id);
    if OnEventTable(a) {
      EventDDLLeavesUnwritten(setup, s, a, id);
    } else if OnPropertyTable(a) {
      PropertyDDLLeavesUnwritten(setup, s, a, id);
    } else {
      LookingLeavesUnwritten(setup, s, a, id);
    }
  }

  lemma EventDDLLeavesUnwritten(setup: Setup, s: State, a: Action, id: nat)
    requires Enabled(s, a) && ActorOf(a) == Some(id) && OnEventTable(a)
    ensures id in Apply(setup, s, a).threads && !Apply(setup, s, a).threads[id].phase.Written?
  {
  }

  lemma PropertyDDLLeavesUnwritten(setup: Setup, s: State, a: Action, id: nat)
    requires Enabled(s, a) && ActorOf(a) == Some(id) && OnPropertyTable(a)
    ensures id in Apply(setup, s, a).threads && !Apply(setup, s, a).threads[id].phase.Written?
  {
  }

  lemma LookingLeavesUnwritten(setup: Setup, s: State, a: Action, id: nat)
    requires Enabled(s, a) && ActorOf(a) == Some(id) && (Looking(a) || a.Mark?)
    ensures id in Apply(setup, s, a).threads && !Apply(setup, s, a).threads[id].phase.Written?
  {
  }

  lemma StepDelivers(setup: Setup, s: State, a: Action, order: seq<nat>) returns (next: seq<nat>)
    requires Enabled(s, a) && InOrder(s, order)
    ensures InOrder(Apply(setup, s, a), next)
  {
    if a.Write? {
      next := order + [a.id];
      WriteDelivers(setup, s, a.id, a.ok, order);
    } else {
      next := order;
      forall id
        ensures Apply(setup, s, a).delivered == s.delivered
        ensures id in Apply(setup, s, a).threads && Apply(setup, s, a).threads[id].phase.Written? ==> id in s.threads && s.threads[id].phase.Written?
        ensures id in s.threads && s.threads[id].phase.Written? ==> id in Apply(setup, s, a).threads && Apply(setup, s, a).threads[id] == s.threads[id]
      {
        OthersDeliverNothing(setup, s, a, id);
      }
    }
  }

  /** In every run the inner writer received each written thread's event once, with the table it was routed to, and nothing else. */
  lemma {:induction false} DeliveredOnce(setup: Setup, path: seq<State>, n: nat) returns (order: seq<nat>)
    requires IsPath(setup, path) && Init(path[0]) && n < |path|
    ensures InOrder(path[n], order)
  {
    if n == 0 {
      order := [];
    } else {
      order := DeliveredOnce(setup, path, n - 1);
      assert Next(setup, path[n - 1], path[(n - 1) + 1]);
      var a :| Enabled(path[n - 1], a) && path[n] == Apply(setup, path[n - 1], a);
      order := StepDelivers(setup, path[n - 1], a, order);
    }
  }

  /**
   * In every run a write that is over and took no faulty step is written: its event was routed, its table is ensured and has
   * its tables, and the inner writer received the event with that table exactly once for this write.
   */
  lemma FaultFreeIsWritten(setup: Setup, path: seq<State>, n: nat, id: nat) returns (order: seq<nat>, i: nat)
    requires IsPath(setup, path) && Init(path[0]) && n < |path|
    requires id in path[n].threads && Over(path[n].threads[id].phase)
    requires forall m, a :: 0 <= m < n && Enabled(path[m], a) && path[m + 1] == Apply(setup, path[m], a) && ActorOf(a) == Some(id) ==> !Faulty(setup, path[m], a)
    ensures
      var t := path[n].threads[id];
      && t.phase.Written? && setup.route(t.envelope.key) == Some(t.table)
      && t.table in path[n].ensured && Present(setup, path[n].tables, t.table)
      && InOrder(path[n], order) && i < |order| && order[i] == id && path[n].delivered[i] == Delivery(t.envelope, t.table)
  {
    if path[n].threads[id].phase.Failed? {
      var m, a := FailedHadFault(setup, path, n, id);
      assert false;
    }
    InitInv(setup, path[0]);
    PathKeepsInv(setup, path, n);
    order := DeliveredOnce(setup, path, n);
    assert id in order;
    i :| 0 <= i < |order| && order[i] == id;
  }

  // ---- No deadlock, no endless write ----

  function Rank(p: Phase): nat {
    match p
    case Arrived => 11
    case Peeking => 10
    case PeekHeld => 9
    case Queued => 8
    case Rechecking => 7
    case CreatingEvent => 6
    case CheckingEvent => 5
    case CreatingProperty => 4
    case CheckingProperty => 3
    case Marking => 2
    case Ensured => 1
    case Written(_) => 0
    case Failed => 0
  }

  lemma StepsLowerRank(setup: Setup, s: State, a: Action, id: nat)
    requires Enabled(s, a) && ActorOf(a) == Some(id)
    ensures id in s.threads && id in Apply(setup, s, a).threads
    ensures Rank(Apply(setup, s, a).threads[id].phase) < Rank(s.threads[id].phase)
  {
    if Looking(a) {
      LookingLowersRank(setup, s, a, id);
    } else if OnEventTable(a) {
      EventDDLLowersRank(setup, s, a, id);
    } else if OnPropertyTable(a) {
      PropertyDDLLowersRank(setup, s, a, id);
    } else {
      EndingLowersRank(setup, s, a, id);
    }
  }

  lemma LookingLowersRank(setup: Setup, s: State, a: Action, id: nat)
    requires Enabled(s, a) && ActorOf(a) == Some(id) && Looking(a)
    ensures id in s.threads && id in Apply(setup, s, a).threads
    ensures Rank(Apply(setup, s, a).threads[id].phase) < Rank(s.threads[id].phase)
  {
  }

  lemma EventDDLLowersRank(setup: Setup, s: State, a: Action, id: nat)
    requires Enabled(s, a) && ActorOf(a) == Some(id) && OnEventTable(a)
    ensures id in s.threads && id in Apply(setup, s, a).threads
    ensures Rank(Apply(setup, s, a).threads[id].phase) < Rank(s.threads[id].phase)
  {
  }

  lemma PropertyDDLLowersRank(setup: Setup, s: State, a: Action, id: nat)
    requires Enabled(s, a) && ActorOf(a) == Some(id) && OnPropertyTable(a)
    ensures id in s.threads && id in Apply(setup, s, a).threads
    ensures Rank(Apply(setup, s, a).threads[id].phase) < Rank(s.threads[id].phase)
  {
  }

  lemma EndingLowersRank(setup: Setup, s: State, a: Action, id: nat)
    requires Enabled(s, a) && ActorOf(a) == Some(id) && (a.Mark? || a.Write?)
    ensures id in s.threads && id in Apply(setup, s, a).threads
    ensures Rank(Apply(setup, s, a).threads[id].phase) < Rank(s.threads[id].phase)
  {
  }

  /** Every step a write takes brings that write closer to its end and leaves the other writes where they are. */
  lemma StepsAdvance(setup: Setup, s: State, a: Action, id: nat)
    requires Enabled(s, a) && ActorOf(a) == Some(id)
    ensures
      var t := Apply(setup, s, a);
      && id in s.threads && t.threads.Keys == s.threads.Keys
      && Rank(t.threads[id].phase) < Rank(s.threads[id].phase)
      && (forall other :: other in s.threads && other != id ==> t.threads[other] == s.threads[other])
  {
    StepsLowerRank(setup, s, a, id);
    var t := Apply(setup, s, a);
    forall other | other != id
      ensures other in s.threads <==> other in t.threads
      ensures other in s.threads ==> t.threads[other] == s.threads[other]
    {
      StepsAreLocal(setup, s, a, id, other);
    }
  }

  /** While some write is not over, some write can take a step. */
  lemma NeverStuck(setup: Setup, path: seq<State>, n: nat, id: nat) returns (a: Action)
    requires IsPath(setup, path) && Init(path[0]) && n < |path|
    requires id in path[n].threads && !Over(path[n].threads[id].phase)
    ensures Enabled(path[n], a) && ActorOf(a).Some?
  {
    InitInv(setup, path[0]);
    PathKeepsInv(setup, path, n);
    var s := path[n];
    var actor := if s.holder.Some? then s.holder.value else id;
    match s.threads[actor].phase
    case Arrived => a := Route(actor);
    case Peeking => a := Acquire(actor);
    case Queued => a := Acquire(actor);
    case PeekHeld => a := Peek(actor);
    case Rechecking => a := Recheck(actor);
    case CreatingEvent => a := CreateEvent(actor, ExecOk, true);
    case CheckingEvent => a := CheckEvent(actor, true);
    case CreatingProperty => a := CreateProperty(actor, ExecOk, true);
    case CheckingProperty => a := CheckProperty(actor, true);
    case Marking => a := Mark(actor);
    case Ensured => a := Write(actor, true);
  }
}
