/** The ClickHouse schema connection and the writer that ensures tables on first write. */
module TableWriter {
  import opened Wrappers
  import M = WriterMachine

  /**
   * The schema connection. outcomes says which outside call of a write or of startup succeeds, by its number, and effects
   * which DDL takes effect: a failed one may have, and one that succeeded may not.
   */
  class SchemaConn {
    const outcomes: Outcomes
    const effects: Outcomes
    var calls: nat
    var tables: set<string>
    var statements: seq<string>  // the table of each DDL executed

    constructor (outcomes: Outcomes, effects: Outcomes, tables: set<string>)
      ensures this.outcomes == outcomes && this.effects == effects && calls == 0
      ensures this.tables == tables && statements == []
    {
      this.outcomes, this.effects, calls := outcomes, effects, 0;
      this.tables, statements := tables, [];
    }

    /** A call of the table library or of the inner writer. */
    method Call() returns (ok: bool)
      modifies this`calls
      ensures ok == outcomes(old(calls)) && calls == old(calls) + 1
    {
      ok := outcomes(calls);
      calls := calls + 1;
    }

    method CreateTable(table: string) returns (ok: bool)
      modifies this
      ensures ok == outcomes(old(calls)) && calls == old(calls) + 1
      ensures tables == if effects(old(calls)) then old(tables) + {table} else old(tables)
      ensures statements == old(statements) + [table]
    {
      statements := statements + [table];
      if effects(calls) {
        tables := tables + {table};
      }
      ok := Call();
    }

    /** Succeeds if and only if the count is scanned and finds the table. */
    method RequireTable(table: string) returns (ok: bool)
      modifies this`calls
      ensures ok <==> outcomes(old(calls)) && table in tables
      ensures calls == old(calls) + 1
    {
      var scanned := Call();
      ok := scanned && table in tables;
    }
  }

  /** The tables of one event table name, in the order they are created. */
  function TablesFor(setup: M.Setup, table: string): seq<string> {
    [table] + if setup.indexing then [setup.propertyTable(table)] else []
  }

  // ---- One write on its own, step by step ----

  /** What writers share: the tables there are, the names ensured, and what the inner writer received. */
  datatype Shared = Shared(tables: set<string>, ensured: set<string>, delivered: seq<M.Delivery>)

  /** t is the shared state with one thread, id, at phase. */
  ghost predicate Solo(t: M.State, shared: Shared, id: nat, envelope: M.Envelope, table: string, phase: M.Phase) {
    && t.tables == shared.tables && t.ensured == shared.ensured && t.delivered == shared.delivered
    && t.threads == map[id := M.Thread(envelope, table, phase)]
    && t.holder == if M.Holding(phase) then Some(id) else None
  }

  lemma Step(setup: M.Setup, s: M.State, t: M.State, a: M.Action) returns (u: M.State)
    requires M.Reaches(setup, s, t) && M.Enabled(t, a)
    ensures u == M.Apply(setup, t, a) && M.Reaches(setup, s, u)
  {
    u := M.Apply(setup, t, a);
    M.ReachesMore(setup, s, t, a);
  }

  lemma RouteStep(setup: M.Setup, s: M.State, t: M.State, shared: Shared, id: nat, envelope: M.Envelope) returns (u: M.State)
    requires M.Reaches(setup, s, t) && Solo(t, shared, id, envelope, "", M.Arrived)
    ensures M.Reaches(setup, s, u)
    ensures setup.route(envelope.key).None? ==> Solo(u, shared, id, envelope, "", M.Failed)
    ensures setup.route(envelope.key).Some? ==> Solo(u, shared, id, envelope, setup.route(envelope.key).value, M.Peeking)
  {
    u := Step(setup, s, t, M.Route(id));
  }

  /** Takes the mutex, looks the table up and gives the mutex back. */
  lemma PeekSteps(setup: M.Setup, s: M.State, t: M.State, shared: Shared, id: nat, envelope: M.Envelope, table: string) returns (u: M.State)
    requires M.Reaches(setup, s, t) && Solo(t, shared, id, envelope, table, M.Peeking)
    ensures M.Reaches(setup, s, u) && Solo(u, shared, id, envelope, table, if table in shared.ensured then M.Ensured else M.Queued)
  {
    u := Step(setup, s, t, M.Acquire(id));
    assert Solo(u, shared, id, envelope, table, M.PeekHeld);
    u := Step(setup, s, u, M.Peek(id));
  }

  lemma QueueStep(setup: M.Setup, s: M.State, t: M.State, shared: Shared, id: nat, envelope: M.Envelope, table: string) returns (u: M.State)
    requires M.Reaches(setup, s, t) && Solo(t, shared, id, envelope, table, M.Queued)
    ensures M.Reaches(setup, s, u) && Solo(u, shared, id, envelope, table, M.Rechecking)
  {
    u := Step(setup, s, t, M.Acquire(id));
  }

  lemma RecheckStep(setup: M.Setup, s: M.State, t: M.State, shared: Shared, id: nat, envelope: M.Envelope, table: string) returns (u: M.State)
    requires M.Reaches(setup, s, t) && Solo(t, shared, id, envelope, table, M.Rechecking)
    ensures M.Reaches(setup, s, u) && Solo(u, shared, id, envelope, table, if table in shared.ensured then M.Ensured else M.CreatingEvent)
  {
    u := Step(setup, s, t, M.Recheck(id));
  }

  /** The tables after a DDL that took effect or did not. */
  function WithTable(shared: Shared, table: string, appears: bool): Shared {
    if appears then shared.(tables := shared.tables + {table}) else shared
  }

  lemma CreateEventStep(setup: M.Setup, s: M.State, t: M.State, shared: Shared, id: nat, envelope: M.Envelope, table: string, ddl: M.DDL, appears: bool)
    returns (u: M.State)
    requires M.Reaches(setup, s, t) && Solo(t, shared, id, envelope, table, M.CreatingEvent)
    ensures M.Reaches(setup, s, u)
    ensures Solo(u, WithTable(shared, table, !ddl.NotBuilt? && appears), id, envelope, table, if ddl.ExecOk? then M.CheckingEvent else M.Failed)
  {
    u := Step(setup, s, t, M.CreateEvent(id, ddl, appears));
  }

  lemma CheckEventStep(setup: M.Setup, s: M.State, t: M.State, shared: Shared, id: nat, envelope: M.Envelope, table: string, ok: bool)
    returns (u: M.State)
    requires M.Reaches(setup, s, t) && Solo(t, shared, id, envelope, table, M.CheckingEvent) && (ok ==> table in shared.tables)
    ensures M.Reaches(setup, s, u)
    ensures Solo(u, shared, id, envelope, table, if !ok then M.Failed else if setup.indexing then M.CreatingProperty else M.Marking)
  {
    u := Step(setup, s, t, M.CheckEvent(id, ok));
  }

  lemma CreatePropertyStep(setup: M.Setup, s: M.State, t: M.State, shared: Shared, id: nat, envelope: M.Envelope, table: string, ddl: M.DDL, appears: bool)
    returns (u: M.State)
    requires M.Reaches(setup, s, t) && Solo(t, shared, id, envelope, table, M.CreatingProperty)
    ensures M.Reaches(setup, s, u)
    ensures Solo(u, WithTable(shared, setup.propertyTable(table), !ddl.NotBuilt? && appears), id, envelope, table,
                 if ddl.ExecOk? then M.CheckingProperty else M.Failed)
  {
    u := Step(setup, s, t, M.CreateProperty(id, ddl, appears));
  }

  lemma CheckPropertyStep(setup: M.Setup, s: M.State, t: M.State, shared: Shared, id: nat, envelope: M.Envelope, table: string, ok: bool)
    returns (u: M.State)
    requires M.Reaches(setup, s, t) && Solo(t, shared, id, envelope, table, M.CheckingProperty)
    requires ok ==> setup.propertyTable(table) in shared.tables
    ensures M.Reaches(setup, s, u) && Solo(u, shared, id, envelope, table, if ok then M.Marking else M.Failed)
  {
    u := Step(setup, s, t, M.CheckProperty(id, ok));
  }

  lemma MarkStep(setup: M.Setup, s: M.State, t: M.State, shared: Shared, id: nat, envelope: M.Envelope, table: string) returns (u: M.State)
    requires M.Reaches(setup, s, t) && Solo(t, shared, id, envelope, table, M.Marking)
    ensures M.Reaches(setup, s, u) && Solo(u, shared.(ensured := shared.ensured + {table}), id, envelope, table, M.Ensured)
  {
    u := Step(setup, s, t, M.Mark(id));
  }

  lemma WriteStep(setup: M.Setup, s: M.State, t: M.State, shared: Shared, id: nat, envelope: M.Envelope, table: string, ok: bool)
    returns (u: M.State)
    requires M.Reaches(setup, s, t) && Solo(t, shared, id, envelope, table, M.Ensured)
    ensures M.Reaches(setup, s, u)
    ensures Solo(u, shared.(delivered := shared.delivered + [M.Delivery(envelope, table)]), id, envelope, table, M.Written(ok))
  {
    u := Step(setup, s, t, M.Write(id, ok));
  }

  // ---- The writer ----

  class DynamicTableEnsuringWriter {
    const setup: M.Setup
    const conn: SchemaConn
    var ensured: set<string>
    var delivered: seq<M.Delivery>  // what the inner writer received

    constructor (setup: M.Setup, conn: SchemaConn)
      ensures this.setup == setup && this.conn == conn && ensured == {} && delivered == []
    {
      this.setup := setup;
      this.conn := conn;
      ensured := {};
      delivered := [];
    }

    ghost predicate Valid()
      reads this, conn
    {
      forall table :: table in ensured ==> M.Present(setup, conn.tables, table)
    }

    ghost function Now(): Shared
      reads this, conn
    {
      Shared(conn.tables, ensured, delivered)
    }

    /** t is this object's state while thread id, alone, is at phase with its envelope and table. */
    ghost predicate Mirrors(t: M.State, id: nat, envelope: M.Envelope, table: string, phase: M.Phase)
      reads this, conn
    {
      Solo(t, Now(), id, envelope, table, phase)
    }

    method IsEnsured(table: string) returns (known: bool)
      ensures known == (table in ensured)
    {
      known := table in ensured;
    }

    /** Builds and executes the event table's DDL. */
    method CreateEventTable(table: string, ghost id: nat, ghost envelope: M.Envelope, ghost s: M.State, ghost t: M.State)
      returns (executed: bool, ghost u: M.State)
      requires M.Reaches(setup, s, t) && Mirrors(t, id, envelope, table, M.CreatingEvent)
      modifies conn
      ensures executed <==> AllSucceed(conn.outcomes, old(conn.calls), 2)
      ensures executed ==> conn.calls == old(conn.calls) + 2 && (conn.effects(old(conn.calls) + 1) ==> table in conn.tables)
      ensures old(conn.tables) <= conn.tables
      ensures conn.statements == old(conn.statements) + [table] || (!executed && conn.statements == old(conn.statements))
      ensures M.Reaches(setup, s, u) && Mirrors(u, id, envelope, table, if executed then M.CheckingEvent else M.Failed)
    {
      ghost var before := Now();
      var built := conn.Call();
      if !built {
        u := CreateEventStep(setup, s, t, before, id, envelope, table, M.NotBuilt, false);
        return false, u;
      }
      ghost var appears := conn.effects(conn.calls);
      executed := conn.CreateTable(table);
      u := CreateEventStep(setup, s, t, before, id, envelope, table, if executed then M.ExecOk else M.ExecFailed, appears);
    }

    method EnsureEventTable(table: string, ghost id: nat, ghost envelope: M.Envelope, ghost s: M.State, ghost t: M.State)
      returns (ok: bool, ghost u: M.State)
      requires M.Reaches(setup, s, t) && Mirrors(t, id, envelope, table, M.CreatingEvent)
      modifies conn
      ensures ok <==> AllSucceed(conn.outcomes, old(conn.calls), 3) && table in conn.tables
      ensures AllSucceed(conn.outcomes, old(conn.calls), 3) && conn.effects(old(conn.calls) + 1) ==> ok
      ensures old(conn.tables) <= conn.tables
      ensures ok ==> conn.calls == old(conn.calls) + 3 && conn.statements == old(conn.statements) + [table]
      ensures conn.statements == old(conn.statements) || conn.statements == old(conn.statements) + [table]
      ensures M.Reaches(setup, s, u)
      ensures Mirrors(u, id, envelope, table, if !ok then M.Failed else if setup.indexing then M.CreatingProperty else M.Marking)
    {
      ok, u := CreateEventTable(table, id, envelope, s, t);
      if !ok {
        return;
      }
      ok := conn.RequireTable(table);
      u := CheckEventStep(setup, s, u, Now(), id, envelope, table, ok);
    }

    /** Builds and executes the property table's DDL. */
    method CreatePropertyTable(table: string, ghost id: nat, ghost envelope: M.Envelope, ghost s: M.State, ghost t: M.State)
      returns (executed: bool, ghost u: M.State)
      requires M.Reaches(setup, s, t) && Mirrors(t, id, envelope, table, M.CreatingProperty)
      modifies conn
      ensures executed <==> AllSucceed(conn.outcomes, old(conn.calls), 2)
      ensures executed ==> conn.calls == old(conn.calls) + 2
      ensures executed && conn.effects(old(conn.calls) + 1) ==> setup.propertyTable(table) in conn.tables
      ensures old(conn.tables) <= conn.tables
      ensures conn.statements == old(conn.statements) + [setup.propertyTable(table)] || (!executed && conn.statements == old(conn.statements))
      ensures M.Reaches(setup, s, u) && Mirrors(u, id, envelope, table, if executed then M.CheckingProperty else M.Failed)
    {
      ghost var before := Now();
      var built := conn.Call();
      if !built {
        u := CreatePropertyStep(setup, s, t, before, id, envelope, table, M.NotBuilt, false);
        return false, u;
      }
      ghost var appears := conn.effects(conn.calls);
      executed := conn.CreateTable(setup.propertyTable(table));
      u := CreatePropertyStep(setup, s, t, before, id, envelope, table, if executed then M.ExecOk else M.ExecFailed, appears);
    }

    method EnsurePropertyTable(table: string, ghost id: nat, ghost envelope: M.Envelope, ghost s: M.State, ghost t: M.State)
      returns (ok: bool, ghost u: M.State)
      requires M.Reaches(setup, s, t) && Mirrors(t, id, envelope, table, M.CreatingProperty)
      modifies conn
      ensures ok <==> AllSucceed(conn.outcomes, old(conn.calls), 4) && setup.propertyTable(table) in conn.tables
      ensures AllSucceed(conn.outcomes, old(conn.calls), 4) && conn.effects(old(conn.calls) + 1) ==> ok
      ensures old(conn.tables) <= conn.tables
      ensures conn.statements == old(conn.statements) + [setup.propertyTable(table)] || (!ok && conn.statements == old(conn.statements))
      ensures ok ==> conn.calls == old(conn.calls) + 4
      ensures M.Reaches(setup, s, u) && Mirrors(u, id, envelope, table, if ok then M.Marking else M.Failed)
    {
      ok, u := CreatePropertyTable(table, id, envelope, s, t);
      if !ok {
        return;
      }
      var named := conn.Call();
      ok := false;
      if named {
        ok := conn.RequireTable(setup.propertyTable(table));
      }
      u := CheckPropertyStep(setup, s, u, Now(), id, envelope, table, ok);
    }

    /** How many outside calls it takes to ensure the tables of an event. */
    function EnsuringCalls(): nat {
      if setup.indexing then 7 else 3
    }

    method EnsureTables(table: string, ghost id: nat, ghost envelope: M.Envelope, ghost s: M.State, ghost t: M.State)
      returns (ok: bool, ghost u: M.State)
      requires M.Reaches(setup, s, t) && Mirrors(t, id, envelope, table, M.CreatingEvent)
      modifies conn
      ensures ok <==> AllSucceed(conn.outcomes, old(conn.calls), EnsuringCalls()) && M.Present(setup, conn.tables, table)
      ensures AllSucceed(conn.outcomes, old(conn.calls), EnsuringCalls()) && AllSucceed(conn.effects, old(conn.calls), EnsuringCalls()) ==> ok
      ensures ok ==> conn.calls == old(conn.calls) + EnsuringCalls() && conn.statements == old(conn.statements) + TablesFor(setup, table)
      ensures old(conn.tables) <= conn.tables
      ensures conn.statements == old(conn.statements) || conn.statements == old(conn.statements) + [table]
              || (setup.indexing && conn.statements == old(conn.statements) + [table] + [setup.propertyTable(table)])
      ensures M.Reaches(setup, s, u) && Mirrors(u, id, envelope, table, if ok then M.Marking else M.Failed)
    {
      ok, u := EnsureEventTable(table, id, envelope, s, t);
      if ok && setup.indexing {
        ok, u := EnsurePropertyTable(table, id, envelope, s, u);
      }
    }

    /** The critical section of one write. */
    method EnsureLocked(table: string, ghost id: nat, ghost envelope: M.Envelope, ghost s: M.State, ghost t: M.State)
      returns (ok: bool, ghost u: M.State)
      requires Valid() && M.Reaches(setup, s, t) && Mirrors(t, id, envelope, table, M.Rechecking)
      modifies this`ensured, conn
      ensures table in old(ensured) ==> ok && conn.calls == old(conn.calls) && conn.statements == old(conn.statements)
      ensures table !in old(ensured) ==>
        (ok <==> AllSucceed(conn.outcomes, old(conn.calls), EnsuringCalls()) && M.Present(setup, conn.tables, table))
      ensures AllSucceed(conn.outcomes, old(conn.calls), EnsuringCalls()) && AllSucceed(conn.effects, old(conn.calls), EnsuringCalls()) ==> ok
      ensures ok && table !in old(ensured) ==>
        conn.calls == old(conn.calls) + EnsuringCalls() && conn.statements == old(conn.statements) + TablesFor(setup, table)
      ensures Valid() && old(conn.tables) <= conn.tables
      ensures ensured == if ok then old(ensured) + {table} else old(ensured)
      ensures conn.statements == old(conn.statements) || conn.statements == old(conn.statements) + [table]
              || (setup.indexing && conn.statements == old(conn.statements) + [table] + [setup.propertyTable(table)])
      ensures M.Reaches(setup, s, u) && Mirrors(u, id, envelope, table, if ok then M.Ensured else M.Failed)
    {
      u := RecheckStep(setup, s, t, Now(), id, envelope, table);
      if table in ensured {
        return true, u;
      }
      ok, u := EnsureTables(table, id, envelope, s, u);
      if !ok {
        return;
      }
      u := MarkStep(setup, s, u, Now(), id, envelope, table);
      ensured := ensured + {table};
    }

    /** The double-checked lock: a table known to be ensured costs nothing more. */
    method EnsureRouted(table: string, ghost id: nat, ghost envelope: M.Envelope, ghost s: M.State, ghost t: M.State)
      returns (ok: bool, ghost u: M.State)
      requires Valid() && M.Reaches(setup, s, t) && Mirrors(t, id, envelope, table, M.Peeking)
      modifies this`ensured, conn
      ensures table in old(ensured) ==> ok && conn.calls == old(conn.calls) && conn.statements == old(conn.statements)
      ensures table !in old(ensured) ==>
        (ok <==> AllSucceed(conn.outcomes, old(conn.calls), EnsuringCalls()) && M.Present(setup, conn.tables, table))
      ensures AllSucceed(conn.outcomes, old(conn.calls), EnsuringCalls()) && AllSucceed(conn.effects, old(conn.calls), EnsuringCalls()) ==> ok
      ensures ok && table !in old(ensured) ==>
        conn.calls == old(conn.calls) + EnsuringCalls() && conn.statements == old(conn.statements) + TablesFor(setup, table)
      ensures Valid() && old(conn.tables) <= conn.tables
      ensures ensured == if ok then old(ensured) + {table} else old(ensured)
      ensures M.Reaches(setup, s, u) && Mirrors(u, id, envelope, table, if ok then M.Ensured else M.Failed)
    {
      u := PeekSteps(setup, s, t, Now(), id, envelope, table);
      var known := IsEnsured(table);
      if known {
        assert ensured == ensured + {table};
        return true, u;
      }
      u := QueueStep(setup, s, u, Now(), id, envelope, table);
      ok, u := EnsureLocked(table, id, envelope, s, u);
    }

    /** The outside calls of one write that succeeds: those that ensure its tables, and the inner writer's. */
    function CallsFor(table: string, ensured: set<string>): nat {
      (if table in ensured then 0 else EnsuringCalls()) + 1
    }

    /**
     * One write on its own is a path of the machine: from this object's state with a thread that has just arrived,
     * to this object's new state with that thread over.
     */
    method WriteEvent(envelope: M.Envelope, ghost id: nat) returns (ok: bool, ghost table: string, ghost phase: M.Phase, ghost u: M.State)
      requires Valid()
      modifies this`ensured, this`delivered, conn
      ensures ok <==> setup.route(envelope.key).Some?
                      && AllSucceed(conn.outcomes, old(conn.calls), CallsFor(setup.route(envelope.key).value, old(ensured)))
                      && M.Present(setup, conn.tables, setup.route(envelope.key).value)
      ensures AllSucceed(conn.effects, old(conn.calls), EnsuringCalls()) ==>
        (ok <==> setup.route(envelope.key).Some?
                 && AllSucceed(conn.outcomes, old(conn.calls), CallsFor(setup.route(envelope.key).value, old(ensured))))
      ensures phase.Written? <==> setup.route(envelope.key).Some?
                                  && (setup.route(envelope.key).value in old(ensured)
                                      || (AllSucceed(conn.outcomes, old(conn.calls), EnsuringCalls())
                                          && M.Present(setup, conn.tables, setup.route(envelope.key).value)))
      ensures ok ==> conn.calls == old(conn.calls) + CallsFor(table, old(ensured))
      ensures ok ==> conn.statements == old(conn.statements) + if table in old(ensured) then [] else TablesFor(setup, table)
      ensures Valid() && old(conn.tables) <= conn.tables && old(ensured) <= ensured
      ensures M.Reaches(setup, M.State(old(conn.tables), old(ensured), None, map[id := M.Thread(envelope, "", M.Arrived)],
                                       multiset{}, multiset{}, old(delivered)), u)
      ensures Mirrors(u, id, envelope, table, phase) && M.Over(phase) && (ok ==> phase == M.Written(true))
      ensures phase.Failed? ==> delivered == old(delivered) && ensured == old(ensured)
      ensures phase.Written? ==> setup.route(envelope.key) == Some(table) && table in ensured
                                 && delivered == old(delivered) + [M.Delivery(envelope, table)]
    {
      ghost var s := M.State(conn.tables, ensured, None, map[id := M.Thread(envelope, "", M.Arrived)], multiset{}, multiset{}, delivered);
      M.ReachesSelf(setup, s);
      u := RouteStep(setup, s, s, Now(), id, envelope);
      table, phase := "", M.Failed;
      var route := setup.route(envelope.key);
      if route.None? {
        return false, table, phase, u;
      }
      var physical := route.value;
      table := physical;
      var ensuredNow;
      ensuredNow, u := EnsureRouted(physical, id, envelope, s, u);
      if !ensuredNow {
        return false, table, phase, u;
      }
      ok, u := Deliver(physical, id, envelope, s, u);
      phase := M.Written(ok);
    }

    method Deliver(table: string, ghost id: nat, envelope: M.Envelope, ghost s: M.State, ghost t: M.State)
      returns (ok: bool, ghost u: M.State)
      requires M.Reaches(setup, s, t) && Mirrors(t, id, envelope, table, M.Ensured)
      modifies this`delivered, conn`calls
      ensures ok == conn.outcomes(old(conn.calls)) && conn.calls == old(conn.calls) + 1
      ensures delivered == old(delivered) + [M.Delivery(envelope, table)]
      ensures M.Reaches(setup, s, u) && Mirrors(u, id, envelope, table, M.Written(ok))
    {
      ok := conn.Call();
      u := WriteStep(setup, s, t, Now(), id, envelope, table, ok);
      delivered := delivered + [M.Delivery(envelope, table)];
    }
  }
}
