/** Startup creation and validation of the routed tables. */
module Worker {
  import opened Wrappers
  import opened SourceConfigs
  import opened Resolvers
  import opened TableWriter
  import M = WriterMachine

  function KeyOf(c: SourceConfig): M.RoutingKey {
    M.RoutingKey(c.tenantID, c.projectID, c.sourceID)
  }

  /** The tables the writers need for this source exist. */
  predicate Provisioned(setup: M.Setup, tables: set<string>, c: SourceConfig) {
    setup.route(KeyOf(c)).Some? && M.Present(setup, tables, setup.route(KeyOf(c)).value)
  }

  /** Provisioned means routed, with the event table there, and its property table when indexing is on. */
  lemma ProvisionedMeaning(setup: M.Setup, tables: set<string>, c: SourceConfig)
    ensures Provisioned(setup, tables, c) <==>
            exists table :: setup.route(M.RoutingKey(c.tenantID, c.projectID, c.sourceID)) == Some(table) && table in tables
                            && (setup.indexing ==> setup.propertyTable(table) in tables)
  {
  }

  /** The tables startup creates for one source, in order. */
  function TablesOf(setup: M.Setup, c: SourceConfig): seq<string> {
    if !c.enabled || setup.route(KeyOf(c)).None? then []
    else
      TablesFor(setup, setup.route(KeyOf(c)).value)
  }

  /** Startup creates an enabled source's event table, its property table when indexing is on, and nothing for a disabled one. */
  lemma TablesMeaning(setup: M.Setup, c: SourceConfig, table: string)
    ensures table in TablesOf(setup, c) <==>
      && c.enabled && setup.route(KeyOf(c)).Some?
      && (table == setup.route(KeyOf(c)).value || (setup.indexing && table == setup.propertyTable(setup.route(KeyOf(c)).value)))
    ensures c.enabled && setup.route(KeyOf(c)).Some? && setup.indexing ==>
      TablesOf(setup, c) == [setup.route(KeyOf(c)).value, setup.propertyTable(setup.route(KeyOf(c)).value)]
    ensures c.enabled && setup.route(KeyOf(c)).Some? && !setup.indexing ==> TablesOf(setup, c) == [setup.route(KeyOf(c)).value]
  {
  }

  /** Every outside call from this number on succeeds. */
  ghost predicate SucceedFrom(outcomes: Outcomes, from: nat) {
    forall n: nat :: from <= n ==> outcomes(n)
  }

  /** Every enabled source is routed to a table. */
  ghost predicate AllRouted(setup: M.Setup, cs: seq<SourceConfig>) {
    forall c <- cs :: c.enabled ==> setup.route(KeyOf(c)).Some?
  }

  ghost function TablesOfAll(setup: M.Setup, cs: seq<SourceConfig>): seq<string> {
    if cs == [] then [] else TablesOfAll(setup, cs[..|cs| - 1]) + TablesOf(setup, cs[|cs| - 1])
  }

  /** Startup DDL for one source; on failure it may be half done. */
  method CreateFor(source: SourceConfig, setup: M.Setup, conn: SchemaConn) returns (ok: bool)
    modifies conn
    ensures ok <==> (source.enabled ==> setup.route(KeyOf(source)).Some?)
                    && AllSucceed(conn.outcomes, old(conn.calls), 2 * |TablesOf(setup, source)|)
    ensures ok && SucceedFrom(conn.effects, old(conn.calls)) && source.enabled ==> Provisioned(setup, conn.tables, source)
    ensures old(conn.calls) <= conn.calls && old(conn.tables) <= conn.tables
    ensures forall table :: table in conn.tables ==> table in old(conn.tables) || table in TablesOf(setup, source)
    ensures ok ==> conn.statements == old(conn.statements) + TablesOf(setup, source)
  {
    if !source.enabled {
      return true;
    }
    var table := setup.route(KeyOf(source));
    if table.None? {
      return false;
    }
    var built := conn.Call();
    if !built {
      return false;
    }
    ok := conn.CreateTable(table.value);
    if ok && setup.indexing {
      built := conn.Call();
      if !built {
        return false;
      }
      ok := conn.CreateTable(setup.propertyTable(table.value));
    }
  }

  method CreateNext(raw: SourceConfig, setup: M.Setup, conn: SchemaConn, ghost cs: seq<SourceConfig>, ghost i: nat, ghost start: seq<string>, ghost first: nat)
    returns (ok: bool)
    requires i < |cs| && Normalize(raw) == cs[i]
    requires RanFirst(setup, cs, i, start, conn.statements) && first <= conn.calls
    requires MadeFirst(setup, conn.effects, first, conn.tables, cs, i)
    modifies conn
    ensures AllRouted(setup, cs) && SucceedFrom(conn.outcomes, old(conn.calls)) ==> ok
    ensures ok ==> MadeFirst(setup, conn.effects, first, conn.tables, cs, i + 1)
    ensures old(conn.calls) <= conn.calls && old(conn.tables) <= conn.tables
    ensures forall table :: table in conn.tables ==> table in old(conn.tables) || table in TablesOfAll(setup, cs)
    ensures ok ==> RanFirst(setup, cs, i + 1, start, conn.statements)
  {
    var source := NormalizeSource(raw);
    TablesWithin(setup, cs, i);
    TablesOneMore(setup, cs, i);
    RanMore(start, TablesOfAll(setup, cs[..i]), TablesOf(setup, cs[i]));
    ghost var before := conn.tables;
    ok := CreateFor(source, setup, conn);
    if ok {
      MadeMore(setup, conn.effects, first, before, conn.tables, cs, i);
    }
  }

  /** Succeeds when every enabled source is routed and every outside call succeeds; when all DDL takes effect, so do all tables exist. */
  method CreateClickHouseTables(configured: seq<SourceConfig>, setup: M.Setup, conn: SchemaConn) returns (ok: bool)
    modifies conn
    ensures AllRouted(setup, NormalizedAll(configured)) && SucceedFrom(conn.outcomes, old(conn.calls)) ==> ok
    ensures ok && SucceedFrom(conn.effects, old(conn.calls)) ==> StartedUp(setup, conn.tables, NormalizedAll(configured))
    ensures old(conn.calls) <= conn.calls && old(conn.tables) <= conn.tables
    ensures forall table :: table in conn.tables ==> table in old(conn.tables) || table in TablesOfAll(setup, NormalizedAll(configured))
    ensures ok ==> conn.statements == old(conn.statements) + TablesOfAll(setup, NormalizedAll(configured))
  {
    ghost var cs := NormalizedAll(configured);
    ghost var all := TablesOfAll(setup, cs);
    ghost var start := conn.statements;
    ghost var first := conn.calls;
    RanNothing(setup, cs, start);
    for i := 0 to |configured|
      invariant |cs| == |configured| && cs == NormalizedAll(configured)
      invariant old(conn.calls) <= conn.calls && old(conn.tables) <= conn.tables
      invariant MadeFirst(setup, conn.effects, first, conn.tables, cs, i)
      invariant RanFirst(setup, cs, i, start, conn.statements)
      invariant forall table :: table in conn.tables ==> table in old(conn.tables) || table in all
    {
      ok := CreateNext(configured[i], setup, conn, cs, i, start, first);
      if !ok {
        return false;
      }
    }
    MadeThemAll(setup, conn.effects, first, conn.tables, cs);
    RanThemAll(setup, cs, start, conn.statements);
    return true;
  }

  /** The DDL of the first n sources has run, in order, since start. */
  ghost predicate RanFirst(setup: M.Setup, cs: seq<SourceConfig>, n: nat, start: seq<string>, now: seq<string>) {
    n <= |cs| && now == start + TablesOfAll(setup, cs[..n])
  }

  lemma RanNothing(setup: M.Setup, cs: seq<SourceConfig>, start: seq<string>)
    ensures RanFirst(setup, cs, 0, start, start)
  {
  }

  lemma RanThemAll(setup: M.Setup, cs: seq<SourceConfig>, start: seq<string>, now: seq<string>)
    requires RanFirst(setup, cs, |cs|, start, now)
    ensures now == start + TablesOfAll(setup, cs)
  {
    assert cs[..|cs|] == cs;
  }

  lemma RanMore(start: seq<string>, ran: seq<string>, more: seq<string>)
    ensures start + ran + more == start + (ran + more)
  {
  }

  lemma TablesOneMore(setup: M.Setup, cs: seq<SourceConfig>, i: nat)
    requires i < |cs|
    ensures TablesOfAll(setup, cs[..i + 1]) == TablesOfAll(setup, cs[..i]) + TablesOf(setup, cs[i])
  {
    assert cs[..i + 1][..i] == cs[..i];
  }

  lemma {:induction false} TablesWithin(setup: M.Setup, cs: seq<SourceConfig>, i: nat)
    requires i < |cs|
    ensures forall table <- TablesOf(setup, cs[i]) :: table in TablesOfAll(setup, cs)
  {
    if i < |cs| - 1 {
      assert cs[..|cs| - 1][i] == cs[i];
      TablesWithin(setup, cs[..|cs| - 1], i);
    }
  }

  method ValidateFor(source: SourceConfig, setup: M.Setup, conn: SchemaConn) returns (ok: bool)
    modifies conn`calls
    ensures ok && source.enabled ==> Provisioned(setup, conn.tables, source)
    ensures SucceedFrom(conn.outcomes, old(conn.calls)) && (source.enabled ==> Provisioned(setup, conn.tables, source)) ==> ok
    ensures old(conn.calls) <= conn.calls
  {
    if !source.enabled {
      return true;
    }
    var table := setup.route(KeyOf(source));
    if table.None? {
      return false;
    }
    ok := conn.RequireTable(table.value);
    if ok && setup.indexing {
      var named := conn.Call();
      if !named {
        return false;
      }
      ok := conn.RequireTable(setup.propertyTable(table.value));
    }
  }

  /** Every enabled source has its tables. */
  ghost predicate StartedUp(setup: M.Setup, tables: set<string>, cs: seq<SourceConfig>) {
    forall c <- cs :: c.enabled ==> Provisioned(setup, tables, c)
  }

  /** When all DDL since call number first takes effect, the first n sources have their tables. */
  ghost predicate MadeFirst(setup: M.Setup, effects: Outcomes, first: nat, tables: set<string>, cs: seq<SourceConfig>, n: nat) {
    n <= |cs| && (SucceedFrom(effects, first) ==> StartedUp(setup, tables, cs[..n]))
  }

  lemma MadeMore(setup: M.Setup, effects: Outcomes, first: nat, before: set<string>, after: set<string>, cs: seq<SourceConfig>, i: nat)
    requires i < |cs| && before <= after && MadeFirst(setup, effects, first, before, cs, i)
    requires SucceedFrom(effects, first) && cs[i].enabled ==> Provisioned(setup, after, cs[i])
    ensures MadeFirst(setup, effects, first, after, cs, i + 1)
  {
    assert cs[..i + 1] == cs[..i] + [cs[i]];
  }

  lemma MadeThemAll(setup: M.Setup, effects: Outcomes, first: nat, tables: set<string>, cs: seq<SourceConfig>)
    requires MadeFirst(setup, effects, first, tables, cs, |cs|)
    ensures SucceedFrom(effects, first) ==> StartedUp(setup, tables, cs)
  {
    assert cs[..|cs|] == cs;
  }

  lemma StartedUpOneMore(setup: M.Setup, tables: set<string>, cs: seq<SourceConfig>, i: nat, source: SourceConfig)
    requires i < |cs| && source == cs[i] && StartedUp(setup, tables, cs[..i])
    ensures (source.enabled ==> Provisioned(setup, tables, source)) ==> StartedUp(setup, tables, cs[..i + 1])
  {
    assert cs[..i + 1] == cs[..i] + [source];
  }

  /** Succeeds only when every enabled source's tables exist, and then if the outside calls do. */
  method ValidateClickHouseTables(configured: seq<SourceConfig>, setup: M.Setup, conn: SchemaConn) returns (ok: bool)
    modifies conn`calls
    ensures ok ==> StartedUp(setup, conn.tables, NormalizedAll(configured))
    ensures SucceedFrom(conn.outcomes, old(conn.calls)) && StartedUp(setup, conn.tables, NormalizedAll(configured)) ==> ok
  {
    ghost var cs := NormalizedAll(configured);
    for i := 0 to |configured|
      invariant |cs| == |configured| && cs == NormalizedAll(configured)
      invariant old(conn.calls) <= conn.calls
      invariant StartedUp(setup, conn.tables, cs[..i])
    {
      var source := NormalizeSource(configured[i]);
      ok := ValidateFor(source, setup, conn);
      StartedUpOneMore(setup, conn.tables, cs, i, source);
      if !ok {
        return false;
      }
    }
    assert cs[..|configured|] == cs;
    return true;
  }

  /** Startup succeeds only with every enabled source's tables in place; without auto migration it runs no DDL. */
  method EnsureClickHouseTables(configured: seq<SourceConfig>, autoMigrate: bool, setup: M.Setup, conn: SchemaConn) returns (ok: bool)
    modifies conn
    ensures ok ==> StartedUp(setup, conn.tables, NormalizedAll(configured))
    ensures SucceedFrom(conn.outcomes, old(conn.calls)) && SucceedFrom(conn.effects, old(conn.calls)) ==>
      (autoMigrate && AllRouted(setup, NormalizedAll(configured)) ==> ok)
    ensures SucceedFrom(conn.outcomes, old(conn.calls)) && !autoMigrate ==>
      (ok <==> StartedUp(setup, conn.tables, NormalizedAll(configured)))
    ensures old(conn.tables) <= conn.tables
    ensures ok ==> conn.statements == old(conn.statements) + if autoMigrate then TablesOfAll(setup, NormalizedAll(configured)) else []
    ensures !autoMigrate ==> conn.tables == old(conn.tables) && conn.statements == old(conn.statements)
    ensures forall table :: table in conn.tables ==> table in old(conn.tables) || table in TablesOfAll(setup, NormalizedAll(configured))
  {
    if autoMigrate {
      var created := CreateClickHouseTables(configured, setup, conn);
      if !created {
        return false;
      }
    }
    ok := ValidateClickHouseTables(configured, setup, conn);
  }
}
