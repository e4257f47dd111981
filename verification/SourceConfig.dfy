/** The runtime view of one analytics source: normalization, validation and the policies it answers. */
module SourceConfigs {
  import opened Wrappers
  import opened Text
  import opened Lists

  const INT64_MIN: int := -0x8000_0000_0000_0000
  const INT64_MAX: int := 0x7FFF_FFFF_FFFF_FFFF
  const SECOND: int := 1_000_000_000
  const MINUTE: int := 60 * SECOND
  const DEFAULT_VISIT_WINDOW: int := 30 * MINUTE

  type int64 = x: int | INT64_MIN <= x <= INT64_MAX

  /** Two's complement wrap-around of an int64 product. */
  function Wrap64(n: int): int64 {
    (n + 0x8000_0000_0000_0000) % 0x1_0000_0000_0000_0000 - 0x8000_0000_0000_0000
  }

  datatype ReadbackRoute = Realtime | Events | Properties | Goals | KafkaDiagnostics | KafkaMetrics

  datatype ReadbackPolicy = ReadbackPolicy(realtime: bool, events: bool, properties: bool, goals: bool)

  datatype PropertyFilter = PropertyFilter(scope: string, name: string, valueTypes: seq<string>)

  datatype SourceConfig = SourceConfig(
    writeKey: string,
    enabled: bool,
    tenantID: string,
    projectID: string,
    sourceID: string,
    sourceType: string,
    allowedOrigins: seq<string>,
    allowedPropertyFilters: seq<PropertyFilter>,
    readbackPolicy: ReadbackPolicy,
    botUserAgents: seq<string>,
    internalCIDRs: seq<string>,
    internalIPs: seq<string>,
    sessionSalt: string,
    visitSalt: string,
    visitWindow: int64,         // nanoseconds, absent from JSON
    visitWindowSeconds: int64,  // the JSON encoding of visitWindow
    clientHashSalt: string,
    includeClientFingerprint: bool)

  /** The zero value Go returns beside an error. */
  const EMPTY_SOURCE: SourceConfig :=
    SourceConfig("", false, "", "", "", "", [], [], ReadbackPolicy(false, false, false, false), [], [], [], "", "", 0, 0, "", false)

  predicate NotBlank(s: string) {
    s != ""
  }

  // ---- String lists ----

  function NormalizedStrings(values: seq<string>): seq<string> {
    Collect(values, Trim, NotBlank)
  }

  method NormalizeStringList(values: seq<string>) returns (out: seq<string>)
    ensures out == NormalizedStrings(values)
  {
    out := [];
    for i := 0 to |values|
      invariant out == NormalizedStrings(values[..i])
    {
      assert values[..i + 1][..i] == values[..i];
      var value := Trim(values[i]);
      if value != "" {
        out := out + [value];
      }
    }
    assert values[..|values|] == values;
  }

  /** The list holds exactly the values that are not blank, trimmed. */
  lemma NormalizedStringsAre(values: seq<string>, x: string)
    ensures x in NormalizedStrings(values) <==> x != "" && exists i :: 0 <= i < |values| && x == Trim(values[i])
  {
    CollectElements(values, Trim, NotBlank, x);
  }

  lemma NormalizedStringsIdempotent(values: seq<string>)
    ensures NormalizedStrings(NormalizedStrings(values)) == NormalizedStrings(values)
  {
    forall x | x in NormalizedStrings(values)
      ensures Trim(x) == x && NotBlank(x)
    {
      CollectElements(values, Trim, NotBlank, x);
      var i :| 0 <= i < |values| && x == Trim(values[i]);
      TrimIsIdempotent(values[i]);
    }
    CollectFixed(NormalizedStrings(values), Trim, NotBlank);
  }

  function NormalizedLowerStrings(values: seq<string>): seq<string> {
    Collect(values, Canonical, NotBlank)
  }

  /** Lowering the trimmed list, item by item, gives the canonical list. */
  lemma {:induction false} LoweredStrings(values: seq<string>)
    ensures |NormalizedLowerStrings(values)| == |NormalizedStrings(values)|
    ensures forall i :: 0 <= i < |NormalizedStrings(values)| ==> NormalizedLowerStrings(values)[i] == Lower(NormalizedStrings(values)[i])
  {
    if values != [] {
      LoweredStrings(values[..|values| - 1]);
    }
  }

  method NormalizeLowerStringList(values: seq<string>) returns (out: seq<string>)
    ensures out == NormalizedLowerStrings(values)
  {
    LoweredStrings(values);
    ghost var trimmed := NormalizedStrings(values);
    out := NormalizeStringList(values);
    for i := 0 to |out|
      invariant |out| == |trimmed|
      invariant forall j :: 0 <= j < |out| ==> out[j] == if j < i then Lower(trimmed[j]) else trimmed[j]
    {
      out := out[i := Lower(out[i])];
    }
  }

  lemma NormalizedLowerStringsIdempotent(values: seq<string>)
    ensures NormalizedLowerStrings(NormalizedLowerStrings(values)) == NormalizedLowerStrings(values)
  {
    forall x | x in NormalizedLowerStrings(values)
      ensures Canonical(x) == x && NotBlank(x)
    {
      CollectElements(values, Canonical, NotBlank, x);
      var i :| 0 <= i < |values| && x == Canonical(values[i]) && NotBlank(x);
      CanonicalIsIdempotent(values[i]);
    }
    CollectFixed(NormalizedLowerStrings(values), Canonical, NotBlank);
  }

  // ---- The property-filter allowlist ----

  function NormalizedFilter(f: PropertyFilter): PropertyFilter {
    PropertyFilter(Canonical(f.scope), Trim(f.name), NormalizedLowerStrings(f.valueTypes))
  }

  predicate Selects(f: PropertyFilter) {
    f.scope != "" && f.name != ""
  }

  function Join(parts: seq<string>): string {
    if |parts| == 0 then ""
    else if |parts| == 1 then parts[0]
    else parts[0] + "," + Join(parts[1..])
  }

  /** The string under which the service recognises a filter it has already kept. */
  function DedupKey(f: PropertyFilter): string {
    f.scope + "\0" + f.name + "\0" + Join(f.valueTypes)
  }

  /** The cleaned filters before repeated ones are dropped. */
  function CleanFilters(values: seq<PropertyFilter>): seq<PropertyFilter> {
    Collect(values, NormalizedFilter, Selects)
  }

  ghost function NormalizedFilters(values: seq<PropertyFilter>): seq<PropertyFilter> {
    FirstBy(CleanFilters(values), DedupKey)
  }

  method CleanFilter(f: PropertyFilter) returns (value: PropertyFilter)
    ensures value == NormalizedFilter(f)
  {
    var valueTypes := NormalizeLowerStringList(f.valueTypes);
    value := PropertyFilter(Lower(Trim(f.scope)), Trim(f.name), valueTypes);
  }

  lemma CleanFiltersStep(values: seq<PropertyFilter>, i: nat)
    requires i < |values|
    ensures
      var before, after, value := CleanFilters(values[..i]), CleanFilters(values[..i + 1]), NormalizedFilter(values[i]);
      && after == (if Selects(value) then before + [value] else before)
      && (Selects(value) && !HasKey(before, DedupKey, DedupKey(value)) ==>
            FirstBy(after, DedupKey) == FirstBy(before, DedupKey) + [value])
      && (Selects(value) && HasKey(before, DedupKey, DedupKey(value)) ==>
            FirstBy(after, DedupKey) == FirstBy(before, DedupKey))
  {
    assert values[..i + 1][..i] == values[..i];
    var before, value := CleanFilters(values[..i]), NormalizedFilter(values[i]);
    assert (before + [value])[..|before|] == before;
  }

  method NormalizeAllowedPropertyFilters(values: seq<PropertyFilter>) returns (out: seq<PropertyFilter>)
    ensures out == NormalizedFilters(values)
  {
    out := [];
    var seen: set<string> := {};
    for i := 0 to |values|
      invariant out == FirstBy(CleanFilters(values[..i]), DedupKey)
      invariant forall k :: k in seen <==> HasKey(CleanFilters(values[..i]), DedupKey, k)
    {
      ghost var before := CleanFilters(values[..i]);
      var value := CleanFilter(values[i]);
      CleanFiltersStep(values, i);
      if value.scope == "" || value.name == "" {
        continue;
      }
      var key := value.scope + "\0" + value.name + "\0" + Join(value.valueTypes);
      HasKeyOfPushed(before, value);
      if key in seen {
        continue;
      }
      seen := seen + {key};
      out := out + [value];
    }
    assert values[..|values|] == values;
  }

  lemma HasKeyOfPushed(s: seq<PropertyFilter>, f: PropertyFilter)
    ensures forall k :: HasKey(s + [f], DedupKey, k) <==> HasKey(s, DedupKey, k) || k == DedupKey(f)
  {
    PushedKey(s, f, DedupKey);
  }

  lemma NormalizedFilterIdempotent(f: PropertyFilter)
    ensures NormalizedFilter(NormalizedFilter(f)) == NormalizedFilter(f)
  {
    CanonicalIsIdempotent(f.scope);
    TrimIsIdempotent(f.name);
    NormalizedLowerStringsIdempotent(f.valueTypes);
  }

  /** Every kept filter is a cleaned filter of the input, is clean itself, and has a key of its own. */
  lemma NormalizedFiltersShape(values: seq<PropertyFilter>)
    ensures DistinctBy(NormalizedFilters(values), DedupKey)
    ensures forall f <- NormalizedFilters(values) :: f in CleanFilters(values) && NormalizedFilter(f) == f && Selects(f)
  {
    FirstByDistinct(CleanFilters(values), DedupKey);
    forall f | f in NormalizedFilters(values)
      ensures f in CleanFilters(values) && NormalizedFilter(f) == f && Selects(f)
    {
      CollectElements(values, NormalizedFilter, Selects, f);
      var i :| 0 <= i < |values| && f == NormalizedFilter(values[i]) && Selects(f);
      NormalizedFilterIdempotent(values[i]);
    }
  }

  lemma NormalizedFiltersIdempotent(values: seq<PropertyFilter>)
    ensures NormalizedFilters(NormalizedFilters(values)) == NormalizedFilters(values)
  {
    NormalizedFiltersShape(values);
    CollectFixed(NormalizedFilters(values), NormalizedFilter, Selects);
    FirstByFixed(NormalizedFilters(values), DedupKey);
  }

  predicate LegalType(t: string) {
    t == "null" || t == "string" || t == "number" || t == "bool"
  }

  predicate LegalFilter(f: PropertyFilter) {
    (f.scope == "event" || f.scope == "user") && forall t <- f.valueTypes :: LegalType(t)
  }

  // ---- The dedup key is injective on legal filters ----

  lemma {:induction false} JoinOfLegalTypes(ts: seq<string>)
    requires forall t <- ts :: LegalType(t)
    ensures '\0' !in Join(ts)
    ensures ts != [] ==> Join(ts) != ""
  {
    if ts != [] {
      assert LegalType(ts[0]) && ts[0] != "";
      if |ts| > 1 {
        JoinOfLegalTypes(ts[1..]);
      }
    }
  }

  /** The text up to the first comma tells the first type. */
  lemma FirstTypeOfJoin(t: string, rest: string, u: string, other: string)
    requires LegalType(t) && LegalType(u)
    requires rest == "" || rest[0] == ','
    requires other == "" || other[0] == ','
    requires t + rest == u + other
    ensures t == u && rest == other
  {
    var whole := t + rest;
    assert forall i :: 0 <= i < |t| ==> whole[i] == t[i] != ',';
    assert forall i :: 0 <= i < |u| ==> whole[i] == u[i] != ',';
    assert rest != "" ==> whole[|t|] == ',';
    assert other != "" ==> whole[|u|] == ',';
    assert |t| == |u|;
    assert whole[..|t|] == t && whole[..|u|] == u;
    assert whole[|t|..] == rest && whole[|u|..] == other;
  }

  /** What follows the first part of a joined list. */
  function JoinTail(parts: seq<string>): string
    requires parts != []
  {
    if |parts| == 1 then "" else "," + Join(parts[1..])
  }

  lemma JoinIsHeadAndTail(parts: seq<string>)
    requires parts != []
    ensures Join(parts) == parts[0] + JoinTail(parts)
    ensures JoinTail(parts) == "" || JoinTail(parts)[0] == ','
    ensures |parts| > 1 ==> JoinTail(parts)[1..] == Join(parts[1..])
    ensures JoinTail(parts) == "" <==> |parts| == 1
  {
    if |parts| == 1 {
      assert parts[0] + "" == parts[0];
    } else {
      CommaFirst(parts[0], Join(parts[1..]));
    }
  }

  lemma CommaFirst(head: string, rest: string)
    ensures ("," + rest)[0] == ',' && ("," + rest)[1..] == rest
    ensures head + "," + rest == head + ("," + rest)
  {
  }

  lemma {:induction false} JoinInjective(ts: seq<string>, us: seq<string>)
    requires forall t <- ts :: LegalType(t)
    requires forall u <- us :: LegalType(u)
    requires Join(ts) == Join(us)
    ensures ts == us
  {
    JoinOfLegalTypes(ts);
    JoinOfLegalTypes(us);
    if ts != [] && us != [] {
      JoinIsHeadAndTail(ts);
      JoinIsHeadAndTail(us);
      FirstTypeOfJoin(ts[0], JoinTail(ts), us[0], JoinTail(us));
      if |ts| > 1 {
        JoinInjective(ts[1..], us[1..]);
      }
      assert ts == [ts[0]] + ts[1..] && us == [us[0]] + us[1..];
    }
  }

  /** Two texts around their last NUL. */
  lemma LastNulSplits(a: string, x: string, b: string, y: string)
    requires '\0' !in x && '\0' !in y
    requires a + "\0" + x == b + "\0" + y
    ensures a == b && x == y
  {
    var whole := a + "\0" + x;
    assert forall i :: |a| < i < |whole| ==> whole[i] == x[i - |a| - 1];
    assert forall i :: |b| < i < |whole| ==> whole[i] == y[i - |b| - 1];
    assert whole[|a|] == '\0' && whole[|b|] == '\0';
    assert |a| == |b|;
    assert whole[..|a|] == a && whole[..|b|] == b;
    assert whole[|a| + 1..] == x && whole[|b| + 1..] == y;
  }

  /** On legal filters the joined key names exactly one filter, whatever characters the names hold. */
  lemma DedupKeyInjective(f: PropertyFilter, g: PropertyFilter)
    requires LegalFilter(f) && LegalFilter(g)
    requires DedupKey(f) == DedupKey(g)
    ensures f == g
  {
    JoinOfLegalTypes(f.valueTypes);
    JoinOfLegalTypes(g.valueTypes);
    var key := DedupKey(f);
    assert key[0] == f.scope[0] == g.scope[0];
    assert f.scope == g.scope;
    var n := |f.scope| + 1;
    assert key[n..] == f.name + "\0" + Join(f.valueTypes);
    assert key[n..] == g.name + "\0" + Join(g.valueTypes);
    LastNulSplits(f.name, Join(f.valueTypes), g.name, Join(g.valueTypes));
    JoinInjective(f.valueTypes, g.valueTypes);
  }

  /** Off the legal filters it is not: an illegal type list shares the key of a legal one. */
  lemma DedupKeyCollides()
    ensures
      var legal := PropertyFilter("event", "a", ["string", "number"]);
      var illegal := PropertyFilter("event", "a", ["string,number"]);
      DedupKey(legal) == DedupKey(illegal) && legal != illegal && LegalFilter(legal) && !LegalFilter(illegal)
  {
    assert Join(["string", "number"]) == "string" + "," + Join(["number"]);
    assert ["string", "number"][1..] == ["number"];
    assert "string,number" == "string" + "," + "number";
    assert |"string,number"| == 13;
    assert "string,number" in PropertyFilter("event", "a", ["string,number"]).valueTypes;
  }

  // ---- Allowlist queries ----

  predicate FilterCovers(f: PropertyFilter, scope: string, name: string, valueType: string) {
    f.scope == scope && f.name == name && (f.valueTypes == [] || valueType in f.valueTypes)
  }

  /** Some listed filter covers the predicate, after the request strings are cleaned like the config's. */
  ghost predicate Allows(filters: seq<PropertyFilter>, scope: string, name: string, valueType: string) {
    Canonical(scope) != "" && Trim(name) != "" && Canonical(valueType) != "" &&
    exists f :: f in filters && FilterCovers(f, Canonical(scope), Trim(name), Canonical(valueType))
  }

  method AnyCovers(filters: seq<PropertyFilter>, s: string, n: string, t: string) returns (ok: bool)
    ensures ok <==> exists f :: f in filters && FilterCovers(f, s, n, t)
  {
    for i := 0 to |filters|
      invariant forall j :: 0 <= j < i ==> !FilterCovers(filters[j], s, n, t)
    {
      var filter := filters[i];
      if filter.scope != s || filter.name != n {
        continue;
      }
      if |filter.valueTypes| == 0 {
        assert filters[i] in filters;
        return true;
      }
      for k := 0 to |filter.valueTypes|
        invariant forall m :: 0 <= m < k ==> filter.valueTypes[m] != t
      {
        if filter.valueTypes[k] == t {
          assert filters[i] in filters;
          return true;
        }
      }
    }
    return false;
  }

  /** A filter without types allows every type, one with types only its own. */
  lemma AllowsMeaning(filters: seq<PropertyFilter>, scope: string, name: string, valueType: string)
    ensures Allows(filters, scope, name, valueType) <==>
            && Canonical(scope) != "" && Trim(name) != "" && Canonical(valueType) != ""
            && exists f :: f in filters && f.scope == Canonical(scope) && f.name == Trim(name) && (f.valueTypes == [] || Canonical(valueType) in f.valueTypes)
  {
    if exists f :: f in filters && f.scope == Canonical(scope) && f.name == Trim(name) && (f.valueTypes == [] || Canonical(valueType) in f.valueTypes) {
      var f :| f in filters && f.scope == Canonical(scope) && f.name == Trim(name) && (f.valueTypes == [] || Canonical(valueType) in f.valueTypes);
      assert FilterCovers(f, Canonical(scope), Trim(name), Canonical(valueType));
    }
  }

  method AllowsPropertyFilter(c: SourceConfig, scope: string, name: string, valueType: string) returns (ok: bool)
    ensures ok == Allows(c.allowedPropertyFilters, scope, name, valueType)
  {
    var s, n, t := Lower(Trim(scope)), Trim(name), Lower(Trim(valueType));
    if s == "" || n == "" || t == "" {
      return false;
    }
    ok := AnyCovers(c.allowedPropertyFilters, s, n, t);
  }

  /**
   * When every filter that survives cleaning is legal, dropping repeated keys drops only exact repeats:
   * the same filters stay, and every query gets the answer the full list would give.
   */
  lemma DedupKeepsAnswers(values: seq<PropertyFilter>)
    requires forall f <- CleanFilters(values) :: LegalFilter(f)
    ensures forall f :: f in NormalizedFilters(values) <==> f in CleanFilters(values)
    ensures forall scope, name, valueType ::
              Allows(NormalizedFilters(values), scope, name, valueType) <==> Allows(CleanFilters(values), scope, name, valueType)
  {
    var clean := CleanFilters(values);
    forall f, g | f in clean && g in clean && DedupKey(f) == DedupKey(g)
      ensures f == g
    {
      DedupKeyInjective(f, g);
    }
    FirstByLosesNothing(clean, DedupKey);
  }

  /** Dropping repeated keys loses no filter exactly when no two different cleaned filters share a key. */
  lemma DedupLosesNothing(values: seq<PropertyFilter>)
    ensures (forall f :: f in NormalizedFilters(values) <==> f in CleanFilters(values)) <==>
            (forall f, g :: f in CleanFilters(values) && g in CleanFilters(values) && DedupKey(f) == DedupKey(g) ==> f == g)
  {
    var clean, kept := CleanFilters(values), NormalizedFilters(values);
    FirstByDistinct(clean, DedupKey);
    if forall f :: f in kept <==> f in clean {
      forall f, g | f in clean && g in clean && DedupKey(f) == DedupKey(g)
        ensures f == g
      {
        SameKeySameItem(kept, f, g);
      }
    }
    if forall f, g :: f in clean && g in clean && DedupKey(f) == DedupKey(g) ==> f == g {
      FirstByLosesNothing(clean, DedupKey);
    }
  }

  lemma SameKeySameItem(kept: seq<PropertyFilter>, f: PropertyFilter, g: PropertyFilter)
    requires DistinctBy(kept, DedupKey) && f in kept && g in kept && DedupKey(f) == DedupKey(g)
    ensures f == g
  {
    var i :| 0 <= i < |kept| && kept[i] == f;
    var j :| 0 <= j < |kept| && kept[j] == g;
    assert DedupKey(kept[i]) == DedupKey(kept[j]);
  }

  /**
   * Of an allowlist that passes validation after normalization, exactly the legal cleaned filters were kept. So nothing
   * was lost if and only if every cleaned filter was legal, and a query is answered by the legal ones alone.
   */
  lemma ValidatedKeepsLegal(values: seq<PropertyFilter>)
    requires ValidateFilters(NormalizedFilters(values)).None?
    ensures forall f :: f in NormalizedFilters(values) <==> f in CleanFilters(values) && LegalFilter(f)
    ensures (forall f :: f in NormalizedFilters(values) <==> f in CleanFilters(values)) <==> forall f <- CleanFilters(values) :: LegalFilter(f)
    ensures forall scope, name, valueType ::
              Allows(NormalizedFilters(values), scope, name, valueType) <==>
              LegallyAllows(CleanFilters(values), scope, name, valueType)
  {
    var clean, kept := CleanFilters(values), NormalizedFilters(values);
    FirstByDistinct(clean, DedupKey);
    forall f | f in clean && LegalFilter(f)
      ensures f in kept
    {
      LegalIsKept(clean, f);
    }
  }

  lemma LegalIsKept(clean: seq<PropertyFilter>, f: PropertyFilter)
    requires f in clean && LegalFilter(f) && forall g <- FirstBy(clean, DedupKey) :: LegalFilter(g)
    ensures f in FirstBy(clean, DedupKey)
  {
    var kept := FirstBy(clean, DedupKey);
    var i :| 0 <= i < |clean| && clean[i] == f;
    assert HasKey(clean, DedupKey, DedupKey(f));
    FirstByKeys(clean, DedupKey, DedupKey(f));
    var j :| 0 <= j < |kept| && DedupKey(kept[j]) == DedupKey(f);
    DedupKeyInjective(kept[j], f);
  }

  /** Some legal listed filter covers the predicate. */
  ghost predicate LegallyAllows(filters: seq<PropertyFilter>, scope: string, name: string, valueType: string) {
    Canonical(scope) != "" && Trim(name) != "" && Canonical(valueType) != "" &&
    exists f :: f in filters && LegalFilter(f) && FilterCovers(f, Canonical(scope), Trim(name), Canonical(valueType))
  }

  lemma CleanFilterStays(f: PropertyFilter)
    requires Canonical(f.scope) == f.scope && Trim(f.name) == f.name
    requires forall t <- f.valueTypes :: Canonical(t) == t != ""
    ensures NormalizedFilter(f) == f
  {
    CollectFixed(f.valueTypes, Canonical, NotBlank);
  }

  /** Two filters under one key whose NUL sits in the name of the one and in a value type of the other. */
  lemma NulCollides(scope: string, a: string, b: string, first: string, second: string)
    ensures DedupKey(PropertyFilter(scope, a + "\0" + b, [first, second])) == DedupKey(PropertyFilter(scope, a, [b + "\0" + first, second]))
  {
    assert [first, second][1..] == [second] && [b + "\0" + first, second][1..] == [second];
    assert Join([first, second]) == first + "," + second;
    assert Join([b + "\0" + first, second]) == (b + "\0" + first) + "," + second;
  }

  /** The allowlist that validation accepts although a filter was lost. */
  const LOSSY: seq<PropertyFilter> :=
    [PropertyFilter("event", "a" + "\0" + "b", ["string", "number"]), PropertyFilter("event", "a", ["b" + "\0" + "string", "number"])]

  /**
   * It happens behind validation's back: normalization keeps only the legal first filter, the config passes,
   * and event.a number, which the list as written allows, is refused.
   */
  lemma DedupCanLoseAnswers()
    ensures NormalizedFilters(LOSSY) == [LOSSY[0]] && CleanFilters(LOSSY) == LOSSY
    ensures ValidateFilters(NormalizedFilters(LOSSY)).None? && !LegalFilter(LOSSY[1])
    ensures Allows(CleanFilters(LOSSY), "event", "a", "number") && !Allows(NormalizedFilters(LOSSY), "event", "a", "number")
  {
    LossyIsClean();
    LossyKeepsFirst();
    LossyLegality();
    LossyAnswers();
  }

  lemma LossyKeepsFirst()
    ensures FirstBy(LOSSY, DedupKey) == [LOSSY[0]]
  {
    assert LOSSY == [LOSSY[0], LOSSY[1]];
    NulCollides("event", "a", "b", "string", "number");
    SecondIsDropped(LOSSY[0], LOSSY[1], DedupKey);
  }

  lemma LossyAnswers()
    ensures Allows(LOSSY, "event", "a", "number") && !Allows([LOSSY[0]], "event", "a", "number")
  {
    assert LOSSY == [LOSSY[0], LOSSY[1]];
    CleanLetters("event");
    CleanLetters("a");
    CleanLetters("number");
    LossyLegality();
    LosesSecond(LOSSY[0], LOSSY[1], "event", "a", "number");
  }

  lemma LosesSecond(f: PropertyFilter, g: PropertyFilter, scope: string, name: string, valueType: string)
    requires Canonical(scope) == scope != "" && Trim(name) == name != "" && Canonical(valueType) == valueType != ""
    requires FilterCovers(g, scope, name, valueType) && !FilterCovers(f, scope, name, valueType)
    ensures Allows([f, g], scope, name, valueType) && !Allows([f], scope, name, valueType)
  {
    assert g in [f, g];
  }

  lemma CleanLetters(s: string)
    requires s != "" && forall i :: 0 <= i < |s| ==> 'a' <= s[i] <= 'z' || s[i] == '\0'
    ensures Canonical(s) == s && Trim(s) == s
  {
    CleanTextStays(s);
  }

  lemma LossyLegality()
    ensures LegalFilter(LOSSY[0]) && !LegalFilter(LOSSY[1])
    ensures LOSSY[0].name != LOSSY[1].name
  {
    var t := "b" + "\0" + "string";
    assert t[0] == 'b' && t[1] == '\0' && |t| == 8;
    assert !LegalType(t) && t in LOSSY[1].valueTypes;
    assert |LOSSY[0].name| == 3 && |LOSSY[1].name| == 1;
  }

  lemma FirstIsClean()
    ensures NormalizedFilter(LOSSY[0]) == LOSSY[0]
  {
    CleanLetters("event");
    CleanLetters("a" + "\0" + "b");
    CleanLetters("string");
    CleanLetters("number");
    CleanFilterStays(LOSSY[0]);
  }

  lemma SecondIsClean()
    ensures NormalizedFilter(LOSSY[1]) == LOSSY[1]
  {
    CleanLetters("event");
    CleanLetters("a");
    CleanLetters("b" + "\0" + "string");
    CleanLetters("number");
    CleanFilterStays(LOSSY[1]);
  }

  lemma LossyIsClean()
    ensures CleanFilters(LOSSY) == LOSSY
  {
    FirstIsClean();
    SecondIsClean();
    CollectFixed(LOSSY, NormalizedFilter, Selects);
  }

  // ---- Visit window ----

  function NormalizedVisitWindow(window: int64, encodedSeconds: int64): (w: int64)
    ensures w > 0
  {
    var w: int64 := if window <= 0 && encodedSeconds > 0 then Wrap64(encodedSeconds * SECOND) else window;
    if w <= 0 then DEFAULT_VISIT_WINDOW else w
  }

  /** With no preset window, exactly the seconds from 1 to 9223372036 survive normalization. */
  lemma SecondsKept(window: int64, seconds: int64)
    requires window <= 0
    ensures NormalizedVisitWindow(window, seconds) / SECOND == seconds <==> 1 <= seconds <= 9223372036
    ensures 1 <= seconds <= 9223372036 ==> NormalizedVisitWindow(window, seconds) == seconds * SECOND
    ensures NormalizedVisitWindow(window, seconds) / SECOND == seconds && NormalizedVisitWindow(window, seconds) >= MINUTE
            <==> 60 <= seconds <= 9223372036
  {
  }

  /** One second more wraps around to a negative duration and silently becomes the default. */
  lemma SecondsOverflow()
    ensures NormalizedVisitWindow(0, 9223372037) == NormalizedVisitWindow(0, 0) == 1_800_000_000_000
  {
  }

  // ---- Normalization ----

  function NormalizedType(sourceType: string): string {
    if Trim(sourceType) == "" then "web" else Trim(sourceType)
  }

  lemma NormalizedTypeIdempotent(sourceType: string)
    ensures NormalizedType(NormalizedType(sourceType)) == NormalizedType(sourceType)
  {
    var t := NormalizedType(sourceType);
    TrimIsIdempotent(sourceType);
    assert Trimmed(t) && t != "";
    TrimIsIdempotent(t);
  }

  ghost function Normalize(c: SourceConfig): SourceConfig {
    var window := NormalizedVisitWindow(c.visitWindow, c.visitWindowSeconds);
    SourceConfig(
      Trim(c.writeKey), c.enabled, Trim(c.tenantID), Trim(c.projectID), Trim(c.sourceID),
      NormalizedType(c.sourceType),
      NormalizedStrings(c.allowedOrigins), NormalizedFilters(c.allowedPropertyFilters), c.readbackPolicy,
      NormalizedStrings(c.botUserAgents), NormalizedStrings(c.internalCIDRs), NormalizedStrings(c.internalIPs),
      Trim(c.sessionSalt), Trim(c.visitSalt), window, window / SECOND, Trim(c.clientHashSalt), c.includeClientFingerprint)
  }

  method NormalizeSource(raw: SourceConfig) returns (c: SourceConfig)
    ensures c == Normalize(raw)
  {
    c := raw.(writeKey := Trim(raw.writeKey), tenantID := Trim(raw.tenantID), projectID := Trim(raw.projectID),
              sourceID := Trim(raw.sourceID), sourceType := Trim(raw.sourceType), sessionSalt := Trim(raw.sessionSalt),
              visitSalt := Trim(raw.visitSalt), clientHashSalt := Trim(raw.clientHashSalt));
    if c.sourceType == "" {
      c := c.(sourceType := "web");
    }
    c := c.(visitWindow := NormalizedVisitWindow(c.visitWindow, c.visitWindowSeconds));
    c := c.(visitWindowSeconds := c.visitWindow / SECOND);
    var origins := NormalizeStringList(c.allowedOrigins);
    var filters := NormalizeAllowedPropertyFilters(c.allowedPropertyFilters);
    var bots := NormalizeStringList(c.botUserAgents);
    var cidrs := NormalizeStringList(c.internalCIDRs);
    var ips := NormalizeStringList(c.internalIPs);
    c := c.(allowedOrigins := origins, allowedPropertyFilters := filters, botUserAgents := bots,
            internalCIDRs := cidrs, internalIPs := ips);
  }

  ghost predicate Normalized(c: SourceConfig) {
    Normalize(c) == c
  }

  lemma NormalizeIsIdempotent(c: SourceConfig)
    ensures Normalized(Normalize(c))
  {
    TrimIsIdempotent(c.writeKey);
    TrimIsIdempotent(c.tenantID);
    TrimIsIdempotent(c.projectID);
    TrimIsIdempotent(c.sourceID);
    NormalizedTypeIdempotent(c.sourceType);
    TrimIsIdempotent(c.sessionSalt);
    TrimIsIdempotent(c.visitSalt);
    TrimIsIdempotent(c.clientHashSalt);
    NormalizedStringsIdempotent(c.allowedOrigins);
    NormalizedStringsIdempotent(c.botUserAgents);
    NormalizedStringsIdempotent(c.internalCIDRs);
    NormalizedStringsIdempotent(c.internalIPs);
    NormalizedFiltersIdempotent(c.allowedPropertyFilters);
  }

  // ---- What normalization does to each field ----

  /** A string that names something and needs no trimming. */
  predicate CleanName(s: string) {
    s != "" && Trimmed(s)
  }

  predicate CleanNames(values: seq<string>) {
    forall s <- values :: CleanName(s)
  }

  predicate CleanTypes(types: seq<string>) {
    forall t <- types :: CleanName(t) && LowerCase(t)
  }

  predicate CleanEntry(f: PropertyFilter) {
    CleanName(f.scope) && LowerCase(f.scope) && CleanName(f.name) && CleanTypes(f.valueTypes)
  }

  /** Every field is clean already, each by its own rule. */
  ghost predicate CleanSource(c: SourceConfig) {
    && Trimmed(c.writeKey) && Trimmed(c.tenantID) && Trimmed(c.projectID) && Trimmed(c.sourceID) && CleanName(c.sourceType)
    && Trimmed(c.sessionSalt) && Trimmed(c.visitSalt) && Trimmed(c.clientHashSalt)
    && CleanNames(c.allowedOrigins) && CleanNames(c.botUserAgents) && CleanNames(c.internalCIDRs) && CleanNames(c.internalIPs)
    && (forall f <- c.allowedPropertyFilters :: CleanEntry(f)) && DistinctBy(c.allowedPropertyFilters, DedupKey)
    && c.visitWindow > 0 && c.visitWindowSeconds == c.visitWindow / SECOND
  }

  lemma CleanNamesStay(values: seq<string>)
    ensures CleanNames(values) <==> NormalizedStrings(values) == values
  {
    if CleanNames(values) {
      forall x | x in values
        ensures Trim(x) == x && NotBlank(x)
      {
        TrimIsIdempotent(x);
      }
      CollectFixed(values, Trim, NotBlank);
    }
    if NormalizedStrings(values) == values {
      forall x | x in values
        ensures CleanName(x)
      {
        CollectElements(values, Trim, NotBlank, x);
        var i :| 0 <= i < |values| && x == Trim(values[i]) && NotBlank(x);
        TrimIsIdempotent(values[i]);
      }
    }
  }

  /** Lowering and trimming leave a text alone exactly when it is trimmed and in lower case. */
  lemma CanonicalFixed(s: string)
    ensures Canonical(s) == s <==> Trimmed(s) && LowerCase(s)
  {
    if Trimmed(s) && LowerCase(s) {
      CleanTextStays(s);
    }
    if Canonical(s) == s {
      CanonicalIsIdempotent(s);
      TrimIsIdempotent(s);
      LowerFoldsCase(Trim(s), Trim(s));
    }
  }

  lemma CleanTypesStay(types: seq<string>)
    ensures CleanTypes(types) <==> NormalizedLowerStrings(types) == types
  {
    if CleanTypes(types) {
      forall x | x in types
        ensures Canonical(x) == x && NotBlank(x)
      {
        CanonicalFixed(x);
      }
      CollectFixed(types, Canonical, NotBlank);
    }
    if NormalizedLowerStrings(types) == types {
      forall x | x in types
        ensures CleanName(x) && LowerCase(x)
      {
        CollectElements(types, Canonical, NotBlank, x);
        var i :| 0 <= i < |types| && x == Canonical(types[i]) && NotBlank(x);
        CanonicalIsIdempotent(types[i]);
        CanonicalFixed(x);
      }
    }
  }

  lemma CleanEntryStays(f: PropertyFilter)
    ensures CleanEntry(f) <==> NormalizedFilter(f) == f && Selects(f)
  {
    CanonicalFixed(f.scope);
    TrimIsIdempotent(f.name);
    CleanTypesStay(f.valueTypes);
  }

  lemma CleanFiltersStay(filters: seq<PropertyFilter>)
    ensures (forall f <- filters :: CleanEntry(f)) && DistinctBy(filters, DedupKey) <==> NormalizedFilters(filters) == filters
  {
    if (forall f <- filters :: CleanEntry(f)) && DistinctBy(filters, DedupKey) {
      forall f | f in filters
        ensures NormalizedFilter(f) == f && Selects(f)
      {
        CleanEntryStays(f);
      }
      CollectFixed(filters, NormalizedFilter, Selects);
      FirstByFixed(filters, DedupKey);
    }
    if NormalizedFilters(filters) == filters {
      NormalizedFiltersShape(filters);
      forall f | f in filters
        ensures CleanEntry(f)
      {
        CleanEntryStays(f);
      }
    }
  }

  /** Normalization leaves a config alone if and only if each of its fields is clean. */
  lemma NormalizedIffClean(c: SourceConfig)
    ensures Normalized(c) <==> CleanSource(c)
  {
    StringsFixed(c);
    CleanNamesStay(c.allowedOrigins);
    CleanNamesStay(c.botUserAgents);
    CleanNamesStay(c.internalCIDRs);
    CleanNamesStay(c.internalIPs);
    CleanFiltersStay(c.allowedPropertyFilters);
    SameFieldByField(c);
  }

  /** Equality with the normal form, field by field. */
  lemma SameFieldByField(c: SourceConfig)
    ensures
      var n := Normalize(c);
      n == c <==>
        && n.writeKey == c.writeKey && n.tenantID == c.tenantID && n.projectID == c.projectID && n.sourceID == c.sourceID
        && n.sourceType == c.sourceType && n.sessionSalt == c.sessionSalt && n.visitSalt == c.visitSalt && n.clientHashSalt == c.clientHashSalt
        && n.allowedOrigins == c.allowedOrigins && n.botUserAgents == c.botUserAgents && n.internalCIDRs == c.internalCIDRs
        && n.internalIPs == c.internalIPs && n.allowedPropertyFilters == c.allowedPropertyFilters
        && n.visitWindow == c.visitWindow && n.visitWindowSeconds == c.visitWindowSeconds
  {
  }

  lemma StringsFixed(c: SourceConfig)
    ensures Trim(c.writeKey) == c.writeKey <==> Trimmed(c.writeKey)
    ensures Trim(c.tenantID) == c.tenantID <==> Trimmed(c.tenantID)
    ensures Trim(c.projectID) == c.projectID <==> Trimmed(c.projectID)
    ensures Trim(c.sourceID) == c.sourceID <==> Trimmed(c.sourceID)
    ensures NormalizedType(c.sourceType) == c.sourceType <==> CleanName(c.sourceType)
    ensures Trim(c.sessionSalt) == c.sessionSalt <==> Trimmed(c.sessionSalt)
    ensures Trim(c.visitSalt) == c.visitSalt <==> Trimmed(c.visitSalt)
    ensures Trim(c.clientHashSalt) == c.clientHashSalt <==> Trimmed(c.clientHashSalt)
  {
    TrimFixed(c.writeKey);
    TrimFixed(c.tenantID);
    TrimFixed(c.projectID);
    TrimFixed(c.sourceID);
    TypeFixed(c.sourceType);
    TrimFixed(c.sessionSalt);
    TrimFixed(c.visitSalt);
    TrimFixed(c.clientHashSalt);
  }

  lemma TrimFixed(s: string)
    ensures Trim(s) == s <==> Trimmed(s)
  {
    TrimIsIdempotent(s);
  }

  lemma TypeFixed(sourceType: string)
    ensures NormalizedType(sourceType) == sourceType <==> CleanName(sourceType)
  {
    TrimIsIdempotent(sourceType);
  }

  /** Each normalized name, switch and salt depends on its own raw field alone. */
  lemma NamesAreApart(c: SourceConfig, d: SourceConfig)
    ensures
      var n, m := Normalize(c), Normalize(d);
      && (c.writeKey == d.writeKey ==> n.writeKey == m.writeKey)
      && (c.enabled == d.enabled ==> n.enabled == m.enabled)
      && (c.tenantID == d.tenantID ==> n.tenantID == m.tenantID)
      && (c.projectID == d.projectID ==> n.projectID == m.projectID)
      && (c.sourceID == d.sourceID ==> n.sourceID == m.sourceID)
      && (c.sourceType == d.sourceType ==> n.sourceType == m.sourceType)
      && (c.sessionSalt == d.sessionSalt ==> n.sessionSalt == m.sessionSalt)
      && (c.visitSalt == d.visitSalt ==> n.visitSalt == m.visitSalt)
      && (c.clientHashSalt == d.clientHashSalt ==> n.clientHashSalt == m.clientHashSalt)
  {
  }

  /** So does each list and policy; the window depends on both of its raw forms. */
  lemma ListsAreApart(c: SourceConfig, d: SourceConfig)
    ensures
      var n, m := Normalize(c), Normalize(d);
      && (c.allowedOrigins == d.allowedOrigins ==> n.allowedOrigins == m.allowedOrigins)
      && (c.allowedPropertyFilters == d.allowedPropertyFilters ==> n.allowedPropertyFilters == m.allowedPropertyFilters)
      && (c.readbackPolicy == d.readbackPolicy ==> n.readbackPolicy == m.readbackPolicy)
      && (c.botUserAgents == d.botUserAgents ==> n.botUserAgents == m.botUserAgents)
      && (c.internalCIDRs == d.internalCIDRs ==> n.internalCIDRs == m.internalCIDRs)
      && (c.internalIPs == d.internalIPs ==> n.internalIPs == m.internalIPs)
      && (c.includeClientFingerprint == d.includeClientFingerprint ==> n.includeClientFingerprint == m.includeClientFingerprint)
      && (c.visitWindow == d.visitWindow && c.visitWindowSeconds == d.visitWindowSeconds ==>
            n.visitWindow == m.visitWindow && n.visitWindowSeconds == m.visitWindowSeconds)
  {
  }

  /** A boundary keeps the names of the body it came from, trimmed; a blank type is web. */
  ghost predicate KeepsNames(body: SourceConfig, tenantID: string, projectID: string, sourceID: string, sourceType: string) {
    && tenantID == Trim(body.tenantID) && projectID == Trim(body.projectID) && sourceID == Trim(body.sourceID)
    && sourceType == if Trim(body.sourceType) == "" then "web" else Trim(body.sourceType)
  }

  /** Normalization keeps names, switches and policies, and invents none. */
  lemma NormalizationKeepsNames(body: SourceConfig)
    ensures
      var c := Normalize(body);
      && KeepsNames(body, c.tenantID, c.projectID, c.sourceID, c.sourceType)
      && c.writeKey == Trim(body.writeKey) && c.enabled == body.enabled && c.readbackPolicy == body.readbackPolicy
      && c.includeClientFingerprint == body.includeClientFingerprint
      && c.sessionSalt == Trim(body.sessionSalt) && c.visitSalt == Trim(body.visitSalt) && c.clientHashSalt == Trim(body.clientHashSalt)
  {
  }

  // ---- Validation ----

  datatype ConfigError =
    | WriteKeyRequired | TenantRequired | ProjectRequired | SourceRequired | SessionSaltRequired | VisitSaltRequired
    | VisitWindowTooShort | ClientHashSaltRequired | FilterScopeIllegal | FilterTypeIllegal

  function ValidateFilters(filters: seq<PropertyFilter>): (e: Option<ConfigError>)
    ensures e.None? <==> forall f <- filters :: LegalFilter(f)
  {
    if filters == [] then None
    else
      assert filters == [filters[0]] + filters[1..] && filters[0] in filters;
      assert LegalFilter(filters[0]) <==> (filters[0].scope == "event" || filters[0].scope == "user") && forall t <- filters[0].valueTypes :: LegalType(t);
      if filters[0].scope != "event" && filters[0].scope != "user" then Some(FilterScopeIllegal)
      else if exists t <- filters[0].valueTypes :: !LegalType(t) then Some(FilterTypeIllegal)
      else ValidateFilters(filters[1..])
  }

  function Validate(c: SourceConfig): Option<ConfigError> {
    if c.writeKey == "" then Some(WriteKeyRequired)
    else if c.tenantID == "" then Some(TenantRequired)
    else if c.projectID == "" then Some(ProjectRequired)
    else if c.sourceID == "" then Some(SourceRequired)
    else if c.sessionSalt == "" then Some(SessionSaltRequired)
    else if c.visitSalt == "" then Some(VisitSaltRequired)
    else if c.visitWindow < MINUTE then Some(VisitWindowTooShort)
    else if c.clientHashSalt == "" then Some(ClientHashSaltRequired)
    else ValidateFilters(c.allowedPropertyFilters)
  }

  ghost predicate Valid(c: SourceConfig) {
    Validate(c).None?
  }

  /** A config is valid exactly when nothing required is blank, the window is at least a minute and every filter is legal. */
  lemma ValidMeaning(c: SourceConfig)
    ensures Valid(c) <==>
            && c.writeKey != "" && c.tenantID != "" && c.projectID != "" && c.sourceID != ""
            && c.sessionSalt != "" && c.visitSalt != "" && c.clientHashSalt != ""
            && c.visitWindow >= 60_000_000_000
            && forall f <- c.allowedPropertyFilters ::
                 f.scope in ["event", "user"] && forall t <- f.valueTypes :: t in ["null", "string", "number", "bool"]
  {
    assert forall f <- c.allowedPropertyFilters :: LegalFilter(f) <==>
             f.scope in ["event", "user"] && forall t <- f.valueTypes :: t in ["null", "string", "number", "bool"];
  }

  /** What the JSON form of a config carries: everything but the exact window. */
  function Encoded(c: SourceConfig): SourceConfig {
    c.(visitWindow := 0)
  }

  lemma NormalizeEncoded(c: SourceConfig)
    ensures
      var window := NormalizedVisitWindow(0, c.visitWindowSeconds);
      Normalize(Encoded(c)) == Normalize(c).(visitWindow := window, visitWindowSeconds := window / SECOND)
  {
  }

  /**
   * Sending a valid config through its JSON form loses less than a second of window and nothing else,
   * keeps it valid, and is exact if and only if the window is whole seconds.
   */
  lemma EncodedRoundTrip(c: SourceConfig)
    requires Normalized(c) && Valid(c)
    ensures
      var d := Normalize(Encoded(c));
      && d.visitWindow == c.visitWindow - c.visitWindow % SECOND
      && d == c.(visitWindow := d.visitWindow)
      && Valid(d)
      && (d == c <==> c.visitWindow % SECOND == 0)
  {
    ValidWithWindow(c, c.visitWindow);
    EncodedLosesSubsecond(c);
    SubsecondLost(c, Normalize(Encoded(c)));
  }

  lemma SubsecondLost(c: SourceConfig, d: SourceConfig)
    requires Valid(c) && d == c.(visitWindow := d.visitWindow)
    requires d.visitWindow == c.visitWindow - c.visitWindow % SECOND && d.visitWindow >= MINUTE
    ensures Valid(d) && (d == c <==> c.visitWindow % SECOND == 0)
  {
    ValidWithWindow(c, d.visitWindow);
    OnlyWindowDiffers(c, d);
  }

  lemma EncodedLosesSubsecond(c: SourceConfig)
    requires Normalized(c) && c.visitWindow >= MINUTE
    ensures
      var w := Normalize(Encoded(c)).visitWindow;
      w == c.visitWindow - c.visitWindow % SECOND && w >= MINUTE && Normalize(Encoded(c)) == c.(visitWindow := w)
  {
    NormalizeEncoded(c);
    NormalizedWindow(c);
    WholeSeconds(c.visitWindow, c.visitWindowSeconds);
  }

  lemma OnlyWindowDiffers(c: SourceConfig, d: SourceConfig)
    requires d == c.(visitWindow := d.visitWindow)
    ensures d == c <==> d.visitWindow == c.visitWindow
  {
  }

  lemma NormalizedWindow(c: SourceConfig)
    requires Normalized(c)
    ensures c.visitWindowSeconds == c.visitWindow / SECOND
  {
    assert Normalize(c).visitWindowSeconds == Normalize(c).visitWindow / SECOND;
  }

  lemma ValidWithWindow(c: SourceConfig, w: int64)
    requires Valid(c)
    ensures c.visitWindow >= MINUTE
    ensures w >= MINUTE ==> Valid(c.(visitWindow := w))
  {
  }

  lemma WholeSeconds(window: int64, seconds: int64)
    requires window >= MINUTE && seconds == window / SECOND
    ensures
      var w := NormalizedVisitWindow(0, seconds);
      w == window - window % SECOND && w / SECOND == seconds && w >= MINUTE
  {
    SecondsKept(0, seconds);
  }

  /** Any config that passes normalization and validation has a window of at least a minute that fits an int64. */
  lemma ValidWindowBounds(raw: SourceConfig)
    requires Valid(Normalize(raw))
    ensures MINUTE <= Normalize(raw).visitWindow <= INT64_MAX
    ensures 60 <= Normalize(raw).visitWindowSeconds <= 9223372036
  {
  }

  // ---- Policies ----

  function EqualFold(a: string, b: string): bool {
    Lower(a) == Lower(b)
  }

  predicate AllowsOrigin(c: SourceConfig, rawOrigin: string) {
    var origin := Trim(rawOrigin);
    origin == "" || exists allowed <- c.allowedOrigins :: allowed == "*" || EqualFold(allowed, origin)
  }

  predicate AllowsReadback(c: SourceConfig, route: ReadbackRoute) {
    match route
    case Realtime => c.readbackPolicy.realtime
    case Events => c.readbackPolicy.events
    case Properties => c.readbackPolicy.properties
    case Goals => c.readbackPolicy.goals
    case KafkaDiagnostics => false
    case KafkaMetrics => false
  }

  /** A request without an origin is allowed; one with an origin only by a star or by its own name in any case. */
  lemma OriginMeaning(c: SourceConfig, rawOrigin: string)
    ensures AllowsOrigin(c, rawOrigin) <==>
            Trim(rawOrigin) == "" || "*" in c.allowedOrigins || exists o :: o in c.allowedOrigins && SameLetters(o, Trim(rawOrigin))
  {
    forall o | o in c.allowedOrigins
      ensures EqualFold(o, Trim(rawOrigin)) <==> SameLetters(o, Trim(rawOrigin))
    {
      LowerFoldsCase(o, Trim(rawOrigin));
    }
  }

  /** Each route has its own switch; a missing policy and process-scoped routes allow nothing. */
  lemma ReadbackMeaning(c: SourceConfig, route: ReadbackRoute)
    ensures AllowsReadback(c, route) <==>
            || (route == Realtime && c.readbackPolicy.realtime) || (route == Events && c.readbackPolicy.events)
            || (route == Properties && c.readbackPolicy.properties) || (route == Goals && c.readbackPolicy.goals)
  {
  }
}
