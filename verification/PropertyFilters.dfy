/** Property filters of an events query: parsing against the source's allowlist, and the selector lists handed to storage. */
module PropertyFilters {
  import opened Wrappers
  import opened Text
  import opened Lists
  import opened SourceConfigs
  import opened Resolvers

  const FILTER_CAP: nat := 5

  datatype Json = JNull | JBool(b: bool) | JNumber(n: real) | JString(s: string) | JNested

  /** One property_filter parameter; NotJSON when it does not decode. */
  datatype Payload = NotJSON | Payload(scope: string, name: string, valueType: string, operator: string, value: Json)

  datatype EventPropertyFilter = EventPropertyFilter(
    scope: string, name: string, valueType: string, operator: string, stringValue: string, numberValue: real, boolValue: bool)

  datatype Reason = MustBeJSON | FieldsRequired | UnsupportedOperator | NotAllowlisted | WrongValueKind | UnsupportedType

  datatype FilterError = TooMany(count: nat) | BadFilter(index: nat, reason: Reason)

  // ---- Parsing ----

  method AssignPropertyFilterValue(filter: EventPropertyFilter, value: Json) returns (r: Result<EventPropertyFilter, Reason>)
    ensures r == Assigned(filter, value)
  {
    if filter.valueType == "null" {
      return Ok(filter);
    } else if filter.valueType == "string" {
      if !value.JString? {
        return Err(WrongValueKind);
      }
      return Ok(filter.(stringValue := value.s));
    } else if filter.valueType == "number" {
      if !value.JNumber? {
        return Err(WrongValueKind);
      }
      return Ok(filter.(numberValue := value.n));
    } else if filter.valueType == "bool" {
      if !value.JBool? {
        return Err(WrongValueKind);
      }
      return Ok(filter.(boolValue := value.b));
    }
    return Err(UnsupportedType);
  }

  function Assigned(filter: EventPropertyFilter, value: Json): Result<EventPropertyFilter, Reason> {
    if !LegalType(filter.valueType) then Err(UnsupportedType)
    else if !FitsType(filter.valueType, value) then Err(WrongValueKind)
    else if value.JString? && filter.valueType == "string" then Ok(filter.(stringValue := value.s))
    else if value.JNumber? && filter.valueType == "number" then Ok(filter.(numberValue := value.n))
    else if value.JBool? && filter.valueType == "bool" then Ok(filter.(boolValue := value.b))
    else Ok(filter)
  }

  predicate FitsType(valueType: string, value: Json) {
    && (valueType == "string" ==> value.JString?)
    && (valueType == "number" ==> value.JNumber?)
    && (valueType == "bool" ==> value.JBool?)
  }

  function Operator(raw: string): string {
    if Canonical(raw) == "" then "eq" else Canonical(raw)
  }

  /** The verdict on one parameter, for a source with the given allowlist. */
  ghost function Parsed(p: Payload, allowed: seq<PropertyFilter>): Result<EventPropertyFilter, Reason> {
    if p.NotJSON? then Err(MustBeJSON)
    else
      var scope, name, valueType, operator := Canonical(p.scope), Trim(p.name), Canonical(p.valueType), Operator(p.operator);
      if scope == "" || name == "" || valueType == "" then Err(FieldsRequired)
      else if operator != "eq" && operator != "neq" then Err(UnsupportedOperator)
      else if !Allows(allowed, scope, name, valueType) then Err(NotAllowlisted)
      else Assigned(EventPropertyFilter(scope, name, valueType, operator, "", 0.0, false), p.value)
  }

  method ParsePropertyFilter(p: Payload, source: SourceConfig) returns (r: Result<EventPropertyFilter, Reason>)
    ensures r == Parsed(p, source.allowedPropertyFilters)
  {
    if p.NotJSON? {
      return Err(MustBeJSON);
    }
    var scope := Lower(Trim(p.scope));
    var name := Trim(p.name);
    var valueType := Lower(Trim(p.valueType));
    var operator := Lower(Trim(p.operator));
    if operator == "" {
      operator := "eq";
    }
    if scope == "" || name == "" || valueType == "" {
      return Err(FieldsRequired);
    }
    if operator != "eq" && operator != "neq" {
      return Err(UnsupportedOperator);
    }
    var allowed := AllowsPropertyFilter(source, scope, name, valueType);
    if !allowed {
      return Err(NotAllowlisted);
    }
    r := AssignPropertyFilterValue(EventPropertyFilter(scope, name, valueType, operator, "", 0.0, false), p.value);
  }

  /** Which parameters are accepted, and what each of the others is told. */
  lemma ParsedMeaning(p: Payload, allowed: seq<PropertyFilter>)
    requires p.Payload?
    ensures
      var r := Parsed(p, allowed);
      var scope, name, valueType, operator := Canonical(p.scope), Trim(p.name), Canonical(p.valueType), Canonical(p.operator);
      var fields := scope != "" && name != "" && valueType != "";
      var known := operator in ["", "eq", "neq"];
      && (r == Err(FieldsRequired) <==> !fields)
      && (r == Err(UnsupportedOperator) <==> fields && !known)
      && (r == Err(NotAllowlisted) <==> fields && known && !Allows(allowed, scope, name, valueType))
      && (r.Ok? <==> fields && known && Allows(allowed, scope, name, valueType) && TypeTakes(valueType, p.value))
      && (r == Err(UnsupportedType) || r == Err(WrongValueKind) <==>
            fields && known && Allows(allowed, scope, name, valueType) && !TypeTakes(valueType, p.value))
      && (r == Err(UnsupportedType) ==> valueType !in ["null", "string", "number", "bool"])
      && (r == Err(WrongValueKind) ==> valueType in ["string", "number", "bool"])
  {
    var f := EventPropertyFilter(Canonical(p.scope), Trim(p.name), Canonical(p.valueType), Operator(p.operator), "", 0.0, false);
    KnownOperator(p.operator);
    AssignedMeaning(f, p.value);
  }

  lemma KnownOperator(raw: string)
    ensures Operator(raw) == "eq" || Operator(raw) == "neq" <==> Canonical(raw) in ["", "eq", "neq"]
  {
  }

  /** The type takes the value: null any, the others their own kind. */
  predicate TypeTakes(valueType: string, value: Json) {
    || valueType == "null" || (valueType == "string" && value.JString?) || (valueType == "number" && value.JNumber?)
    || (valueType == "bool" && value.JBool?)
  }

  lemma AssignedMeaning(f: EventPropertyFilter, value: Json)
    ensures Assigned(f, value).Ok? <==> TypeTakes(f.valueType, value)
    ensures Assigned(f, value).Err? ==>
              Assigned(f, value) == Err(if f.valueType in ["null", "string", "number", "bool"] then WrongValueKind else UnsupportedType)
  {
  }

  /** The filters are what the first parameters parse to. */
  ghost predicate ParsedSoFar(raw: seq<Payload>, allowed: seq<PropertyFilter>, filters: seq<EventPropertyFilter>) {
    |filters| <= |raw| && forall i :: 0 <= i < |filters| ==> Parsed(raw[i], allowed) == Ok(filters[i])
  }

  /** Parameter i is the first bad one. */
  ghost predicate FirstBad(raw: seq<Payload>, allowed: seq<PropertyFilter>, i: nat, reason: Reason) {
    && i < |raw| && Parsed(raw[i], allowed) == Err(reason)
    && forall j :: 0 <= j < i ==> Parsed(raw[j], allowed).Ok?
  }

  lemma FirstBadAfter(raw: seq<Payload>, allowed: seq<PropertyFilter>, filters: seq<EventPropertyFilter>, reason: Reason)
    requires ParsedSoFar(raw, allowed, filters) && |filters| < |raw| && Parsed(raw[|filters|], allowed) == Err(reason)
    ensures FirstBad(raw, allowed, |filters|, reason)
  {
  }

  lemma ParsedOneMore(raw: seq<Payload>, allowed: seq<PropertyFilter>, filters: seq<EventPropertyFilter>, filter: EventPropertyFilter)
    requires ParsedSoFar(raw, allowed, filters) && |filters| < |raw| && Parsed(raw[|filters|], allowed) == Ok(filter)
    ensures ParsedSoFar(raw, allowed, filters + [filter])
  {
    var more := filters + [filter];
    forall i | 0 <= i < |more|
      ensures Parsed(raw[i], allowed) == Ok(more[i])
    {
      assert i < |filters| ==> more[i] == filters[i];
    }
  }

  /** All parameters in order, or the first bad one. */
  method ParsePropertyFilters(raw: seq<Payload>, source: SourceConfig) returns (r: Result<seq<EventPropertyFilter>, FilterError>)
    ensures r.Ok? ==> |r.value| == |raw| <= 5 && ParsedSoFar(raw, source.allowedPropertyFilters, r.value)
    ensures r.Err? && r.error.TooMany? ==> |raw| > 5 && r.error.count == |raw|
    ensures r.Err? && r.error.BadFilter? ==>
              |raw| <= 5 && FirstBad(raw, source.allowedPropertyFilters, r.error.index, r.error.reason)
  {
    if |raw| == 0 {
      return Ok([]);
    }
    if |raw| > FILTER_CAP {
      return Err(TooMany(|raw|));
    }
    ghost var allowed := source.allowedPropertyFilters;
    var filters := [];
    for i := 0 to |raw|
      invariant |filters| == i && ParsedSoFar(raw, allowed, filters)
    {
      var filter := ParsePropertyFilter(raw[i], source);
      if filter.Err? {
        FirstBadAfter(raw, allowed, filters, filter.error);
        return Err(BadFilter(i, filter.error));
      }
      ParsedOneMore(raw, allowed, filters, filter.value);
      filters := filters + [filter.value];
    }
    return Ok(filters);
  }

  /** Only the slot of the filter's own type carries a value. */
  predicate OwnSlotOnly(f: EventPropertyFilter) {
    && (f.valueType != "string" ==> f.stringValue == "")
    && (f.valueType != "number" ==> f.numberValue == 0.0)
    && (f.valueType != "bool" ==> !f.boolValue)
  }

  /** The typed slot holds the payload's value. */
  predicate CarriesValue(f: EventPropertyFilter, value: Json) {
    && (f.valueType == "string" ==> value == JString(f.stringValue))
    && (f.valueType == "number" ==> value == JNumber(f.numberValue))
    && (f.valueType == "bool" ==> value == JBool(f.boolValue))
  }

  lemma AssignedIsSound(filter: EventPropertyFilter, value: Json)
    requires filter.stringValue == "" && filter.numberValue == 0.0 && !filter.boolValue
    requires Assigned(filter, value).Ok?
    ensures
      var f := Assigned(filter, value).value;
      && LegalType(f.valueType) && OwnSlotOnly(f) && CarriesValue(f, value)
      && f == filter.(stringValue := f.stringValue, numberValue := f.numberValue, boolValue := f.boolValue)
  {
  }

  /** Some listed filter covers the parsed filter as it stands. */
  ghost predicate Covered(allowed: seq<PropertyFilter>, f: EventPropertyFilter) {
    exists a :: a in allowed && FilterCovers(a, f.scope, f.name, f.valueType)
  }

  lemma CleanRequestIsCovered(allowed: seq<PropertyFilter>, rawScope: string, rawName: string, rawType: string, f: EventPropertyFilter)
    requires f.scope == Canonical(rawScope) && f.name == Trim(rawName) && f.valueType == Canonical(rawType)
    requires Allows(allowed, f.scope, f.name, f.valueType)
    ensures Covered(allowed, f)
  {
    CanonicalIsIdempotent(rawScope);
    TrimIsIdempotent(rawName);
    CanonicalIsIdempotent(rawType);
  }

  /** An accepted filter is clean, typed, carries the payload's value in its own slot only, and is covered by the allowlist. */
  lemma AcceptedFilterIsSound(p: Payload, allowed: seq<PropertyFilter>)
    requires Parsed(p, allowed).Ok?
    ensures
      var f := Parsed(p, allowed).value;
      && f.scope == Canonical(p.scope) && f.name == Trim(p.name) && f.valueType == Canonical(p.valueType)
      && f.scope != "" && f.name != "" && f.operator in ["eq", "neq"]
      && f.operator == (if Canonical(p.operator) == "" then "eq" else Canonical(p.operator))
      && LegalType(f.valueType) && OwnSlotOnly(f) && CarriesValue(f, p.value)
      && Covered(allowed, f)
  {
    var blank := EventPropertyFilter(Canonical(p.scope), Trim(p.name), Canonical(p.valueType), Operator(p.operator), "", 0.0, false);
    AssignedIsSound(blank, p.value);
    CleanRequestIsCovered(allowed, p.scope, p.name, p.valueType, blank);
    var f := Parsed(p, allowed).value;
    assert Parsed(p, allowed) == Assigned(blank, p.value);
    assert f.operator == blank.operator;
    assert f.scope == blank.scope && f.name == blank.name && f.valueType == blank.valueType;
    assert Covered(allowed, f);
  }

  // ---- Selectors ----

  datatype Selector = Selector(scope: string, name: string)

  function CleanSelector(s: Selector): Selector {
    Selector(Canonical(s.scope), Trim(s.name))
  }

  predicate NamesProperty(s: Selector) {
    s.scope != "" && s.name != ""
  }

  function SelectorOf(f: PropertyFilter): Selector {
    Selector(f.scope, f.name)
  }

  function Itself(s: Selector): Selector {
    s
  }

  function RawSelectors(filters: seq<PropertyFilter>): (r: seq<Selector>)
    ensures |r| == |filters|
  {
    seq(|filters|, i requires 0 <= i < |filters| => SelectorOf(filters[i]))
  }

  /** The selector list sent with a query. */
  ghost function QuerySelectors(filters: seq<PropertyFilter>): seq<Selector> {
    FirstBy(Collect(RawSelectors(filters), CleanSelector, NamesProperty), Itself)
  }

  lemma KeysAreElements(s: seq<Selector>)
    ensures forall k :: HasKey(s, Itself, k) <==> k in s
  {
    forall k | k in s
      ensures HasKey(s, Itself, k)
    {
      var i :| 0 <= i < |s| && s[i] == k;
      assert Itself(s[i]) == k;
    }
  }

  lemma FirstByPushed(s: seq<Selector>, x: Selector)
    ensures FirstBy(s + [x], Itself) == if x in s then FirstBy(s, Itself) else FirstBy(s, Itself) + [x]
  {
    assert (s + [x])[..|s|] == s;
    KeysAreElements(s);
  }

  lemma SelectorsStep(filters: seq<PropertyFilter>, i: nat)
    requires i < |filters|
    ensures
      var before, x := Collect(RawSelectors(filters[..i]), CleanSelector, NamesProperty), CleanSelector(SelectorOf(filters[i]));
      Collect(RawSelectors(filters[..i + 1]), CleanSelector, NamesProperty) == if NamesProperty(x) then before + [x] else before
  {
    assert RawSelectors(filters[..i + 1])[..i] == RawSelectors(filters[..i]);
  }

  method ToPropertySelectors(filters: seq<PropertyFilter>) returns (selectors: seq<Selector>)
    ensures selectors == QuerySelectors(filters)
  {
    selectors := [];
    var seen: set<Selector> := {};
    for i := 0 to |filters|
      invariant selectors == QuerySelectors(filters[..i])
      invariant forall x :: x in seen <==> x in Collect(RawSelectors(filters[..i]), CleanSelector, NamesProperty)
    {
      var selector := Selector(Lower(Trim(filters[i].scope)), Trim(filters[i].name));
      SelectorsStep(filters, i);
      FirstByPushed(Collect(RawSelectors(filters[..i]), CleanSelector, NamesProperty), selector);
      if selector.scope == "" || selector.name == "" {
        continue;
      }
      if selector in seen {
        continue;
      }
      seen := seen + {selector};
      selectors := selectors + [selector];
    }
    assert filters[..|filters|] == filters;
  }

  /** The raw selectors of the enabled sources, in order. */
  ghost function EnabledSelectors(cs: seq<SourceConfig>): seq<Selector> {
    if cs == [] then []
    else
      var last := cs[|cs| - 1];
      EnabledSelectors(cs[..|cs| - 1]) + if last.enabled then RawSelectors(last.allowedPropertyFilters) else []
  }

  /** The selector list the query builder is built with at startup. */
  ghost function StartupSelectors(cs: seq<SourceConfig>): seq<Selector> {
    FirstBy(EnabledSelectors(cs), Itself)
  }

  /** Appends the filters' selectors to a list of first occurrences. */
  method AppendSelectors(filters: seq<PropertyFilter>, selectors: seq<Selector>, seen: set<Selector>, ghost all: seq<Selector>)
    returns (more: seq<Selector>, moreSeen: set<Selector>)
    requires Keeps(selectors, seen, all)
    ensures Keeps(more, moreSeen, all + RawSelectors(filters))
  {
    ghost var raw := RawSelectors(filters);
    more, moreSeen := selectors, seen;
    assert all + raw[..0] == all;
    for i := 0 to |filters|
      invariant more == FirstBy(all + raw[..i], Itself)
      invariant forall x :: x in moreSeen <==> x in all + raw[..i]
    {
      var selector := Selector(filters[i].scope, filters[i].name);
      assert all + raw[..i + 1] == (all + raw[..i]) + [selector];
      FirstByPushed(all + raw[..i], selector);
      if selector in moreSeen {
        continue;
      }
      moreSeen := moreSeen + {selector};
      more := more + [selector];
    }
    assert raw[..|filters|] == raw;
  }

  /** The list kept and the selectors seen, after the given ones were offered. */
  ghost predicate Keeps(selectors: seq<Selector>, seen: set<Selector>, all: seq<Selector>) {
    selectors == FirstBy(all, Itself) && forall x :: x in seen <==> x in all
  }

  method AllowedPropertySelectors(configured: seq<SourceConfig>) returns (selectors: seq<Selector>)
    ensures selectors == StartupSelectors(NormalizedAll(configured))
  {
    ghost var cs := NormalizedAll(configured);
    ghost var all: seq<Selector> := [];
    selectors := [];
    var seen: set<Selector> := {};
    for i := 0 to |configured|
      invariant |cs| == |configured| && cs == NormalizedAll(configured)
      invariant all == EnabledSelectors(cs[..i]) && Keeps(selectors, seen, all)
    {
      var source := NormalizeSource(configured[i]);
      EnabledStep(cs, i, source, all);
      if !source.enabled {
        continue;
      }
      selectors, seen := AppendSelectors(source.allowedPropertyFilters, selectors, seen, all);
      all := all + RawSelectors(source.allowedPropertyFilters);
    }
    assert cs[..|configured|] == cs;
  }

  lemma EnabledStep(cs: seq<SourceConfig>, i: nat, source: SourceConfig, all: seq<Selector>)
    requires i < |cs| && source == cs[i] && all == EnabledSelectors(cs[..i])
    ensures EnabledSelectors(cs[..i + 1]) == if source.enabled then all + RawSelectors(source.allowedPropertyFilters) else all
  {
    assert cs[..i + 1][..i] == cs[..i];
  }

  lemma {:induction false} EnabledHasSelector(cs: seq<SourceConfig>, c: SourceConfig, f: PropertyFilter)
    requires c in cs && c.enabled && f in c.allowedPropertyFilters
    ensures SelectorOf(f) in EnabledSelectors(cs)
  {
    var n := |cs| - 1;
    if c == cs[n] {
      var i :| 0 <= i < |c.allowedPropertyFilters| && c.allowedPropertyFilters[i] == f;
      assert RawSelectors(c.allowedPropertyFilters)[i] == SelectorOf(f);
    } else {
      assert cs == cs[..n] + [cs[n]];
      EnabledHasSelector(cs[..n], c, f);
    }
  }

  lemma FirstByElements(s: seq<Selector>)
    ensures DistinctBy(FirstBy(s, Itself), Itself)
    ensures forall x :: x in FirstBy(s, Itself) <==> x in s
  {
    FirstByDistinct(s, Itself);
    FirstByLosesNothing(s, Itself);
  }

  // ---- The two gates agree ----

  /** A clean allowlist keeps its selectors: the query list has exactly the listed scope and name pairs, each once. */
  lemma QuerySelectorsExact(filters: seq<PropertyFilter>)
    requires forall f <- filters :: NormalizedFilter(f) == f && Selects(f)
    ensures DistinctBy(QuerySelectors(filters), Itself)
    ensures forall s :: s in QuerySelectors(filters) <==> exists f :: f in filters && Selector(f.scope, f.name) == s
  {
    var raw := RawSelectors(filters);
    forall s | s in raw
      ensures CleanSelector(s) == s && NamesProperty(s)
    {
      var i :| 0 <= i < |raw| && raw[i] == s;
      assert filters[i] in filters;
    }
    CollectFixed(raw, CleanSelector, NamesProperty);
    FirstByElements(raw);
    forall f | f in filters
      ensures SelectorOf(f) in raw
    {
      var i :| 0 <= i < |filters| && filters[i] == f;
      assert raw[i] == SelectorOf(f);
    }
  }

  ghost predicate ListedBy(c: SourceConfig, s: Selector) {
    c.enabled && exists f :: f in c.allowedPropertyFilters && Selector(f.scope, f.name) == s
  }

  lemma RawHasListed(filters: seq<PropertyFilter>, s: Selector)
    ensures s in RawSelectors(filters) <==> exists f :: f in filters && Selector(f.scope, f.name) == s
  {
    if s in RawSelectors(filters) {
      var i :| 0 <= i < |filters| && RawSelectors(filters)[i] == s;
      assert filters[i] in filters;
    }
    if f :| f in filters && Selector(f.scope, f.name) == s {
      var i :| 0 <= i < |filters| && filters[i] == f;
      assert RawSelectors(filters)[i] == s;
    }
  }

  lemma {:induction false} EnabledHasListed(cs: seq<SourceConfig>, s: Selector)
    ensures s in EnabledSelectors(cs) <==> exists c :: c in cs && ListedBy(c, s)
  {
    if cs != [] {
      var n := |cs| - 1;
      EnabledHasListed(cs[..n], s);
      RawHasListed(cs[n].allowedPropertyFilters, s);
      assert cs == cs[..n] + [cs[n]];
      if c :| c in cs && ListedBy(c, s) {
        assert c in cs[..n] || c == cs[n];
      }
      if c :| c in cs[..n] && ListedBy(c, s) {
        assert c in cs;
      }
      assert ListedBy(cs[n], s) <==> cs[n].enabled && s in RawSelectors(cs[n].allowedPropertyFilters);
    }
  }

  /** The startup list has exactly the scope and name pairs that some enabled source lists, each once. */
  lemma StartupSelectorsExact(cs: seq<SourceConfig>, s: Selector)
    ensures s in StartupSelectors(cs) <==> exists c :: c in cs && ListedBy(c, s)
    ensures DistinctBy(StartupSelectors(cs), Itself)
  {
    FirstByElements(EnabledSelectors(cs));
    EnabledHasListed(cs, s);
  }

  lemma CleanAllowlist(c: SourceConfig)
    requires Normalized(c)
    ensures forall f <- c.allowedPropertyFilters :: NormalizedFilter(f) == f && Selects(f)
  {
    NormalizedFiltersShape(c.allowedPropertyFilters);
    assert Normalize(c).allowedPropertyFilters == c.allowedPropertyFilters;
  }

  /** Every filter the HTTP gate accepts for a normalized source passes storage's gate, whose list has no repeats. */
  lemma AcceptedFilterPassesStorage(p: Payload, source: SourceConfig)
    requires Normalized(source) && Parsed(p, source.allowedPropertyFilters).Ok?
    ensures
      var f := Parsed(p, source.allowedPropertyFilters).value;
      Selector(f.scope, f.name) in QuerySelectors(source.allowedPropertyFilters)
    ensures DistinctBy(QuerySelectors(source.allowedPropertyFilters), Itself)
  {
    AcceptedFilterIsSound(p, source.allowedPropertyFilters);
    CleanAllowlist(source);
    QuerySelectorsExact(source.allowedPropertyFilters);
  }

  /** With sources from memory, it also passes the gate built once at startup. */
  lemma AcceptedFilterPassesStartup(p: Payload, configured: seq<SourceConfig>, memory: MemoryResolver, rawKey: string)
    requires Sound(NormalizedAll(configured)) && memory.Indexes(NormalizedAll(configured))
    requires memory.ResolveSource(rawKey).Ok?
    requires Parsed(p, memory.ResolveSource(rawKey).value.allowedPropertyFilters).Ok?
    ensures
      var f := Parsed(p, memory.ResolveSource(rawKey).value.allowedPropertyFilters).value;
      Selector(f.scope, f.name) in StartupSelectors(NormalizedAll(configured))
    ensures DistinctBy(StartupSelectors(NormalizedAll(configured)), Itself)
  {
    var source := memory.ResolveSource(rawKey).value;
    var f := Parsed(p, source.allowedPropertyFilters).value;
    MemoryIsTrusted(memory, configured, rawKey);
    AcceptedFilterIsSound(p, source.allowedPropertyFilters);
    var a :| a in source.allowedPropertyFilters && FilterCovers(a, f.scope, f.name, f.valueType);
    EnabledHasSelector(NormalizedAll(configured), source, a);
    FirstByElements(EnabledSelectors(NormalizedAll(configured)));
  }

  /** And back: storage's gate lets a selector through exactly when the HTTP gate allows it some legal type. */
  lemma GatesAgree(source: SourceConfig, s: Selector)
    requires Normalized(source) && Valid(source)
    requires CleanSelector(s) == s && NamesProperty(s)
    ensures s in QuerySelectors(source.allowedPropertyFilters) <==>
            exists t :: LegalType(t) && Allows(source.allowedPropertyFilters, s.scope, s.name, t)
  {
    CleanAllowlist(source);
    QuerySelectorsExact(source.allowedPropertyFilters);
    if s in QuerySelectors(source.allowedPropertyFilters) {
      var f :| f in source.allowedPropertyFilters && SelectorOf(f) == s;
      var t := SomeType(source, f);
      ListedIsAllowed(source.allowedPropertyFilters, f, t);
    }
  }

  lemma ListedIsAllowed(allowed: seq<PropertyFilter>, f: PropertyFilter, t: string)
    requires f in allowed && FilterCovers(f, f.scope, f.name, t)
    requires Canonical(f.scope) == f.scope != "" && Trim(f.name) == f.name != "" && Canonical(t) == t != ""
    ensures Allows(allowed, f.scope, f.name, t)
  {
  }

  lemma SomeType(source: SourceConfig, f: PropertyFilter) returns (t: string)
    requires Valid(source) && f in source.allowedPropertyFilters
    ensures LegalType(t) && Canonical(t) == t && FilterCovers(f, f.scope, f.name, t)
  {
    ValidHasLegalFilters(source);
    t := "null";
    if f.valueTypes != [] {
      t := f.valueTypes[0];
      assert t in f.valueTypes;
    }
    LegalTypeIsClean(t);
  }

  lemma ValidHasLegalFilters(source: SourceConfig)
    requires Valid(source)
    ensures forall f <- source.allowedPropertyFilters :: LegalFilter(f)
  {
  }

  lemma LegalTypeIsClean(t: string)
    requires LegalType(t)
    ensures Canonical(t) == t
  {
    assert Trimmed(t) && LowerCase(t);
    CleanTextStays(t);
  }
}
