/** The browser tracker's properties: what may be sent, and how caller properties join the page's own. */
module TrackerProperties {
  import opened Wrappers
  import opened Lists

  const MAX_COUNT: nat := 64
  const MAX_KEY_LENGTH: nat := 128
  const MAX_STRING_LENGTH: nat := 2048

  /** Values as JavaScript hands them over; Other is anything the tracker does not send. */
  datatype Value = Null | Boolean(b: bool) | Text(s: string) | Finite(n: real) | NotFinite | Other | Undefined

  datatype Property = Property(key: string, value: Value)

  /** An object's own properties in enumeration order: each key once. */
  type Object = o: seq<Property> | KeysOnce(o)

  ghost predicate KeysOnce(o: seq<Property>) {
    DistinctBy(o, KeyOf)
  }

  function KeyOf(p: Property): string {
    p.key
  }

  predicate IsAlphanumeric(c: char) {
    'A' <= c <= 'Z' || 'a' <= c <= 'z' || '0' <= c <= '9'
  }

  predicate IsKeyChar(c: char) {
    IsAlphanumeric(c) || c == '_' || c == '.' || c == ':' || c == '-'
  }

  predicate SupportedKey(key: string) {
    0 < |key| <= MAX_KEY_LENGTH && IsAlphanumeric(key[0]) && forall i :: 0 <= i < |key| ==> IsKeyChar(key[i])
  }

  function SanitizePropertyValue(value: Value): (r: Value)
    ensures r.Undefined? <==> value.NotFinite? || value.Other? || value.Undefined?
    ensures value.Text? ==> r.Text? && r.s <= value.s && |r.s| == if |value.s| > 2048 then 2048 else |value.s|
    ensures value.Null? || value.Boolean? || value.Finite? ==> r == value
  {
    match value
    case Text(s) => if |s| > MAX_STRING_LENGTH then Text(s[..MAX_STRING_LENGTH]) else value
    case NotFinite => Undefined
    case Other => Undefined
    case _ => value
  }

  // ---- Sanitizing ----

  function CleanProperty(p: Property): Property {
    Property(p.key, SanitizePropertyValue(p.value))
  }

  predicate Sendable(p: Property) {
    SupportedKey(p.key) && !p.value.Undefined?
  }

  /** The first n items. */
  function Take<T>(s: seq<T>, n: nat): (t: seq<T>)
    ensures t <= s && |t| == if |s| <= n then |s| else n
  {
    if |s| <= n then s else s[..n]
  }

  function Sanitized(values: seq<Property>): seq<Property> {
    Take(Collect(values, CleanProperty, Sendable), MAX_COUNT)
  }

  /** None is JavaScript's undefined: given for anything that is not a plain object, and for an empty result. */
  method SanitizeProperties(values: Option<Object>) returns (r: Option<seq<Property>>)
    ensures r == if values.None? || Sanitized(values.value) == [] then None else Some(Sanitized(values.value))
  {
    if values.None? {
      return None;
    }
    var output: seq<Property> := [];
    for i := 0 to |values.value|
      invariant output == Sanitized(values.value[..i])
    {
      var p := values.value[i];
      assert values.value[..i + 1][..i] == values.value[..i];
      if |output| >= MAX_COUNT {
        continue;
      }
      if !SupportedKey(p.key) {
        continue;
      }
      var value := SanitizePropertyValue(p.value);
      if value.Undefined? {
        continue;
      }
      output := output + [Property(p.key, value)];
    }
    assert values.value[..|values.value|] == values.value;
    return if |output| > 0 then Some(output) else None;
  }

  /** What may leave the browser: few enough properties, legal keys given once, bounded values. */
  ghost predicate Bounded(ps: seq<Property>) {
    && |ps| <= 64
    && KeysOnce(ps)
    && forall i :: 0 <= i < |ps| ==> BoundedProperty(ps[i])
  }

  predicate BoundedProperty(p: Property) {
    && SupportedKey(p.key)
    && !p.value.Undefined? && !p.value.NotFinite? && !p.value.Other?
    && (p.value.Text? ==> |p.value.s| <= 2048)
  }

  /** A key has 1 to 128 characters, letters and digits, and after the first also underscores, dots, colons and dashes. */
  lemma KeyMeaning(key: string)
    ensures SupportedKey(key) <==>
            && 1 <= |key| <= 128 && key[0] !in "_.:-"
            && forall c <- key :: 'A' <= c <= 'Z' || 'a' <= c <= 'z' || '0' <= c <= '9' || c in "_.:-"
  {
    if 1 <= |key| && forall c <- key :: 'A' <= c <= 'Z' || 'a' <= c <= 'z' || '0' <= c <= '9' || c in "_.:-" {
      forall i | 0 <= i < |key|
        ensures IsKeyChar(key[i])
      {
        assert key[i] in key;
      }
    }
  }

  /** Up to the cap, exactly the properties with a legal key and a sendable value are kept, each with its own value. */
  lemma SanitizedMeaning(values: seq<Property>, p: Property)
    ensures p in Sanitized(values) ==> ComesFrom(values, p)
    ensures |Sanitized(values)| < 64 && ComesFrom(values, p) ==> p in Sanitized(values)
  {
    CollectElements(values, CleanProperty, Sendable, p);
    if ComesFrom(values, p) {
      var i :| 0 <= i < |values| && p == Property(values[i].key, SanitizePropertyValue(values[i].value));
      assert p == CleanProperty(values[i]) && Sendable(p);
    }
    if p in Sanitized(values) {
      assert p in Collect(values, CleanProperty, Sendable);
    }
  }

  ghost predicate ComesFrom(values: seq<Property>, p: Property) {
    && SupportedKey(p.key) && p.value != Undefined
    && exists i :: 0 <= i < |values| && p == Property(values[i].key, SanitizePropertyValue(values[i].value))
  }

  lemma {:induction false} CollectKeepsKeysOnce(values: seq<Property>)
    requires KeysOnce(values)
    ensures KeysOnce(Collect(values, CleanProperty, Sendable))
    ensures forall k :: HasKey(Collect(values, CleanProperty, Sendable), KeyOf, k) ==> HasKey(values, KeyOf, k)
  {
    if values != [] {
      var n := |values| - 1;
      var before := values[..n];
      CollectKeepsKeysOnce(before);
      assert values == before + [values[n]];
      PushedKey(before, values[n], KeyOf);
      PushedKey(Collect(before, CleanProperty, Sendable), CleanProperty(values[n]), KeyOf);
      LastKeyIsNew(values);
      KeysOncePushed(Collect(before, CleanProperty, Sendable), CleanProperty(values[n]));
    }
  }

  lemma LastKeyIsNew(values: seq<Property>)
    requires KeysOnce(values) && values != []
    ensures !HasKey(values[..|values| - 1], KeyOf, values[|values| - 1].key)
  {
    assert KeyOf(values[|values| - 1]) == values[|values| - 1].key;
  }

  lemma KeysOncePushed(ps: seq<Property>, p: Property)
    requires KeysOnce(ps) && !HasKey(ps, KeyOf, p.key)
    ensures KeysOnce(ps + [p])
  {
  }

  /** Sanitizing any object leaves something that may be sent; what may be sent is left alone, so sanitizing twice is sanitizing once. */
  lemma SanitizedIsBounded(values: seq<Property>)
    requires KeysOnce(values)
    ensures Bounded(Sanitized(values))
    ensures Sanitized(Sanitized(values)) == Sanitized(values)
    ensures Bounded(values) ==> Sanitized(values) == values
  {
    CollectKeepsKeysOnce(values);
    var all := Collect(values, CleanProperty, Sendable);
    forall i | 0 <= i < |all|
      ensures BoundedProperty(all[i])
    {
      CollectElements(values, CleanProperty, Sendable, all[i]);
    }
    BoundedStays(Sanitized(values));
    if Bounded(values) {
      BoundedStays(values);
    }
  }

  lemma BoundedStays(values: seq<Property>)
    requires Bounded(values)
    ensures Sanitized(values) == values
  {
    forall p | p in values
      ensures CleanProperty(p) == p && Sendable(p)
    {
      var i :| 0 <= i < |values| && values[i] == p;
      assert BoundedProperty(values[i]);
    }
    CollectFixed(values, CleanProperty, Sendable);
  }

  // ---- Merging ----

  function OrEmpty(values: Option<seq<Property>>): seq<Property> {
    if values.Some? then values.value else []
  }

  ghost function Merged(base: seq<Property>, extra: seq<Property>): seq<Property> {
    Take(FirstBy(base + extra, KeyOf), MAX_COUNT)
  }

  /** Offering one more property to the capped merge. */
  lemma OfferOneMore(offered: seq<Property>, p: Property)
    ensures
      var before := Take(FirstBy(offered, KeyOf), MAX_COUNT);
      && (|before| >= MAX_COUNT || HasKey(before, KeyOf, p.key) ==> Take(FirstBy(offered + [p], KeyOf), MAX_COUNT) == before)
      && (|before| < MAX_COUNT && !HasKey(before, KeyOf, p.key) ==> Take(FirstBy(offered + [p], KeyOf), MAX_COUNT) == before + [p])
  {
    PushedKey(offered, p, KeyOf);
    FirstByKeys(offered, KeyOf, p.key);
  }

  predicate HasOwn(o: seq<Property>, key: string) {
    exists i :: 0 <= i < |o| && o[i].key == key
  }

  lemma HasOwnIsHasKey(o: seq<Property>, key: string)
    ensures HasOwn(o, key) <==> HasKey(o, KeyOf, key)
  {
    if HasOwn(o, key) {
      var i :| 0 <= i < |o| && o[i].key == key;
      assert KeyOf(o[i]) == key;
    }
  }

  /** Copies properties whose key is not taken yet, up to the cap. */
  method CopyProperties(merged: seq<Property>, values: seq<Property>, ghost offered: seq<Property>) returns (more: seq<Property>)
    requires merged == Take(FirstBy(offered, KeyOf), MAX_COUNT)
    ensures more == Take(FirstBy(offered + values, KeyOf), MAX_COUNT)
  {
    more := merged;
    ghost var all := offered;
    for i := 0 to |values|
      invariant all == offered + values[..i]
      invariant more == Take(FirstBy(all, KeyOf), MAX_COUNT)
    {
      OfferOneMore(all, values[i]);
      HasOwnIsHasKey(more, values[i].key);
      all := all + [values[i]];
      if |more| >= MAX_COUNT || HasOwn(more, values[i].key) {
        continue;
      }
      more := more + [values[i]];
    }
    assert all == offered + values;
  }

  method MergeProperties(base: Option<seq<Property>>, extra: Option<seq<Property>>) returns (r: Option<seq<Property>>)
    ensures
      var merged := Merged(OrEmpty(base), OrEmpty(extra));
      r == if merged == [] then None else Some(merged)
  {
    var merged: seq<Property> := [];
    assert [] + OrEmpty(base) == OrEmpty(base);
    merged := CopyProperties(merged, OrEmpty(base), []);
    merged := CopyProperties(merged, OrEmpty(extra), OrEmpty(base));
    return if |merged| > 0 then Some(merged) else None;
  }

  /** The extra properties that no base property shadows, in order. */
  ghost function Unshadowed(base: seq<Property>, extra: seq<Property>): seq<Property> {
    if extra == [] then []
    else
      var n := |extra| - 1;
      Unshadowed(base, extra[..n]) + if HasKey(base, KeyOf, extra[n].key) then [] else [extra[n]]
  }

  /** The base shadows exactly the properties under its own keys. */
  lemma {:induction false} UnshadowedMeaning(base: seq<Property>, extra: seq<Property>, p: Property)
    ensures p in Unshadowed(base, extra) <==> p in extra && !HasOwn(base, p.key)
  {
    if extra != [] {
      var n := |extra| - 1;
      UnshadowedMeaning(base, extra[..n], p);
      assert extra == extra[..n] + [extra[n]];
      HasOwnIsHasKey(base, p.key);
    }
  }

  lemma {:induction false} FirstByUnion(base: seq<Property>, extra: seq<Property>)
    requires KeysOnce(base) && KeysOnce(extra)
    ensures FirstBy(base + extra, KeyOf) == base + Unshadowed(base, extra)
  {
    if extra == [] {
      assert base + extra == base;
      FirstByFixed(base, KeyOf);
      assert base + [] == base;
    } else {
      var before, p := extra[..|extra| - 1], extra[|extra| - 1];
      FirstByUnion(base, before);
      LastKeyIsNew(extra);
      assert base + extra == (base + before) + [p];
      HasKeyConcat(base, before, KeyOf, p.key);
      PushedKey(base + before, p, KeyOf);
      Regroup(base, Unshadowed(base, before), p);
    }
  }

  lemma Regroup(a: seq<Property>, b: seq<Property>, p: Property)
    ensures a + (b + [p]) == a + b + [p] && b + [] == b
  {
  }

  /**
   * Merging is the order-preserving union that prefers the base, cut at the cap: while the base is below the cap none of it
   * is lost or overridden, and what comes out may be sent when both sides may.
   */
  lemma MergeIsLeftBiasedUnion(base: seq<Property>, extra: seq<Property>)
    requires Bounded(base) && Bounded(extra)
    ensures Merged(base, extra) == Take(base + Unshadowed(base, extra), MAX_COUNT)
    ensures base <= Merged(base, extra)
    ensures Bounded(Merged(base, extra))
  {
    FirstByUnion(base, extra);
    FirstByDistinct(base + extra, KeyOf);
    var all := FirstBy(base + extra, KeyOf);
    forall i | 0 <= i < |all|
      ensures BoundedProperty(all[i])
    {
      assert all[i] in base + extra;
      var j :| 0 <= j < |base + extra| && (base + extra)[j] == all[i];
      if j < |base| {
        assert base[j] == all[i];
      } else {
        assert extra[j - |base|] == all[i];
      }
    }
  }

  // ---- The page's own properties ----

  type Key = k: string | SupportedKey(k) witness "a"

  const PAGE_TITLE: Key := "page.title"
  const PAGE_URL: Key := "page.url"
  const PAGE_PATH: Key := "page.path"
  const PAGE_HOSTNAME: Key := "page.hostname"
  const PAGE_REFERRER: Key := "page.referrer"
  const SCREEN: Key := "screen"
  const LANGUAGE: Key := "language"

  const UTM_SOURCE: Key := "utm.source"
  const UTM_MEDIUM: Key := "utm.medium"
  const UTM_CAMPAIGN: Key := "utm.campaign"
  const UTM_TERM: Key := "utm.term"
  const UTM_CONTENT: Key := "utm.content"
  const UTM_ID: Key := "utm.id"

  const CLICK_GCLID: Key := "click.gclid"
  const CLICK_DCLID: Key := "click.dclid"
  const CLICK_GBRAID: Key := "click.gbraid"
  const CLICK_WBRAID: Key := "click.wbraid"
  const CLICK_FBCLID: Key := "click.fbclid"
  const CLICK_MSCLKID: Key := "click.msclkid"
  const CLICK_TTCLID: Key := "click.ttclid"
  const CLICK_LI_FAT_ID: Key := "click.li_fat_id"

  datatype Mapping = Mapping(parameter: string, key: Key)

  const ATTRIBUTION: seq<Mapping> := [
    Mapping("utm_source", UTM_SOURCE), Mapping("utm_medium", UTM_MEDIUM), Mapping("utm_campaign", UTM_CAMPAIGN),
    Mapping("utm_term", UTM_TERM), Mapping("utm_content", UTM_CONTENT), Mapping("utm_id", UTM_ID)]

  const CLICK_IDS: seq<Mapping> := [
    Mapping("gclid", CLICK_GCLID), Mapping("dclid", CLICK_DCLID), Mapping("gbraid", CLICK_GBRAID), Mapping("wbraid", CLICK_WBRAID),
    Mapping("fbclid", CLICK_FBCLID), Mapping("msclkid", CLICK_MSCLKID), Mapping("ttclid", CLICK_TTCLID), Mapping("li_fat_id", CLICK_LI_FAT_ID)]

  /** What the page shows; query is None when the address does not parse as a URL. */
  datatype Page = Page(
    title: string, url: string, path: string, hostname: string, referrer: string, screen: string, language: string,
    query: Option<map<string, string>>)

  /** Sets a property: in place when the key is there, else at the end. */
  function Assign(o: seq<Property>, key: string, value: Value): seq<Property> {
    if o == [] then [Property(key, value)]
    else if o[0].key == key then [Property(key, value)] + o[1..]
    else [o[0]] + Assign(o[1..], key, value)
  }

  lemma {:induction false} AssignKeeps(o: seq<Property>, key: string, value: Value)
    requires KeysOnce(o)
    ensures KeysOnce(Assign(o, key, value))
    ensures |o| <= |Assign(o, key, value)| <= |o| + 1
    ensures forall p <- Assign(o, key, value) :: p in o || p == Property(key, value)
    ensures Property(key, value) in Assign(o, key, value)
    ensures forall p <- o :: p.key != key ==> p in Assign(o, key, value)
  {
    if o != [] {
      assert o == [o[0]] + o[1..];
      if o[0].key == key {
        var r := [Property(key, value)] + o[1..];
        assert forall i :: 0 < i < |o| ==> r[i] == o[i];
        assert forall i :: 0 <= i < |o| ==> KeyOf(r[i]) == KeyOf(o[i]);
      } else {
        AssignKeeps(o[1..], key, value);
        HeadStaysApart(o[0], o[1..], key, value);
      }
    }
  }

  lemma HeadStaysApart(head: Property, tail: seq<Property>, key: string, value: Value)
    requires KeysOnce([head] + tail) && head.key != key
    requires KeysOnce(Assign(tail, key, value))
    requires forall p <- Assign(tail, key, value) :: p in tail || p == Property(key, value)
    ensures KeysOnce([head] + Assign(tail, key, value))
  {
    var r := Assign(tail, key, value);
    forall i | 0 <= i < |r|
      ensures KeyOf(r[i]) != KeyOf(head)
    {
      assert r[i] in r;
      if r[i] in tail {
        var j :| 0 <= j < |tail| && tail[j] == r[i];
        var whole := [head] + tail;
        assert whole[j + 1] == r[i] && whole[0] == head;
        assert KeyOf(whole[0]) != KeyOf(whole[j + 1]);
      }
    }
  }

  /** The object under construction: strings under legal keys, each once. */
  ghost predicate Texts(o: seq<Property>) {
    KeysOnce(o) && forall p <- o :: SupportedKey(p.key) && p.value.Text?
  }

  /** The object with the mapped query parameters that have a value. */
  function WithQuery(values: seq<Property>, mapping: seq<Mapping>, query: map<string, string>): seq<Property> {
    if mapping == [] then values
    else
      var before, m := WithQuery(values, mapping[..|mapping| - 1], query), mapping[|mapping| - 1];
      if m.parameter in query && query[m.parameter] != "" then Assign(before, m.key, Text(query[m.parameter])) else before
  }

  method AddQueryProperties(values: seq<Property>, mapping: seq<Mapping>, page: Page) returns (more: seq<Property>)
    ensures more == if page.query.None? then values else WithQuery(values, mapping, page.query.value)
  {
    more := values;
    if page.query.None? {
      return;
    }
    for i := 0 to |mapping|
      invariant more == WithQuery(values, mapping[..i], page.query.value)
    {
      assert mapping[..i + 1][..i] == mapping[..i];
      var m := mapping[i];
      if m.parameter in page.query.value && page.query.value[m.parameter] != "" {
        more := Assign(more, m.key, Text(page.query.value[m.parameter]));
      }
    }
    assert mapping[..|mapping|] == mapping;
  }

  /** The object literal of page facts. */
  function PageObject(page: Page): seq<Property> {
    [Property(PAGE_TITLE, Text(page.title)), Property(PAGE_URL, Text(page.url)), Property(PAGE_PATH, Text(page.path)),
     Property(PAGE_HOSTNAME, Text(page.hostname)), Property(PAGE_REFERRER, Text(page.referrer)),
     Property(SCREEN, Text(page.screen)), Property(LANGUAGE, Text(page.language))]
  }

  function BaseObject(page: Page): seq<Property> {
    if page.query.None? then PageObject(page)
    else WithQuery(WithQuery(PageObject(page), ATTRIBUTION, page.query.value), CLICK_IDS, page.query.value)
  }

  method BaseProperties(page: Page) returns (r: Option<seq<Property>>)
    ensures r == if Sanitized(BaseObject(page)) == [] then None else Some(Sanitized(BaseObject(page)))
  {
    BaseIsTexts(page);
    var values := PageObject(page);
    values := AddQueryProperties(values, ATTRIBUTION, page);
    values := AddQueryProperties(values, CLICK_IDS, page);
    r := SanitizeProperties(Some(values));
  }

  lemma AssignKeepsTexts(o: seq<Property>, key: Key, s: string)
    requires Texts(o)
    ensures Texts(Assign(o, key, Text(s))) && |Assign(o, key, Text(s))| <= |o| + 1
  {
    AssignKeeps(o, key, Text(s));
  }

  lemma {:induction false} WithQueryKeepsTexts(values: seq<Property>, mapping: seq<Mapping>, query: map<string, string>)
    requires Texts(values)
    ensures Texts(WithQuery(values, mapping, query)) && |WithQuery(values, mapping, query)| <= |values| + |mapping|
  {
    if mapping != [] {
      var n := |mapping| - 1;
      WithQueryKeepsTexts(values, mapping[..n], query);
      if mapping[n].parameter in query {
        AssignKeepsTexts(WithQuery(values, mapping[..n], query), mapping[n].key, query[mapping[n].parameter]);
      }
    }
  }

  /** Page keys are apart, and none is the key of a query parameter. */
  lemma PageIsTexts(page: Page)
    ensures Texts(PageObject(page)) && |PageObject(page)| == 7
    ensures forall fact <- PageObject(page) :: fact.key[0] != 'u' && fact.key[0] != 'c'
  {
    assert |PAGE_TITLE| == 10 && |PAGE_URL| == 8 && |PAGE_PATH| == 9 && |PAGE_HOSTNAME| == 13 && |PAGE_REFERRER| == 13;
    assert |SCREEN| == 6 && |LANGUAGE| == 8 && PAGE_HOSTNAME[5] == 'h' && PAGE_REFERRER[5] == 'r' && PAGE_URL[0] == 'p' && LANGUAGE[0] == 'l';
  }

  lemma BaseIsTexts(page: Page)
    ensures Texts(BaseObject(page)) && |BaseObject(page)| <= 21
  {
    PageIsTexts(page);
    if page.query.Some? {
      WithQueryKeepsTexts(PageObject(page), ATTRIBUTION, page.query.value);
      WithQueryKeepsTexts(WithQuery(PageObject(page), ATTRIBUTION, page.query.value), CLICK_IDS, page.query.value);
    }
  }

  lemma {:induction false} TextsAreAllKept(o: seq<Property>)
    requires forall p <- o :: SupportedKey(p.key) && p.value.Text?
    ensures |Collect(o, CleanProperty, Sendable)| == |o|
    ensures forall i :: 0 <= i < |o| ==> Collect(o, CleanProperty, Sendable)[i] == CleanProperty(o[i])
  {
    if o != [] {
      assert o[|o| - 1] in o;
      TextsAreAllKept(o[..|o| - 1]);
    }
  }

  /** Sanitizing drops none of the page's own properties: at most 21, each at most shortened. */
  lemma BaseSurvivesSanitizing(page: Page)
    ensures
      var given, base := BaseObject(page), Sanitized(BaseObject(page));
      && |base| == |given| <= 21 && Bounded(base)
      && forall i :: 0 <= i < |base| ==> base[i] == CleanProperty(given[i])
  {
    BaseIsTexts(page);
    TextsAreAllKept(BaseObject(page));
    SanitizedIsBounded(BaseObject(page));
  }

  // ---- Every page fact is reported under its own key ----

  ghost predicate KeysApart(mapping: seq<Mapping>) {
    forall i, j :: 0 <= i < j < |mapping| ==> mapping[i].key != mapping[j].key
  }

  lemma AttributionKeysAreApart()
    ensures KeysApart(ATTRIBUTION) && forall m <- ATTRIBUTION :: m.key[0] == 'u'
  {
    assert |UTM_SOURCE| == 10 && |UTM_MEDIUM| == 10 && |UTM_CAMPAIGN| == 12 && |UTM_TERM| == 8 && |UTM_CONTENT| == 11 && |UTM_ID| == 6;
    assert UTM_SOURCE[4] == 's' && UTM_MEDIUM[4] == 'm';
  }

  lemma ClickKeysAreApart()
    ensures KeysApart(CLICK_IDS) && forall m <- CLICK_IDS :: m.key[0] == 'c'
  {
    assert CLICK_GCLID[6] == 'g' && CLICK_DCLID[6] == 'd' && CLICK_GBRAID[6] == 'g' && CLICK_WBRAID[6] == 'w';
    assert CLICK_FBCLID[6] == 'f' && CLICK_MSCLKID[6] == 'm' && CLICK_TTCLID[6] == 't' && CLICK_LI_FAT_ID[6] == 'l';
    assert |CLICK_GCLID| == 11 && |CLICK_GBRAID| == 12;
  }

  /** One more mapping: it sets its own property and keeps those under other keys. */
  lemma WithQueryStep(before: seq<Property>, m: Mapping, query: map<string, string>, p: Property)
    requires Texts(before)
    ensures
      var after := if m.parameter in query && query[m.parameter] != "" then Assign(before, m.key, Text(query[m.parameter])) else before;
      && (p in before && p.key != m.key ==> p in after)
      && (m.parameter in query && query[m.parameter] != "" && p == Property(m.key, Text(query[m.parameter])) ==> p in after)
  {
    if m.parameter in query {
      AssignKeeps(before, m.key, Text(query[m.parameter]));
    }
  }

  /** A property under a key no mapping sets stays. */
  lemma {:induction false} WithQueryKeepsOthers(values: seq<Property>, mapping: seq<Mapping>, query: map<string, string>, p: Property)
    requires Texts(values) && p in values && forall m <- mapping :: m.key != p.key
    ensures p in WithQuery(values, mapping, query)
  {
    if mapping != [] {
      var n := |mapping| - 1;
      WithQueryKeepsOthers(values, mapping[..n], query, p);
      WithQueryKeepsTexts(values, mapping[..n], query);
      assert mapping[n] in mapping;
      WithQueryStep(WithQuery(values, mapping[..n], query), mapping[n], query, p);
    }
  }

  /** A mapped parameter with a value is set. */
  lemma {:induction false} WithQueryHolds(values: seq<Property>, mapping: seq<Mapping>, query: map<string, string>, m: Mapping)
    requires Texts(values) && KeysApart(mapping) && m in mapping && m.parameter in query && query[m.parameter] != ""
    ensures Property(m.key, Text(query[m.parameter])) in WithQuery(values, mapping, query)
  {
    var n := |mapping| - 1;
    WithQueryKeepsTexts(values, mapping[..n], query);
    WithQueryStep(WithQuery(values, mapping[..n], query), mapping[n], query, Property(m.key, Text(query[m.parameter])));
    if m != mapping[n] {
      var i :| 0 <= i < n && mapping[i] == m;
      assert mapping[..n][i] == m;
      WithQueryHolds(values, mapping[..n], query, m);
    }
  }

  const UTM_NAMES: seq<string> := ["source", "medium", "campaign", "term", "content", "id"]
  const CLICK_NAMES: seq<string> := ["gclid", "dclid", "gbraid", "wbraid", "fbclid", "msclkid", "ttclid", "li_fat_id"]

  /** A campaign parameter becomes a key with a dot for the underscore. */
  lemma CampaignKeysAre(i: nat)
    requires i < |UTM_NAMES|
    ensures |ATTRIBUTION| == |UTM_NAMES|
    ensures ATTRIBUTION[i].parameter == "utm_" + UTM_NAMES[i] && ATTRIBUTION[i].key == "utm." + UTM_NAMES[i]
  {
  }

  /** A click id becomes a key behind the click prefix. */
  lemma ClickKeysAre(i: nat)
    requires i < |CLICK_NAMES|
    ensures |CLICK_IDS| == |CLICK_NAMES|
    ensures CLICK_IDS[i].parameter == CLICK_NAMES[i] && CLICK_IDS[i].key == "click." + CLICK_NAMES[i]
  {
  }

  /** The facts about the page, each under its own name. */
  lemma PageFactsAre(page: Page)
    ensures
      var ps := PageObject(page);
      && Property("page.title", Text(page.title)) in ps && Property("page.url", Text(page.url)) in ps
      && Property("page.path", Text(page.path)) in ps && Property("page.hostname", Text(page.hostname)) in ps
      && Property("page.referrer", Text(page.referrer)) in ps && Property("screen", Text(page.screen)) in ps
      && Property("language", Text(page.language)) in ps && |ps| == 7
  {
    var ps := PageObject(page);
    assert ps[0] in ps && ps[1] in ps && ps[2] in ps && ps[3] in ps && ps[4] in ps && ps[5] in ps && ps[6] in ps;
  }

  /** Every fact about the page, and every mapped query parameter with a value, is among the properties, under its own key. */
  lemma BaseHoldsEveryFact(page: Page)
    ensures forall fact <- PageObject(page) :: fact in BaseObject(page)
    ensures page.query.Some? ==>
              forall m <- ATTRIBUTION + CLICK_IDS :: m.parameter in page.query.value && page.query.value[m.parameter] != "" ==>
                Property(m.key, Text(page.query.value[m.parameter])) in BaseObject(page)
  {
    PageIsTexts(page);
    AttributionKeysAreApart();
    ClickKeysAreApart();
    if page.query.Some? {
      var query := page.query.value;
      var tagged := WithQuery(PageObject(page), ATTRIBUTION, query);
      WithQueryKeepsTexts(PageObject(page), ATTRIBUTION, query);
      forall fact | fact in PageObject(page)
        ensures fact in BaseObject(page)
      {
        WithQueryKeepsOthers(PageObject(page), ATTRIBUTION, query, fact);
        WithQueryKeepsOthers(tagged, CLICK_IDS, query, fact);
      }
      forall m | m in ATTRIBUTION && m.parameter in query && query[m.parameter] != ""
        ensures Property(m.key, Text(query[m.parameter])) in BaseObject(page)
      {
        WithQueryHolds(PageObject(page), ATTRIBUTION, query, m);
        WithQueryKeepsOthers(tagged, CLICK_IDS, query, Property(m.key, Text(query[m.parameter])));
      }
      forall m | m in CLICK_IDS && m.parameter in query && query[m.parameter] != ""
        ensures Property(m.key, Text(query[m.parameter])) in BaseObject(page)
      {
        WithQueryHolds(tagged, CLICK_IDS, query, m);
      }
    }
  }

  ghost predicate FromQuery(mapping: seq<Mapping>, query: map<string, string>, p: Property) {
    exists m :: m in mapping && m.parameter in query && query[m.parameter] != "" && p == Property(m.key, Text(query[m.parameter]))
  }

  lemma {:induction false} WithQueryAddsOnlyValues(values: seq<Property>, mapping: seq<Mapping>, query: map<string, string>, p: Property)
    requires Texts(values) && p in WithQuery(values, mapping, query)
    ensures p in values || FromQuery(mapping, query, p)
  {
    if mapping != [] {
      var n := |mapping| - 1;
      var before, m := WithQuery(values, mapping[..n], query), mapping[n];
      WithQueryKeepsTexts(values, mapping[..n], query);
      if m.parameter in query && query[m.parameter] != "" {
        AssignKeeps(before, m.key, Text(query[m.parameter]));
      }
      if p in before {
        WithQueryAddsOnlyValues(values, mapping[..n], query, p);
      }
    }
  }

  /** And nothing else is: a parameter that is missing or empty adds nothing. */
  lemma BaseHoldsOnlyFacts(page: Page, p: Property)
    requires p in BaseObject(page)
    ensures p in PageObject(page) || (page.query.Some? && FromQuery(ATTRIBUTION + CLICK_IDS, page.query.value, p))
  {
    PageIsTexts(page);
    if page.query.Some? {
      var query := page.query.value;
      WithQueryKeepsTexts(PageObject(page), ATTRIBUTION, query);
      WithQueryAddsOnlyValues(WithQuery(PageObject(page), ATTRIBUTION, query), CLICK_IDS, query, p);
      if p in WithQuery(PageObject(page), ATTRIBUTION, query) {
        WithQueryAddsOnlyValues(PageObject(page), ATTRIBUTION, query, p);
      }
    }
  }

  /** Each of those facts, at most shortened, is among the properties every event starts with. */
  lemma EveryFactIsSent(page: Page, fact: Property)
    requires fact in BaseObject(page)
    ensures CleanProperty(fact) in Sanitized(BaseObject(page))
  {
    BaseSurvivesSanitizing(page);
    var given := BaseObject(page);
    var i :| 0 <= i < |given| && given[i] == fact;
    assert Sanitized(given)[i] == CleanProperty(fact);
  }

  /** What a caller's properties come to on their own. */
  function CallerProperties(properties: Option<Object>): seq<Property> {
    if properties.Some? then Sanitized(properties.value) else []
  }

  /** The properties of an event: the page's own, then the caller's that they do not shadow, up to the cap. */
  ghost function SentProperties(page: Page, properties: Option<Object>): seq<Property> {
    var base := Sanitized(BaseObject(page));
    Take(base + Unshadowed(base, CallerProperties(properties)), MAX_COUNT)
  }

  lemma SentAreBounded(page: Page, properties: Option<Object>)
    ensures Bounded(SentProperties(page, properties)) && Bounded(CallerProperties(properties))
    ensures Sanitized(BaseObject(page)) <= SentProperties(page, properties)
  {
    BaseSurvivesSanitizing(page);
    if properties.Some? {
      SanitizedIsBounded(properties.value);
    }
    MergeIsLeftBiasedUnion(Sanitized(BaseObject(page)), CallerProperties(properties));
  }

  /** Below the cap an event has exactly the page's own properties and the caller's sendable ones under other keys. */
  lemma SentMeaning(page: Page, properties: Option<Object>, p: Property)
    requires |SentProperties(page, properties)| < 64 && |CallerProperties(properties)| < 64
    ensures p in SentProperties(page, properties) <==>
            || p in Sanitized(BaseObject(page))
            || (properties.Some? && ComesFrom(properties.value, p) && !HasOwn(Sanitized(BaseObject(page)), p.key))
    ensures p in CallerProperties(properties) <==> properties.Some? && ComesFrom(properties.value, p)
  {
    UnshadowedMeaning(Sanitized(BaseObject(page)), CallerProperties(properties), p);
    if properties.Some? {
      SanitizedMeaning(properties.value, p);
    }
  }

  /** The properties of an event: the page's own first, all of them and as they are, then the caller's that they do not shadow. */
  method EventProperties(page: Page, properties: Option<Object>) returns (r: Option<seq<Property>>)
    ensures OrEmpty(r) == SentProperties(page, properties)
    ensures Sanitized(BaseObject(page)) <= OrEmpty(r) && Bounded(OrEmpty(r))
  {
    var own := BaseProperties(page);
    var clean := SanitizeProperties(properties);
    SentAreBounded(page, properties);
    BaseSurvivesSanitizing(page);
    MergeIsLeftBiasedUnion(OrEmpty(own), OrEmpty(clean));
    r := MergeProperties(own, clean);
  }
}
