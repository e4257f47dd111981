/** What the environment's settings say about each credential, and what that makes of a token presented later. */
module CredentialSettings {
  import opened Wrappers
  import opened Text
  import T = Text
  import opened Lists
  import opened SourceConfigs
  import opened Credentials

  /** The settings of one credential; scopes and write keys are lists of parts, as written. */
  datatype Settings = Settings(id: string, token: string, notBefore: TimeText, expiresAt: TimeText, scopes: seq<string>, writeKeys: seq<string>)

  /** Some part of the list names the route. */
  ghost predicate Names(parts: seq<string>, route: ReadbackRoute) {
    exists part :: part in parts && Canonical(part) == RouteName(route)
  }

  ghost predicate ListsKey(parts: seq<string>, key: string) {
    key != "" && exists part :: part in parts && Trim(part) == key
  }

  lemma RouteNamesAre(route: ReadbackRoute)
    ensures RouteName(route) == "realtime" <==> route == Realtime
    ensures RouteName(route) == "events" <==> route == Events
    ensures RouteName(route) == "properties" <==> route == Properties
    ensures RouteName(route) == "goals" <==> route == Goals
    ensures RouteName(route) == "kafka_diagnostics" <==> route == KafkaDiagnostics
    ensures RouteName(route) == "kafka_metrics" <==> route == KafkaMetrics
  {
    assert RouteName(KafkaDiagnostics) == "kafka_diagnostics" && RouteName(KafkaMetrics) == "kafka_metrics";
  }

  /** A time setting read as a bound: none, or the instant written. */
  ghost predicate Bounds(t: TimeText, bound: int) {
    (t == Blank && bound == 0) || t == At(bound)
  }

  ghost predicate ReadsScopes(scopes: seq<ReadbackRoute>, parts: seq<string>) {
    && (forall route :: route in scopes <==> Names(parts, route))
    && (forall i, j :: 0 <= i < j < |scopes| ==> scopes[i] != scopes[j])
  }

  ghost predicate ReadsKeys(keys: seq<string>, parts: seq<string>) {
    && (forall key :: key in keys <==> ListsKey(parts, key))
    && DistinctBy(keys, Same)
  }

  /** c is the credential that the settings describe. */
  ghost predicate Reads(c: Credential, s: Settings, fallbackID: string) {
    && c.token == Trim(s.token) && c.id == (if Trim(s.id) == "" then fallbackID else Trim(s.id))
    && Bounds(s.notBefore, c.notBefore) && Bounds(s.expiresAt, c.expiresAt)
    && ReadsScopes(c.scopes, s.scopes) && ReadsKeys(c.allowedWriteKeys, s.writeKeys)
  }

  /** Every part of the list is blank or names a route. */
  ghost predicate KnownScopes(parts: seq<string>) {
    forall part <- parts :: Canonical(part) == "" || exists route :: Canonical(part) == RouteName(route)
  }

  /** Both bounds are set and leave no instant between them. */
  predicate WindowInverts(s: Settings) {
    && s.notBefore.At? && s.expiresAt.At? && s.notBefore.instant != 0 && s.expiresAt.instant != 0
    && s.notBefore.instant >= s.expiresAt.instant
  }

  ghost predicate Readable(s: Settings) {
    !s.notBefore.Malformed? && !s.expiresAt.Malformed? && KnownScopes(s.scopes) && (Trim(s.token) != "" ==> !WindowInverts(s))
  }

  // ---- Lists of parts ----

  lemma PartsAreScopes(parts: seq<string>)
    ensures Scopes(parts).Ok? <==> KnownScopes(parts)
    ensures Scopes(parts).Ok? ==> ReadsScopes(Scopes(parts).value, parts)
  {
    var parsed := ParsedScopes(parts);
    GatheredShape(parsed);
    forall i | 0 <= i < |parts|
      ensures parsed[i] == ParseQueryTokenScope(parts[i]) && parts[i] in parts && parsed[i] in parsed
    {
    }
    if KnownScopes(parts) {
      forall p | p in parsed
        ensures p.Ok?
      {
        var i :| 0 <= i < |parts| && parsed[i] == p;
      }
    }
    forall route
      ensures Ok(Some(route)) in parsed <==> Names(parts, route)
    {
      NamedIsParsed(parts, route);
    }
  }

  lemma NameIsParsed(part: string, route: ReadbackRoute)
    ensures ParseQueryTokenScope(part) == Ok(Some(route)) <==> Canonical(part) == RouteName(route)
  {
    RouteNamesAre(route);
    var r := ParseQueryTokenScope(part);
    if r.Ok? && r.value.Some? {
      RouteNamesAre(r.value.value);
    }
  }

  lemma NamedIsParsed(parts: seq<string>, route: ReadbackRoute)
    ensures Ok(Some(route)) in ParsedScopes(parts) <==> Names(parts, route)
  {
    var parsed := ParsedScopes(parts);
    if Ok(Some(route)) in parsed {
      var i :| 0 <= i < |parts| && parsed[i] == Ok(Some(route));
      NameIsParsed(parts[i], route);
      assert parts[i] in parts;
    }
    if part :| part in parts && Canonical(part) == RouteName(route) {
      var i :| 0 <= i < |parts| && parts[i] == part;
      NameIsParsed(part, route);
      assert parsed[i] in parsed;
    }
  }

  lemma PartsAreKeys(parts: seq<string>)
    ensures ReadsKeys(UniqueStrings(parts), parts)
  {
    UniqueStringsShape(parts);
    forall key
      ensures key in NormalizedStrings(parts) <==> ListsKey(parts, key)
    {
      CollectElements(parts, Trim, NotBlank, key);
      if ListsKey(parts, key) {
        var part :| part in parts && Trim(part) == key;
        var i :| 0 <= i < |parts| && parts[i] == part;
        assert key == Trim(parts[i]) && NotBlank(key);
      }
    }
  }

  /** A blank setting has no parts and a split one the same scopes and keys: its blank parts count for nothing. */
  lemma BlankSettingNamesNothing(raw: string)
    ensures forall route :: Names(ParseCSV(raw), route) <==> Names(Split(raw), route)
    ensures forall key :: ListsKey(ParseCSV(raw), key) <==> ListsKey(Split(raw), key)
    ensures KnownScopes(ParseCSV(raw)) <==> KnownScopes(Split(raw))
  {
    if Trim(raw) == "" {
      forall part | part in Split(raw)
        ensures Trim(part) == "" && Canonical(part) == ""
      {
        PartsOfBlank(raw, part);
      }
    }
  }

  lemma PartsOfBlank(raw: string, part: string)
    requires Trim(raw) == "" && part in Split(raw)
    ensures Trim(part) == "" && Canonical(part) == ""
  {
    var before, after := TrimCutsSpace(raw);
    assert T.Blank(raw);
    BlankHasOnePart(raw);
    TrimIs(raw, "", "");
    assert raw + "" + "" == raw;
  }

  lemma {:induction false} BlankHasOnePart(raw: string)
    requires T.Blank(raw)
    ensures Split(raw) == [raw]
  {
    if raw != "" {
      BlankHasOnePart(raw[1..]);
      assert IsSpace(raw[0]) && [raw[0]] + raw[1..] == raw;
    }
  }

  // ---- One credential ----

  lemma ReadIsDescribed(id: string, s: Settings)
    requires Read(id, s.token, s.notBefore, s.expiresAt, s.scopes, s.writeKeys).Ok?
    ensures
      var c := Read(id, s.token, s.notBefore, s.expiresAt, s.scopes, s.writeKeys).value;
      && c.id == id && c.token == s.token && Bounds(s.notBefore, c.notBefore) && Bounds(s.expiresAt, c.expiresAt)
      && ReadsScopes(c.scopes, s.scopes) && ReadsKeys(c.allowedWriteKeys, s.writeKeys)
  {
    PartsAreScopes(s.scopes);
    PartsAreKeys(s.writeKeys);
  }

  lemma ReadSucceeds(id: string, s: Settings)
    ensures Read(id, s.token, s.notBefore, s.expiresAt, s.scopes, s.writeKeys).Ok?
            <==> !s.notBefore.Malformed? && !s.expiresAt.Malformed? && KnownScopes(s.scopes)
  {
    PartsAreScopes(s.scopes);
  }

  // ---- Every credential of an environment ----

  ghost function SettingsCount(env: CredentialEnv): nat {
    1 + if env.rotations.Items? then |env.rotations.items| else 0
  }

  /** The settings in the order they are read: the primary ones, then the rotation entries. */
  ghost function SettingsAt(env: CredentialEnv, i: nat): Settings
    requires i < SettingsCount(env)
  {
    if i == 0 then Settings(env.id, env.token, env.notBefore, env.expiresAt, Split(Trim(env.scopes)), Split(Trim(env.writeKeys)))
    else
      match env.rotations.items[i - 1]
      case Entry(id, token, nb, ea, scopes, keys) => Settings(id, token, nb, ea, scopes, keys)
      case Bare(token) => Settings("", token, Blank, Blank, [], [])
      case _ => Settings("", "", Blank, Blank, [], [])
  }

  ghost function FallbackID(i: nat): string {
    if i == 0 then "current" else "rotation-" + Decimal(i)
  }

  /** The list decodes, and so does entry i, with a token when it is written out. */
  ghost predicate Decodes(env: CredentialEnv, i: nat)
    requires i < SettingsCount(env)
  {
    i > 0 ==> !env.rotations.items[i - 1].Undecodable? && (env.rotations.items[i - 1].Entry? ==> Trim(env.rotations.items[i - 1].token) != "")
  }

  lemma PrimaryReads(env: CredentialEnv)
    ensures Checked(Primary(env), "current").Ok? <==> Readable(SettingsAt(env, 0))
    ensures Checked(Primary(env), "current").Ok? ==> Reads(Checked(Primary(env), "current").value, SettingsAt(env, 0), "current")
  {
    var s := SettingsAt(env, 0);
    var csv := s.(token := Trim(env.token), scopes := ParseCSV(Trim(env.scopes)), writeKeys := ParseCSV(Trim(env.writeKeys)));
    BlankSettingNamesNothing(Trim(env.scopes));
    BlankSettingNamesNothing(Trim(env.writeKeys));
    TrimIsIdempotent(env.id);
    TrimIsIdempotent(env.token);
    ReadSucceeds(Trim(env.id), csv);
    if Primary(env).Ok? {
      ReadIsDescribed(Trim(env.id), csv);
    }
  }

  lemma EntryReads(env: CredentialEnv, i: nat)
    requires 0 < i < SettingsCount(env) && env.rotations.items[i - 1].Entry?
    ensures
      var offer, s := Checked(Rotation(env.rotations.items[i - 1]), RotationID(i)), SettingsAt(env, i);
      && (offer.Ok? <==> Trim(s.token) != "" && Readable(s))
      && (offer.Ok? ==> Reads(offer.value, s, FallbackID(i)))
  {
    var s := SettingsAt(env, i);
    if Trim(s.token) != "" {
      ReadSucceeds(s.id, s);
      if Read(s.id, s.token, s.notBefore, s.expiresAt, s.scopes, s.writeKeys).Ok? {
        ReadIsDescribed(s.id, s);
      }
    }
  }

  lemma OthersRead(env: CredentialEnv, i: nat)
    requires 0 < i < SettingsCount(env) && !env.rotations.items[i - 1].Entry?
    ensures
      var offer, s := Checked(Rotation(env.rotations.items[i - 1]), RotationID(i)), SettingsAt(env, i);
      && (offer.Ok? <==> Decodes(env, i)) && Readable(s)
      && (offer.Ok? ==> Reads(offer.value, s, FallbackID(i)))
  {
    TrimOfNothing();
  }

  lemma TrimOfNothing()
    ensures Trim("") == ""
  {
    TrimIsIdempotent("");
  }

  /** What the environment offers at i is exactly the credential its settings describe, when they can be read. */
  lemma OfferReads(env: CredentialEnv, i: nat)
    requires i < SettingsCount(env)
    ensures i < |Offers(env)|
    ensures Offers(env)[i].Ok? <==> Decodes(env, i) && Readable(SettingsAt(env, i))
    ensures Offers(env)[i].Ok? ==> Reads(Offers(env)[i].value, SettingsAt(env, i), FallbackID(i))
  {
    if i == 0 {
      PrimaryReads(env);
    } else {
      OfferedRotation(env, i);
      if env.rotations.items[i - 1].Entry? {
        EntryReads(env, i);
      } else {
        OthersRead(env, i);
      }
    }
  }

  /** The environment loads if and only if all its settings can be read. */
  lemma LoadsWhenReadable(env: CredentialEnv)
    ensures (exists cs :: Merges(Offers(env), Ok(cs))) <==>
            !env.rotations.BadList? && forall i: nat :: i < SettingsCount(env) ==> Decodes(env, i) && Readable(SettingsAt(env, i))
  {
    var offers := Offers(env);
    if Merges(offers, Ok(Merged(if AllGood(offers) then Goods(offers) else []))) {
      AllReadable(env);
    }
    if !env.rotations.BadList? && forall i: nat :: i < SettingsCount(env) ==> Decodes(env, i) && Readable(SettingsAt(env, i)) {
      forall o | o in offers
        ensures o.Ok?
      {
        var i :| 0 <= i < |offers| && offers[i] == o;
        OfferReads(env, i);
      }
      assert Merges(offers, Ok(Merged(Goods(offers))));
    }
  }

  lemma BadListFails(env: CredentialEnv)
    requires env.rotations.BadList?
    ensures !AllGood(Offers(env))
  {
    assert Offers(env)[1] == Err(BadJSON) && Offers(env)[1] in Offers(env);
  }

  lemma AllReadable(env: CredentialEnv)
    requires AllGood(Offers(env))
    ensures !env.rotations.BadList?
    ensures forall i: nat :: i < SettingsCount(env) ==> Decodes(env, i) && Readable(SettingsAt(env, i))
  {
    if env.rotations.BadList? {
      BadListFails(env);
    }
    forall i: nat | i < SettingsCount(env)
      ensures Decodes(env, i) && Readable(SettingsAt(env, i))
    {
      OfferReads(env, i);
      assert Offers(env)[i] in Offers(env);
    }
  }

  // ---- Which settings win ----

  ghost predicate FirstOffer(goods: seq<Credential>, j: nat, c: Credential) {
    j < |goods| && goods[j] == c && c.token != "" && forall i :: 0 <= i < j ==> goods[i].token != c.token
  }

  /** Of the credentials offered with one token exactly the first is kept, in the order of the offers. */
  lemma {:induction false} FirstOfferWins(goods: seq<Credential>, c: Credential)
    ensures c in Merged(goods) <==> exists j: nat :: FirstOffer(goods, j, c)
  {
    if goods != [] {
      var n := |goods| - 1;
      var s, x := goods[..n], goods[n];
      FirstOfferWins(s, c);
      assert goods == s + [x];
      MergedPush(s, x);
      FirstOfferPush(s, x, c);
    }
  }

  lemma FirstOfferPush(s: seq<Credential>, x: Credential, c: Credential)
    ensures (exists j: nat :: FirstOffer(s + [x], j, c)) <==>
            (exists j: nat :: FirstOffer(s, j, c)) || (c == x && x.token != "" && forall i :: 0 <= i < |s| ==> s[i].token != x.token)
  {
    var t := s + [x];
    if j: nat :| FirstOffer(s, j, c) {
      assert t[j] == s[j];
      assert FirstOffer(t, j, c);
    }
    if c == x && x.token != "" && (forall i :: 0 <= i < |s| ==> s[i].token != x.token) {
      assert t[|s|] == x;
      assert FirstOffer(t, |s|, c);
    }
    if j: nat :| FirstOffer(t, j, c) {
      if j < |s| {
        assert t[j] == s[j];
        assert forall i :: 0 <= i < j ==> s[i].token == t[i].token;
        assert FirstOffer(s, j, c);
      } else {
        assert forall i :: 0 <= i < |s| ==> s[i].token == t[i].token;
      }
    }
  }

  lemma MergedPush(s: seq<Credential>, x: Credential)
    ensures
      var taken := x.token != "" && forall i :: 0 <= i < |s| ==> s[i].token != x.token;
      Merged(s + [x]) == Merged(s) + if taken then [x] else []
  {
    assert (s + [x])[..|s|] == s;
    PushedKey(Collect(s, Unchanged, HasToken), x, TokenOf);
    TokensKept(s, x.token);
  }

  lemma TokensKept(s: seq<Credential>, token: string)
    ensures token != "" ==> (HasKey(Collect(s, Unchanged, HasToken), TokenOf, token) <==> exists j :: 0 <= j < |s| && s[j].token == token)
  {
    var kept := Collect(s, Unchanged, HasToken);
    if HasKey(kept, TokenOf, token) {
      var i :| 0 <= i < |kept| && TokenOf(kept[i]) == token;
      CollectElements(s, Unchanged, HasToken, kept[i]);
      var j :| 0 <= j < |s| && kept[i] == s[j] && HasToken(s[j]);
    }
    if j :| 0 <= j < |s| && s[j].token == token && token != "" {
      CollectElements(s, Unchanged, HasToken, s[j]);
      var i :| 0 <= i < |kept| && kept[i] == s[j];
      assert TokenOf(kept[i]) == token;
    }
  }

  lemma {:induction false} FirstOfAllIsFirst(goods: seq<Credential>)
    requires goods != [] && goods[0].token != ""
    ensures Merged(goods) != [] && Merged(goods)[0] == goods[0]
  {
    var n := |goods| - 1;
    MergedPush(goods[..n], goods[n]);
    assert goods == goods[..n] + [goods[n]];
    if n > 0 {
      FirstOfAllIsFirst(goods[..n]);
    }
  }

  /** The settings at i have a token that no settings before them have. */
  ghost predicate Wins(env: CredentialEnv, i: nat) {
    && i < SettingsCount(env) && Trim(SettingsAt(env, i).token) != ""
    && forall k: nat :: k < i ==> Trim(SettingsAt(env, k).token) != Trim(SettingsAt(env, i).token)
  }

  lemma GoodReads(env: CredentialEnv, i: nat)
    requires AllGood(Offers(env)) && i < SettingsCount(env)
    ensures |Goods(Offers(env))| == SettingsCount(env)
    ensures Reads(Goods(Offers(env))[i], SettingsAt(env, i), FallbackID(i))
  {
    OfferReads(env, i);
    AllReadable(env);
    assert Offers(env)[i] in Offers(env);
  }

  lemma WinnersAreFirst(env: CredentialEnv, i: nat)
    requires AllGood(Offers(env)) && i < SettingsCount(env)
    ensures |Goods(Offers(env))| == SettingsCount(env)
    ensures Wins(env, i) <==> FirstOffer(Goods(Offers(env)), i, Goods(Offers(env))[i])
  {
    var goods := Goods(Offers(env));
    GoodReads(env, i);
    forall k: nat | k < SettingsCount(env)
      ensures goods[k].token == Trim(SettingsAt(env, k).token)
    {
      GoodReads(env, k);
    }
  }

  /** Settings that win are kept as the credential they describe; the primary ones come first. */
  lemma WinnerIsKept(env: CredentialEnv, cs: seq<Credential>, i: nat) returns (at: nat)
    requires Merges(Offers(env), Ok(cs)) && Wins(env, i)
    ensures at < |cs| && Reads(cs[at], SettingsAt(env, i), FallbackID(i)) && (i == 0 ==> at == 0)
  {
    var goods := Goods(Offers(env));
    GoodReads(env, i);
    WinnersAreFirst(env, i);
    FirstOfferWins(goods, goods[i]);
    if i == 0 {
      FirstOfAllIsFirst(goods);
      at := 0;
    } else {
      at :| 0 <= at < |cs| && cs[at] == goods[i];
    }
  }

  /** Every credential kept is the one that some winning settings describe. */
  lemma KeptIsWinner(env: CredentialEnv, cs: seq<Credential>, c: Credential) returns (i: nat)
    requires Merges(Offers(env), Ok(cs)) && c in cs
    ensures Wins(env, i) && Reads(c, SettingsAt(env, i), FallbackID(i))
  {
    var goods := Goods(Offers(env));
    FirstOfferWins(goods, c);
    i :| FirstOffer(goods, i, c);
    GoodReads(env, 0);
    GoodReads(env, i);
    WinnersAreFirst(env, i);
  }

  /** With a primary token the first credential is the primary one: its token, its window, its scopes and its write keys. */
  lemma PrimaryIsCurrent(env: CredentialEnv, cs: seq<Credential>)
    requires Merges(Offers(env), Ok(cs)) && Trim(env.token) != ""
    ensures cs != [] && cs[0].token == Trim(env.token) && cs[0].id == (if Trim(env.id) == "" then "current" else Trim(env.id))
    ensures Bounds(env.notBefore, cs[0].notBefore) && Bounds(env.expiresAt, cs[0].expiresAt)
    ensures forall route :: route in cs[0].scopes <==> Names(Split(Trim(env.scopes)), route)
    ensures forall key :: key in cs[0].allowedWriteKeys <==> ListsKey(Split(Trim(env.writeKeys)), key)
  {
    assert Wins(env, 0);
    var at := WinnerIsKept(env, cs, 0);
  }

  // ---- What the settings make of a token ----

  /** The window of the settings is open. */
  predicate WindowOpen(s: Settings, now: int) {
    && (s.notBefore.At? && s.notBefore.instant != 0 ==> s.notBefore.instant <= now)
    && (s.expiresAt.At? && s.expiresAt.instant != 0 ==> now < s.expiresAt.instant)
  }

  /** The scopes name the route, or no part of them says anything. */
  ghost predicate ScopesAllow(parts: seq<string>, route: ReadbackRoute) {
    Names(parts, route) || forall part <- parts :: Canonical(part) == ""
  }

  /** The write keys list the key, or no part of them says anything, or no key is presented. */
  ghost predicate KeysAllow(parts: seq<string>, rawKey: string) {
    Trim(rawKey) == "" || ListsKey(parts, Trim(rawKey)) || forall part <- parts :: Trim(part) == ""
  }

  lemma ScopesDecide(scopes: seq<ReadbackRoute>, parts: seq<string>, route: ReadbackRoute)
    requires ReadsScopes(scopes, parts) && KnownScopes(parts)
    ensures scopes == [] || route in scopes <==> ScopesAllow(parts, route)
  {
    if scopes != [] {
      var part := ScopeHasPart(scopes, parts);
    }
    if part :| part in parts && Canonical(part) != "" {
      PartGivesScope(scopes, parts, part);
    }
  }

  lemma ScopeHasPart(scopes: seq<ReadbackRoute>, parts: seq<string>) returns (part: string)
    requires ReadsScopes(scopes, parts) && scopes != []
    ensures part in parts && Canonical(part) != ""
  {
    assert scopes[0] in scopes;
    part :| part in parts && Canonical(part) == RouteName(scopes[0]);
  }

  lemma PartGivesScope(scopes: seq<ReadbackRoute>, parts: seq<string>, part: string)
    requires ReadsScopes(scopes, parts) && KnownScopes(parts) && part in parts && Canonical(part) != ""
    ensures scopes != []
  {
    var named :| Canonical(part) == RouteName(named);
    assert Names(parts, named);
  }

  lemma KeysDecide(keys: seq<string>, parts: seq<string>, rawKey: string)
    requires ReadsKeys(keys, parts)
    ensures Trim(rawKey) == "" || keys == [] || Trim(rawKey) in keys <==> KeysAllow(parts, rawKey)
  {
    if keys != [] {
      var part := KeyHasPart(keys, parts);
    }
    if part :| part in parts && Trim(part) != "" {
      PartGivesKey(keys, parts, part);
    }
  }

  lemma KeyHasPart(keys: seq<string>, parts: seq<string>) returns (part: string)
    requires ReadsKeys(keys, parts) && keys != []
    ensures part in parts && Trim(part) != ""
  {
    assert keys[0] in keys;
    part :| part in parts && Trim(part) == keys[0];
  }

  lemma PartGivesKey(keys: seq<string>, parts: seq<string>, part: string)
    requires ReadsKeys(keys, parts) && part in parts && Trim(part) != ""
    ensures keys != []
  {
    assert ListsKey(parts, Trim(part));
  }

  /** Whether a credential admits a request is decided by the settings it was read from. */
  lemma SettingsDecide(c: Credential, s: Settings, fallbackID: string, route: ReadbackRoute, rawKey: string, now: int)
    requires Reads(c, s, fallbackID) && Readable(s)
    ensures InWindow(c, now) <==> WindowOpen(s, now)
    ensures AllowsReadbackRoute(c, route) <==> ScopesAllow(s.scopes, route)
    ensures AllowsWriteKey(c, rawKey) <==> KeysAllow(s.writeKeys, rawKey)
  {
    ScopesDecide(c.scopes, s.scopes, route);
    KeysDecide(c.allowedWriteKeys, s.writeKeys, rawKey);
  }

  /** A bearer token of a loaded environment is decided by the first settings that carry it. */
  lemma TokenIsDecidedBySettings(env: CredentialEnv, cs: seq<Credential>, i: nat, raw: string, route: ReadbackRoute, rawKey: string, now: int)
    requires Merges(Offers(env), Ok(cs)) && Wins(env, i) && Trim(raw) == Trim(SettingsAt(env, i).token)
    ensures
      var d, s := Authorized(raw, cs, now), SettingsAt(env, i);
      && (Accepted(d.state) <==> WindowOpen(s, now))
      && (AllowsReadbackRoute(d.credential, route) <==> ScopesAllow(s.scopes, route))
      && (AllowsWriteKey(d.credential, rawKey) <==> KeysAllow(s.writeKeys, rawKey))
      && (i == 0 ==> d.state != AllowedGrace)
  {
    var at := WinnerIsKept(env, cs, i);
    ConfiguredAreOrderly(env, cs);
    UniqueMatchDecides(raw, cs, now);
    TokenLifecycle(cs[at], at, now, now);
    AllReadable(env);
    SettingsDecide(cs[at], SettingsAt(env, i), FallbackID(i), route, rawKey, now);
  }

  /** A token that no settings carry is unknown. */
  lemma OtherTokensAreUnknown(env: CredentialEnv, cs: seq<Credential>, raw: string, now: int)
    requires Merges(Offers(env), Ok(cs))
    requires forall i: nat :: Wins(env, i) ==> Trim(SettingsAt(env, i).token) != Trim(raw)
    ensures Authorized(raw, cs, now).state == Unknown
  {
    ConfiguredAreOrderly(env, cs);
    UniqueMatchDecides(raw, cs, now);
    if HasKey(cs, TokenOf, Trim(raw)) {
      var at :| 0 <= at < |cs| && TokenOf(cs[at]) == Trim(raw);
      var i := KeptIsWinner(env, cs, cs[at]);
    }
  }
}
