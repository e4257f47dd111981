/** Query credentials, from the environment to the decision on one bearer token. */
module Credentials {
  import opened Wrappers
  import opened Text
  import opened Lists
  import opened SourceConfigs

  /** The zero time: an unset bound. */
  const UNSET: int := 0

  /** notBefore and expiresAt are instants; both bounds are optional. */
  datatype Credential = Credential(
    id: string, token: string, notBefore: int, expiresAt: int, scopes: seq<ReadbackRoute>, allowedWriteKeys: seq<string>)

  const EMPTY_CREDENTIAL: Credential := Credential("", "", UNSET, UNSET, [], [])

  datatype CredentialError = BadTime | BadScope | BadJSON | TokenRequired | WindowInverted

  // ---- String lists without repeats ----

  function Same(s: string): string {
    s
  }

  ghost function UniqueStrings(values: seq<string>): seq<string> {
    FirstBy(NormalizedStrings(values), Same)
  }

  /** The values offered so far are the trimmed non-blank ones. */
  ghost predicate Offered(seen: set<string>, values: seq<string>) {
    forall k :: k in seen <==> HasKey(NormalizedStrings(values), Same, k)
  }

  lemma UniqueStep(values: seq<string>, value: string, seen: set<string>)
    requires Offered(seen, values)
    ensures Trim(value) == "" || Trim(value) in seen ==> UniqueStrings(values + [value]) == UniqueStrings(values) && Offered(seen, values + [value])
    ensures Trim(value) != "" && Trim(value) !in seen ==>
              UniqueStrings(values + [value]) == UniqueStrings(values) + [Trim(value)] && Offered(seen + {Trim(value)}, values + [value])
  {
    assert (values + [value])[..|values|] == values;
    PushedKey(NormalizedStrings(values), Trim(value), Same);
  }

  /** Trims, drops blanks and repeats: what both the configuration and the handler do to write keys. */
  method NormalizeUniqueStrings(values: seq<string>) returns (normalized: seq<string>)
    ensures normalized == UniqueStrings(values)
  {
    normalized := [];
    var seen: set<string> := {};
    for i := 0 to |values|
      invariant normalized == UniqueStrings(values[..i]) && Offered(seen, values[..i])
    {
      UniqueStep(values[..i], values[i], seen);
      assert values[..i + 1] == values[..i] + [values[i]];
      var value := Trim(values[i]);
      if value == "" {
        continue;
      }
      if value in seen {
        continue;
      }
      seen := seen + {value};
      normalized := normalized + [value];
    }
    assert values[..|values|] == values;
  }

  /** The result lists exactly the trimmed non-blank values, each once, and normalizing again changes nothing. */
  lemma UniqueStringsShape(values: seq<string>)
    ensures forall x :: x in UniqueStrings(values) <==> x in NormalizedStrings(values)
    ensures DistinctBy(UniqueStrings(values), Same)
    ensures UniqueStrings(UniqueStrings(values)) == UniqueStrings(values)
  {
    var all := NormalizedStrings(values);
    FirstByDistinct(all, Same);
    FirstByLosesNothing(all, Same);
    forall x | x in UniqueStrings(values)
      ensures Trim(x) == x && NotBlank(x)
    {
      CollectElements(values, Trim, NotBlank, x);
      var i :| 0 <= i < |values| && x == Trim(values[i]);
      TrimIsIdempotent(values[i]);
    }
    CollectFixed(UniqueStrings(values), Trim, NotBlank);
    FirstByFixed(UniqueStrings(values), Same);
  }

  // ---- Comma separated lists ----

  function Split(s: string): (parts: seq<string>)
    ensures |parts| >= 1
  {
    if s == "" then [""]
    else
      var rest := Split(s[1..]);
      if s[0] == ',' then [""] + rest else [[s[0]] + rest[0]] + rest[1..]
  }

  /** Splitting cuts at every comma and loses nothing. */
  lemma {:induction false} SplitJoins(s: string)
    ensures Join(Split(s)) == s
    ensures forall part <- Split(s) :: ',' !in part
  {
    if s != "" {
      SplitJoins(s[1..]);
      var rest := Split(s[1..]);
      if s[0] == ',' {
        assert ([""] + rest)[1..] == rest;
      } else {
        assert ([[s[0]] + rest[0]] + rest[1..])[1..] == rest[1..];
      }
    }
  }

  function ParseCSV(raw: string): seq<string> {
    if Trim(raw) == "" then [] else Split(raw)
  }

  // ---- Scopes ----

  function RouteName(route: ReadbackRoute): string {
    match route
    case Realtime => "realtime"
    case Events => "events"
    case Properties => "properties"
    case Goals => "goals"
    case KafkaDiagnostics => "kafka_diagnostics"
    case KafkaMetrics => "kafka_metrics"
  }

  /** Reads one scope; blank text names none. */
  function ParseQueryTokenScope(raw: string): (r: Result<Option<ReadbackRoute>, CredentialError>)
    ensures r == Ok(None) <==> Canonical(raw) == ""
    ensures r.Ok? && r.value.Some? ==> RouteName(r.value.value) == Canonical(raw)
    ensures r.Err? ==> forall route :: RouteName(route) != Canonical(raw)
  {
    var value := Canonical(raw);
    if value == "" then Ok(None)
    else if value == "realtime" then Ok(Some(Realtime))
    else if value == "events" then Ok(Some(Events))
    else if value == "properties" then Ok(Some(Properties))
    else if value == "goals" then Ok(Some(Goals))
    else if value == "kafka_diagnostics" then Ok(Some(KafkaDiagnostics))
    else if value == "kafka_metrics" then Ok(Some(KafkaMetrics))
    else Err(BadScope)
  }

  type ParsedScope = Result<Option<ReadbackRoute>, CredentialError>

  ghost function ParsedScopes(raw: seq<string>): (parsed: seq<ParsedScope>)
    ensures |parsed| == |raw|
  {
    seq(|raw|, i requires 0 <= i < |raw| => ParseQueryTokenScope(raw[i]))
  }

  /** The routes of a list of parsed scopes, each once, or the first error. */
  ghost function Gathered(parsed: seq<ParsedScope>): Result<seq<ReadbackRoute>, CredentialError> {
    if parsed == [] then Ok([])
    else
      var n := |parsed| - 1;
      match (Gathered(parsed[..n]), parsed[n])
      case (Err(e), _) => Err(e)
      case (Ok(scopes), Err(e)) => Err(e)
      case (Ok(scopes), Ok(None)) => Ok(scopes)
      case (Ok(scopes), Ok(Some(route))) => if route in scopes then Ok(scopes) else Ok(scopes + [route])
  }

  ghost function Scopes(raw: seq<string>): Result<seq<ReadbackRoute>, CredentialError> {
    Gathered(ParsedScopes(raw))
  }

  method ParseQueryTokenScopesList(raw: seq<string>) returns (r: Result<seq<ReadbackRoute>, CredentialError>)
    ensures r == Scopes(raw)
  {
    ghost var parsed := ParsedScopes(raw);
    var scopes := [];
    var seen: set<ReadbackRoute> := {};
    for i := 0 to |raw|
      invariant parsed == ParsedScopes(raw)
      invariant Gathered(parsed[..i]) == Ok(scopes)
      invariant forall route :: route in seen <==> route in scopes
    {
      var scope := ParseQueryTokenScope(raw[i]);
      assert parsed[i] == scope;
      assert parsed[..i + 1][..i] == parsed[..i];
      if scope.Err? {
        GatheredFails(parsed, i + 1);
        return Err(scope.error);
      }
      if scope.value.None? {
        continue;
      }
      if scope.value.value in seen {
        continue;
      }
      seen := seen + {scope.value.value};
      scopes := scopes + [scope.value.value];
    }
    assert parsed[..|raw|] == parsed;
    return Ok(scopes);
  }

  lemma {:induction false} GatheredFails(parsed: seq<ParsedScope>, i: nat)
    requires i <= |parsed| && Gathered(parsed[..i]).Err?
    ensures Gathered(parsed) == Gathered(parsed[..i])
  {
    if i == |parsed| {
      assert parsed[..i] == parsed;
    } else {
      assert parsed[..|parsed| - 1][..i] == parsed[..i];
      GatheredFails(parsed[..|parsed| - 1], i);
    }
  }

  /** The scopes are exactly the routes named, each once; a list is read unless it holds an unknown name. */
  lemma {:induction false} GatheredShape(parsed: seq<ParsedScope>)
    ensures Gathered(parsed).Ok? <==> forall p <- parsed :: p.Ok?
    ensures Gathered(parsed).Ok? ==> forall route :: route in Gathered(parsed).value <==> Ok(Some(route)) in parsed
    ensures Gathered(parsed).Ok? ==> forall i, j :: 0 <= i < j < |Gathered(parsed).value| ==> Gathered(parsed).value[i] != Gathered(parsed).value[j]
  {
    if parsed != [] {
      var n := |parsed| - 1;
      GatheredShape(parsed[..n]);
      assert parsed == parsed[..n] + [parsed[n]];
    }
  }

  // ---- Reading the environment ----

  /** A time setting; a set one may still spell the zero time. */
  datatype TimeText = Blank | Malformed | At(instant: int)

  /** One entry of the rotation list. */
  datatype RotationItem =
    | Absent
    | Undecodable
    | Bare(token: string)
    | Entry(id: string, token: string, notBefore: TimeText, expiresAt: TimeText, scopes: seq<string>, writeKeys: seq<string>)

  datatype RotationList = NoList | BadList | Items(items: seq<RotationItem>)

  datatype CredentialEnv = CredentialEnv(
    token: string, id: string, notBefore: TimeText, expiresAt: TimeText, scopes: string, writeKeys: string, rotations: RotationList)

  function OptionalTime(t: TimeText): Result<int, CredentialError> {
    match t
    case Blank => Ok(UNSET)
    case Malformed => Err(BadTime)
    case At(instant) => Ok(instant)
  }

  /** The credential with its parts read: the first bad part, in this order, fails it. */
  ghost function Read(id: string, token: string, nb: TimeText, ea: TimeText, scopes: seq<string>, keys: seq<string>): Result<Credential, CredentialError> {
    if OptionalTime(nb).Err? then Err(OptionalTime(nb).error)
    else if OptionalTime(ea).Err? then Err(OptionalTime(ea).error)
    else if Scopes(scopes).Err? then Err(Scopes(scopes).error)
    else Ok(Credential(id, token, OptionalTime(nb).value, OptionalTime(ea).value, Scopes(scopes).value, UniqueStrings(keys)))
  }

  method ReadCredential(id: string, token: string, nb: TimeText, ea: TimeText, scopes: seq<string>, keys: seq<string>)
    returns (r: Result<Credential, CredentialError>)
    ensures r == Read(id, token, nb, ea, scopes, keys)
  {
    var notBefore := OptionalTime(nb);
    if notBefore.Err? {
      return Err(notBefore.error);
    }
    var expiresAt := OptionalTime(ea);
    if expiresAt.Err? {
      return Err(expiresAt.error);
    }
    var routes := ParseQueryTokenScopesList(scopes);
    if routes.Err? {
      return Err(routes.error);
    }
    var allowed := NormalizeUniqueStrings(keys);
    return Ok(Credential(id, token, notBefore.value, expiresAt.value, routes.value, allowed));
  }

  ghost function Primary(env: CredentialEnv): Result<Credential, CredentialError> {
    Read(Trim(env.id), Trim(env.token), env.notBefore, env.expiresAt, ParseCSV(Trim(env.scopes)), ParseCSV(Trim(env.writeKeys)))
  }

  ghost function Rotation(item: RotationItem): Result<Credential, CredentialError> {
    match item
    case Absent => Ok(EMPTY_CREDENTIAL)
    case Undecodable => Err(BadJSON)
    case Bare(token) => Ok(EMPTY_CREDENTIAL.(token := token))
    case Entry(id, token, nb, ea, scopes, keys) =>
      if Trim(token) == "" then Err(TokenRequired) else Read(id, token, nb, ea, scopes, keys)
  }

  method DecodeQueryRotationCredential(item: RotationItem) returns (r: Result<Credential, CredentialError>)
    ensures r == Rotation(item)
  {
    match item {
      case Absent => return Ok(EMPTY_CREDENTIAL);
      case Undecodable => return Err(BadJSON);
      case Bare(token) => return Ok(EMPTY_CREDENTIAL.(token := token));
      case Entry(id, token, nb, ea, scopes, keys) =>
        if Trim(token) == "" {
          return Err(TokenRequired);
        }
        r := ReadCredential(id, token, nb, ea, scopes, keys);
    }
  }

  // ---- Merging ----

  function TokenOf(c: Credential): string {
    c.token
  }

  predicate HasToken(c: Credential) {
    c.token != ""
  }

  function Unchanged(c: Credential): Credential {
    c
  }

  function Clean(c: Credential, fallbackID: string): Credential {
    c.(token := Trim(c.token), id := if Trim(c.id) == "" then fallbackID else Trim(c.id))
  }

  predicate Inverted(c: Credential) {
    c.notBefore != UNSET && c.expiresAt != UNSET && c.notBefore >= c.expiresAt
  }

  /** Of the credentials with a token, the first of each token, in order. */
  ghost function Merged(s: seq<Credential>): seq<Credential> {
    FirstBy(Collect(s, Unchanged, HasToken), TokenOf)
  }

  /** The tokens seen so far are exactly the non-blank ones offered. */
  ghost predicate Tracks(seen: set<string>, s: seq<Credential>) {
    forall k :: k in seen <==> HasKey(Collect(s, Unchanged, HasToken), TokenOf, k)
  }

  lemma MergedStep(s: seq<Credential>, c: Credential, seen: set<string>)
    requires Tracks(seen, s)
    ensures c.token == "" || c.token in seen ==> Merged(s + [c]) == Merged(s) && Tracks(seen, s + [c])
    ensures c.token != "" && c.token !in seen ==> Merged(s + [c]) == Merged(s) + [c] && Tracks(seen + {c.token}, s + [c])
  {
    assert (s + [c])[..|s|] == s;
    PushedKey(Collect(s, Unchanged, HasToken), c, TokenOf);
  }

  /** A list of merged credentials, with the tokens it was built from. */
  ghost predicate Holds(list: seq<Credential>, seen: set<string>, offered: seq<Credential>) {
    list == Merged(offered) && Tracks(seen, offered)
  }

  /** One append of the config pass: blank tokens are skipped before the window check, the window is checked before repeats. */
  method AppendConfigured(credentials: seq<Credential>, seen: set<string>, ghost offered: seq<Credential>, c: Credential, defaultID: string)
    returns (r: Result<seq<Credential>, CredentialError>, now: set<string>)
    requires credentials == Merged(offered) && Tracks(seen, offered)
    ensures r.Err? <==> Trim(c.token) != "" && Inverted(c)
    ensures r.Err? ==> r.error == WindowInverted
    ensures r.Ok? ==> r.value == Merged(offered + [Clean(c, defaultID)]) && Tracks(now, offered + [Clean(c, defaultID)])
  {
    var credential := c.(token := Trim(c.token));
    now := seen;
    MergedStep(offered, Clean(c, defaultID), seen);
    if credential.token == "" {
      return Ok(credentials), now;
    }
    credential := credential.(id := Trim(credential.id));
    if credential.id == "" {
      credential := credential.(id := defaultID);
    }
    if Inverted(credential) {
      return Err(WindowInverted), now;
    }
    if credential.token in seen {
      return Ok(credentials), now;
    }
    now := seen + {credential.token};
    return Ok(credentials + [credential]), now;
  }

  function RotationID(i: nat): string {
    "rotation-" + Decimal(i)
  }

  /** A decoded credential is taken unless it has a token and an inverted window. */
  ghost function Checked(r: Result<Credential, CredentialError>, defaultID: string): Result<Credential, CredentialError> {
    if r.Err? then r
    else if Trim(r.value.token) != "" && Inverted(r.value) then Err(WindowInverted)
    else Ok(Clean(r.value, defaultID))
  }

  /** Everything the environment offers, primary first; a list that does not decode is one bad offer. */
  ghost function Offers(env: CredentialEnv): (offers: seq<Result<Credential, CredentialError>>)
    ensures |offers| >= 1 && offers[0] == Checked(Primary(env), "current")
  {
    [Checked(Primary(env), "current")] + ListOffers(env.rotations)
  }

  ghost function ListOffers(rotations: RotationList): seq<Result<Credential, CredentialError>> {
    match rotations
    case NoList => []
    case BadList => [Err(BadJSON)]
    case Items(items) => RotationOffers(items)
  }

  ghost function RotationOffers(items: seq<RotationItem>): (offers: seq<Result<Credential, CredentialError>>)
    ensures |offers| == |items|
  {
    seq(|items|, i requires 0 <= i < |items| => Checked(Rotation(items[i]), RotationID(i + 1)))
  }

  /** r merges the offers, or is the error of the first bad one. */
  ghost predicate Merges(offers: seq<Result<Credential, CredentialError>>, r: Result<seq<Credential>, CredentialError>) {
    if r.Ok? then AllGood(offers) && r.value == Merged(Goods(offers))
    else exists i :: 0 <= i < |offers| && offers[i] == Err(r.error) && AllGood(offers[..i])
  }

  ghost predicate AllGood(offers: seq<Result<Credential, CredentialError>>) {
    forall o <- offers :: o.Ok?
  }

  ghost function Goods(offers: seq<Result<Credential, CredentialError>>): seq<Credential>
    requires AllGood(offers)
  {
    seq(|offers|, i requires 0 <= i < |offers| => offers[i].value)
  }

  lemma GoodsStep(offers: seq<Result<Credential, CredentialError>>, i: nat)
    requires i < |offers| && AllGood(offers[..i])
    ensures offers[i].Ok? ==> AllGood(offers[..i + 1]) && Goods(offers[..i + 1]) == Goods(offers[..i]) + [offers[i].value]
  {
    assert offers[..i + 1] == offers[..i] + [offers[i]];
  }

  method QueryCredentialsFromEnv(env: CredentialEnv) returns (r: Result<seq<Credential>, CredentialError>)
    ensures Merges(Offers(env), r)
  {
    ghost var offers := Offers(env);
    assert offers[..0] == [];
    GoodsStep(offers, 0);
    var primary := ReadCredential(Trim(env.id), Trim(env.token), env.notBefore, env.expiresAt,
                                  ParseCSV(Trim(env.scopes)), ParseCSV(Trim(env.writeKeys)));
    if primary.Err? {
      return Err(primary.error);
    }
    var seen;
    r, seen := AppendConfigured([], {}, [], primary.value, "current");
    if r.Err? {
      return;
    }
    if env.rotations.NoList? {
      assert offers == offers[..1];
      return;
    }
    if env.rotations.BadList? {
      assert offers[1] == Err(BadJSON);
      return Err(BadJSON);
    }
    var credentials := r.value;
    var items := env.rotations.items;
    for i := 0 to |items|
      invariant offers == Offers(env) && |offers| == |items| + 1
      invariant AllGood(offers[..i + 1]) && credentials == Merged(Goods(offers[..i + 1])) && Tracks(seen, Goods(offers[..i + 1]))
    {
      GoodsStep(offers, i + 1);
      assert offers[i + 1] == Checked(Rotation(items[i]), RotationID(i + 1));
      var credential := DecodeQueryRotationCredential(items[i]);
      if credential.Err? {
        return Err(credential.error);
      }
      r, seen := AppendConfigured(credentials, seen, Goods(offers[..i + 1]), credential.value, RotationID(i + 1));
      if r.Err? {
        return;
      }
      credentials := r.value;
    }
    assert offers[..|items| + 1] == offers;
    return Ok(credentials);
  }

  // ---- What configuration guarantees ----

  /** The credential needs no more cleaning, and some instant lies in its window. */
  ghost predicate Tidy(c: Credential) {
    && c.token != "" && Trim(c.token) == c.token
    && c.id != "" && Trim(c.id) == c.id
    && UniqueStrings(c.allowedWriteKeys) == c.allowedWriteKeys
    && !Inverted(c)
  }

  ghost predicate Orderly(cs: seq<Credential>) {
    (forall c <- cs :: Tidy(c)) && DistinctBy(cs, TokenOf)
  }

  lemma ReadHasUniqueKeys(id: string, token: string, nb: TimeText, ea: TimeText, scopes: seq<string>, keys: seq<string>)
    requires Read(id, token, nb, ea, scopes, keys).Ok?
    ensures var c := Read(id, token, nb, ea, scopes, keys).value; UniqueStrings(c.allowedWriteKeys) == c.allowedWriteKeys
  {
    UniqueStringsShape(keys);
  }

  lemma CheckedIsTidy(r: Result<Credential, CredentialError>, defaultID: string)
    requires r.Ok? ==> UniqueStrings(r.value.allowedWriteKeys) == r.value.allowedWriteKeys
    requires defaultID != "" && Trim(defaultID) == defaultID
    requires Checked(r, defaultID).Ok? && Checked(r, defaultID).value.token != ""
    ensures Tidy(Checked(r, defaultID).value)
  {
    TrimIsIdempotent(r.value.token);
    TrimIsIdempotent(r.value.id);
  }

  lemma FallbackIDsAreClean(i: nat)
    ensures RotationID(i) != "" && Trim(RotationID(i)) == RotationID(i)
    ensures "current" != "" && Trim("current") == "current"
  {
    DecimalIsClean(i);
    var id := RotationID(i);
    assert id[0] == 'r' && id[|id| - 1] == Decimal(i)[|Decimal(i)| - 1];
    TrimmedStays(id);
    TrimmedStays("current");
  }

  lemma RotationHasUniqueKeys(item: RotationItem)
    requires Rotation(item).Ok?
    ensures UniqueStrings(Rotation(item).value.allowedWriteKeys) == Rotation(item).value.allowedWriteKeys
  {
    match item
    case Entry(id, token, nb, ea, scopes, keys) => ReadHasUniqueKeys(id, token, nb, ea, scopes, keys);
    case _ =>
  }

  lemma PrimaryOfferIsTidy(env: CredentialEnv)
    requires Checked(Primary(env), "current").Ok? && Checked(Primary(env), "current").value.token != ""
    ensures Tidy(Checked(Primary(env), "current").value)
  {
    FallbackIDsAreClean(0);
    ReadHasUniqueKeys(Trim(env.id), Trim(env.token), env.notBefore, env.expiresAt, ParseCSV(Trim(env.scopes)), ParseCSV(Trim(env.writeKeys)));
    CheckedIsTidy(Primary(env), "current");
  }

  lemma RotationOfferIsTidy(item: RotationItem, i: nat)
    requires Checked(Rotation(item), RotationID(i)).Ok? && Checked(Rotation(item), RotationID(i)).value.token != ""
    ensures Tidy(Checked(Rotation(item), RotationID(i)).value)
  {
    FallbackIDsAreClean(i);
    RotationHasUniqueKeys(item);
    CheckedIsTidy(Rotation(item), RotationID(i));
  }

  lemma OfferedRotation(env: CredentialEnv, i: nat)
    requires env.rotations.Items? && 0 < i <= |env.rotations.items|
    ensures i < |Offers(env)| && Offers(env)[i] == Checked(Rotation(env.rotations.items[i - 1]), RotationID(i))
  {
    ListedOffer(env.rotations, i);
    OfferBehindFirst(env, i);
  }

  lemma ListedOffer(rotations: RotationList, i: nat)
    requires rotations.Items? && 0 < i <= |rotations.items|
    ensures |ListOffers(rotations)| == |rotations.items|
    ensures ListOffers(rotations)[i - 1] == Checked(Rotation(rotations.items[i - 1]), RotationID(i))
  {
    assert RotationID((i - 1) + 1) == RotationID(i);
  }

  lemma OfferBehindFirst(env: CredentialEnv, i: nat)
    requires 0 < i <= |ListOffers(env.rotations)|
    ensures i < |Offers(env)| && Offers(env)[i] == ListOffers(env.rotations)[i - 1]
  {
  }

  lemma OfferIsTidy(env: CredentialEnv, i: nat)
    requires i < |Offers(env)| && Offers(env)[i].Ok? && Offers(env)[i].value.token != ""
    ensures Tidy(Offers(env)[i].value)
  {
    if i == 0 {
      PrimaryOfferIsTidy(env);
    } else {
      OfferedRotation(env, i);
      RotationOfferIsTidy(env.rotations.items[i - 1], i);
    }
  }

  lemma KeptOffersAreTidy(env: CredentialEnv, c: Credential)
    requires AllGood(Offers(env)) && c in Collect(Goods(Offers(env)), Unchanged, HasToken)
    ensures Tidy(c)
  {
    var goods := Goods(Offers(env));
    CollectElements(goods, Unchanged, HasToken, c);
    var i :| 0 <= i < |goods| && c == goods[i] && HasToken(c);
    OfferIsTidy(env, i);
  }

  lemma PrimaryIsFirst(env: CredentialEnv)
    requires AllGood(Offers(env))
    ensures |Goods(Offers(env))| >= 1 && Goods(Offers(env))[0].token == Trim(env.token)
  {
    PrimaryHasToken(env);
    FirstGood(Offers(env));
  }

  lemma PrimaryHasToken(env: CredentialEnv)
    ensures Checked(Primary(env), "current").Ok? ==> Checked(Primary(env), "current").value.token == Trim(env.token)
  {
    ReadKeepsToken(Trim(env.id), Trim(env.token), env.notBefore, env.expiresAt, ParseCSV(Trim(env.scopes)), ParseCSV(Trim(env.writeKeys)));
    CheckedKeepsToken(Primary(env), "current");
    TrimIsIdempotent(env.token);
  }

  lemma ReadKeepsToken(id: string, token: string, nb: TimeText, ea: TimeText, scopes: seq<string>, keys: seq<string>)
    ensures Read(id, token, nb, ea, scopes, keys).Ok? ==> Read(id, token, nb, ea, scopes, keys).value.token == token
  {
  }

  lemma CheckedKeepsToken(r: Result<Credential, CredentialError>, defaultID: string)
    ensures Checked(r, defaultID).Ok? ==> r.Ok? && Checked(r, defaultID).value.token == Trim(r.value.token)
  {
  }

  lemma FirstGood(offers: seq<Result<Credential, CredentialError>>)
    requires AllGood(offers) && offers != []
    ensures offers[0].Ok? && Goods(offers) != [] && Goods(offers)[0] == offers[0].value
  {
    assert offers[0] in offers;
  }

  lemma TokenIsMerged(goods: seq<Credential>, c: Credential)
    requires c in goods && c.token != ""
    ensures HasKey(Merged(goods), TokenOf, c.token)
  {
    var kept := Collect(goods, Unchanged, HasToken);
    var i :| 0 <= i < |goods| && goods[i] == c;
    CollectElements(goods, Unchanged, HasToken, c);
    var j :| 0 <= j < |kept| && kept[j] == c;
    assert TokenOf(kept[j]) == c.token;
    FirstByKeys(kept, TokenOf, c.token);
  }

  lemma PrimaryTokenIsKept(env: CredentialEnv)
    requires AllGood(Offers(env)) && Trim(env.token) != ""
    ensures HasKey(Merged(Goods(Offers(env))), TokenOf, Trim(env.token))
  {
    PrimaryIsFirst(env);
    TokenIsMerged(Goods(Offers(env)), Goods(Offers(env))[0]);
  }

  /** Configured credentials are tidy and have tokens of their own, and the primary token is one of them. */
  lemma ConfiguredAreOrderly(env: CredentialEnv, cs: seq<Credential>)
    requires Merges(Offers(env), Ok(cs))
    ensures Orderly(cs)
    ensures Trim(env.token) != "" ==> HasKey(cs, TokenOf, Trim(env.token))
  {
    FirstByDistinct(Collect(Goods(Offers(env)), Unchanged, HasToken), TokenOf);
    forall c | c in cs
      ensures Tidy(c)
    {
      KeptOffersAreTidy(env, c);
    }
    if Trim(env.token) != "" {
      PrimaryTokenIsKept(env);
    }
  }

  // ---- The handler's second pass ----

  method QueryTokenValues(credentials: seq<Credential>) returns (values: seq<string>)
    ensures values == TokenValues(credentials)
  {
    values := [];
    for i := 0 to |credentials|
      invariant values == TokenValues(credentials[..i])
    {
      assert credentials[..i + 1][..i] == credentials[..i];
      var token := Trim(credentials[i].token);
      if token == "" {
        continue;
      }
      values := values + [token];
    }
    assert credentials[..|credentials|] == credentials;
  }

  ghost function TokenValues(cs: seq<Credential>): seq<string> {
    if cs == [] then []
    else
      var n := |cs| - 1;
      TokenValues(cs[..n]) + if Trim(cs[n].token) == "" then [] else [Trim(cs[n].token)]
  }

  lemma {:induction false} TokenValuesAreTokens(cs: seq<Credential>)
    requires forall c <- cs :: Tidy(c)
    ensures |TokenValues(cs)| == |cs| && forall i :: 0 <= i < |cs| ==> TokenValues(cs)[i] == cs[i].token
  {
    if cs != [] {
      TokenValuesAreTokens(cs[..|cs| - 1]);
      assert Tidy(cs[|cs| - 1]);
    }
  }

  /** Copies the credentials into the handler's own list. */
  method ToQueryCredentials(credentials: seq<Credential>) returns (out: seq<Credential>)
    ensures out == credentials
  {
    out := [];
    for i := 0 to |credentials|
      invariant out == credentials[..i]
    {
      var c := credentials[i];
      assert [] + c.scopes == c.scopes && [] + c.allowedWriteKeys == c.allowedWriteKeys;
      out := out + [Credential(c.id, c.token, c.notBefore, c.expiresAt, [] + c.scopes, [] + c.allowedWriteKeys)];
    }
  }

  ghost function CleanForHandler(c: Credential, fallbackID: string): Credential {
    Clean(c, fallbackID).(allowedWriteKeys := UniqueStrings(c.allowedWriteKeys))
  }

  function ExplicitID(i: nat): string {
    if i == 0 then "current" else RotationID(i)
  }

  ghost function FromExplicit(explicit: seq<Credential>): (s: seq<Credential>)
    ensures |s| == |explicit|
  {
    seq(|explicit|, i requires 0 <= i < |explicit| => CleanForHandler(explicit[i], ExplicitID(i)))
  }

  ghost function FromTokens(tokens: seq<string>): (s: seq<Credential>)
    ensures |s| == |tokens|
  {
    seq(|tokens|, i requires 0 <= i < |tokens| => CleanForHandler(EMPTY_CREDENTIAL.(token := tokens[i]), RotationID(i + 1)))
  }

  ghost function FromPrimary(primary: string): Credential {
    CleanForHandler(EMPTY_CREDENTIAL.(id := "current", token := primary), "current")
  }

  /** The handler's credentials: structured ones first, then the primary token, then the plain tokens. */
  ghost function HandlerCredentials(primary: string, tokens: seq<string>, explicit: seq<Credential>): seq<Credential> {
    Merged(FromExplicit(explicit) + [FromPrimary(primary)] + FromTokens(tokens))
  }

  /** Every token given, structured, primary or plain, is one of the handler's, each once. */
  lemma HandlerKeepsEveryToken(primary: string, tokens: seq<string>, explicit: seq<Credential>, token: string)
    ensures
      var given := token != "" && (Trim(primary) == token || (exists t :: t in tokens && Trim(t) == token) || exists c :: c in explicit && Trim(c.token) == token);
      HasKey(HandlerCredentials(primary, tokens, explicit), TokenOf, token) <==> given
    ensures DistinctBy(HandlerCredentials(primary, tokens, explicit), TokenOf)
  {
    var offered := FromExplicit(explicit) + [FromPrimary(primary)] + FromTokens(tokens);
    FirstByDistinct(Collect(offered, Unchanged, HasToken), TokenOf);
    OfferedTokens(primary, tokens, explicit, token);
    if c :| c in offered && c.token == token && token != "" {
      TokenIsMerged(offered, c);
    }
    if HasKey(Merged(offered), TokenOf, token) {
      var i :| 0 <= i < |Merged(offered)| && TokenOf(Merged(offered)[i]) == token;
      assert Merged(offered)[i] in Collect(offered, Unchanged, HasToken);
      CollectElements(offered, Unchanged, HasToken, Merged(offered)[i]);
    }
  }

  lemma OfferedTokens(primary: string, tokens: seq<string>, explicit: seq<Credential>, token: string)
    ensures
      (exists c :: c in FromExplicit(explicit) + [FromPrimary(primary)] + FromTokens(tokens) && c.token == token) <==>
      Trim(primary) == token || (exists t :: t in tokens && Trim(t) == token) || exists c :: c in explicit && Trim(c.token) == token
  {
    StructuredTokens(explicit, token);
    PlainTokens(tokens, token);
    assert FromPrimary(primary).token == Trim(primary);
  }

  lemma StructuredTokens(explicit: seq<Credential>, token: string)
    ensures (exists c :: c in FromExplicit(explicit) && c.token == token) <==> exists c :: c in explicit && Trim(c.token) == token
  {
    var from := FromExplicit(explicit);
    if c :| c in explicit && Trim(c.token) == token {
      var i :| 0 <= i < |explicit| && explicit[i] == c;
      assert from[i].token == token && from[i] in from;
    }
    if c :| c in from && c.token == token {
      var i :| 0 <= i < |from| && from[i] == c;
      assert Trim(explicit[i].token) == token && explicit[i] in explicit;
    }
  }

  lemma PlainTokens(tokens: seq<string>, token: string)
    ensures (exists c :: c in FromTokens(tokens) && c.token == token) <==> exists t :: t in tokens && Trim(t) == token
  {
    var from := FromTokens(tokens);
    if t :| t in tokens && Trim(t) == token {
      var i :| 0 <= i < |tokens| && tokens[i] == t;
      PlainTokenIsTrimmed(tokens, i);
      assert from[i] in from;
    }
    if c :| c in from && c.token == token {
      var i :| 0 <= i < |from| && from[i] == c;
      PlainTokenIsTrimmed(tokens, i);
      assert tokens[i] in tokens;
    }
  }

  method AppendNormalized(normalized: seq<Credential>, seen: set<string>, ghost offered: seq<Credential>, c: Credential, fallbackID: string)
    returns (more: seq<Credential>, now: set<string>)
    requires Holds(normalized, seen, offered)
    ensures Holds(more, now, offered + [CleanForHandler(c, fallbackID)])
  {
    var credential := c.(token := Trim(c.token));
    more, now := normalized, seen;
    MergedStep(offered, CleanForHandler(c, fallbackID), seen);
    if credential.token == "" || credential.token in seen {
      return;
    }
    now := now + {credential.token};
    credential := credential.(id := Trim(credential.id));
    if credential.id == "" {
      credential := credential.(id := fallbackID);
    }
    var keys := NormalizeUniqueStrings(credential.allowedWriteKeys);
    more := more + [credential.(allowedWriteKeys := keys)];
  }

  lemma ExplicitStep(explicit: seq<Credential>, i: nat)
    requires i < |explicit|
    ensures FromExplicit(explicit)[..i + 1] == FromExplicit(explicit)[..i] + [CleanForHandler(explicit[i], ExplicitID(i))]
  {
    PrefixStep(FromExplicit(explicit), i);
  }

  lemma PrefixStep(s: seq<Credential>, i: nat)
    requires i < |s|
    ensures s[..i + 1] == s[..i] + [s[i]]
  {
  }

  lemma TokensStep(offered: seq<Credential>, tokens: seq<string>, i: nat)
    requires i < |tokens|
    ensures
      var next := CleanForHandler(EMPTY_CREDENTIAL.(token := tokens[i]), RotationID(i + 1));
      offered + FromTokens(tokens)[..i + 1] == (offered + FromTokens(tokens)[..i]) + [next]
  {
    PrefixStep(FromTokens(tokens), i);
  }

  method NormalizeQueryCredentials(primary: string, tokens: seq<string>, explicit: seq<Credential>) returns (normalized: seq<Credential>)
    ensures normalized == HandlerCredentials(primary, tokens, explicit)
  {
    ghost var from := FromExplicit(explicit);
    normalized := [];
    var seen: set<string> := {};
    for i := 0 to |explicit|
      invariant |from| == |explicit| && from == FromExplicit(explicit)
      invariant Holds(normalized, seen, from[..i])
    {
      ExplicitStep(explicit, i);
      normalized, seen := AppendNormalized(normalized, seen, from[..i], explicit[i], ExplicitID(i));
    }
    assert from[..|explicit|] == from;
    normalized, seen := AppendNormalized(normalized, seen, from, EMPTY_CREDENTIAL.(id := "current", token := primary), "current");
    normalized := AppendTokens(normalized, seen, from + [FromPrimary(primary)], tokens);
  }

  method AppendTokens(normalized: seq<Credential>, seen: set<string>, ghost offered: seq<Credential>, tokens: seq<string>)
    returns (more: seq<Credential>)
    requires Holds(normalized, seen, offered)
    ensures more == Merged(offered + FromTokens(tokens))
  {
    ghost var plain := FromTokens(tokens);
    var now := seen;
    more := normalized;
    assert offered + plain[..0] == offered;
    for i := 0 to |tokens|
      invariant |plain| == |tokens| && plain == FromTokens(tokens)
      invariant Holds(more, now, offered + plain[..i])
    {
      TokensStep(offered, tokens, i);
      more, now := AppendNormalized(more, now, offered + plain[..i], EMPTY_CREDENTIAL.(token := tokens[i]), RotationID(i + 1));
    }
    assert plain[..|tokens|] == plain;
  }

  /** Offers that bring no new token change nothing. */
  lemma {:induction false} KnownTokensAddNothing(cs: seq<Credential>, extra: seq<Credential>)
    requires Orderly(cs)
    requires forall c <- extra :: c.token == "" || HasKey(cs, TokenOf, c.token)
    ensures Merged(cs + extra) == cs
    ensures forall k :: HasKey(Collect(cs + extra, Unchanged, HasToken), TokenOf, k) <==> HasKey(cs, TokenOf, k)
  {
    if extra == [] {
      assert cs + extra == cs;
      CollectFixed(cs, Unchanged, HasToken);
      FirstByFixed(cs, TokenOf);
    } else {
      var n := |extra| - 1;
      var s := cs + extra[..n];
      KnownTokensAddNothing(cs, extra[..n]);
      assert cs + extra == s + [extra[n]];
      assert (s + [extra[n]])[..|s|] == s;
      PushedKey(Collect(s, Unchanged, HasToken), extra[n], TokenOf);
    }
  }

  lemma TidyIsClean(c: Credential, fallbackID: string)
    requires Tidy(c)
    ensures CleanForHandler(c, fallbackID) == c
  {
  }

  lemma OrderlyIsClean(cs: seq<Credential>)
    requires Orderly(cs)
    ensures FromExplicit(cs) == cs
  {
    forall i | 0 <= i < |cs|
      ensures FromExplicit(cs)[i] == cs[i]
    {
      assert Tidy(cs[i]);
      TidyIsClean(cs[i], ExplicitID(i));
    }
  }

  lemma PlainTokenIsTrimmed(tokens: seq<string>, i: nat)
    requires i < |tokens|
    ensures FromTokens(tokens)[i].token == Trim(tokens[i])
  {
  }

  lemma PlainTokensAreKnown(cs: seq<Credential>, c: Credential)
    requires Orderly(cs) && c in FromTokens(TokenValues(cs))
    ensures HasKey(cs, TokenOf, c.token)
  {
    TokenValuesAreTokens(cs);
    var tokens := TokenValues(cs);
    var i :| 0 <= i < |tokens| && c == FromTokens(tokens)[i];
    PlainTokenIsTrimmed(tokens, i);
    assert Tidy(cs[i]);
    assert TokenOf(cs[i]) == c.token;
  }

  /** Orderly credentials go through the handler's pass unchanged, whatever known tokens come with them. */
  lemma SecondPassIsIdentity(cs: seq<Credential>, primary: string)
    requires Orderly(cs) && (Trim(primary) == "" || HasKey(cs, TokenOf, Trim(primary)))
    ensures HandlerCredentials(primary, TokenValues(cs), cs) == cs
  {
    var first, rest := FromPrimary(primary), FromTokens(TokenValues(cs));
    assert first.token == Trim(primary);
    forall c | c in [first] + rest
      ensures c.token == "" || HasKey(cs, TokenOf, c.token)
    {
      if c in rest {
        PlainTokensAreKnown(cs, c);
      }
    }
    KnownTokensAddNothing(cs, [first] + rest);
    OrderlyIsClean(cs);
    assert FromExplicit(cs) + [first] + rest == cs + ([first] + rest);
  }

  // ---- The whole pipeline ----

  datatype ReadRoutes = ReadRoutes(query: bool, catalog: bool, kafkaDiagnostics: bool, kafkaMetrics: bool, eventBus: string)

  datatype LoadError = BadCredential(reason: CredentialError) | KafkaRequired | CredentialRequired | QueryTokenRequired

  datatype QueryConfig = QueryConfig(queryToken: string, queryTokens: seq<string>, queryCredentials: seq<Credential>)

  /** The credential part of loading a configuration. */
  method LoadQueryConfig(env: CredentialEnv, routes: ReadRoutes) returns (r: Result<QueryConfig, LoadError>)
    ensures r.Ok? ==> Loaded(env, routes, r.value)
    ensures r.Err? && r.error.BadCredential? ==> Merges(Offers(env), Err(r.error.reason))
    ensures r.Err? && !r.error.BadCredential? ==>
              exists cs :: Merges(Offers(env), Ok(cs)) && Refused(routes, cs, r.error)
  {
    var credentials := QueryCredentialsFromEnv(env);
    if credentials.Err? {
      return Err(BadCredential(credentials.error));
    }
    var tokens := QueryTokenValues(credentials.value);
    assert Merges(Offers(env), Ok(credentials.value));
    if routes.kafkaDiagnostics {
      if routes.eventBus != "kafka" {
        return Err(KafkaRequired);
      }
      if |credentials.value| == 0 {
        return Err(CredentialRequired);
      }
    }
    if routes.kafkaMetrics {
      if routes.eventBus != "kafka" {
        return Err(KafkaRequired);
      }
      if |credentials.value| == 0 {
        return Err(CredentialRequired);
      }
    }
    ConfiguredAreOrderly(env, credentials.value);
    TokenValuesAreTokens(credentials.value);
    if routes.query && |tokens| == 0 {
      return Err(QueryTokenRequired);
    }
    return Ok(QueryConfig(Trim(env.token), tokens, credentials.value));
  }

  /** Why read routes are refused: the Kafka routes need the Kafka bus, and every route a credential. */
  ghost predicate Refused(routes: ReadRoutes, cs: seq<Credential>, e: LoadError) {
    match e
    case KafkaRequired => (routes.kafkaDiagnostics || routes.kafkaMetrics) && routes.eventBus != "kafka"
    case CredentialRequired => (routes.kafkaDiagnostics || routes.kafkaMetrics) && cs == []
    case QueryTokenRequired => routes.query && cs == []
    case BadCredential(_) => false
  }

  /** A configuration that loads has a credential for its read routes, and the Kafka bus for the Kafka ones. */
  lemma LoadedMeaning(env: CredentialEnv, routes: ReadRoutes, cfg: QueryConfig)
    requires Loaded(env, routes, cfg)
    ensures routes.query || routes.kafkaDiagnostics || routes.kafkaMetrics ==> cfg.queryCredentials != []
    ensures routes.kafkaDiagnostics || routes.kafkaMetrics ==> routes.eventBus == "kafka"
  {
    ConfiguredAreOrderly(env, cfg.queryCredentials);
    TokenValuesAreTokens(cfg.queryCredentials);
  }

  predicate RoutesAllowed(routes: ReadRoutes, tokens: seq<string>, cs: seq<Credential>) {
    && (routes.kafkaDiagnostics || routes.kafkaMetrics ==> routes.eventBus == "kafka" && cs != [])
    && (routes.query ==> tokens != [])
  }

  ghost predicate Loaded(env: CredentialEnv, routes: ReadRoutes, cfg: QueryConfig) {
    && Merges(Offers(env), Ok(cfg.queryCredentials))
    && cfg.queryToken == Trim(env.token)
    && cfg.queryTokens == TokenValues(cfg.queryCredentials)
    && RoutesAllowed(routes, cfg.queryTokens, cfg.queryCredentials)
  }

  /** The handler refuses read routes without a credential. */
  method NewHandlerCredentials(cfg: QueryConfig, routes: ReadRoutes) returns (r: Option<seq<Credential>>)
    ensures r == AssembledCredentials(cfg, routes)
  {
    var explicit := ToQueryCredentials(cfg.queryCredentials);
    var credentials := NormalizeQueryCredentials(cfg.queryToken, cfg.queryTokens, explicit);
    var queryReader, catalog := routes.query, routes.query && routes.catalog;
    if (queryReader || catalog || routes.kafkaDiagnostics || routes.kafkaMetrics) && |credentials| == 0 {
      return None;
    }
    return Some(credentials);
  }

  ghost function AssembledCredentials(cfg: QueryConfig, routes: ReadRoutes): Option<seq<Credential>> {
    var cs := HandlerCredentials(cfg.queryToken, cfg.queryTokens, cfg.queryCredentials);
    if (routes.query || routes.kafkaDiagnostics || routes.kafkaMetrics) && cs == [] then None else Some(cs)
  }

  /** The handler is refused exactly when a read route is on and no token is given in any way. */
  lemma RefusedWithoutToken(cfg: QueryConfig, routes: ReadRoutes)
    ensures AssembledCredentials(cfg, routes).None? <==>
            && (routes.query || routes.kafkaDiagnostics || routes.kafkaMetrics)
            && Trim(cfg.queryToken) == "" && (forall t <- cfg.queryTokens :: Trim(t) == "") && forall c <- cfg.queryCredentials :: Trim(c.token) == ""
  {
    var cs := HandlerCredentials(cfg.queryToken, cfg.queryTokens, cfg.queryCredentials);
    if cs == [] {
      HandlerKeepsEveryToken(cfg.queryToken, cfg.queryTokens, cfg.queryCredentials, Trim(cfg.queryToken));
      forall t | t in cfg.queryTokens
        ensures Trim(t) == ""
      {
        HandlerKeepsEveryToken(cfg.queryToken, cfg.queryTokens, cfg.queryCredentials, Trim(t));
      }
      forall c | c in cfg.queryCredentials
        ensures Trim(c.token) == ""
      {
        HandlerKeepsEveryToken(cfg.queryToken, cfg.queryTokens, cfg.queryCredentials, Trim(c.token));
      }
    } else {
      HandlerKeepsEveryToken(cfg.queryToken, cfg.queryTokens, cfg.queryCredentials, cs[0].token);
      assert HasKey(cs, TokenOf, TokenOf(cs[0]));
    }
  }

  /** A configuration that loads gives the handler exactly its own credentials, and never the missing-token error. */
  lemma PipelineIsStable(env: CredentialEnv, routes: ReadRoutes, cfg: QueryConfig)
    requires Loaded(env, routes, cfg)
    ensures AssembledCredentials(cfg, routes) == Some(cfg.queryCredentials)
    ensures Orderly(cfg.queryCredentials)
  {
    ConfiguredAreOrderly(env, cfg.queryCredentials);
    TrimIsIdempotent(env.token);
    SecondPassIsIdentity(cfg.queryCredentials, cfg.queryToken);
  }

  // ---- Deciding on one token ----

  datatype AuthState = Unknown | Allowed | AllowedGrace | Expired | NotYetValid

  datatype Decision = Decision(credential: Credential, state: AuthState)

  predicate Accepted(s: AuthState) {
    s.Allowed? || s.AllowedGrace?
  }

  /** c's window holds at now; unset bounds do not count. */
  predicate InWindow(c: Credential, now: int) {
    (c.notBefore == UNSET || c.notBefore <= now) && (c.expiresAt == UNSET || now < c.expiresAt)
  }

  ghost function StateAt(c: Credential, index: nat, now: int): AuthState {
    if InWindow(c, now) then if index == 0 then Allowed else AllowedGrace
    else if c.notBefore != UNSET && now < c.notBefore then NotYetValid
    else Expired
  }

  /** The last position that holds the token, or -1. */
  ghost function LastWith(accepted: seq<Credential>, token: string): (i: int)
    ensures -1 <= i < |accepted|
  {
    if accepted == [] then -1
    else if accepted[|accepted| - 1].token == token then |accepted| - 1
    else LastWith(accepted[..|accepted| - 1], token)
  }

  ghost function Authorized(raw: string, accepted: seq<Credential>, now: int): Decision {
    var i := LastWith(accepted, Trim(raw));
    if Trim(raw) == "" || i < 0 then Decision(EMPTY_CREDENTIAL, Unknown)
    else Decision(accepted[i], StateAt(accepted[i], i, now))
  }

  /** Compares the token with every credential; the last match decides. */
  method AuthorizeQueryToken(raw: string, accepted: seq<Credential>, now: int) returns (d: Decision)
    ensures d == Authorized(raw, accepted, now)
  {
    var value := Trim(raw);
    if value == "" {
      return Decision(EMPTY_CREDENTIAL, Unknown);
    }
    var matched := -1;
    for i := 0 to |accepted|
      invariant matched == LastWith(accepted[..i], value)
    {
      assert accepted[..i + 1][..i] == accepted[..i];
      if accepted[i].token == value {
        matched := i;
      }
    }
    assert accepted[..|accepted|] == accepted;
    if matched < 0 {
      return Decision(EMPTY_CREDENTIAL, Unknown);
    }
    var credential := accepted[matched];
    if credential.notBefore != UNSET && now < credential.notBefore {
      return Decision(credential, NotYetValid);
    }
    if credential.expiresAt != UNSET && now >= credential.expiresAt {
      return Decision(credential, Expired);
    }
    if matched > 0 {
      return Decision(credential, AllowedGrace);
    }
    return Decision(credential, Allowed);
  }

  lemma {:induction false} LastWithIsLast(accepted: seq<Credential>, token: string)
    ensures
      var i := LastWith(accepted, token);
      && (i >= 0 ==> accepted[i].token == token)
      && forall j :: i < j < |accepted| ==> accepted[j].token != token
  {
    if accepted != [] {
      LastWithIsLast(accepted[..|accepted| - 1], token);
    }
  }

  /** With tokens of their own, the full scan finds the one match: it decides, and only an unlisted or blank token is unknown. */
  lemma UniqueMatchDecides(raw: string, accepted: seq<Credential>, now: int)
    requires DistinctBy(accepted, TokenOf)
    ensures Authorized(raw, accepted, now).state == Unknown <==> Trim(raw) == "" || !HasKey(accepted, TokenOf, Trim(raw))
    ensures forall i :: 0 <= i < |accepted| && accepted[i].token == Trim(raw) != "" ==>
                          Authorized(raw, accepted, now) == Decision(accepted[i], StateAt(accepted[i], i, now))
  {
    LastWithIsLast(accepted, Trim(raw));
    var i := LastWith(accepted, Trim(raw));
    assert forall j :: 0 <= j < |accepted| ==> TokenOf(accepted[j]) == accepted[j].token;
    if i >= 0 {
      assert TokenOf(accepted[i]) == Trim(raw);
    }
  }

  function Stage(s: AuthState): nat {
    match s
    case NotYetValid => 0
    case Allowed => 1
    case AllowedGrace => 1
    case _ => 2
  }

  /**
   * Over time a token only moves from not yet valid to accepted to expired; it is accepted exactly in its window,
   * in the grace state exactly when it is not the first, and a window that is not inverted holds at some instant.
   */
  lemma TokenLifecycle(c: Credential, index: nat, now: int, later: int)
    requires now <= later
    ensures Stage(StateAt(c, index, now)) <= Stage(StateAt(c, index, later))
    ensures Accepted(StateAt(c, index, now)) <==> (c.notBefore == 0 || c.notBefore <= now) && (c.expiresAt == 0 || now < c.expiresAt)
    ensures StateAt(c, index, now) == Allowed <==> InWindow(c, now) && index == 0
    ensures StateAt(c, index, now) == AllowedGrace <==> InWindow(c, now) && index > 0
    ensures StateAt(c, index, now) == NotYetValid <==> c.notBefore != 0 && now < c.notBefore
    ensures StateAt(c, index, now) != Unknown
    ensures !Inverted(c) <==> exists t :: InWindow(c, t)
  {
    if !Inverted(c) {
      var t := if c.notBefore != UNSET then c.notBefore else c.expiresAt - 1;
      assert InWindow(c, t);
    }
  }

  predicate AllowsReadbackRoute(c: Credential, route: ReadbackRoute) {
    c.scopes == [] || route in c.scopes
  }

  predicate AllowsWriteKey(c: Credential, rawKey: string) {
    Trim(rawKey) == "" || c.allowedWriteKeys == [] || Trim(rawKey) in c.allowedWriteKeys
  }
}
