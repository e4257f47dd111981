/** The collect boundary: which write key counts, and what is published under whose name. */
module Collect {
  import opened Wrappers
  import opened Text
  import opened SourceConfigs
  import opened Resolvers
  import opened Worker
  import M = WriterMachine

  // ---- Write key ----

  /** The carriers of a write key on one request. */
  datatype Carriers = Carriers(header: string, authorization: string, query: string, body: string)

  const BEARER: string := "bearer "

  function BearerToken(raw: string): string {
    var value := Trim(raw);
    if |value| < |BEARER| || Lower(value[..|BEARER|]) != BEARER then "" else Trim(value[|BEARER|..])
  }

  function WriteKey(c: Carriers): string {
    if Trim(c.header) != "" then Trim(c.header)
    else if BearerToken(c.authorization) != "" then BearerToken(c.authorization)
    else if Trim(c.query) != "" then Trim(c.query)
    else Trim(c.body)
  }

  lemma BearerIsTrimmed(raw: string)
    ensures Trim(BearerToken(raw)) == BearerToken(raw)
  {
    TrimIsIdempotent("");
    var value := Trim(raw);
    if |value| >= |BEARER| {
      TrimIsIdempotent(value[|BEARER|..]);
    }
  }

  /** After the scheme in any case and a space comes the token, trimmed. */
  lemma BearerTokenOfScheme(scheme: string, token: string)
    requires SameLetters(scheme, "bearer")
    ensures BearerToken(scheme + " " + token) == Trim(token)
  {
    var before, after := TrimCutsSpace(token);
    if Trim(token) == "" {
      assert token == before + after;
      SchemeAlone(scheme, token);
    } else {
      SchemeAndToken(scheme, before, Trim(token), after);
      Regroup(scheme + " ", token, before, Trim(token), after);
    }
  }

  lemma Regroup(opening: string, token: string, before: string, middle: string, after: string)
    requires token == before + middle + after
    ensures opening + token == opening + (before + middle) + after
  {
  }

  lemma SchemeAlone(scheme: string, blank: string)
    requires SameLetters(scheme, "bearer") && Blank(blank)
    ensures BearerToken(scheme + " " + blank) == ""
  {
    SchemeIsText(scheme);
    TrimIs("", scheme, " " + blank);
    assert "" + scheme + (" " + blank) == scheme + " " + blank;
  }

  lemma SchemeAndToken(scheme: string, before: string, token: string, after: string)
    requires SameLetters(scheme, "bearer") && Blank(before) && Blank(after) && Trimmed(token) && token != ""
    ensures BearerToken((scheme + " ") + (before + token) + after) == token
  {
    SchemeIsText(scheme);
    var value := (scheme + " ") + (before + token);
    assert value[0] == scheme[0] && value[|value| - 1] == token[|token| - 1];
    TrimIs("", value, after);
    assert "" + value + after == value + after;
    TokenBehindScheme(scheme + " ", before + token, value);
    TrimIs(before, token, "");
    assert before + token + "" == before + token;
  }

  lemma TokenBehindScheme(opening: string, rest: string, value: string)
    requires SameLetters(opening, BEARER) && Lower(BEARER) == BEARER && value == opening + rest
    ensures |value| >= |BEARER| && Lower(value[..|BEARER|]) == BEARER && value[|BEARER|..] == rest
  {
    assert value[..|BEARER|] == opening;
    LowerFoldsCase(opening, BEARER);
  }

  lemma SchemeIsText(scheme: string)
    requires SameLetters(scheme, "bearer")
    ensures |scheme| == 6 && !IsSpace(scheme[0]) && !IsSpace(scheme[5]) && SameLetters(scheme + " ", BEARER)
    ensures Lower(BEARER) == BEARER
  {
    assert SameLetter(scheme[0], "bearer"[0]) && SameLetter(scheme[5], "bearer"[5]);
    CleanCase(BEARER);
  }

  lemma CleanCase(s: string)
    requires LowerCase(s)
    ensures Lower(s) == s
  {
  }

  /** Any other header value carries none. */
  lemma OtherHeadersCarryNoToken(raw: string)
    requires BearerToken(raw) != ""
    ensures exists scheme, token :: SameLetters(scheme, "bearer") && Trim(raw) == scheme + " " + token
  {
    var value := Trim(raw);
    var opening := value[..|BEARER|];
    CleanCase(BEARER);
    LowerFoldsCase(opening, BEARER);
    var scheme, token := value[..6], value[7..];
    forall i | 0 <= i < 6
      ensures SameLetter(scheme[i], "bearer"[i])
    {
      assert SameLetter(opening[i], BEARER[i]);
    }
    assert SameLetter(opening[6], BEARER[6]);
    assert value == scheme + " " + token;
  }

  /** Header, bearer token, query, body: the first that is not blank is the key, trimmed. */
  lemma WriteKeyPrecedence(c: Carriers)
    ensures
      var key, header, bearer, query, body := WriteKey(c), Trim(c.header), BearerToken(c.authorization), Trim(c.query), Trim(c.body);
      && Trim(key) == key
      && (header != "" ==> key == header)
      && (header == "" && bearer != "" ==> key == bearer)
      && (header == "" && bearer == "" && query != "" ==> key == query)
      && (header == "" && bearer == "" && query == "" ==> key == body)
      && (key == "" <==> header == "" && bearer == "" && query == "" && body == "")
  {
    TrimIsIdempotent(c.header);
    BearerIsTrimmed(c.authorization);
    TrimIsIdempotent(c.query);
    TrimIsIdempotent(c.body);
  }

  // ---- Collect ----

  /** What the client sent: its own idea of the scope included. */
  datatype Payload = Payload(id: string, key: M.RoutingKey, sourceType: string)

  /** payload is None when the body is not JSON. */
  datatype CollectRequest = CollectRequest(carriers: Carriers, origin: string, payload: Option<Payload>)

  /** How analytics-core ends a request it is given. */
  datatype CoreOutcome = Publishes | Filters | Rejects | Fails

  class Bus {
    var events: seq<M.Envelope>

    constructor ()
      ensures events == []
    {
      events := [];
    }
  }

  /** The event published for a request resolved to r, if any. */
  function PublishedFor(req: CollectRequest, r: Resolution, stagesBuilt: bool, core: CoreOutcome): Option<M.Envelope> {
    if req.payload.Some? && r.Ok? && AllowsOrigin(r.value, req.origin) && stagesBuilt && core.Publishes?
    then Some(M.Envelope(req.payload.value.id, KeyOf(r.value), r.value.sourceType))
    else None
  }

  /** What is published carries the client's event id, and for the rest the resolved source's own boundary. */
  lemma PublishedMeaning(req: CollectRequest, r: Resolution, stagesBuilt: bool, core: CoreOutcome)
    ensures
      var published := PublishedFor(req, r, stagesBuilt, core);
      && (published.Some? <==> req.payload.Some? && r.Ok? && AllowsOrigin(r.value, req.origin) && stagesBuilt && core == Publishes)
      && (published.Some? ==>
            var e, source := published.value, r.value;
            && e.id == req.payload.value.id && e.sourceType == source.sourceType
            && e.key.tenantID == source.tenantID && e.key.projectID == source.projectID && e.key.sourceID == source.sourceID)
  {
  }

  method HandleCollect(req: CollectRequest, resolve: string -> Resolution, stagesBuilt: bool, core: CoreOutcome, bus: Bus) returns (status: int)
    modifies bus
    ensures
      var published := PublishedFor(req, resolve(WriteKey(req.carriers)), stagesBuilt, core);
      && bus.events == old(bus.events) + (if published.Some? then [published.value] else [])
      && (published.Some? ==> status == 202)
      && (status == 202 && published.None? ==> core.Filters?)
    ensures req.payload.None? ==> status == 400
    ensures req.payload.Some? && resolve(WriteKey(req.carriers)).Err? ==>
              var e := resolve(WriteKey(req.carriers)).error;
              status == if e == SourceNotFound then 401 else if e == SourceDisabled then 403 else 500
    ensures req.payload.Some? && resolve(WriteKey(req.carriers)).Ok? ==>
              var allowed := AllowsOrigin(resolve(WriteKey(req.carriers)).value, req.origin);
              && (!allowed ==> status == 403)
              && (allowed && !stagesBuilt ==> status == 500)
              && (allowed && stagesBuilt && core.Rejects? ==> status == 400)
              && (allowed && stagesBuilt && core.Fails? ==> status == 500)
              && (allowed && stagesBuilt && (core.Publishes? || core.Filters?) ==> status == 202)
  {
    if req.payload.None? {
      return 400;
    }
    var resolution := resolve(WriteKey(req.carriers));
    if resolution.Err? {
      return match resolution.error
             case SourceNotFound => 401
             case SourceDisabled => 403
             case _ => 500;
    }
    var source := resolution.value;
    if !AllowsOrigin(source, req.origin) {
      return 403;
    }
    var request := req.payload.value;
    request := request.(key := M.RoutingKey(source.tenantID, source.projectID, source.sourceID));
    request := request.(sourceType := source.sourceType);
    if !stagesBuilt {
      return 500;
    }
    match core {
      case Publishes =>
        bus.events := bus.events + [M.Envelope(request.id, request.key, request.sourceType)];
        return 202;
      case Filters => return 202;
      case Rejects => return 400;
      case Fails => return 500;
    }
  }
}
