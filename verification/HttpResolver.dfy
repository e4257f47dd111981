/** The control-plane resolver: a cache whose hits are always revalidated. */
module HttpResolver {
  import opened Wrappers
  import opened Text
  import opened SourceConfigs
  import opened Resolvers

  datatype CachedSource = CachedSource(source: SourceConfig, etag: string, expiresAt: int)

  type Cache = map<string, CachedSource>

  /** What the control plane's answer amounts to; a body that does not decode is None. */
  datatype Response =
    | NoResponse
    | StatusOK(body: Option<SourceConfig>, etag: string)
    | StatusNotModified(etag: string)
    | StatusNotFound
    | StatusForbidden
    | StatusGone
    | OtherStatus(code: int)

  datatype Fetched = Fetched(source: SourceConfig, etag: string, notModified: bool)

  // ---- Single critical sections ----

  function Fresh(cacheTTL: int, cache: Cache, key: string, now: int): bool {
    cacheTTL > 0 && key in cache && now < cache[key].expiresAt
  }

  function Found(cacheTTL: int, cache: Cache, key: string, now: int): Option<CachedSource> {
    if Fresh(cacheTTL, cache, key, now) then Some(cache[key]) else None
  }

  function AfterLookup(cacheTTL: int, cache: Cache, key: string, now: int): Cache {
    if cacheTTL <= 0 || Fresh(cacheTTL, cache, key, now) then cache else cache - {key}
  }

  function AfterStore(cacheTTL: int, cache: Cache, key: string, source: SourceConfig, etag: string, now: int): Cache {
    if cacheTTL <= 0 then cache else cache[key := CachedSource(source, Trim(etag), now + cacheTTL)]
  }

  /** The If-None-Match header of a request; "" when the header is absent. */
  function RequestHeader(found: Option<CachedSource>): string {
    if found.Some? then Trim(found.value.etag) else ""
  }

  /** How the config in a response body is cleaned and checked for the key it was asked for. */
  type Decoder = (SourceConfig, string) -> Resolution

  ghost function Decoded(body: SourceConfig, key: string): Resolution {
    var source := Normalize(body);
    if source.writeKey != key then Err(WriteKeyMismatch)
    else if Validate(source).Some? then Err(InvalidSource(Validate(source).value))
    else if !source.enabled then Err(SourceDisabled)
    else Ok(source)
  }

  /** The decoder the service runs. What follows about the cache holds for any decoder. */
  ghost function RuntimeDecoder(): Decoder {
    (body, key) => Decoded(body, key)
  }

  ghost function FetchOf(decode: Decoder, response: Response, key: string): Result<Fetched, ResolveError> {
    match response
    case NoResponse => Err(TransportFailed)
    case StatusOK(body, etag) =>
      if body.None? then Err(Undecodable)
      else
        var decoded := decode(body.value, key);
        if decoded.Err? then Err(decoded.error) else Ok(Fetched(decoded.value, Trim(etag), false))
    case StatusNotModified(etag) => Ok(Fetched(EMPTY_SOURCE, Trim(etag), true))
    case StatusNotFound => Err(SourceNotFound)
    case StatusForbidden => Err(SourceDisabled)
    case StatusGone => Err(SourceDisabled)
    case OtherStatus(code) => Err(UnexpectedStatus(code))
  }

  /** How a call ends once its response is in: the answer, and the source and ETag it stores. */
  ghost function Answer(decode: Decoder, found: Option<CachedSource>, response: Response, key: string): Result<(SourceConfig, string), ResolveError> {
    var fetch := FetchOf(decode, response, key);
    if fetch.Err? then Err(fetch.error)
    else if found.Some? && fetch.value.notModified then Ok((found.value.source, found.value.etag))
    else Ok((fetch.value.source, fetch.value.etag))
  }

  function ResultOf(answer: Result<(SourceConfig, string), ResolveError>): Resolution {
    if answer.Err? then Err(answer.error) else Ok(answer.value.0)
  }

  function AfterAnswer(cacheTTL: int, cache: Cache, key: string, answer: Result<(SourceConfig, string), ResolveError>, now: int): Cache {
    if answer.Err? then cache else AfterStore(cacheTTL, cache, key, answer.value.0, answer.value.1, now)
  }

  // ---- The resolver object ----

  class HTTPResolver {
    const cacheTTL: int
    var cache: Cache

    constructor (cacheTTL: int)
      ensures this.cacheTTL == cacheTTL && cache == map[]
    {
      this.cacheTTL := cacheTTL;
      cache := map[];
    }

    method Cached(key: string, now: int) returns (found: Option<CachedSource>)
      modifies this`cache
      ensures found == Found(cacheTTL, old(cache), key, now)
      ensures cache == AfterLookup(cacheTTL, old(cache), key, now)
    {
      if cacheTTL <= 0 {
        return None;
      }
      if key !in cache || !(now < cache[key].expiresAt) {
        cache := cache - {key};
        return None;
      }
      return Some(cache[key]);
    }

    method Store(key: string, source: SourceConfig, etag: string, now: int)
      modifies this`cache
      ensures cache == AfterStore(cacheTTL, old(cache), key, source, etag, now)
    {
      if cacheTTL <= 0 {
        return;
      }
      cache := cache[key := CachedSource(source, Trim(etag), now + cacheTTL)];
    }

    method DecodeRuntimeSource(body: SourceConfig, key: string) returns (r: Resolution)
      ensures r == Decoded(body, key)
    {
      var source := NormalizeSource(body);
      if source.writeKey != key {
        return Err(WriteKeyMismatch);
      }
      var problem := Validate(source);
      if problem.Some? {
        return Err(InvalidSource(problem.value));
      }
      if !source.enabled {
        return Err(SourceDisabled);
      }
      return Ok(source);
    }

    /** The control plane answers as serve does, given the key and the If-None-Match header. */
    method FetchSource(key: string, etag: string, serve: (string, string) -> Response) returns (r: Result<Fetched, ResolveError>)
      ensures r == FetchOf(RuntimeDecoder(), serve(key, Trim(etag)), key)
    {
      match serve(key, Trim(etag)) {
        case NoResponse => return Err(TransportFailed);
        case StatusOK(body, tag) =>
          if body.None? {
            return Err(Undecodable);
          }
          var decoded := DecodeRuntimeSource(body.value, key);
          if decoded.Err? {
            return Err(decoded.error);
          }
          return Ok(Fetched(decoded.value, Trim(tag), false));
        case StatusNotModified(tag) => return Ok(Fetched(EMPTY_SOURCE, Trim(tag), true));
        case StatusNotFound => return Err(SourceNotFound);
        case StatusForbidden => return Err(SourceDisabled);
        case StatusGone => return Err(SourceDisabled);
        case OtherStatus(code) => return Err(UnexpectedStatus(code));
      }
    }

    /** One call that nothing interrupts; ResolverMachine interleaves the same critical sections. */
    method ResolveSource(rawKey: string, serve: (string, string) -> Response, lookedAt: int, storedAt: int) returns (r: Resolution)
      modifies this`cache
      ensures Trim(rawKey) == "" ==> r == Err(SourceNotFound) && cache == old(cache)
      ensures Trim(rawKey) != "" ==>
                var key := Trim(rawKey);
                var found := Found(cacheTTL, old(cache), key, lookedAt);
                var answer := Answer(RuntimeDecoder(), found, serve(key, RequestHeader(found)), key);
                && r == ResultOf(answer)
                && cache == AfterAnswer(cacheTTL, AfterLookup(cacheTTL, old(cache), key, lookedAt), key, answer, storedAt)
    {
      var key := Trim(rawKey);
      if key == "" {
        return Err(SourceNotFound);
      }
      TrimIsIdempotent("");
      var found := Cached(key, lookedAt);
      if found.Some? {
        var cached := found.value;
        var fetch := FetchSource(key, cached.etag, serve);
        if fetch.Err? {
          return Err(fetch.error);
        }
        if fetch.value.notModified {
          Store(key, cached.source, cached.etag, storedAt);
          return Ok(cached.source);
        }
        Store(key, fetch.value.source, fetch.value.etag, storedAt);
        return Ok(fetch.value.source);
      }
      var fetch := FetchSource(key, "", serve);
      if fetch.Err? {
        return Err(fetch.error);
      }
      Store(key, fetch.value.source, fetch.value.etag, storedAt);
      return Ok(fetch.value.source);
    }
  }

  /** An error answer evicts nothing; a lookup evicts exactly the expired entry of its own key. */
  lemma ErrorsDoNotEvict(cacheTTL: int, cache: Cache, key: string, e: ResolveError, now: int)
    ensures AfterAnswer(cacheTTL, cache, key, Err(e), now) == cache
    ensures forall k :: k in cache ==> (k !in AfterLookup(cacheTTL, cache, key, now) <==> cacheTTL > 0 && k == key && cache[k].expiresAt <= now)
    ensures forall k :: k in AfterLookup(cacheTTL, cache, key, now) ==> k in cache && AfterLookup(cacheTTL, cache, key, now)[k] == cache[k]
  {
  }

  /** What was stored under a key is found again exactly while caching is on and the TTL has not passed; other keys are untouched. */
  lemma StoredIsFound(cacheTTL: int, cache: Cache, key: string, source: SourceConfig, etag: string, at: int, now: int)
    ensures
      var after := AfterStore(cacheTTL, cache, key, source, etag, at);
      && (cacheTTL > 0 ==> (Found(cacheTTL, after, key, now) == Some(CachedSource(source, Trim(etag), at + cacheTTL)) <==> now < at + cacheTTL))
      && (cacheTTL > 0 && now >= at + cacheTTL ==> Found(cacheTTL, after, key, now) == None)
      && (cacheTTL <= 0 ==> after == cache && Found(cacheTTL, after, key, now) == None)
      && forall k :: k != key ==> Found(cacheTTL, after, k, now) == Found(cacheTTL, cache, k, now)
  {
  }

  /** A lookup that finds an entry keeps the cache; one that does not leaves other keys' entries to be found. */
  lemma LookupKeepsOthers(cacheTTL: int, cache: Cache, key: string, other: string, now: int, later: int)
    requires now <= later
    ensures other != key || Found(cacheTTL, cache, key, now).Some? ==>
              Found(cacheTTL, AfterLookup(cacheTTL, cache, key, now), other, later) == Found(cacheTTL, cache, other, later)
  {
  }

  /** What each status means to the resolver. */
  lemma StatusMeaning(decode: Decoder, body: SourceConfig, etag: string, key: string, code: int)
    ensures FetchOf(decode, StatusNotFound, key) == Err(SourceNotFound)
    ensures FetchOf(decode, StatusForbidden, key) == FetchOf(decode, StatusGone, key) == Err(SourceDisabled)
    ensures FetchOf(decode, OtherStatus(code), key) == Err(UnexpectedStatus(code))
    ensures FetchOf(decode, NoResponse, key) == Err(TransportFailed) && FetchOf(decode, StatusOK(None, etag), key) == Err(Undecodable)
    ensures FetchOf(decode, StatusOK(Some(body), etag), key).Ok? <==> decode(body, key).Ok?
    ensures decode(body, key).Err? ==> FetchOf(decode, StatusOK(Some(body), etag), key) == Err(decode(body, key).error)
  {
  }

  /** An enabled source whose body is the key's own and valid is served, normalized, and stored with its ETag. */
  lemma HealthySourceIsServed(found: Option<CachedSource>, body: SourceConfig, etag: string, key: string)
    requires body.enabled && Normalize(body).writeKey == key && Valid(Normalize(body))
    ensures Answer(RuntimeDecoder(), found, StatusOK(Some(body), etag), key) == Ok((Normalize(body), Trim(etag)))
  {
  }

  /** A decoded answer is trusted: the key's own source, clean, valid and enabled. */
  lemma DecodedIsServable(body: SourceConfig, key: string)
    ensures Decoded(body, key).Ok? ==>
              Decoded(body, key).value == Normalize(body) && Servable(key, Decoded(body, key).value) && body.enabled
    ensures Decoded(body, key).Err? ==>
              Decoded(body, key).error.WriteKeyMismatch? || Decoded(body, key).error.InvalidSource? || Decoded(body, key).error.SourceDisabled?
  {
    NormalizeIsIdempotent(body);
  }

  /** Which body is refused for which reason: its key is checked first, then its fields, then whether it is enabled. */
  lemma DecodedMeaning(body: SourceConfig, key: string)
    ensures
      var r, source := Decoded(body, key), Normalize(body);
      && (r == Err(WriteKeyMismatch) <==> Trim(body.writeKey) != key)
      && (r.Err? && r.error.InvalidSource? <==> Trim(body.writeKey) == key && !Valid(source))
      && (r.Err? && r.error.InvalidSource? ==> Validate(source) == Some(r.error.reason))
      && (r == Err(SourceDisabled) <==> Trim(body.writeKey) == key && Valid(source) && !body.enabled)
      && (r.Ok? <==> Trim(body.writeKey) == key && Valid(source) && body.enabled)
  {
    NormalizationKeepsNames(body);
  }

  /** Why 304 may only answer If-None-Match: after a miss the flag is ignored, and an empty source is handed out and stored. */
  lemma UnconditionalNotModified(decode: Decoder, key: string, etag: string)
    ensures ResultOf(Answer(decode, None, StatusNotModified(etag), key)) == Ok(EMPTY_SOURCE) && !EMPTY_SOURCE.enabled
  {
  }
}
