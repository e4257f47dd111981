/** The resolvers that answer from configuration known at startup. */
module Resolvers {
  import opened Wrappers
  import opened Text
  import opened Lists
  import opened SourceConfigs

  datatype ResolveError =
    | SourceNotFound | SourceDisabled | OutsideSchemaSurface
    | Undecodable | WriteKeyMismatch | InvalidSource(reason: ConfigError) | TransportFailed | UnexpectedStatus(code: int)

  type Resolution = Result<SourceConfig, ResolveError>

  /** What every resolver promises of a source it hands out: it is the presented key's own, clean, valid and enabled. */
  ghost predicate Trusted(rawKey: string, r: Resolution) {
    r.Ok? ==> Servable(Trim(rawKey), r.value)
  }

  ghost predicate Servable(key: string, c: SourceConfig) {
    c.writeKey == key && Normalized(c) && Valid(c) && c.enabled
  }

  /** The configured sources as every startup pass sees them. */
  ghost function NormalizedAll(configured: seq<SourceConfig>): (cs: seq<SourceConfig>)
    ensures |cs| == |configured|
    ensures forall i :: 0 <= i < |configured| ==> cs[i] == Normalize(configured[i])
  {
    seq(|configured|, i requires 0 <= i < |configured| => Normalize(configured[i]))
  }

  lemma NormalizedAllIsNormalized(configured: seq<SourceConfig>, c: SourceConfig)
    requires c in NormalizedAll(configured)
    ensures Normalized(c)
  {
    var i :| 0 <= i < |configured| && c == NormalizedAll(configured)[i];
    NormalizeIsIdempotent(configured[i]);
  }

  /** An enabled body, configured or published, with this write key and these names after trimming. */
  ghost predicate Describes(body: SourceConfig, key: string, tenantID: string, projectID: string, sourceID: string, sourceType: string) {
    body.enabled && Trim(body.writeKey) == key && KeepsNames(body, tenantID, projectID, sourceID, sourceType)
  }

  ghost predicate DescribesSource(body: SourceConfig, c: SourceConfig) {
    Describes(body, c.writeKey, c.tenantID, c.projectID, c.sourceID, c.sourceType)
  }

  lemma NormalFormIsDescribed(body: SourceConfig, c: SourceConfig)
    requires body.enabled && c == Normalize(body)
    ensures DescribesSource(body, c)
  {
    NormalizationKeepsNames(body);
  }

  // ---- Memory ----

  datatype StartupError = BadSource(index: nat, reason: ConfigError) | DuplicateWriteKey(index: nat)

  datatype MemoryResolver = MemoryResolver(sources: map<string, SourceConfig>)
  {
    function ResolveSource(rawKey: string): Resolution {
      var key := Trim(rawKey);
      if key !in sources then Err(SourceNotFound)
      else if !sources[key].enabled then Err(SourceDisabled)
      else Ok(sources[key])
    }

    /** The index holds exactly the given sources, each under its own write key. */
    ghost predicate Indexes(cs: seq<SourceConfig>) {
      && (forall c <- cs :: c.writeKey in sources && sources[c.writeKey] == c)
      && (forall k :: k in sources ==> sources[k].writeKey == k && sources[k] in cs)
    }
  }

  /** The sources are valid and have write keys of their own. */
  ghost predicate Sound(cs: seq<SourceConfig>) {
    && (forall c <- cs :: Valid(c))
    && (forall i, j :: 0 <= i < j < |cs| ==> cs[i].writeKey != cs[j].writeKey)
  }

  /** Source i is the first, in order, that is invalid or repeats an earlier write key. */
  ghost predicate FirstFault(cs: seq<SourceConfig>, i: nat, e: StartupError) {
    && i < |cs| && Sound(cs[..i])
    && (match e
        case BadSource(at, reason) => at == i && Validate(cs[i]) == Some(reason)
        case DuplicateWriteKey(at) => at == i && Valid(cs[i]) && exists c :: c in cs[..i] && c.writeKey == cs[i].writeKey)
  }

  method NewMemoryResolver(configured: seq<SourceConfig>) returns (r: Result<MemoryResolver, StartupError>)
    ensures r.Ok? <==> Sound(NormalizedAll(configured))
    ensures r.Ok? ==> r.value.Indexes(NormalizedAll(configured))
    ensures r.Err? ==> FirstFault(NormalizedAll(configured), r.error.index, r.error)
  {
    ghost var cs := NormalizedAll(configured);
    var index: map<string, SourceConfig> := map[];
    for i := 0 to |configured|
      invariant |cs| == |configured| && cs == NormalizedAll(configured)
      invariant Sound(cs[..i])
      invariant MemoryResolver(index).Indexes(cs[..i])
    {
      var source := NormalizeSource(configured[i]);
      assert source == cs[i];
      var problem := Validate(source);
      if problem.Some? {
        NotSound(cs, i);
        return Err(BadSource(i, problem.value));
      }
      if source.writeKey in index {
        NotSound(cs, i);
        return Err(DuplicateWriteKey(i));
      }
      IndexOneMore(cs, i, index);
      index := index[source.writeKey := source];
    }
    assert cs[..|configured|] == cs;
    return Ok(MemoryResolver(index));
  }

  lemma NotSound(cs: seq<SourceConfig>, n: nat)
    requires n < |cs|
    ensures !Valid(cs[n]) ==> !Sound(cs)
    ensures (exists c :: c in cs[..n] && c.writeKey == cs[n].writeKey) ==> !Sound(cs)
  {
    if exists c :: c in cs[..n] && c.writeKey == cs[n].writeKey {
      var i :| 0 <= i < n && cs[..n][i].writeKey == cs[n].writeKey;
      assert cs[i] == cs[..n][i];
    }
  }

  lemma IndexOneMore(cs: seq<SourceConfig>, n: nat, index: map<string, SourceConfig>)
    requires n < |cs| && Sound(cs[..n]) && MemoryResolver(index).Indexes(cs[..n])
    requires Valid(cs[n]) && cs[n].writeKey !in index
    ensures Sound(cs[..n + 1])
    ensures MemoryResolver(index[cs[n].writeKey := cs[n]]).Indexes(cs[..n + 1])
  {
    assert cs[..n + 1] == cs[..n] + [cs[n]];
    forall i | 0 <= i < n
      ensures cs[i].writeKey != cs[n].writeKey
    {
      assert cs[..n][i] == cs[i] && cs[i] in cs[..n];
    }
  }

  /** A memory resolution is trusted and is one of the configured sources. */
  lemma MemoryIsTrusted(r: MemoryResolver, configured: seq<SourceConfig>, rawKey: string)
    requires Sound(NormalizedAll(configured)) && r.Indexes(NormalizedAll(configured))
    ensures Trusted(rawKey, r.ResolveSource(rawKey))
    ensures r.ResolveSource(rawKey).Ok? ==> r.ResolveSource(rawKey).value in NormalizedAll(configured)
  {
    var key := Trim(rawKey);
    if key in r.sources {
      NormalizedAllIsNormalized(configured, r.sources[key]);
    }
  }

  /** What memory answers has the trimmed key presented and the trimmed names of an enabled configured body. */
  lemma MemoryNamesItsBody(r: MemoryResolver, configured: seq<SourceConfig>, rawKey: string)
    requires r.Indexes(NormalizedAll(configured)) && r.ResolveSource(rawKey).Ok?
    ensures r.ResolveSource(rawKey).value.writeKey == Trim(rawKey)
    ensures exists body :: body in configured && DescribesSource(body, r.ResolveSource(rawKey).value)
  {
    var c := r.ResolveSource(rawKey).value;
    var i :| 0 <= i < |configured| && c == NormalizedAll(configured)[i];
    NormalizationKeepsNames(configured[i]);
    NormalFormIsDescribed(configured[i], c);
    assert configured[i] in configured;
  }

  /** Every configured source is answered under its own key, or reported disabled. */
  lemma MemoryAnswersEverySource(r: MemoryResolver, configured: seq<SourceConfig>, rawKey: string, c: SourceConfig)
    requires r.Indexes(NormalizedAll(configured)) && c in NormalizedAll(configured) && c.writeKey == Trim(rawKey)
    ensures r.ResolveSource(rawKey) == if c.enabled then Ok(c) else Err(SourceDisabled)
  {
  }

  /** Any other key is not found. */
  lemma MemoryKnowsNoOtherKey(r: MemoryResolver, configured: seq<SourceConfig>, rawKey: string)
    requires r.Indexes(NormalizedAll(configured)) && forall body <- configured :: Trim(body.writeKey) != Trim(rawKey)
    ensures r.ResolveSource(rawKey) == Err(SourceNotFound)
  {
    var key := Trim(rawKey);
    if key in r.sources {
      var body := NormalizedFrom(configured, r.sources[key]);
      NormalizationKeepsNames(body);
    }
  }

  // ---- Schema surface ----

  datatype SchemaSurfaceKey =
    SchemaSurfaceKey(writeKey: string, tenantID: string, projectID: string, sourceID: string, sourceType: string)

  function SurfaceKey(c: SourceConfig): SchemaSurfaceKey {
    SchemaSurfaceKey(c.writeKey, c.tenantID, c.projectID, c.sourceID, c.sourceType)
  }

  /** The boundaries of the enabled sources. */
  ghost predicate OnSurface(cs: seq<SourceConfig>, k: SchemaSurfaceKey) {
    exists c :: c in cs && c.enabled && k == SurfaceKey(c)
  }

  datatype SchemaBoundResolver = SchemaBoundResolver(allow: set<SchemaSurfaceKey>)
  {
    ghost predicate Covers(cs: seq<SourceConfig>) {
      forall k :: k in allow <==> OnSurface(cs, k)
    }

    /** Gates the inner resolver's answer. */
    method ResolveSource(inner: Resolution) returns (r: Resolution)
      ensures r == Bound(inner)
    {
      if inner.Err? {
        return inner;
      }
      var source := NormalizeSource(inner.value);
      if SurfaceKey(source) !in allow {
        return Err(OutsideSchemaSurface);
      }
      return Ok(source);
    }

    ghost function Bound(inner: Resolution): Resolution {
      if inner.Err? then inner
      else if SurfaceKey(Normalize(inner.value)) in allow then Ok(Normalize(inner.value))
      else Err(OutsideSchemaSurface)
    }
  }

  ghost predicate EnabledAreValid(cs: seq<SourceConfig>) {
    forall c <- cs :: c.enabled ==> Valid(c)
  }

  lemma SurfaceOneMore(cs: seq<SourceConfig>, n: nat, allow: set<SchemaSurfaceKey>)
    requires n < |cs| && EnabledAreValid(cs[..n]) && SchemaBoundResolver(allow).Covers(cs[..n])
    ensures !cs[n].enabled ==> EnabledAreValid(cs[..n + 1]) && SchemaBoundResolver(allow).Covers(cs[..n + 1])
    ensures cs[n].enabled && Valid(cs[n]) ==>
              EnabledAreValid(cs[..n + 1]) && SchemaBoundResolver(allow + {SurfaceKey(cs[n])}).Covers(cs[..n + 1])
  {
    assert cs[..n + 1] == cs[..n] + [cs[n]];
    assert cs[n] in cs[..n + 1];
    forall k
      ensures OnSurface(cs[..n + 1], k) <==> OnSurface(cs[..n], k) || (cs[n].enabled && k == SurfaceKey(cs[n]))
    {
    }
  }

  method NewSchemaBoundResolver(configured: seq<SourceConfig>) returns (r: Result<SchemaBoundResolver, StartupError>)
    ensures r.Ok? <==> EnabledAreValid(NormalizedAll(configured))
    ensures r.Ok? ==> r.value.Covers(NormalizedAll(configured))
  {
    ghost var cs := NormalizedAll(configured);
    var allow: set<SchemaSurfaceKey> := {};
    for i := 0 to |configured|
      invariant |cs| == |configured| && cs == NormalizedAll(configured)
      invariant EnabledAreValid(cs[..i]) && SchemaBoundResolver(allow).Covers(cs[..i])
    {
      var source := NormalizeSource(configured[i]);
      assert source == cs[i];
      SurfaceOneMore(cs, i, allow);
      if !source.enabled {
        continue;
      }
      var problem := Validate(source);
      if problem.Some? {
        assert cs[i] in cs && !Valid(cs[i]);
        return Err(BadSource(i, problem.value));
      }
      allow := allow + {SurfaceKey(source)};
    }
    assert cs[..|configured|] == cs;
    return Ok(SchemaBoundResolver(allow));
  }

  /** The gate keeps trust, keeps the answer unchanged, and lets through only sources with a startup surface. */
  lemma BoundIsTrusted(b: SchemaBoundResolver, cs: seq<SourceConfig>, rawKey: string, inner: Resolution)
    requires b.Covers(cs) && Trusted(rawKey, inner)
    ensures Trusted(rawKey, b.Bound(inner))
    ensures b.Bound(inner).Ok? ==> b.Bound(inner) == inner
    ensures b.Bound(inner).Ok? <==> inner.Ok? && OnSurface(cs, SurfaceKey(inner.value))
  {
  }

  /** A source is on the startup surface if and only if an enabled configured body has its key, its names and its type. */
  lemma SurfaceNamesItsBody(configured: seq<SourceConfig>, c: SourceConfig)
    ensures OnSurface(NormalizedAll(configured), SurfaceKey(c)) <==> exists body :: body in configured && DescribesSource(body, c)
  {
    if OnSurface(NormalizedAll(configured), SurfaceKey(c)) {
      var body := SurfaceHasBody(configured, c);
    }
    if body :| body in configured && DescribesSource(body, c) {
      BodyIsOnSurface(configured, body, c);
    }
  }

  lemma SurfaceHasBody(configured: seq<SourceConfig>, c: SourceConfig) returns (body: SourceConfig)
    requires OnSurface(NormalizedAll(configured), SurfaceKey(c))
    ensures body in configured && DescribesSource(body, c)
  {
    var d :| d in NormalizedAll(configured) && d.enabled && SurfaceKey(c) == SurfaceKey(d);
    body := NormalizedFrom(configured, d);
    DescribedByNormalForm(body, c);
  }

  lemma NormalizedFrom(configured: seq<SourceConfig>, d: SourceConfig) returns (body: SourceConfig)
    requires d in NormalizedAll(configured)
    ensures body in configured && d == Normalize(body)
  {
    var i :| 0 <= i < |configured| && NormalizedAll(configured)[i] == d;
    body := configured[i];
  }

  lemma BodyIsOnSurface(configured: seq<SourceConfig>, body: SourceConfig, c: SourceConfig)
    requires body in configured && DescribesSource(body, c)
    ensures OnSurface(NormalizedAll(configured), SurfaceKey(c))
  {
    DescribedByNormalForm(body, c);
    var i :| 0 <= i < |configured| && configured[i] == body;
    assert NormalizedAll(configured)[i] == Normalize(body);
  }

  lemma DescribedByNormalForm(body: SourceConfig, c: SourceConfig)
    ensures DescribesSource(body, c) <==> Normalize(body).enabled && SurfaceKey(c) == SurfaceKey(Normalize(body))
  {
    NormalizationKeepsNames(body);
  }

  /** The gate passes exactly the sources that an enabled startup body names. */
  lemma BoundPassesNamed(b: SchemaBoundResolver, configured: seq<SourceConfig>, rawKey: string, inner: Resolution)
    requires b.Covers(NormalizedAll(configured)) && Trusted(rawKey, inner)
    ensures b.Bound(inner).Ok? <==> inner.Ok? && exists body :: body in configured && DescribesSource(body, inner.value)
    ensures b.Bound(inner) == if inner.Err? || b.Bound(inner).Ok? then inner else Err(OutsideSchemaSurface)
  {
    BoundIsTrusted(b, NormalizedAll(configured), rawKey, inner);
    if inner.Ok? {
      SurfaceNamesItsBody(configured, inner.value);
    }
  }
}
