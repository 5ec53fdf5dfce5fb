// Per-call option composition: each option sets one field of a
// zero-valued options record, and the build functions apply the options
// to that record in list order. EmbeddingOptions and TransportOptions have
// the same five fields; RankingOptions, ChunkingOptions, SegmentingOptions
// and SparseEmbeddingOptions share a three-field record.

module CallOptions {

  import opened Common
  import opened Headers
  import opened Metadata

  /** api.EmbeddingOptions / api.TransportOptions. A `None` base URL is a nil pointer. */
  datatype CallOptions = CallOptions(
    headers: Header,
    apiKey: string,
    baseURL: Option<string>,
    useRawBaseURL: bool,
    providerMetadata: Option<Bag>)

  /** The zero value every build starts from. */
  const ZeroOptions := CallOptions(map[], "", None, false, None)

  /** The base URL read as a plain string, "" when unset, for the readers that take it as a string. */
  function BaseURLText(o: CallOptions): (u: string)
    ensures o.baseURL.Some? ==> u == o.baseURL.value
    ensures o.baseURL.None? ==> u == ""
  {
    o.baseURL.OrElse("")
  }

  /** The fields of the record, so that "changes only its own field" can be stated once. */
  datatype Field = HeadersField | APIKeyField | BaseURLField | UseRawBaseURLField | ProviderMetadataField

  datatype FieldValue =
    | HeadersValue(h: Header)
    | APIKeyValue(k: string)
    | BaseURLValue(u: Option<string>)
    | UseRawValue(b: bool)
    | MetadataValue(bag: Option<Bag>)

  function FieldOf(o: CallOptions, f: Field): FieldValue
  {
    match f
      case HeadersField => HeadersValue(o.headers)
      case APIKeyField => APIKeyValue(o.apiKey)
      case BaseURLField => BaseURLValue(o.baseURL)
      case UseRawBaseURLField => UseRawValue(o.useRawBaseURL)
      case ProviderMetadataField => MetadataValue(o.providerMetadata)
  }

  /** The single-field setters: WithXHeaders, WithXAPIKey, WithXProviderMetadata, WithXBaseURL, WithXUseRawBaseURL. */
  datatype Setter =
    | WithHeaders(headers: Header)
    | WithAPIKey(apiKey: string)
    | WithProviderMetadata(provider: string, metadata: MetaValue)
    | WithBaseURL(baseURL: string)
    | WithUseRawBaseURL

  /** The one field a setter writes. */
  function Target(s: Setter): Field
  {
    match s
      case WithHeaders(_) => HeadersField
      case WithAPIKey(_) => APIKeyField
      case WithProviderMetadata(_, _) => ProviderMetadataField
      case WithBaseURL(_) => BaseURLField
      case WithUseRawBaseURL => UseRawBaseURLField
  }

  /** What a setter other than the metadata one leaves in its field, whatever was there before. */
  function Written(s: Setter): FieldValue
    requires !s.WithProviderMetadata?
  {
    match s
      case WithHeaders(h) => HeadersValue(h)
      case WithAPIKey(k) => APIKeyValue(k)
      case WithBaseURL(u) => BaseURLValue(Some(u))
      case WithUseRawBaseURL => UseRawValue(true)
  }

  /** Running one option closure on the record. */
  function ApplySetter(o: CallOptions, s: Setter): (r: CallOptions)
    ensures forall f :: f != Target(s) ==> FieldOf(r, f) == FieldOf(o, f)
    ensures !s.WithProviderMetadata? ==> FieldOf(r, Target(s)) == Written(s)
    ensures s.WithProviderMetadata? ==> r.providerMetadata == Some(Store(o.providerMetadata, s.provider, s.metadata))
  {
    match s
      case WithHeaders(h) => o.(headers := h)
      case WithAPIKey(k) => o.(apiKey := k)
      case WithProviderMetadata(p, v) => o.(providerMetadata := Some(Store(o.providerMetadata, p, v)))
      case WithBaseURL(u) => o.(baseURL := Some(u))
      case WithUseRawBaseURL => o.(useRawBaseURL := true)
  }

  /** Applying `opts` to `o` in list order. */
  function FoldSetters(o: CallOptions, opts: seq<Setter>): CallOptions
  {
    if opts == [] then o else ApplySetter(FoldSetters(o, opts[..|opts| - 1]), opts[|opts| - 1])
  }

  /** buildTransportConfig: the options applied to a zero-valued record, in order. */
  method BuildTransportConfig(opts: seq<Setter>) returns (config: CallOptions)
    ensures config == FoldSetters(ZeroOptions, opts)
  {
    config := ZeroOptions;
    for i := 0 to |opts|
      invariant config == FoldSetters(ZeroOptions, opts[..i])
    {
      assert opts[..i + 1][..i] == opts[..i];
      config := ApplySetter(config, opts[i]);
    }
    assert opts[..|opts|] == opts;
  }

  /** Folding a concatenation is folding the second list over the result of the first. */
  lemma {:induction false} FoldSettersAppend(o: CallOptions, a: seq<Setter>, b: seq<Setter>)
    ensures FoldSetters(o, a + b) == FoldSetters(FoldSetters(o, a), b)
    decreases |b|
  {
    if b == [] {
      assert a + b == a;
    } else {
      assert (a + b)[..|a + b| - 1] == a + b[..|b| - 1];
      FoldSettersAppend(o, a, b[..|b| - 1]);
    }
  }

  /** A field no option targets keeps the value it had before the options ran. */
  lemma {:induction false} UntouchedField(o: CallOptions, opts: seq<Setter>, f: Field)
    requires forall i :: 0 <= i < |opts| ==> Target(opts[i]) != f
    ensures FieldOf(FoldSetters(o, opts), f) == FieldOf(o, f)
    decreases |opts|
  {
    if opts != [] {
      UntouchedField(o, opts[..|opts| - 1], f);
    }
  }

  /** Of the options writing a (non-metadata) field, the last one decides its value. */
  lemma LastWriteWins(o: CallOptions, opts: seq<Setter>, i: nat)
    requires i < |opts| && !opts[i].WithProviderMetadata?
    requires forall j :: i < j < |opts| ==> Target(opts[j]) != Target(opts[i])
    ensures FieldOf(FoldSetters(o, opts), Target(opts[i])) == Written(opts[i])
  {
    assert opts == opts[..i + 1] + opts[i + 1..];
    FoldSettersAppend(o, opts[..i + 1], opts[i + 1..]);
    assert opts[..i + 1][..i] == opts[..i];
    UntouchedField(FoldSetters(o, opts[..i + 1]), opts[i + 1..], Target(opts[i]));
  }

  /** An entry of the bag is kept by every later option that does not set the same provider. */
  lemma {:induction false} MetadataEntryKept(o: CallOptions, opts: seq<Setter>, p: string)
    requires forall j :: 0 <= j < |opts| ==> !(opts[j].WithProviderMetadata? && opts[j].provider == p)
    ensures Lookup(FoldSetters(o, opts).providerMetadata, p) == Lookup(o.providerMetadata, p)
    decreases |opts|
  {
    if opts != [] {
      MetadataEntryKept(o, opts[..|opts| - 1], p);
    }
  }

  /**
   * The bag is created on first use and reused afterwards, so a metadata
   * entry survives every later option except one for the same provider.
   */
  lemma MetadataEntrySurvives(o: CallOptions, opts: seq<Setter>, i: nat)
    requires i < |opts| && opts[i].WithProviderMetadata?
    requires forall j :: i < j < |opts| ==> !(opts[j].WithProviderMetadata? && opts[j].provider == opts[i].provider)
    ensures Lookup(FoldSetters(o, opts).providerMetadata, opts[i].provider) == Some(opts[i].metadata)
  {
    assert opts == opts[..i + 1] + opts[i + 1..];
    FoldSettersAppend(o, opts[..i + 1], opts[i + 1..]);
    assert opts[..i + 1][..i] == opts[..i];
    MetadataEntryKept(FoldSetters(o, opts[..i + 1]), opts[i + 1..], opts[i].provider);
  }

  /** Two metadata options for different providers both end up in the one bag. */
  lemma MetadataMerges(p: string, v: MetaValue, q: string, w: MetaValue)
    requires p != q
    ensures Lookup(FoldSetters(ZeroOptions, [WithProviderMetadata(p, v), WithProviderMetadata(q, w)]).providerMetadata, p) == Some(v)
    ensures Lookup(FoldSetters(ZeroOptions, [WithProviderMetadata(p, v), WithProviderMetadata(q, w)]).providerMetadata, q) == Some(w)
  {
    MetadataEntrySurvives(ZeroOptions, [WithProviderMetadata(p, v), WithProviderMetadata(q, w)], 0);
    MetadataEntrySurvives(ZeroOptions, [WithProviderMetadata(p, v), WithProviderMetadata(q, w)], 1);
  }

  /** The raw-URL option only ever turns the flag on, so repeating it changes nothing. */
  lemma UseRawBaseURLIdempotent(o: CallOptions)
    ensures ApplySetter(ApplySetter(o, WithUseRawBaseURL), WithUseRawBaseURL) == ApplySetter(o, WithUseRawBaseURL)
    ensures ApplySetter(o, WithUseRawBaseURL).useRawBaseURL
  {
  }

  /** The headers option replaces the whole table: nothing of an earlier table is merged in. */
  lemma HeadersReplaced(o: CallOptions, h1: Header, h2: Header)
    ensures FoldSetters(o, [WithHeaders(h1), WithHeaders(h2)]).headers == h2
  {
    LastWriteWins(o, [WithHeaders(h1), WithHeaders(h2)], 1);
  }

  // ---- EmbeddingOption: the setters plus a whole-record replacement ----

  /** An EmbeddingOption: one of the setters, or WithEmbeddingEmbeddingOptions, which overwrites the record. */
  datatype EmbeddingOption = Field(setter: Setter) | WithEmbeddingOptions(options: CallOptions)

  function ApplyEmbedding(o: CallOptions, e: EmbeddingOption): CallOptions
  {
    match e
      case Field(s) => ApplySetter(o, s)
      case WithEmbeddingOptions(r) => r
  }

  function FoldEmbedding(o: CallOptions, opts: seq<EmbeddingOption>): CallOptions
  {
    if opts == [] then o else ApplyEmbedding(FoldEmbedding(o, opts[..|opts| - 1]), opts[|opts| - 1])
  }

  /** buildEmbeddingConfig (and the loop at the top of the OpenAI encoder). */
  method BuildEmbeddingConfig(opts: seq<EmbeddingOption>) returns (config: CallOptions)
    ensures config == FoldEmbedding(ZeroOptions, opts)
  {
    config := ZeroOptions;
    for i := 0 to |opts|
      invariant config == FoldEmbedding(ZeroOptions, opts[..i])
    {
      assert opts[..i + 1][..i] == opts[..i];
      config := ApplyEmbedding(config, opts[i]);
    }
    assert opts[..|opts|] == opts;
  }

  /** The setters lifted to embedding options. */
  function Lift(opts: seq<Setter>): (es: seq<EmbeddingOption>)
    ensures |es| == |opts| && forall i :: 0 <= i < |opts| ==> es[i] == Field(opts[i])
  {
    seq(|opts|, i requires 0 <= i < |opts| => Field(opts[i]))
  }

  /** Without a whole-record option, an embedding build is a transport build. */
  lemma {:induction false} EmbeddingMatchesTransport(o: CallOptions, opts: seq<Setter>)
    ensures FoldEmbedding(o, Lift(opts)) == FoldSetters(o, opts)
    decreases |opts|
  {
    if opts != [] {
      assert Lift(opts)[..|opts| - 1] == Lift(opts[..|opts| - 1]);
      EmbeddingMatchesTransport(o, opts[..|opts| - 1]);
    }
  }

  lemma {:induction false} FoldEmbeddingAppend(o: CallOptions, a: seq<EmbeddingOption>, b: seq<EmbeddingOption>)
    ensures FoldEmbedding(o, a + b) == FoldEmbedding(FoldEmbedding(o, a), b)
    decreases |b|
  {
    if b == [] {
      assert a + b == a;
    } else {
      assert (a + b)[..|a + b| - 1] == a + b[..|b| - 1];
      FoldEmbeddingAppend(o, a, b[..|b| - 1]);
    }
  }

  /** WithEmbeddingEmbeddingOptions discards the effect of every option before it. */
  lemma ReplaceDiscardsEarlier(o: CallOptions, before: seq<EmbeddingOption>, r: CallOptions, after: seq<EmbeddingOption>)
    ensures FoldEmbedding(o, before + [WithEmbeddingOptions(r)] + after) == FoldEmbedding(r, after)
  {
    FoldEmbeddingAppend(o, before + [WithEmbeddingOptions(r)], after);
    assert (before + [WithEmbeddingOptions(r)])[..|before|] == before;
  }

  /**
   * Option order matters: a whole-record replacement after a setter erases
   * what the setter wrote, while a setter after a replacement is kept on
   * top of the replacing record.
   */
  lemma ReplaceOrderMatters(o: CallOptions, k: string, replacement: CallOptions)
    ensures FoldEmbedding(o, [Field(WithAPIKey(k)), WithEmbeddingOptions(replacement)]) == replacement
    ensures FoldEmbedding(o, [WithEmbeddingOptions(replacement), Field(WithAPIKey(k))]) == replacement.(apiKey := k)
  {
    assert [Field(WithAPIKey(k)), WithEmbeddingOptions(replacement)][..1] == [Field(WithAPIKey(k))];
    assert [WithEmbeddingOptions(replacement), Field(WithAPIKey(k))][..1] == [WithEmbeddingOptions(replacement)];
  }

  // ---- The ranking / chunking / segmenting / sparse-embedding options ----

  /** api.RankingOptions, ChunkingOptions, SegmentingOptions and SparseEmbeddingOptions. */
  datatype ScopedOptions = ScopedOptions(headers: Header, baseURL: Option<string>, providerMetadata: Option<Bag>)

  const ZeroScopedOptions := ScopedOptions(map[], None, None)

  /** Their three setters: WithXHeaders, WithXBaseURL and WithXProviderMetadata. */
  datatype ScopedOption =
    | ScopedHeaders(headers: Header)
    | ScopedBaseURL(baseURL: string)
    | ScopedProviderMetadata(provider: string, metadata: MetaValue)

  function ApplyScoped(o: ScopedOptions, s: ScopedOption): (r: ScopedOptions)
    ensures !s.ScopedHeaders? ==> r.headers == o.headers
    ensures !s.ScopedBaseURL? ==> r.baseURL == o.baseURL
    ensures !s.ScopedProviderMetadata? ==> r.providerMetadata == o.providerMetadata
    ensures s.ScopedProviderMetadata? ==> r.providerMetadata == Some(Store(o.providerMetadata, s.provider, s.metadata))
  {
    match s
      case ScopedHeaders(h) => o.(headers := h)
      case ScopedBaseURL(u) => o.(baseURL := Some(u))
      case ScopedProviderMetadata(p, v) => o.(providerMetadata := Some(Store(o.providerMetadata, p, v)))
  }

  function FoldScoped(o: ScopedOptions, opts: seq<ScopedOption>): ScopedOptions
  {
    if opts == [] then o else ApplyScoped(FoldScoped(o, opts[..|opts| - 1]), opts[|opts| - 1])
  }

  /** buildRankingConfig, buildChunkingConfig, buildSegmentingConfig and buildSparseEmbeddingConfig. */
  method BuildScopedConfig(opts: seq<ScopedOption>) returns (config: ScopedOptions)
    ensures config == FoldScoped(ZeroScopedOptions, opts)
  {
    config := ZeroScopedOptions;
    for i := 0 to |opts|
      invariant config == FoldScoped(ZeroScopedOptions, opts[..i])
    {
      assert opts[..i + 1][..i] == opts[..i];
      config := ApplyScoped(config, opts[i]);
    }
    assert opts[..|opts|] == opts;
  }

  /** A scoped setter is the same-named transport setter. */
  function AsSetter(s: ScopedOption): Setter
  {
    match s
      case ScopedHeaders(h) => WithHeaders(h)
      case ScopedBaseURL(u) => WithBaseURL(u)
      case ScopedProviderMetadata(p, v) => WithProviderMetadata(p, v)
  }

  function AsSetters(opts: seq<ScopedOption>): (ss: seq<Setter>)
    ensures |ss| == |opts| && forall i :: 0 <= i < |opts| ==> ss[i] == AsSetter(opts[i])
  {
    seq(|opts|, i requires 0 <= i < |opts| => AsSetter(opts[i]))
  }

  /** The three shared fields of a five-field record. */
  function Scope(o: CallOptions): ScopedOptions
  {
    ScopedOptions(o.headers, o.baseURL, o.providerMetadata)
  }

  /**
   * The scoped records behave exactly as the transport record restricted
   * to their three fields, so every property of the setters above holds
   * for them too.
   */
  lemma {:induction false} ScopedIsRestriction(o: CallOptions, opts: seq<ScopedOption>)
    ensures FoldScoped(Scope(o), opts) == Scope(FoldSetters(o, AsSetters(opts)))
    decreases |opts|
  {
    if opts != [] {
      assert AsSetters(opts)[..|opts| - 1] == AsSetters(opts[..|opts| - 1]);
      ScopedIsRestriction(o, opts[..|opts| - 1]);
    }
  }

  /** The last scoped headers option decides the headers; the last base-URL option decides the base URL. */
  lemma ScopedLastWriteWins(o: ScopedOptions, opts: seq<ScopedOption>, i: nat)
    requires i < |opts| && !opts[i].ScopedProviderMetadata?
    requires forall j :: i < j < |opts| ==> Target(AsSetter(opts[j])) != Target(AsSetter(opts[i]))
    ensures opts[i].ScopedHeaders? ==> FoldScoped(o, opts).headers == opts[i].headers
    ensures opts[i].ScopedBaseURL? ==> FoldScoped(o, opts).baseURL == Some(opts[i].baseURL)
  {
    var t := CallOptions(o.headers, "", o.baseURL, false, o.providerMetadata);
    assert Scope(t) == o;
    ScopedIsRestriction(t, opts);
    LastWriteWins(t, AsSetters(opts), i);
  }

  /** A scoped metadata entry survives every later option except one for the same provider. */
  lemma ScopedMetadataSurvives(o: ScopedOptions, opts: seq<ScopedOption>, i: nat)
    requires i < |opts| && opts[i].ScopedProviderMetadata?
    requires forall j :: i < j < |opts| ==> !(opts[j].ScopedProviderMetadata? && opts[j].provider == opts[i].provider)
    ensures Lookup(FoldScoped(o, opts).providerMetadata, opts[i].provider) == Some(opts[i].metadata)
  {
    var t := CallOptions(o.headers, "", o.baseURL, false, o.providerMetadata);
    assert Scope(t) == o;
    ScopedIsRestriction(t, opts);
    MetadataEntrySurvives(t, AsSetters(opts), i);
  }

  /** A field no scoped option writes keeps its value. */
  lemma ScopedUntouched(o: ScopedOptions, opts: seq<ScopedOption>, f: Field)
    requires forall j :: 0 <= j < |opts| ==> Target(AsSetter(opts[j])) != f
    ensures f == HeadersField ==> FoldScoped(o, opts).headers == o.headers
    ensures f == BaseURLField ==> FoldScoped(o, opts).baseURL == o.baseURL
    ensures f == ProviderMetadataField ==> FoldScoped(o, opts).providerMetadata == o.providerMetadata
  {
    var t := CallOptions(o.headers, "", o.baseURL, false, o.providerMetadata);
    assert Scope(t) == o;
    ScopedIsRestriction(t, opts);
    UntouchedField(t, AsSetters(opts), f);
  }
}
