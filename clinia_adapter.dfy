// The Clinia provider (provider/clinia): options folded into a
// construction record; a provider that requires a requester, taken from
// the given client options before the explicit one; model constructors
// that check for a missing model client first and then the model name
// and version; call methods that encode and validate before touching the
// model client; and a segmenter that borrows a requester per call and
// closes it on every path. The model clients and the requester are
// parameters: the Clinia client library is not part of this model.

module CliniaAdapter {

  import opened Common
  import opened Text
  import opened Api
  import opened CallOptions
  import opened ModelId
  import opened CliniaWire
  import opened CliniaClient
  import opened CliniaCodec

  // ---- Provider options ----

  datatype ProviderOption =
    | WithName(name: string)
    | WithRequester(requester: Option<Requester>)
    | WithClientOptions(options: ClientOptions)

  /** providerOptions: the record the option closures write. */
  datatype ProviderOptions = ProviderOptions(name: string, requester: Option<Requester>, clientOptions: Option<ClientOptions>)

  const DefaultName := "clinia"

  const InitialOptions := ProviderOptions(DefaultName, None, None)

  datatype Slot = NameSlot | RequesterSlot | ClientOptionsSlot

  datatype SlotValue = NameValue(name: string) | RequesterValue(requester: Option<Requester>) | ClientOptionsValue(options: Option<ClientOptions>)

  function SlotOf(opt: ProviderOption): Slot
  {
    match opt
      case WithName(_) => NameSlot
      case WithRequester(_) => RequesterSlot
      case WithClientOptions(_) => ClientOptionsSlot
  }

  function SlotValueOf(o: ProviderOptions, s: Slot): SlotValue
  {
    match s
      case NameSlot => NameValue(o.name)
      case RequesterSlot => RequesterValue(o.requester)
      case ClientOptionsSlot => ClientOptionsValue(o.clientOptions)
  }

  /** What an option stores; WithClientOptions stores the copy it captured, requester included. */
  function Written(opt: ProviderOption): SlotValue
  {
    match opt
      case WithName(n) => NameValue(n)
      case WithRequester(q) => RequesterValue(q)
      case WithClientOptions(c) => ClientOptionsValue(Some(c))
  }

  /** One option closure: it writes its own field and leaves the others alone. */
  function ApplyOption(o: ProviderOptions, opt: ProviderOption): (r: ProviderOptions)
    ensures SlotValueOf(r, SlotOf(opt)) == Written(opt)
    ensures forall s :: s != SlotOf(opt) ==> SlotValueOf(r, s) == SlotValueOf(o, s)
  {
    match opt
      case WithName(n) => o.(name := n)
      case WithRequester(q) => o.(requester := q)
      case WithClientOptions(c) => o.(clientOptions := Some(c))
  }

  /** The options applied in order. */
  function Configure(o: ProviderOptions, opts: seq<ProviderOption>): ProviderOptions
  {
    if opts == [] then o else ApplyOption(Configure(o, opts[..|opts| - 1]), opts[|opts| - 1])
  }

  /** The last option writing a field decides it. */
  lemma {:induction false} LastOptionWins(o: ProviderOptions, opts: seq<ProviderOption>, i: nat)
    requires i < |opts|
    requires forall j :: i < j < |opts| ==> SlotOf(opts[j]) != SlotOf(opts[i])
    ensures SlotValueOf(Configure(o, opts), SlotOf(opts[i])) == Written(opts[i])
    decreases |opts|
  {
    if i < |opts| - 1 {
      LastOptionWins(o, opts[..|opts| - 1], i);
    }
  }

  /** A field no option writes keeps its initial value. */
  lemma {:induction false} UntouchedSlot(o: ProviderOptions, opts: seq<ProviderOption>, s: Slot)
    requires forall j :: 0 <= j < |opts| ==> SlotOf(opts[j]) != s
    ensures SlotValueOf(Configure(o, opts), s) == SlotValueOf(o, s)
    decreases |opts|
  {
    if opts != [] {
      UntouchedSlot(o, opts[..|opts| - 1], s);
    }
  }

  /** Without WithName the provider is called "clinia". */
  lemma DefaultNameKept(opts: seq<ProviderOption>)
    requires forall j :: 0 <= j < |opts| ==> !opts[j].WithName?
    ensures Configure(InitialOptions, opts).name == DefaultName
  {
    UntouchedSlot(InitialOptions, opts, NameSlot);
  }

  // ---- Provider ----

  /**
   * The provider's fields. `sparse` and `newChunker` are read by the
   * sparse-embedding and segmenting constructors although NewProvider
   * never sets them; they keep their zero value (nil).
   */
  datatype Provider = Provider(
    name: string,
    clientOptions: ClientOptions,
    embedder: Option<Backend>,
    ranker: Option<Backend>,
    chunker: Option<Backend>,
    sparse: Option<Backend>,
    newChunker: Option<Factory>)

  const RequesterRequired := Failure("clinia/provider: requester is required")

  /** The client options NewProvider starts from: the captured ones, or the zero value. */
  function StoredOptions(o: ProviderOptions): ClientOptions
  {
    if o.clientOptions.Some? then o.clientOptions.value else ZeroClientOptions
  }

  /** The requester NewProvider binds: the one inside the client options, else the explicit one. */
  function BoundRequester(o: ProviderOptions): (r: Option<Requester>)
    ensures StoredOptions(o).requester.Some? ==> r == StoredOptions(o).requester
    ensures StoredOptions(o).requester.None? ==> r == o.requester
  {
    if StoredOptions(o).requester.Some? then StoredOptions(o).requester else o.requester
  }

  /**
   * NewProvider: with no requester in the client options and none given
   * explicitly, an error and no provider. Otherwise the name from the
   * options, the stored client options with the bound requester, and an
   * embedder, ranker and chunker each built from those options.
   */
  method NewProvider(opts: seq<ProviderOption>,
                     newEmbedder: ClientOptions -> Backend, newRanker: ClientOptions -> Backend, newChunker: ClientOptions -> Backend)
    returns (r: Result<Provider>)
    ensures var o := Configure(InitialOptions, opts);
      BoundRequester(o).None? ==> r == Err(RequesterRequired)
    ensures var o := Configure(InitialOptions, opts);
      BoundRequester(o).Some? ==>
        && r.Ok? && r.value.name == o.name
        && r.value.clientOptions == StoredOptions(o).(requester := BoundRequester(o))
        && r.value.embedder == Some(newEmbedder(r.value.clientOptions))
        && r.value.ranker == Some(newRanker(r.value.clientOptions))
        && r.value.chunker == Some(newChunker(r.value.clientOptions))
        && r.value.sparse.None? && r.value.newChunker.None?
  {
    var options := InitialOptions;
    for i := 0 to |opts|
      invariant options == Configure(InitialOptions, opts[..i])
    {
      assert opts[..i + 1][..i] == opts[..i];
      options := ApplyOption(options, opts[i]);
    }
    assert opts[..|opts|] == opts;
    var clientOpts := ZeroClientOptions;
    if options.clientOptions.Some? {
      clientOpts := options.clientOptions.value;
    }
    if clientOpts.requester.None? {
      clientOpts := clientOpts.(requester := options.requester);
    }
    if clientOpts.requester.None? {
      return Err(RequesterRequired);
    }
    var embedder := newEmbedder(clientOpts);
    var ranker := newRanker(clientOpts);
    var chunker := newChunker(clientOpts);
    return Ok(Provider(options.name, clientOpts, Some(embedder), Some(ranker), Some(chunker), None, None));
  }

  /** A requester carried by the last WithClientOptions wins over any WithRequester, wherever it stands. */
  lemma ClientOptionsRequesterWins(opts: seq<ProviderOption>, i: nat)
    requires i < |opts| && opts[i].WithClientOptions? && opts[i].options.requester.Some?
    requires forall j :: i < j < |opts| ==> !opts[j].WithClientOptions?
    ensures BoundRequester(Configure(InitialOptions, opts)) == opts[i].options.requester
  {
    LastOptionWins(InitialOptions, opts, i);
  }

  /** Without WithClientOptions the bound requester is the last WithRequester's, and none without one. */
  lemma ExplicitRequesterUsed(opts: seq<ProviderOption>)
    requires forall j :: 0 <= j < |opts| ==> !opts[j].WithClientOptions?
    ensures BoundRequester(Configure(InitialOptions, opts)) == Configure(InitialOptions, opts).requester
  {
    UntouchedSlot(InitialOptions, opts, ClientOptionsSlot);
  }

  /** providerNameFor: the provider's name, a dot, and the component. */
  function ProviderNameFor(p: Provider, component: string): string
  {
    p.name + "." + component
  }

  // ---- Models ----

  /**
   * ProviderConfig: what a model keeps of its provider. Each model file
   * fills the fields it reads (embedder, ranker, chunker, sparse or
   * newChunker) and leaves the rest at their zero value.
   */
  datatype ProviderConfig = ProviderConfig(
    providerName: string,
    clientOptions: ClientOptions,
    embedder: Option<Backend>,
    ranker: Option<Backend>,
    chunker: Option<Backend>,
    sparse: Option<Backend>,
    newChunker: Option<Factory>)

  /** The shape every Clinia model shares: the id, the name and version it calls with, and its config. */
  datatype Model = Model(modelID: string, modelName: string, modelVersion: string, config: ProviderConfig)

  /** buildModelID: "name:version". */
  function BuildModelID(name: string, version: string): string
  {
    name + ":" + version
  }

  /** A model id built from a validated name without a colon parses back into that name and version. */
  lemma BuildModelIDParses(component: string, name: string, version: string)
    requires name != "" && version != "" && TrimSpace(name) == name && TrimSpace(version) == version
    requires ':' !in name
    ensures SplitModelID(component, BuildModelID(name, version)) == Ok(NameVersion(name, version))
  {
    var id := BuildModelID(name, version);
    assert id == name + [':'] + version;
    assert id[0] == name[0] && id[|id| - 1] == version[|version| - 1];
    TrimSpaceUnpadded(id);
    SplitModelIDViaValidate(component, id, name, version);
    TrimSpaceEmptyIffBlank(name);
    TrimSpaceEmptyIffBlank(version);
  }

  const DefaultModelVersion := "1"

  /**
   * NewEmbeddingModel: without an embedder, an error. Otherwise the id as
   * given, the lenient parse of it with version "1" by default, and the
   * provider's embedder under "<provider>.embedding".
   */
  function NewEmbeddingModel(p: Provider, modelID: string): (r: Result<Model>)
    ensures p.embedder.None? ==> r == Err(Failure("clinia/embed: provider embedder is nil"))
    ensures p.embedder.Some? ==> r.Ok? && r.value.modelID == modelID
    ensures p.embedder.Some? ==>
      Identifier(r.value.modelName, r.value.modelVersion) == SplitModelIdentifier(modelID, DefaultModelVersion)
    ensures p.embedder.Some? ==>
      r.value.config == ProviderConfig(ProviderNameFor(p, "embedding"), ZeroClientOptions, p.embedder, None, None, None, None)
  {
    if p.embedder.None? then Err(Failure("clinia/embed: provider embedder is nil"))
    else
      var id := SplitModelIdentifier(modelID, DefaultModelVersion);
      Ok(Model(modelID, id.name, id.version,
        ProviderConfig(ProviderNameFor(p, "embedding"), ZeroClientOptions, p.embedder, None, None, None, None)))
  }

  /** An embedding model always calls with a non-empty version. */
  lemma EmbeddingVersionNonEmpty(p: Provider, modelID: string)
    requires NewEmbeddingModel(p, modelID).Ok?
    ensures NewEmbeddingModel(p, modelID).value.modelVersion != ""
  {
    var id := SplitModelIdentifier(modelID, DefaultModelVersion);
    assert id.version != "";
  }

  /**
   * DoEmbed: an encoding error ends the call before the embedder is used;
   * otherwise the embedder is called once with the encoded name, version
   * and request, its error is returned as is, and its reply is decoded.
   * A model always holds an embedder: its constructor refuses to build one
   * without it, so the source dereferences it without a check.
   */
  method DoEmbed(m: Model, values: seq<string>, opts: CallOptions,
                 embed: (Backend, string, string, EmbedRequest) -> Result<Option<EmbedResponse>>,
                 widen: Float32 -> Float64)
    returns (r: Result<EmbeddingResponse>, invoked: bool)
    requires m.config.embedder.Some?
    ensures var enc := EncodeEmbedding(m.modelName, m.modelVersion, values, opts);
      enc.Err? ==> r == Err(enc.error) && !invoked
    ensures var enc := EncodeEmbedding(m.modelName, m.modelVersion, values, opts);
      enc.Ok? ==>
        var res := embed(m.config.embedder.value, enc.value.modelName, enc.value.modelVersion, enc.value.request);
        && invoked
        && (res.Err? ==> r == Err(res.error))
        && (res.Ok? ==> r == EmbeddingDecoding(res.value, widen))
  {
    var params := EncodeEmbedding(m.modelName, m.modelVersion, values, opts);
    if params.Err? {
      return Err(params.error), false;
    }
    var res := embed(m.config.embedder.value, params.value.modelName, params.value.modelVersion, params.value.request);
    if res.Err? {
      return Err(res.error), true;
    }
    r := DecodeEmbedding(res.value, widen);
    invoked := true;
  }

  /** ChunkingModel: no chunker, then a blank name, then a blank version are refused; otherwise the trimmed parts. */
  function NewChunkingModel(p: Provider, modelName: string, modelVersion: string): (r: Result<Model>)
    ensures p.chunker.None? ==> r == Err(Failure("clinia/chunk: provider chunker is nil"))
    ensures p.chunker.Some? && ValidateNameVersion("chunk", modelName, modelVersion).Err? ==>
      r == Err(ValidateNameVersion("chunk", modelName, modelVersion).error)
    ensures p.chunker.Some? && ValidateNameVersion("chunk", modelName, modelVersion).Ok? ==>
      var nv := ValidateNameVersion("chunk", modelName, modelVersion).value;
      r == Ok(Model(BuildModelID(nv.name, nv.version), nv.name, nv.version,
        ProviderConfig(ProviderNameFor(p, "chunker"), ZeroClientOptions, None, None, p.chunker, None, None)))
  {
    if p.chunker.None? then Err(Failure("clinia/chunk: provider chunker is nil"))
    else
      var v := ValidateNameVersion("chunk", modelName, modelVersion);
      if v.Err? then Err(v.error)
      else
        Ok(Model(BuildModelID(v.value.name, v.value.version), v.value.name, v.value.version,
          ProviderConfig(ProviderNameFor(p, "chunker"), ZeroClientOptions, None, None, p.chunker, None, None)))
  }

  /** NewRankingModel: no ranker, then a blank name, then a blank version are refused; otherwise the trimmed parts. */
  function NewRankingModel(p: Provider, modelName: string, modelVersion: string): (r: Result<Model>)
    ensures p.ranker.None? ==> r == Err(Failure("clinia/rank: provider ranker is nil"))
    ensures p.ranker.Some? && ValidateNameVersion("rank", modelName, modelVersion).Err? ==>
      r == Err(ValidateNameVersion("rank", modelName, modelVersion).error)
    ensures p.ranker.Some? && ValidateNameVersion("rank", modelName, modelVersion).Ok? ==>
      var nv := ValidateNameVersion("rank", modelName, modelVersion).value;
      r == Ok(Model(BuildModelID(nv.name, nv.version), nv.name, nv.version,
        ProviderConfig(ProviderNameFor(p, "ranker"), ZeroClientOptions, None, p.ranker, None, None, None)))
  {
    if p.ranker.None? then Err(Failure("clinia/rank: provider ranker is nil"))
    else
      var v := ValidateNameVersion("rank", modelName, modelVersion);
      if v.Err? then Err(v.error)
      else
        Ok(Model(BuildModelID(v.value.name, v.value.version), v.value.name, v.value.version,
          ProviderConfig(ProviderNameFor(p, "ranker"), ZeroClientOptions, None, p.ranker, None, None, None)))
  }

  /**
   * NewSparseEmbeddingModel: no sparse embedder, then a blank name, then a
   * blank version are refused; otherwise the trimmed parts, but an id
   * built from the arguments as given.
   */
  function NewSparseEmbeddingModel(p: Provider, modelName: string, modelVersion: string): (r: Result<Model>)
    ensures p.sparse.None? ==> r == Err(Failure("clinia/sparse: provider sparse embedder is nil"))
    ensures p.sparse.Some? && ValidateNameVersion("sparse", modelName, modelVersion).Err? ==>
      r == Err(ValidateNameVersion("sparse", modelName, modelVersion).error)
    ensures p.sparse.Some? && ValidateNameVersion("sparse", modelName, modelVersion).Ok? ==>
      var nv := ValidateNameVersion("sparse", modelName, modelVersion).value;
      r == Ok(Model(BuildModelID(modelName, modelVersion), nv.name, nv.version,
        ProviderConfig(ProviderNameFor(p, "sparse_embedding"), ZeroClientOptions, None, None, None, p.sparse, None)))
  {
    if p.sparse.None? then Err(Failure("clinia/sparse: provider sparse embedder is nil"))
    else
      var v := ValidateNameVersion("sparse", modelName, modelVersion);
      if v.Err? then Err(v.error)
      else
        Ok(Model(BuildModelID(modelName, modelVersion), v.value.name, v.value.version,
          ProviderConfig(ProviderNameFor(p, "sparse_embedding"), ZeroClientOptions, None, None, None, p.sparse, None)))
  }

  /**
   * Padding around the name survives in a sparse model's id but not in the
   * name it calls with: " name " gives the id " name :version" and the name "name".
   */
  lemma SparseIdKeepsPadding(p: Provider, name: string, version: string)
    requires p.sparse.Some?
    requires name != "" && Unpadded(name) && version != "" && Unpadded(version)
    ensures var padded := [' '] + name + [' '];
      var r := NewSparseEmbeddingModel(p, padded, version);
      r.Ok? && r.value.modelID == padded + ":" + version && r.value.modelName == name && r.value.modelVersion == version
  {
    PaddedNameValidates(name, version);
  }

  /** A name with one space on each side is accepted and trimmed to the bare name. */
  lemma PaddedNameValidates(name: string, version: string)
    requires name != "" && Unpadded(name) && version != "" && Unpadded(version)
    ensures ValidateNameVersion("sparse", [' '] + name + [' '], version) == Ok(NameVersion(name, version))
  {
    var right := name + [' '];
    var padded := [' '] + right;
    assert padded == [' '] + name + [' '];
    assert TrimLeft(padded) == right by {
      assert padded[1..] == right;
      assert right[0] == name[0];
    }
    assert TrimRight(right) == name by {
      assert right[..|right| - 1] == name;
      TrimSpaceUnpadded(name);
      assert TrimRight(name) == name;
    }
    TrimSpaceUnpadded(version);
    assert !AllSpace(padded) by {
      assert padded[1] == name[0];
    }
    assert !AllSpace(version) by {
      assert !IsSpace(version[0]);
    }
  }

  /**
   * Chunk: the texts are encoded first (an empty list is refused before
   * the chunker is looked at), then a missing chunker is an error, then
   * the chunker is called once and its error returned or its reply decoded.
   */
  method Chunk(m: Model, texts: seq<string>, opts: ScopedOptions,
               chunk: (Backend, string, string, ChunkRequest) -> Result<Option<ChunkResponse>>)
    returns (r: Result<ChunkingResponse>, invoked: bool)
    ensures EncodeChunk(texts, opts).Err? ==> r == Err(EncodeChunk(texts, opts).error) && !invoked
    ensures EncodeChunk(texts, opts).Ok? && m.config.chunker.None? ==>
      r == Err(Failure("clinia/chunk: chunker is nil")) && !invoked
    ensures EncodeChunk(texts, opts).Ok? && m.config.chunker.Some? ==>
      var res := chunk(m.config.chunker.value, m.modelName, m.modelVersion, EncodeChunk(texts, opts).value.request);
      && invoked
      && (res.Err? ==> r == Err(res.error))
      && (res.Ok? ==> r == ChunkDecoding(res.value))
  {
    var params := EncodeChunk(texts, opts);
    if params.Err? {
      return Err(params.error), false;
    }
    if m.config.chunker.None? {
      return Err(Failure("clinia/chunk: chunker is nil")), false;
    }
    var res := chunk(m.config.chunker.value, m.modelName, m.modelVersion, params.value.request);
    if res.Err? {
      return Err(res.error), true;
    }
    r := DecodeChunk(res.value);
    invoked := true;
  }

  /**
   * Rank: query and texts are encoded and validated first, then a missing
   * ranker is an error, then the ranker is called once and its error
   * returned or its reply decoded.
   */
  method Rank(m: Model, query: string, texts: seq<string>, opts: ScopedOptions,
              rank: (Backend, string, string, RankRequest) -> Result<Option<RankResponse>>,
              widen: Float32 -> Float64)
    returns (r: Result<RankingResponse>, invoked: bool)
    ensures var enc := EncodeRank(m.modelName, m.modelVersion, query, texts, opts);
      enc.Err? ==> r == Err(enc.error) && !invoked
    ensures var enc := EncodeRank(m.modelName, m.modelVersion, query, texts, opts);
      enc.Ok? && m.config.ranker.None? ==> r == Err(Failure("clinia/rank: ranker is nil")) && !invoked
    ensures var enc := EncodeRank(m.modelName, m.modelVersion, query, texts, opts);
      enc.Ok? && m.config.ranker.Some? ==>
        var res := rank(m.config.ranker.value, m.modelName, m.modelVersion, enc.value.request);
        && invoked
        && (res.Err? ==> r == Err(res.error))
        && (res.Ok? ==> r == RankDecoding(res.value, widen))
  {
    var params := EncodeRank(m.modelName, m.modelVersion, query, texts, opts);
    if params.Err? {
      return Err(params.error), false;
    }
    if m.config.ranker.None? {
      return Err(Failure("clinia/rank: ranker is nil")), false;
    }
    var res := rank(m.config.ranker.value, m.modelName, m.modelVersion, params.value.request);
    if res.Err? {
      return Err(res.error), true;
    }
    r := DecodeRank(res.value, widen);
    invoked := true;
  }

  /**
   * SparseEmbed: the texts are encoded and validated first, then a missing
   * sparse embedder is an error, then it is called once with the encoded
   * name, version and request, and its error returned or its reply decoded.
   */
  method SparseEmbed(m: Model, texts: seq<string>, opts: ScopedOptions,
                     embed: (Backend, string, string, SparseEmbedRequest) -> Result<Option<SparseEmbedResponse>>,
                     widen: Float32 -> Float64)
    returns (r: Result<SparseEmbeddingResponse>, invoked: bool)
    ensures var enc := EncodeSparseEmbedding(m.modelName, m.modelVersion, texts, opts);
      enc.Err? ==> r == Err(enc.error) && !invoked
    ensures var enc := EncodeSparseEmbedding(m.modelName, m.modelVersion, texts, opts);
      enc.Ok? && m.config.sparse.None? ==> r == Err(Failure("clinia/sparse: sparse embedder is nil")) && !invoked
    ensures var enc := EncodeSparseEmbedding(m.modelName, m.modelVersion, texts, opts);
      enc.Ok? && m.config.sparse.Some? ==>
        var res := embed(m.config.sparse.value, m.modelName, m.modelVersion, enc.value.request);
        && invoked
        && (res.Err? ==> r == Err(res.error))
        && (res.Ok? ==> r == SparseDecoding(res.value, widen))
  {
    var params := EncodeSparseEmbedding(m.modelName, m.modelVersion, texts, opts);
    if params.Err? {
      return Err(params.error), false;
    }
    if m.config.sparse.None? {
      return Err(Failure("clinia/sparse: sparse embedder is nil")), false;
    }
    var res := embed(m.config.sparse.value, params.value.modelName, params.value.modelVersion, params.value.request);
    if res.Err? {
      return Err(res.error), true;
    }
    r := DecodeSparseEmbedding(res.value, widen);
    invoked := true;
  }

  // ---- Segmenter ----

  /**
   * Segmenter: a model id that does not parse is that parse error, with
   * the provider's name as the component; otherwise the id as given, the
   * parsed name and version, the provider's client options and chunker
   * factory, under "<provider>.segmenter".
   */
  function Segmenter(p: Provider, modelID: string): (r: Result<Model>)
    ensures SplitModelID(p.name, modelID).Err? ==> r == Err(SplitModelID(p.name, modelID).error)
    ensures SplitModelID(p.name, modelID).Ok? ==>
      var nv := SplitModelID(p.name, modelID).value;
      r == Ok(Model(modelID, nv.name, nv.version,
        ProviderConfig(ProviderNameFor(p, "segmenter"), p.clientOptions, None, None, None, None, p.newChunker)))
  {
    var split := SplitModelID(p.name, modelID);
    if split.Err? then Err(split.error)
    else
      Ok(Model(modelID, split.value.name, split.value.version,
        ProviderConfig(ProviderNameFor(p, "segmenter"), p.clientOptions, None, None, None, None, p.newChunker)))
  }

  /** The segmenting options as the call options the segment encoder takes. */
  function AsCallOptions(o: ScopedOptions): CallOptions
  {
    CallOptions(o.headers, "", o.baseURL, false, o.providerMetadata)
  }

  /**
   * DoSegment. An encoding error ends the call before any requester
   * exists. A requester that cannot be made, or is nil, ends it before any
   * chunker is built. Once a requester exists it is closed last on every
   * path; a missing factory, a factory returning nil, a chunker error and
   * a decode error each give the zero response and win over the close
   * error, which becomes the call's error only after a successful decode.
   */
  method DoSegment(m: Model, texts: seq<string>, opts: ScopedOptions,
                   makeRequester: Option<string> -> Result<Option<Requester>>,
                   build: (Factory, ClientOptions) -> Option<Backend>,
                   chunk: (Backend, string, string, ChunkRequest) -> Result<Option<ChunkResponse>>,
                   close: Requester -> Option<Error>)
    returns (resp: SegmentingResponse, err: Option<Error>, steps: seq<Step>)
    ensures EncodeSegment(texts, AsCallOptions(opts)).Err? ==>
      resp == ZeroSegmentingResponse && err == Some(EncodeSegment(texts, AsCallOptions(opts)).error) && steps == []
    ensures EncodeSegment(texts, AsCallOptions(opts)).Ok? && makeRequester(opts.baseURL).Err? ==>
      resp == ZeroSegmentingResponse && err == Some(makeRequester(opts.baseURL).error) && steps == [MakeRequester]
    ensures EncodeSegment(texts, AsCallOptions(opts)).Ok? && makeRequester(opts.baseURL) == Ok(None) ==>
      resp == ZeroSegmentingResponse && err == Some(Failure(m.config.providerName + ": requester is nil")) && steps == [MakeRequester]
    ensures EncodeSegment(texts, AsCallOptions(opts)).Ok? && makeRequester(opts.baseURL).Ok? && makeRequester(opts.baseURL).value.Some? ==>
      var q := makeRequester(opts.baseURL).value.value;
      var pn := m.config.providerName;
      && (m.config.newChunker.None? ==>
            resp == ZeroSegmentingResponse && err == Some(Failure(pn + ": chunker factory is nil"))
            && steps == [MakeRequester, CloseRequester(q)])
      && (m.config.newChunker.Some? ==>
            var chunker := build(m.config.newChunker.value, ClientOptionsWith(m.config.clientOptions, q));
            && (chunker.None? ==>
                  resp == ZeroSegmentingResponse && err == Some(Failure(pn + ": chunker factory returned nil"))
                  && steps == [MakeRequester, BuildClient, CloseRequester(q)])
            && (chunker.Some? ==>
                  var res := chunk(chunker.value, m.modelName, m.modelVersion, EncodeSegment(texts, AsCallOptions(opts)).value.request);
                  && steps == [MakeRequester, BuildClient, Invoke, CloseRequester(q)]
                  && (res.Err? ==> resp == ZeroSegmentingResponse && err == Some(res.error))
                  && (res.Ok? && SegmentDecoding(res.value).Err? ==>
                        resp == ZeroSegmentingResponse && err == Some(SegmentDecoding(res.value).error))
                  && (res.Ok? && SegmentDecoding(res.value).Ok? ==>
                        resp == SegmentDecoding(res.value).value && err == close(q))))
  {
    var params := EncodeSegment(texts, AsCallOptions(opts));
    if params.Err? {
      return ZeroSegmentingResponse, Some(params.error), [];
    }
    var made := makeRequester(opts.baseURL);
    steps := [MakeRequester];
    if made.Err? {
      return ZeroSegmentingResponse, Some(made.error), steps;
    }
    if made.value.None? {
      return ZeroSegmentingResponse, Some(Failure(m.config.providerName + ": requester is nil")), steps;
    }
    var requester := made.value.value;
    resp, err := ZeroSegmentingResponse, None;
    if m.config.newChunker.None? {
      err := Some(Failure(m.config.providerName + ": chunker factory is nil"));
    } else {
      var chunker := build(m.config.newChunker.value, ClientOptionsWith(m.config.clientOptions, requester));
      steps := steps + [BuildClient];
      if chunker.None? {
        err := Some(Failure(m.config.providerName + ": chunker factory returned nil"));
      } else {
        var res := chunk(chunker.value, m.modelName, m.modelVersion, params.value.request);
        steps := steps + [Invoke];
        if res.Err? {
          err := Some(res.error);
        } else {
          var decoded := DecodeSegment(res.value);
          if decoded.Err? {
            err := Some(decoded.error);
          } else {
            resp := decoded.value;
          }
        }
      }
    }
    // The deferred close, on every path that got a requester.
    steps := steps + [CloseRequester(requester)];
    err := AfterClose(err, close(requester));
  }
}
