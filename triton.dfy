// The Triton provider (provider/triton): options folded into a
// construction record, a provider whose stored client options never carry
// a requester and whose four model-client factories are always set, and a
// ranking model whose DoRank runs its checks in a fixed order, borrows a
// requester for the call and closes it on every path, the close error
// surfacing only when nothing failed before it. The Triton codec and the
// requester constructor are not part of this model: they are parameters.

module Triton {

  import opened Common
  import opened Api
  import opened CallOptions
  import opened ModelId
  import opened CliniaWire
  import opened CliniaClient

  // ---- Provider options ----

  datatype ProviderOption =
    | WithName(name: string)
    | WithClientOptions(options: ClientOptions)
    | WithEmbeddingFactory(embedder: Option<Factory>)
    | WithRankerFactory(ranker: Option<Factory>)
    | WithChunkerFactory(chunker: Option<Factory>)
    | WithSparseFactory(sparse: Option<Factory>)

  /** providerOptions: the record the option closures write. */
  datatype ProviderOptions = ProviderOptions(
    name: string,
    clientOptions: Option<ClientOptions>,
    newEmbedder: Option<Factory>,
    newRanker: Option<Factory>,
    newChunker: Option<Factory>,
    newSparse: Option<Factory>)

  const DefaultName := "clinia"

  const InitialOptions := ProviderOptions(DefaultName, None, None, None, None, None)

  /** The field of the record an option writes. */
  datatype Slot = NameSlot | ClientOptionsSlot | EmbedderSlot | RankerSlot | ChunkerSlot | SparseSlot

  datatype SlotValue = NameValue(name: string) | ClientOptionsValue(options: Option<ClientOptions>) | FactoryValue(factory: Option<Factory>)

  function SlotOf(opt: ProviderOption): Slot
  {
    match opt
      case WithName(_) => NameSlot
      case WithClientOptions(_) => ClientOptionsSlot
      case WithEmbeddingFactory(_) => EmbedderSlot
      case WithRankerFactory(_) => RankerSlot
      case WithChunkerFactory(_) => ChunkerSlot
      case WithSparseFactory(_) => SparseSlot
  }

  function SlotValueOf(o: ProviderOptions, s: Slot): SlotValue
  {
    match s
      case NameSlot => NameValue(o.name)
      case ClientOptionsSlot => ClientOptionsValue(o.clientOptions)
      case EmbedderSlot => FactoryValue(o.newEmbedder)
      case RankerSlot => FactoryValue(o.newRanker)
      case ChunkerSlot => FactoryValue(o.newChunker)
      case SparseSlot => FactoryValue(o.newSparse)
  }

  /** What an option stores in its field, whatever was there. WithClientOptions stores a copy without a requester. */
  function Written(opt: ProviderOption): SlotValue
  {
    match opt
      case WithName(n) => NameValue(n)
      case WithClientOptions(c) => ClientOptionsValue(Some(c.(requester := None)))
      case WithEmbeddingFactory(f) => FactoryValue(f)
      case WithRankerFactory(f) => FactoryValue(f)
      case WithChunkerFactory(f) => FactoryValue(f)
      case WithSparseFactory(f) => FactoryValue(f)
  }

  /** One option closure: it writes its own field and leaves the others alone. */
  function ApplyOption(o: ProviderOptions, opt: ProviderOption): (r: ProviderOptions)
    ensures SlotValueOf(r, SlotOf(opt)) == Written(opt)
    ensures forall s :: s != SlotOf(opt) ==> SlotValueOf(r, s) == SlotValueOf(o, s)
  {
    match opt
      case WithName(n) => o.(name := n)
      case WithClientOptions(c) => o.(clientOptions := Some(c.(requester := None)))
      case WithEmbeddingFactory(f) => o.(newEmbedder := f)
      case WithRankerFactory(f) => o.(newRanker := f)
      case WithChunkerFactory(f) => o.(newChunker := f)
      case WithSparseFactory(f) => o.(newSparse := f)
  }

  /** The options applied in order. */
  function Configure(o: ProviderOptions, opts: seq<ProviderOption>): ProviderOptions
  {
    if opts == [] then o else ApplyOption(Configure(o, opts[..|opts| - 1]), opts[|opts| - 1])
  }

  /** The last option writing a field decides it. */
  lemma {:induction false} LastOptionWins(o: ProviderOptions, opts: seq<ProviderOption>, i: nat)
    requires i < |opts|
    requires forall j :: i < j < |opts| ==> SlotOf(opts[j]) != SlotOf(opts[i])
    ensures SlotValueOf(Configure(o, opts), SlotOf(opts[i])) == Written(opts[i])
    decreases |opts|
  {
    if i < |opts| - 1 {
      LastOptionWins(o, opts[..|opts| - 1], i);
    }
  }

  /** A field no option writes keeps its initial value. */
  lemma {:induction false} UntouchedSlot(o: ProviderOptions, opts: seq<ProviderOption>, s: Slot)
    requires forall j :: 0 <= j < |opts| ==> SlotOf(opts[j]) != s
    ensures SlotValueOf(Configure(o, opts), s) == SlotValueOf(o, s)
    decreases |opts|
  {
    if opts != [] {
      UntouchedSlot(o, opts[..|opts| - 1], s);
    }
  }

  /** Without WithName the provider is called "clinia". */
  lemma DefaultNameKept(opts: seq<ProviderOption>)
    requires forall j :: 0 <= j < |opts| ==> !opts[j].WithName?
    ensures Configure(InitialOptions, opts).name == DefaultName
  {
    UntouchedSlot(InitialOptions, opts, NameSlot);
  }

  /** Every client-options value the record can hold has no requester. */
  lemma {:induction false} ConfiguredOptionsHaveNoRequester(opts: seq<ProviderOption>)
    ensures var c := Configure(InitialOptions, opts).clientOptions;
      c.Some? ==> c.value.requester.None?
    decreases |opts|
  {
    if opts != [] {
      ConfiguredOptionsHaveNoRequester(opts[..|opts| - 1]);
    }
  }

  // ---- Provider ----

  datatype Provider = Provider(
    name: string,
    clientOptions: ClientOptions,
    newEmbedder: Option<Factory>,
    newRanker: Option<Factory>,
    newChunker: Option<Factory>,
    newSparse: Option<Factory>)

  /** A nil factory replaced by the library's own. */
  function OrLibrary(f: Option<Factory>): (r: Option<Factory>)
    ensures r.Some?
    ensures f.Some? ==> r == f
    ensures f.None? ==> r == Some(LibraryFactory)
  {
    if f.None? then Some(LibraryFactory) else f
  }

  /**
   * NewProvider: the options applied in order over the default name; the
   * stored client options are the given ones without a requester (zero
   * when none were given); each nil factory is replaced by the library's
   * own and injected ones are kept. It never fails.
   */
  method NewProvider(opts: seq<ProviderOption>) returns (r: Result<Provider>)
    ensures r.Ok?
    ensures var o := Configure(InitialOptions, opts);
      && r.value.name == o.name
      && (o.clientOptions.None? ==> r.value.clientOptions == ZeroClientOptions)
      && (o.clientOptions.Some? ==> r.value.clientOptions == o.clientOptions.value.(requester := None))
      && r.value.newEmbedder == OrLibrary(o.newEmbedder)
      && r.value.newRanker == OrLibrary(o.newRanker)
      && r.value.newChunker == OrLibrary(o.newChunker)
      && r.value.newSparse == OrLibrary(o.newSparse)
    ensures r.value.clientOptions.requester.None?
  {
    var options := InitialOptions;
    for i := 0 to |opts|
      invariant options == Configure(InitialOptions, opts[..i])
    {
      assert opts[..i + 1][..i] == opts[..i];
      options := ApplyOption(options, opts[i]);
    }
    assert opts[..|opts|] == opts;
    var clientOpts := ZeroClientOptions;
    if options.clientOptions.Some? {
      clientOpts := options.clientOptions.value;
      clientOpts := clientOpts.(requester := None);
    }
    var provider := Provider(options.name, clientOpts, options.newEmbedder, options.newRanker, options.newChunker, options.newSparse);
    if provider.newEmbedder.None? {
      provider := provider.(newEmbedder := Some(LibraryFactory));
    }
    if provider.newRanker.None? {
      provider := provider.(newRanker := Some(LibraryFactory));
    }
    if provider.newChunker.None? {
      provider := provider.(newChunker := Some(LibraryFactory));
    }
    if provider.newSparse.None? {
      provider := provider.(newSparse := Some(LibraryFactory));
    }
    return Ok(provider);
  }

  /** providerNameFor: the provider's name, a dot, and the component. */
  function ProviderNameFor(p: Provider, component: string): string
  {
    p.name + "." + component
  }

  /** LanguageModel: never supported. */
  function LanguageModel(p: Provider, modelID: string): (r: Result<()>)
    ensures r == Err(UnsupportedFunctionality("language_model", "Clinia provider does not expose a language model"))
  {
    Err(UnsupportedFunctionality("language_model", "Clinia provider does not expose a language model"))
  }

  /** MultimodalEmbeddingModel: never supported. */
  function MultimodalEmbeddingModel(p: Provider, modelID: string): (r: Result<()>)
    ensures r == Err(UnsupportedFunctionality("multimodal_embeddings", "Clinia provider does not support multimodal embeddings"))
  {
    Err(UnsupportedFunctionality("multimodal_embeddings", "Clinia provider does not support multimodal embeddings"))
  }

  // ---- Ranking model ----

  /** ProviderConfig: what a model keeps of its provider. */
  datatype ProviderConfig = ProviderConfig(
    providerName: string,
    clientOptions: ClientOptions,
    newEmbedder: Option<Factory>,
    newRanker: Option<Factory>,
    newChunker: Option<Factory>,
    newSparse: Option<Factory>)

  datatype RankingModel = RankingModel(modelID: string, modelName: string, modelVersion: string, config: ProviderConfig)

  /**
   * RankingModel: a model id that does not parse is that parse error and
   * no model; otherwise the model keeps the id as given, the parsed name
   * and version, the provider's client options and ranker factory, and is
   * named "<provider>.ranker".
   */
  function NewRankingModel(p: Provider, modelID: string): (r: Result<RankingModel>)
    ensures SplitModelID(p.name, modelID).Err? ==> r == Err(SplitModelID(p.name, modelID).error)
    ensures SplitModelID(p.name, modelID).Ok? ==>
      var nv := SplitModelID(p.name, modelID).value;
      r == Ok(RankingModel(modelID, nv.name, nv.version, ProviderConfig(ProviderNameFor(p, "ranker"), p.clientOptions, None, p.newRanker, None, None)))
  {
    var split := SplitModelID(p.name, modelID);
    if split.Err? then Err(split.error)
    else
      Ok(RankingModel(modelID, split.value.name, split.value.version,
        ProviderConfig(ProviderNameFor(p, "ranker"), p.clientOptions, None, p.newRanker, None, None)))
  }

  /**
   * DoRank. An encoding error ends the call before any requester exists.
   * A requester that cannot be made, or is nil, ends it before any ranker
   * is built. Once a requester exists it is closed last on every path; a
   * missing factory, a factory returning nil, a ranker error and a decode
   * error each give the zero response and win over the close error, which
   * becomes the call's error only after a successful decode.
   */
  method DoRank(m: RankingModel, query: string, texts: seq<string>, opts: CallOptions,
                encode: (string, seq<string>, CallOptions) -> Result<RankRequest>,
                makeRequester: Option<string> -> Result<Option<Requester>>,
                build: (Factory, ClientOptions) -> Option<Backend>,
                rank: (Backend, string, string, RankRequest) -> Result<Option<RankResponse>>,
                decode: Option<RankResponse> -> Result<RankingResponse>,
                close: Requester -> Option<Error>)
    returns (resp: RankingResponse, err: Option<Error>, steps: seq<Step>)
    ensures encode(query, texts, opts).Err? ==>
      resp == ZeroRankingResponse && err == Some(encode(query, texts, opts).error) && steps == []
    ensures encode(query, texts, opts).Ok? && makeRequester(opts.baseURL).Err? ==>
      resp == ZeroRankingResponse && err == Some(makeRequester(opts.baseURL).error) && steps == [MakeRequester]
    ensures encode(query, texts, opts).Ok? && makeRequester(opts.baseURL) == Ok(None) ==>
      resp == ZeroRankingResponse && err == Some(Failure(m.config.providerName + ": requester is nil")) && steps == [MakeRequester]
    ensures encode(query, texts, opts).Ok? && makeRequester(opts.baseURL).Ok? && makeRequester(opts.baseURL).value.Some? ==>
      var q := makeRequester(opts.baseURL).value.value;
      var pn := m.config.providerName;
      && (m.config.newRanker.None? ==>
            resp == ZeroRankingResponse && err == Some(Failure(pn + ": ranker factory is nil"))
            && steps == [MakeRequester, CloseRequester(q)])
      && (m.config.newRanker.Some? ==>
            var ranker := build(m.config.newRanker.value, ClientOptionsWith(m.config.clientOptions, q));
            && (ranker.None? ==>
                  resp == ZeroRankingResponse && err == Some(Failure(pn + ": ranker factory returned nil"))
                  && steps == [MakeRequester, BuildClient, CloseRequester(q)])
            && (ranker.Some? ==>
                  var res := rank(ranker.value, m.modelName, m.modelVersion, encode(query, texts, opts).value);
                  && steps == [MakeRequester, BuildClient, Invoke, CloseRequester(q)]
                  && (res.Err? ==> resp == ZeroRankingResponse && err == Some(res.error))
                  && (res.Ok? && decode(res.value).Err? ==> resp == ZeroRankingResponse && err == Some(decode(res.value).error))
                  && (res.Ok? && decode(res.value).Ok? ==> resp == decode(res.value).value && err == close(q))))
  {
    var params := encode(query, texts, opts);
    if params.Err? {
      return ZeroRankingResponse, Some(params.error), [];
    }
    var made := makeRequester(opts.baseURL);
    steps := [MakeRequester];
    if made.Err? {
      return ZeroRankingResponse, Some(made.error), steps;
    }
    if made.value.None? {
      return ZeroRankingResponse, Some(Failure(m.config.providerName + ": requester is nil")), steps;
    }
    var requester := made.value.value;
    resp, err := ZeroRankingResponse, None;
    if m.config.newRanker.None? {
      err := Some(Failure(m.config.providerName + ": ranker factory is nil"));
    } else {
      var ranker := build(m.config.newRanker.value, ClientOptionsWith(m.config.clientOptions, requester));
      steps := steps + [BuildClient];
      if ranker.None? {
        err := Some(Failure(m.config.providerName + ": ranker factory returned nil"));
      } else {
        var res := rank(ranker.value, m.modelName, m.modelVersion, params.value);
        steps := steps + [Invoke];
        if res.Err? {
          err := Some(res.error);
        } else {
          var decoded := decode(res.value);
          if decoded.Err? {
            err := Some(decoded.error);
          } else {
            resp := decoded.value;
          }
        }
      }
    }
    // The deferred close, on every path that got a requester.
    steps := steps + [CloseRequester(requester)];
    err := AfterClose(err, close(requester));
  }
}
