// The TEI codecs (provider/tei): the encoders carry the inputs unchanged,
// expand the caller's headers into request options, add the API key and
// the base URL only when they are non-empty, and overlay the TEI
// metadata one field at a time; they never fail and never warn. The
// decoders reject a nil response and otherwise copy it, the rank decoder
// writing each result's score at that result's index.

module TeiCodec {

  import opened Common
  import opened Api
  import opened CallOptions
  import opened Metadata
  import opened RequestOptions
  import opened EncoderOptions
  import opened Scores
  import opened Vectors
  import opened TeiWire

  /** The options after the headers: the key when it is non-empty, the base URL when its text is non-empty. */
  function TeiTrailer(opts: CallOptions): (t: Trailer)
    ensures t.apiKey.Some? <==> opts.apiKey != ""
    ensures t.apiKey.Some? ==> t.apiKey.value == opts.apiKey
    ensures t.baseURL.Some? <==> BaseURLText(opts) != ""
    ensures t.baseURL.Some? ==> t.baseURL.value == BaseURLText(opts)
    ensures !t.useRawBaseURL
  {
    Trailer(
      if opts.apiKey != "" then Some(opts.apiKey) else None,
      if BaseURLText(opts) != "" then Some(BaseURLText(opts)) else None,
      false)
  }

  // ---- Embedding ----

  /** applyProviderMetadata: each of the five optional fields the metadata sets replaces the built one. */
  function ApplyProviderMetadata(params: EmbedParams, bag: Option<Bag>): (r: EmbedParams)
    ensures r.inputs == params.inputs
    ensures TeiEmbedMetadata(bag).None? ==> r == params
    ensures TeiEmbedMetadata(bag).Some? ==>
      var m := TeiEmbedMetadata(bag).value;
      && r.dimensions == Overlay(params.dimensions, m.dimensions)
      && r.normalize == Overlay(params.normalize, m.normalize)
      && r.truncate == Overlay(params.truncate, m.truncate)
      && r.truncationDirection == Overlay(params.truncationDirection, m.truncationDirection)
      && r.promptName == Overlay(params.promptName, m.promptName)
  {
    match TeiEmbedMetadata(bag)
      case None => params
      case Some(m) =>
        params.(
          dimensions := Overlay(params.dimensions, m.dimensions),
          normalize := Overlay(params.normalize, m.normalize),
          truncate := Overlay(params.truncate, m.truncate),
          truncationDirection := Overlay(params.truncationDirection, m.truncationDirection),
          promptName := Overlay(params.promptName, m.promptName))
  }

  /**
   * EncodeEmbedding: the inputs are the values; with TEI metadata the
   * parameters are the caller's, with only the inputs replaced; the
   * options are the expanded headers, then the key and the base URL when
   * set; no warnings.
   */
  method EncodeEmbedding(modelID: string, values: seq<string>, opts: CallOptions)
    returns (params: EmbedParams, reqOpts: seq<RequestOption>, warnings: seq<CallWarning>)
    ensures params.inputs == values
    ensures TeiEmbedMetadata(opts.providerMetadata).None? ==> params == EmbedParams(values, None, None, None, None, None)
    ensures TeiEmbedMetadata(opts.providerMetadata).Some? ==> params == TeiEmbedMetadata(opts.providerMetadata).value.(inputs := values)
    ensures EncodedAs(reqOpts, opts.headers, TeiTrailer(opts))
    ensures warnings == []
  {
    reqOpts := EncodeOptions(opts.headers, TeiTrailer(opts));
    params := EmbedParams(values, None, None, None, None, None);
    params := ApplyProviderMetadata(params, opts.providerMetadata);
    warnings := [];
  }

  /** DecodeEmbedding: nil is an empty-body error; otherwise the vectors, copied, and no usage or raw response. */
  method DecodeEmbedding(resp: Option<EmbedResponse>) returns (r: Result<EmbeddingResponse>)
    ensures resp.None? ==> r == Err(EmptyResponseBody("response from TEI embeddings API is nil"))
    ensures resp.Some? ==> r == Ok(EmbeddingResponse(resp.value, None, None))
  {
    if resp.None? {
      return Err(EmptyResponseBody("response from TEI embeddings API is nil"));
    }
    var embs := CopyVectors(resp.value);
    return Ok(EmbeddingResponse(embs, None, None));
  }

  // ---- Sparse embedding ----

  /** applySparseProviderMetadata: only Truncate, TruncationDirection and PromptName are overlaid. */
  function ApplySparseProviderMetadata(params: SparseEmbedParams, bag: Option<Bag>): (r: SparseEmbedParams)
    ensures r.inputs == params.inputs
    ensures TeiSparseMetadata(bag).None? ==> r == params
    ensures TeiSparseMetadata(bag).Some? ==>
      var m := TeiSparseMetadata(bag).value;
      && r.truncate == Overlay(params.truncate, m.truncate)
      && r.truncationDirection == Overlay(params.truncationDirection, m.truncationDirection)
      && r.promptName == Overlay(params.promptName, m.promptName)
  {
    match TeiSparseMetadata(bag)
      case None => params
      case Some(m) =>
        params.(
          truncate := Overlay(params.truncate, m.truncate),
          truncationDirection := Overlay(params.truncationDirection, m.truncationDirection),
          promptName := Overlay(params.promptName, m.promptName))
  }

  /** EncodeSparseEmbedding: as EncodeEmbedding, for the sparse parameters. */
  method EncodeSparseEmbedding(modelID: string, values: seq<string>, opts: CallOptions)
    returns (params: SparseEmbedParams, reqOpts: seq<RequestOption>, warnings: seq<CallWarning>)
    ensures params.inputs == values
    ensures TeiSparseMetadata(opts.providerMetadata).None? ==> params == SparseEmbedParams(values, None, None, None)
    ensures TeiSparseMetadata(opts.providerMetadata).Some? ==> params == TeiSparseMetadata(opts.providerMetadata).value.(inputs := values)
    ensures EncodedAs(reqOpts, opts.headers, TeiTrailer(opts))
    ensures warnings == []
  {
    reqOpts := EncodeOptions(opts.headers, TeiTrailer(opts));
    params := SparseEmbedParams(values, None, None, None);
    params := ApplySparseProviderMetadata(params, opts.providerMetadata);
    warnings := [];
  }

  /** DecodeSparseEmbedding: nil is an empty-body error; otherwise each table passed through in place, no usage, no raw response. */
  method DecodeSparseEmbedding(resp: Option<SparseResponse>) returns (r: Result<SparseEmbeddingResponse>)
    ensures resp.None? ==> r == Err(EmptyResponseBody("response from TEI sparse embeddings API is nil"))
    ensures resp.Some? ==> r == Ok(SparseEmbeddingResponse("", resp.value, None, None))
  {
    if resp.None? {
      return Err(EmptyResponseBody("response from TEI sparse embeddings API is nil"));
    }
    var tables := resp.value;
    var a := new map<string, Float64>[|tables|](_ => map[]);
    for i := 0 to |tables|
      invariant forall k :: 0 <= k < i ==> a[k] == tables[k]
    {
      a[i] := tables[i];
    }
    assert a[..] == tables;
    return Ok(SparseEmbeddingResponse("", a[..], None, None));
  }

  // ---- Ranking ----

  /** applyRankProviderMetadata: RawScores, ReturnText, Truncate and TruncationDirection, each when set. */
  function ApplyRankProviderMetadata(params: RankRequest, bag: Option<Bag>): (r: RankRequest)
    ensures r.query == params.query && r.texts == params.texts
    ensures TeiRankMetadata(bag).None? ==> r == params
    ensures TeiRankMetadata(bag).Some? ==>
      var m := TeiRankMetadata(bag).value;
      && r.rawScores == Overlay(params.rawScores, m.rawScores)
      && r.returnText == Overlay(params.returnText, m.returnText)
      && r.truncate == Overlay(params.truncate, m.truncate)
      && r.truncationDirection == Overlay(params.truncationDirection, m.truncationDirection)
  {
    match TeiRankMetadata(bag)
      case None => params
      case Some(m) =>
        params.(
          rawScores := Overlay(params.rawScores, m.rawScores),
          returnText := Overlay(params.returnText, m.returnText),
          truncate := Overlay(params.truncate, m.truncate),
          truncationDirection := Overlay(params.truncationDirection, m.truncationDirection))
  }

  /** EncodeRank: query and texts unvalidated and unchanged; metadata and options as for the embedding encoder. */
  method EncodeRank(query: string, texts: seq<string>, opts: CallOptions)
    returns (params: RankRequest, reqOpts: seq<RequestOption>, warnings: seq<CallWarning>)
    ensures params.query == query && params.texts == texts
    ensures TeiRankMetadata(opts.providerMetadata).None? ==> params == RankRequest(query, texts, None, None, None, None)
    ensures TeiRankMetadata(opts.providerMetadata).Some? ==>
      params == TeiRankMetadata(opts.providerMetadata).value.(query := query, texts := texts)
    ensures EncodedAs(reqOpts, opts.headers, TeiTrailer(opts))
    ensures warnings == []
  {
    reqOpts := EncodeOptions(opts.headers, TeiTrailer(opts));
    params := RankRequest(query, texts, None, None, None, None);
    params := ApplyRankProviderMetadata(params, opts.providerMetadata);
    warnings := [];
  }

  /** The (index, score) pairs of a rank response, in response order. */
  function AsScored(rs: seq<RankResult>): (ss: seq<Scored>)
    ensures |ss| == |rs|
    ensures forall i :: 0 <= i < |rs| ==> ss[i] == Scored(rs[i].index, rs[i].score)
  {
    seq(|rs|, i requires 0 <= i < |rs| => Scored(rs[i].index, rs[i].score))
  }

  /**
   * DecodeRank: nil is an empty-body error. Otherwise the scores array is
   * one longer than the largest index (empty when there is no
   * non-negative index), every non-negative index holds the score of the
   * last result carrying it, a position no result names is 0, and there
   * is no request id.
   */
  method DecodeRank(resp: Option<seq<RankResult>>) returns (r: Result<RankingResponse>)
    ensures resp.None? ==> r == Err(EmptyResponseBody("response from TEI ranking API is nil"))
    ensures resp.Some? ==> r.Ok? && r.value.requestID == ""
    ensures resp.Some? ==> |r.value.scores| == MaxIndex(AsScored(resp.value)) + 1
    ensures resp.Some? && (forall j :: 0 <= j < |resp.value| ==> resp.value[j].index < 0) ==> r.value.scores == []
    ensures resp.Some? ==> forall j :: 0 <= j < |resp.value| && resp.value[j].index >= 0 ==>
      resp.value[j].index < |r.value.scores|
    ensures resp.Some? ==> forall k :: 0 <= k < |r.value.scores| ==> r.value.scores[k] == LastScoreAt(AsScored(resp.value), k)
    ensures resp.Some? ==> forall i ::
      (0 <= i < |resp.value| && resp.value[i].index >= 0
       && forall j :: i < j < |resp.value| ==> resp.value[j].index != resp.value[i].index) ==>
      r.value.scores[resp.value[i].index] == resp.value[i].score
    ensures resp.Some? ==> forall k :: 0 <= k < |r.value.scores| && (forall j :: 0 <= j < |resp.value| ==> resp.value[j].index != k) ==>
      r.value.scores[k] == ZeroFloat64
  {
    if resp.None? {
      return Err(EmptyResponseBody("response from TEI ranking API is nil"));
    }
    var rs := AsScored(resp.value);
    var maxIndex := MaxIndexOf(rs);
    if maxIndex < 0 {
      return Ok(RankingResponse([], ""));
    }
    var scores := Scatter(maxIndex + 1, rs);
    forall i | 0 <= i < |rs| && rs[i].index >= 0 && (forall j :: i < j < |rs| ==> rs[j].index != rs[i].index)
      ensures LastScoreAt(rs, rs[i].index) == rs[i].score
    {
      LastScoreAtLastWriter(rs, i);
    }
    forall k | 0 <= k < |scores| && (forall j :: 0 <= j < |rs| ==> rs[j].index != k)
      ensures LastScoreAt(rs, k) == ZeroFloat64
    {
      LastScoreAtUnnamed(rs, k);
    }
    return Ok(RankingResponse(scores, ""));
  }
}
