// The text-embeddings-inference codecs (provider/textembeddinginference):
// the encoders emit header options only, carry the inputs unchanged and
// overlay a few metadata fields; the decoders reject a nil response,
// attach an empty raw response, and turn each sparse coordinate list into
// a table keyed by the decimal rendering of the coordinate's index.

module TeiInferenceCodec {

  import opened Common
  import opened Text
  import opened Api
  import opened CallOptions
  import opened Metadata
  import opened RequestOptions
  import opened EncoderOptions
  import opened Vectors
  import opened TeiInferenceWire

  // ---- Embedding ----

  /** applyProviderMetadata: only Normalize and Truncate, each when the metadata sets it. */
  function ApplyProviderMetadata(params: EmbedRequest, bag: Option<Bag>): (r: EmbedRequest)
    ensures r.inputs == params.inputs
    ensures TeiInferenceEmbedMetadata(bag).None? ==> r == params
    ensures TeiInferenceEmbedMetadata(bag).Some? ==>
      var m := TeiInferenceEmbedMetadata(bag).value;
      r.normalize == Overlay(params.normalize, m.normalize) && r.truncate == Overlay(params.truncate, m.truncate)
  {
    match TeiInferenceEmbedMetadata(bag)
      case None => params
      case Some(m) => params.(normalize := Overlay(params.normalize, m.normalize), truncate := Overlay(params.truncate, m.truncate))
  }

  /** EncodeEmbedding: the values as a string-list input, header options only, no warnings. */
  method EncodeEmbedding(modelID: string, values: seq<string>, opts: CallOptions)
    returns (params: EmbedRequest, reqOpts: seq<RequestOption>, warnings: seq<CallWarning>)
    ensures params.inputs == TextListInput(values)
    ensures var m := TeiInferenceEmbedMetadata(opts.providerMetadata);
      && params.normalize == (if m.Some? then m.value.normalize else None)
      && params.truncate == (if m.Some? then m.value.truncate else None)
    ensures EncodedAs(reqOpts, opts.headers, NoTrailer)
    ensures warnings == []
  {
    reqOpts := EncodeOptions(opts.headers, NoTrailer);
    params := EmbedRequest(TextListInput(values), None, None);
    params := ApplyProviderMetadata(params, opts.providerMetadata);
    warnings := [];
  }

  /** DecodeEmbedding: nil is an empty-body error; otherwise the vectors, copied, no usage, an empty raw response. */
  method DecodeEmbedding(resp: Option<EmbedResponse>) returns (r: Result<EmbeddingResponse>)
    ensures resp.None? ==> r == Err(EmptyResponseBody("response from TEI embeddings API is nil"))
    ensures resp.Some? ==> r == Ok(EmbeddingResponse(resp.value, None, Some(EmptyRawResponse)))
  {
    if resp.None? {
      return Err(EmptyResponseBody("response from TEI embeddings API is nil"));
    }
    var embs := CopyVectors(resp.value);
    return Ok(EmbeddingResponse(embs, None, Some(EmptyRawResponse)));
  }

  // ---- Sparse embedding ----

  /** applySparseProviderMetadata: only Truncate, when the metadata sets it. */
  function ApplySparseProviderMetadata(params: EmbedSparseRequest, bag: Option<Bag>): (r: EmbedSparseRequest)
    ensures r.inputs == params.inputs
    ensures TeiInferenceSparseMetadata(bag).None? ==> r == params
    ensures TeiInferenceSparseMetadata(bag).Some? ==> r.truncate == Overlay(params.truncate, TeiInferenceSparseMetadata(bag).value.truncate)
  {
    match TeiInferenceSparseMetadata(bag)
      case None => params
      case Some(m) => params.(truncate := Overlay(params.truncate, m.truncate))
  }

  /** EncodeSparseEmbedding: the values as a string-list input, header options only, no warnings. */
  method EncodeSparseEmbedding(modelID: string, values: seq<string>, opts: CallOptions)
    returns (params: EmbedSparseRequest, reqOpts: seq<RequestOption>, warnings: seq<CallWarning>)
    ensures params.inputs == TextListInput(values)
    ensures var m := TeiInferenceSparseMetadata(opts.providerMetadata);
      params.truncate == (if m.Some? then m.value.truncate else None)
    ensures EncodedAs(reqOpts, opts.headers, NoTrailer)
    ensures warnings == []
  {
    reqOpts := EncodeOptions(opts.headers, NoTrailer);
    params := EmbedSparseRequest(TextListInput(values), None);
    params := ApplySparseProviderMetadata(params, opts.providerMetadata);
    warnings := [];
  }

  /** The table one coordinate list decodes to: each index's decimal key bound to its value, later entries overwriting. */
  function SparseTable(vs: seq<SparseValue>): map<string, Float64>
  {
    if vs == [] then map[]
    else
      var last := vs[|vs| - 1];
      SparseTable(vs[..|vs| - 1])[IntToString(last.index) := last.value]
  }

  /** A key is in a decoded table exactly when it is the decimal rendering of some index in the list. */
  lemma {:induction false} SparseTableKeys(vs: seq<SparseValue>, key: string)
    ensures key in SparseTable(vs) <==> exists i :: 0 <= i < |vs| && IntToString(vs[i].index) == key
    decreases |vs|
  {
    if vs != [] {
      var n := |vs| - 1;
      var prefix := vs[..n];
      SparseTableKeys(prefix, key);
      assert SparseTable(vs) == SparseTable(prefix)[IntToString(vs[n].index) := vs[n].value];
      if key in SparseTable(vs) {
        if key in SparseTable(prefix) {
          var i :| 0 <= i < n && IntToString(prefix[i].index) == key;
          assert vs[i] == prefix[i];
        } else {
          assert IntToString(vs[n].index) == key;
        }
      } else {
        forall i | 0 <= i < |vs|
          ensures IntToString(vs[i].index) != key
        {
          if i < n {
            assert vs[i] == prefix[i];
          }
        }
      }
    }
  }

  /** The entry whose index no later entry repeats is the one a decoded table keeps. */
  lemma {:induction false} SparseTableLastWins(vs: seq<SparseValue>, i: nat)
    requires i < |vs|
    requires forall j :: i < j < |vs| ==> vs[j].index != vs[i].index
    ensures IntToString(vs[i].index) in SparseTable(vs)
    ensures SparseTable(vs)[IntToString(vs[i].index)] == vs[i].value
    decreases |vs|
  {
    if i < |vs| - 1 {
      SparseTableLastWins(vs[..|vs| - 1], i);
      IntToStringInjective(vs[|vs| - 1].index, vs[i].index);
    }
  }

  /** The inner loop over one coordinate list: each value stored under its index written in decimal. */
  method DecodeSparseList(vs: seq<SparseValue>) returns (table: map<string, Float64>)
    ensures table == SparseTable(vs)
  {
    table := map[];
    for j := 0 to |vs|
      invariant table == SparseTable(vs[..j])
    {
      assert vs[..j + 1][..j] == vs[..j];
      table := table[IntToString(vs[j].index) := vs[j].value];
    }
    assert vs[..|vs|] == vs;
  }

  /** DecodeSparseEmbedding: nil is an empty-body error; otherwise one table per list, in order, no usage, an empty raw response. */
  method DecodeSparseEmbedding(resp: Option<SparseResponse>) returns (r: Result<SparseEmbeddingResponse>)
    ensures resp.None? ==> r == Err(EmptyResponseBody("response from TEI sparse embeddings API is nil"))
    ensures resp.Some? ==> r.Ok? && r.value.requestID == "" && r.value.usage.None?
    ensures resp.Some? ==> r.value.rawResponse == Some(EmptyRawResponse)
    ensures resp.Some? ==> |r.value.embeddings| == |resp.value|
    ensures resp.Some? ==> forall i :: 0 <= i < |resp.value| ==> r.value.embeddings[i] == SparseTable(resp.value[i])
  {
    if resp.None? {
      return Err(EmptyResponseBody("response from TEI sparse embeddings API is nil"));
    }
    var lists := resp.value;
    var a := new map<string, Float64>[|lists|](_ => map[]);
    for i := 0 to |lists|
      invariant forall k :: 0 <= k < i ==> a[k] == SparseTable(lists[k])
    {
      a[i] := DecodeSparseList(lists[i]);
    }
    return Ok(SparseEmbeddingResponse("", a[..], None, Some(EmptyRawResponse)));
  }

  // ---- Ranking ----

  /** applyRankProviderMetadata: the four ranking knobs, each when the metadata sets it. */
  function ApplyRankProviderMetadata(params: RankRequest, bag: Option<Bag>): (r: RankRequest)
    ensures r.query == params.query && r.texts == params.texts
    ensures TeiInferenceRankMetadata(bag).None? ==> r == params
    ensures TeiInferenceRankMetadata(bag).Some? ==>
      var m := TeiInferenceRankMetadata(bag).value;
      && r.rawScores == Overlay(params.rawScores, m.rawScores)
      && r.returnText == Overlay(params.returnText, m.returnText)
      && r.truncate == Overlay(params.truncate, m.truncate)
      && r.truncationDirection == Overlay(params.truncationDirection, m.truncationDirection)
  {
    match TeiInferenceRankMetadata(bag)
      case None => params
      case Some(m) =>
        params.(
          rawScores := Overlay(params.rawScores, m.rawScores),
          returnText := Overlay(params.returnText, m.returnText),
          truncate := Overlay(params.truncate, m.truncate),
          truncationDirection := Overlay(params.truncationDirection, m.truncationDirection))
  }

  /** EncodeRank: query and texts unchanged, header options only, no warnings. */
  method EncodeRank(query: string, texts: seq<string>, opts: CallOptions)
    returns (params: RankRequest, reqOpts: seq<RequestOption>, warnings: seq<CallWarning>)
    ensures TeiInferenceRankMetadata(opts.providerMetadata).None? ==> params == RankRequest(query, texts, None, None, None, None)
    ensures TeiInferenceRankMetadata(opts.providerMetadata).Some? ==>
      params == TeiInferenceRankMetadata(opts.providerMetadata).value.(query := query, texts := texts)
    ensures EncodedAs(reqOpts, opts.headers, NoTrailer)
    ensures warnings == []
  {
    reqOpts := EncodeOptions(opts.headers, NoTrailer);
    params := RankRequest(query, texts, None, None, None, None);
    params := ApplyRankProviderMetadata(params, opts.providerMetadata);
    warnings := [];
  }
}
