// The Clinia gRPC codecs: encoders validate the unified inputs and wrap
// them into the models-client request messages; decoders reject a nil
// response and copy the rest, widening float32 payloads to float64 and
// keeping every list's length and order.

module CliniaCodec {

  import opened Common
  import opened Text
  import opened Api
  import opened CallOptions
  import opened Metadata
  import opened Vectors
  import opened CliniaWire

  // ---- Embedding ----

  datatype EmbeddingParams = EmbeddingParams(modelName: string, modelVersion: string, request: EmbedRequest)

  const EmptyValues := Failure("clinia/embed: values cannot be empty")
  const EmbedNameRequired := Failure("clinia/embed: model name is required")

  /**
   * EncodeEmbedding: an empty value list is rejected first, then a blank
   * model name; otherwise name, version (as given, possibly empty) and
   * texts are carried unchanged. The options are not read.
   */
  function EncodeEmbedding(modelName: string, modelVersion: string, values: seq<string>, opts: CallOptions): (r: Result<EmbeddingParams>)
    ensures values == [] ==> r == Err(EmptyValues)
    ensures values != [] && AllSpace(modelName) ==> r == Err(EmbedNameRequired)
    ensures values != [] && !AllSpace(modelName) ==> r == Ok(EmbeddingParams(modelName, modelVersion, EmbedRequest(values)))
  {
    TrimSpaceEmptyIffBlank(modelName);
    if |values| == 0 then Err(EmptyValues)
    else if TrimSpace(modelName) == "" then Err(EmbedNameRequired)
    else Ok(EmbeddingParams(modelName, modelVersion, EmbedRequest(values)))
  }

  /** What DecodeEmbedding yields for a response. */
  function EmbeddingDecoding(resp: Option<EmbedResponse>, widen: Float32 -> Float64): Result<EmbeddingResponse>
  {
    if resp.None? then Err(Failure("clinia/embed: response is nil"))
    else
      var vs := resp.value.embeddings;
      Ok(EmbeddingResponse(seq(|vs|, i requires 0 <= i < |vs| => Widened(vs[i], widen)), None, None))
  }

  /** DecodeEmbedding: nil is an error; otherwise every vector widened in place, and only Embeddings is set. */
  method DecodeEmbedding(resp: Option<EmbedResponse>, widen: Float32 -> Float64) returns (r: Result<EmbeddingResponse>)
    ensures r == EmbeddingDecoding(resp, widen)
    ensures resp.None? ==> r == Err(Failure("clinia/embed: response is nil"))
    ensures resp.Some? ==> r.Ok? && r.value.usage.None? && r.value.rawResponse.None?
    ensures resp.Some? ==> |r.value.embeddings| == |resp.value.embeddings|
    ensures resp.Some? ==> forall i :: 0 <= i < |resp.value.embeddings| ==>
      r.value.embeddings[i] == Widened(resp.value.embeddings[i], widen)
  {
    if resp.None? {
      return Err(Failure("clinia/embed: response is nil"));
    }
    var vs := resp.value.embeddings;
    var embeddings := WidenVectors(vs, widen);
    assert embeddings == seq(|vs|, i requires 0 <= i < |vs| => Widened(vs[i], widen));
    return Ok(EmbeddingResponse(embeddings, None, None));
  }

  // ---- Ranking ----

  datatype RankParams = RankParams(modelName: string, modelVersion: string, request: RankRequest)

  /**
   * EncodeRank: an exactly-empty query is rejected (a blank one is not),
   * then an empty text list; otherwise query and texts are carried
   * unchanged beside the model name and version.
   */
  function EncodeRank(modelName: string, modelVersion: string, query: string, texts: seq<string>, opts: ScopedOptions): (r: Result<RankParams>)
    ensures query == "" ==> r == Err(Failure("clinia/rank: query cannot be empty"))
    ensures query != "" && texts == [] ==> r == Err(Failure("clinia/rank: texts cannot be empty"))
    ensures query != "" && texts != [] ==> r == Ok(RankParams(modelName, modelVersion, RankRequest(query, texts)))
  {
    if query == "" then Err(Failure("clinia/rank: query cannot be empty"))
    else if |texts| == 0 then Err(Failure("clinia/rank: texts cannot be empty"))
    else Ok(RankParams(modelName, modelVersion, RankRequest(query, texts)))
  }

  /** What DecodeRank yields for a response. */
  function RankDecoding(resp: Option<RankResponse>, widen: Float32 -> Float64): Result<RankingResponse>
  {
    if resp.None? then Err(Failure("clinia/rank: response is nil"))
    else Ok(RankingResponse(Widened(resp.value.scores, widen), resp.value.id))
  }

  /** DecodeRank: nil is an error; otherwise one widened score per response score, in order, and the response id. */
  method DecodeRank(resp: Option<RankResponse>, widen: Float32 -> Float64) returns (r: Result<RankingResponse>)
    ensures r == RankDecoding(resp, widen)
    ensures resp.None? ==> r == Err(Failure("clinia/rank: response is nil"))
    ensures resp.Some? ==> r.Ok? && r.value.requestID == resp.value.id
    ensures resp.Some? ==> r.value.scores == Widened(resp.value.scores, widen)
  {
    if resp.None? {
      return Err(Failure("clinia/rank: response is nil"));
    }
    var scores := WidenVector(resp.value.scores, widen);
    return Ok(RankingResponse(scores, resp.value.id));
  }

  // ---- Chunking ----

  datatype ChunkParams = ChunkParams(request: ChunkRequest, requester: Option<Requester>)

  /** The requester a caller injected through Clinia metadata, if any. */
  function InjectedRequester(bag: Option<Bag>): (r: Option<Requester>)
    ensures r.Some? <==> CliniaMeta(bag).Some? && CliniaMeta(bag).value.requester.Some?
    ensures r.Some? ==> r == CliniaMeta(bag).value.requester
  {
    var meta := CliniaMeta(bag);
    if meta.Some? && meta.value.requester.Some? then meta.value.requester else None
  }

  /**
   * EncodeChunk: an empty text list is rejected; the request holds the
   * texts, and the requester is the one found in Clinia metadata only when
   * there is metadata holding a requester.
   */
  function EncodeChunk(texts: seq<string>, opts: ScopedOptions): (r: Result<ChunkParams>)
    ensures texts == [] ==> r == Err(Failure("clinia/chunk: texts cannot be empty"))
    ensures texts != [] ==> r.Ok? && r.value.request == ChunkRequest(texts)
    ensures texts != [] ==> r.value.requester == InjectedRequester(opts.providerMetadata)
  {
    if |texts| == 0 then Err(Failure("clinia/chunk: texts cannot be empty"))
    else
      var out := ChunkParams(ChunkRequest(texts), None);
      var meta := CliniaMeta(opts.providerMetadata);
      if meta.Some? && meta.value.requester.Some? then Ok(out.(requester := meta.value.requester)) else Ok(out)
  }

  /** The unified chunk a wire chunk becomes: all five fields copied. */
  function AsChunk(w: WireChunk): (c: Chunk)
    ensures c.id == w.id && c.text == w.text && c.startIndex == w.startIndex
    ensures c.endIndex == w.endIndex && c.tokenCount == w.tokenCount
  {
    Chunk(w.id, w.text, w.startIndex, w.endIndex, w.tokenCount)
  }

  /** The unified segment a wire chunk becomes: all five fields copied. */
  function AsSegment(w: WireChunk): (s: Segment)
    ensures s.id == w.id && s.text == w.text && s.startIndex == w.startIndex
    ensures s.endIndex == w.endIndex && s.tokenCount == w.tokenCount
  {
    Segment(w.id, w.text, w.startIndex, w.endIndex, w.tokenCount)
  }

  /** The inner loop: one chunk per wire chunk, each copied field by field into a pre-sized array. */
  method ChunkList(list: seq<WireChunk>) returns (decoded: seq<Chunk>)
    ensures |decoded| == |list|
    ensures forall j :: 0 <= j < |list| ==> decoded[j] == AsChunk(list[j])
    ensures decoded == ChunksOf(list)
  {
    var a := new Chunk[|list|](_ => Chunk("", "", 0, 0, 0));
    for j := 0 to |list|
      invariant forall k :: 0 <= k < j ==> a[k] == AsChunk(list[k])
    {
      a[j] := AsChunk(list[j]);
    }
    decoded := a[..];
  }

  /** The chunks one wire list decodes to. */
  function ChunksOf(list: seq<WireChunk>): seq<Chunk>
  {
    seq(|list|, j requires 0 <= j < |list| => AsChunk(list[j]))
  }

  /** What DecodeChunk yields for a response. */
  function ChunkDecoding(resp: Option<ChunkResponse>): Result<ChunkingResponse>
  {
    if resp.None? then Err(Failure("clinia/chunk: response is nil"))
    else
      var lists := resp.value.chunks;
      Ok(ChunkingResponse(resp.value.id, seq(|lists|, i requires 0 <= i < |lists| => ChunksOf(lists[i]))))
  }

  /** DecodeChunk: nil is an error; otherwise both list levels keep their lengths and every chunk is copied. */
  method DecodeChunk(resp: Option<ChunkResponse>) returns (r: Result<ChunkingResponse>)
    ensures r == ChunkDecoding(resp)
    ensures resp.None? ==> r == Err(Failure("clinia/chunk: response is nil"))
    ensures resp.Some? ==> r.Ok? && r.value.requestID == resp.value.id
    ensures resp.Some? ==> |r.value.chunks| == |resp.value.chunks|
    ensures resp.Some? ==> forall i :: 0 <= i < |resp.value.chunks| ==>
      |r.value.chunks[i]| == |resp.value.chunks[i]|
      && forall j :: 0 <= j < |resp.value.chunks[i]| ==> r.value.chunks[i][j] == AsChunk(resp.value.chunks[i][j])
  {
    if resp.None? {
      return Err(Failure("clinia/chunk: response is nil"));
    }
    var lists := resp.value.chunks;
    var a := new seq<Chunk>[|lists|](_ => []);
    for i := 0 to |lists|
      invariant forall k :: 0 <= k < i ==> a[k] == ChunksOf(lists[k])
    {
      a[i] := ChunkList(lists[i]);
    }
    assert a[..] == seq(|lists|, i requires 0 <= i < |lists| => ChunksOf(lists[i]));
    return Ok(ChunkingResponse(resp.value.id, a[..]));
  }

  // ---- Segmenting ----

  datatype SegmentParams = SegmentParams(request: ChunkRequest)

  /** EncodeSegment: an empty text list is rejected; otherwise the request is exactly the texts. */
  function EncodeSegment(texts: seq<string>, opts: CallOptions): (r: Result<SegmentParams>)
    ensures texts == [] ==> r == Err(Failure("clinia/segment: texts cannot be empty"))
    ensures texts != [] ==> r == Ok(SegmentParams(ChunkRequest(texts)))
  {
    if |texts| == 0 then Err(Failure("clinia/segment: texts cannot be empty"))
    else Ok(SegmentParams(ChunkRequest(texts)))
  }

  /** The options play no part in a segment request. */
  lemma EncodeSegmentIgnoresOptions(texts: seq<string>, a: CallOptions, b: CallOptions)
    ensures EncodeSegment(texts, a) == EncodeSegment(texts, b)
  {
  }

  method SegmentList(list: seq<WireChunk>) returns (decoded: seq<Segment>)
    ensures |decoded| == |list|
    ensures forall j :: 0 <= j < |list| ==> decoded[j] == AsSegment(list[j])
    ensures decoded == SegmentsOf(list)
  {
    var a := new Segment[|list|](_ => Segment("", "", 0, 0, 0));
    for j := 0 to |list|
      invariant forall k :: 0 <= k < j ==> a[k] == AsSegment(list[k])
    {
      a[j] := AsSegment(list[j]);
    }
    decoded := a[..];
  }

  /** The segments one wire list decodes to. */
  function SegmentsOf(list: seq<WireChunk>): seq<Segment>
  {
    seq(|list|, j requires 0 <= j < |list| => AsSegment(list[j]))
  }

  /** What DecodeSegment yields for a response. */
  function SegmentDecoding(resp: Option<ChunkResponse>): Result<SegmentingResponse>
  {
    if resp.None? then Err(Failure("clinia/segment: response is nil"))
    else
      var lists := resp.value.chunks;
      Ok(SegmentingResponse(resp.value.id, seq(|lists|, i requires 0 <= i < |lists| => SegmentsOf(lists[i]))))
  }

  /** DecodeSegment: nil is an error; otherwise groups and segments keep their shape and every field is copied. */
  method DecodeSegment(resp: Option<ChunkResponse>) returns (r: Result<SegmentingResponse>)
    ensures r == SegmentDecoding(resp)
    ensures resp.None? ==> r == Err(Failure("clinia/segment: response is nil"))
    ensures resp.Some? ==> r.Ok? && r.value.requestID == resp.value.id
    ensures resp.Some? ==> |r.value.segments| == |resp.value.chunks|
    ensures resp.Some? ==> forall i :: 0 <= i < |resp.value.chunks| ==>
      |r.value.segments[i]| == |resp.value.chunks[i]|
      && forall j :: 0 <= j < |resp.value.chunks[i]| ==> r.value.segments[i][j] == AsSegment(resp.value.chunks[i][j])
  {
    if resp.None? {
      return Err(Failure("clinia/segment: response is nil"));
    }
    var lists := resp.value.chunks;
    var a := new seq<Segment>[|lists|](_ => []);
    for i := 0 to |lists|
      invariant forall k :: 0 <= k < i ==> a[k] == SegmentsOf(lists[k])
    {
      a[i] := SegmentList(lists[i]);
    }
    assert a[..] == seq(|lists|, i requires 0 <= i < |lists| => SegmentsOf(lists[i]));
    return Ok(SegmentingResponse(resp.value.id, a[..]));
  }

  // ---- Sparse embedding ----

  datatype SparseParams = SparseParams(modelName: string, modelVersion: string, request: SparseEmbedRequest, requester: Option<Requester>)

  /**
   * EncodeSparseEmbedding: an empty text list is rejected; otherwise name,
   * version and texts are carried unchanged and the requester is taken
   * from Clinia metadata only when one is there.
   */
  function EncodeSparseEmbedding(modelName: string, modelVersion: string, texts: seq<string>, opts: ScopedOptions): (r: Result<SparseParams>)
    ensures texts == [] ==> r == Err(Failure("clinia/sparse: texts cannot be empty"))
    ensures texts != [] ==> r.Ok? && r.value.modelName == modelName && r.value.modelVersion == modelVersion
    ensures texts != [] ==> r.value.request == SparseEmbedRequest(texts)
    ensures texts != [] ==> r.value.requester == InjectedRequester(opts.providerMetadata)
  {
    if |texts| == 0 then Err(Failure("clinia/sparse: texts cannot be empty"))
    else
      var out := SparseParams(modelName, modelVersion, SparseEmbedRequest(texts), None);
      var meta := CliniaMeta(opts.providerMetadata);
      if meta.Some? && meta.value.requester.Some? then Ok(out.(requester := meta.value.requester)) else Ok(out)
  }

  /** The float64 table a float32 table becomes: the same keys, every weight widened. */
  function WidenedMap(m: map<string, Float32>, widen: Float32 -> Float64): (w: map<string, Float64>)
    ensures w.Keys == m.Keys
    ensures forall k :: k in m ==> w[k] == widen(m[k])
  {
    map k | k in m :: widen(m[k])
  }

  /** A fresh table filled by visiting the keys in an unspecified order, each value widened. */
  method WidenMap(m: map<string, Float32>, widen: Float32 -> Float64) returns (conv: map<string, Float64>)
    ensures conv == WidenedMap(m, widen)
  {
    conv := map[];
    var rest := m.Keys;
    while rest != {}
      invariant rest <= m.Keys
      invariant conv.Keys == m.Keys - rest
      invariant forall k :: k in conv ==> conv[k] == widen(m[k])
      decreases |rest|
    {
      var k :| k in rest;
      conv := conv[k := widen(m[k])];
      rest := rest - {k};
    }
  }

  /** What DecodeSparseEmbedding yields for a response. */
  function SparseDecoding(resp: Option<SparseEmbedResponse>, widen: Float32 -> Float64): Result<SparseEmbeddingResponse>
  {
    if resp.None? then Err(Failure("clinia/sparse: response is nil"))
    else
      var ms := resp.value.embeddings;
      Ok(SparseEmbeddingResponse(resp.value.id, seq(|ms|, i requires 0 <= i < |ms| => WidenedMap(ms[i], widen)), None, None))
  }

  /** DecodeSparseEmbedding: nil is an error; otherwise one table per response table, same position, same keys. */
  method DecodeSparseEmbedding(resp: Option<SparseEmbedResponse>, widen: Float32 -> Float64) returns (r: Result<SparseEmbeddingResponse>)
    ensures r == SparseDecoding(resp, widen)
    ensures resp.None? ==> r == Err(Failure("clinia/sparse: response is nil"))
    ensures resp.Some? ==> r.Ok? && r.value.requestID == resp.value.id
    ensures resp.Some? ==> |r.value.embeddings| == |resp.value.embeddings|
    ensures resp.Some? ==> forall i :: 0 <= i < |resp.value.embeddings| ==>
      r.value.embeddings[i] == WidenedMap(resp.value.embeddings[i], widen)
  {
    if resp.None? {
      return Err(Failure("clinia/sparse: response is nil"));
    }
    var ms := resp.value.embeddings;
    var a := new map<string, Float64>[|ms|](_ => map[]);
    for i := 0 to |ms|
      invariant forall k :: 0 <= k < i ==> a[k] == WidenedMap(ms[k], widen)
    {
      a[i] := WidenMap(ms[i], widen);
    }
    assert a[..] == seq(|ms|, i requires 0 <= i < |ms| => WidenedMap(ms[i], widen));
    return Ok(SparseEmbeddingResponse(resp.value.id, a[..], None, None));
  }
}
