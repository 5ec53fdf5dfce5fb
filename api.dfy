// The unified API's value types that the adapters produce: embedding,
// ranking, chunking and segmenting responses, and the typed errors.

module Api {

  import opened Common
  import opened Headers

  /** A piece of a segmented text: its id, its text and its position. */
  datatype Segment = Segment(id: string, text: string, startIndex: int, endIndex: int, tokenCount: int)

  /** A chunk produced by a chunking model. */
  datatype Chunk = Chunk(id: string, text: string, startIndex: int, endIndex: int, tokenCount: int)

  /** EmbeddingUsage; a backend fills the counts it reports and leaves the rest 0. */
  datatype Usage = Usage(promptTokens: int, totalTokens: int, tokens: int)

  /** EmbeddingRawResponse: the response headers. */
  datatype RawResponse = RawResponse(headers: Header)

  /** The raw response the HTTP decoders attach: an empty header table. */
  const EmptyRawResponse := RawResponse(map[])

  /** A dense embedding response: one vector per input. */
  datatype EmbeddingResponse = EmbeddingResponse(embeddings: seq<seq<Float64>>, usage: Option<Usage>, rawResponse: Option<RawResponse>)

  /** A sparse embedding response: one token table per input. */
  datatype SparseEmbeddingResponse = SparseEmbeddingResponse(
    requestID: string,
    embeddings: seq<map<string, Float64>>,
    usage: Option<Usage>,
    rawResponse: Option<RawResponse>)

  /** A ranking response: one score per text, in the order of the texts. */
  datatype RankingResponse = RankingResponse(scores: seq<Float64>, requestID: string)

  datatype ChunkingResponse = ChunkingResponse(requestID: string, chunks: seq<seq<Chunk>>)

  datatype SegmentingResponse = SegmentingResponse(requestID: string, segments: seq<seq<Segment>>)

  /** MultimodalEmbeddingInput: an optional text and an optional image. */
  datatype MultimodalInput = MultimodalInput(text: Option<string>, image: Option<string>)

  /** CallWarning; no adapter modelled here ever produces one. */
  datatype CallWarning = CallWarning(message: string)

  /** The zero values Go returns beside an error. */
  const ZeroEmbeddingResponse := EmbeddingResponse([], None, None)
  const ZeroSparseEmbeddingResponse := SparseEmbeddingResponse("", [], None, None)
  const ZeroRankingResponse := RankingResponse([], "")
  const ZeroChunkingResponse := ChunkingResponse("", [])
  const ZeroSegmentingResponse := SegmentingResponse("", [])

}
