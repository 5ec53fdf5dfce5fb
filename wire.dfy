// The request and response bodies each backend's client puts on the wire.
// Go pointers become `Option`s, slices become sequences, and float
// payloads are carried as bit patterns (they are only ever copied).

/** The TEI client (provider/tei/client): /embed, /embed_sparse and /rerank bodies. */
module TeiWire {

  import opened Common

  /** TextEmbeddingNewParams: the /embed body. */
  datatype EmbedParams = EmbedParams(
    inputs: seq<string>,
    dimensions: Option<int>,
    normalize: Option<bool>,
    truncate: Option<bool>,
    truncationDirection: Option<string>,
    promptName: Option<string>)

  /** SparseTextEmbeddingNewParams: the /embed_sparse body. */
  datatype SparseEmbedParams = SparseEmbedParams(
    inputs: seq<string>,
    truncate: Option<bool>,
    truncationDirection: Option<string>,
    promptName: Option<string>)

  /** RankRequest: the /rerank body. */
  datatype RankRequest = RankRequest(
    query: string,
    texts: seq<string>,
    rawScores: Option<bool>,
    returnText: Option<bool>,
    truncate: Option<bool>,
    truncationDirection: Option<string>)

  /** One entry of a RankResponse: the index of a text in the request and its score. */
  datatype RankResult = RankResult(index: int, score: Float64, text: Option<string>)

  /** CreateEmbeddingResponse: one vector per input. */
  type EmbedResponse = seq<seq<Float64>>

  /** CreateSparseEmbeddingResponse: one token-to-weight table per input. */
  type SparseResponse = seq<map<string, Float64>>
}

/** The text-embeddings-inference client (provider/textembeddinginference/client). */
module TeiInferenceWire {

  import opened Common

  /**
   * The dynamically typed `Inputs` field: absent (nil), a single string,
   * a list of strings, or a value of some other Go type.
   */
  datatype Inputs = NilInputs | TextInput(text: string) | TextListInput(texts: seq<string>) | OtherInputs(typeName: string)

  /** EmbedRequest (alias TextEmbeddingNewParams), with the fields this layer reads or writes. */
  datatype EmbedRequest = EmbedRequest(inputs: Inputs, normalize: Option<bool>, truncate: Option<bool>)

  /** EmbedSparseRequest (alias SparseTextEmbeddingNewParams), with the fields this layer reads or writes. */
  datatype EmbedSparseRequest = EmbedSparseRequest(inputs: Inputs, truncate: Option<bool>)

  /** RankRequest, as the rank encoder and the ranking adapter fill it. */
  datatype RankRequest = RankRequest(
    query: string,
    texts: seq<string>,
    rawScores: Option<bool>,
    returnText: Option<bool>,
    truncate: Option<bool>,
    truncationDirection: Option<string>)

  /** RerankRequest: the body the reranking service validates. */
  datatype RerankRequest = RerankRequest(
    query: string,
    texts: seq<string>,
    rawScores: Option<bool>,
    returnText: Option<bool>,
    truncate: Option<bool>,
    truncationDirection: Option<string>)

  /** One entry of a rank response. */
  datatype RankResult = RankResult(index: int, score: Float64, text: Option<string>)

  /** RankOptions: the ranking knobs the adapter reads from provider metadata. */
  datatype RankOptions = RankOptions(
    rawScores: Option<bool>,
    returnText: Option<bool>,
    truncate: Option<bool>,
    truncationDirection: Option<string>)

  /** One non-zero coordinate of a sparse embedding. */
  datatype SparseValue = SparseValue(index: int, value: Float64)

  type EmbedResponse = seq<seq<Float64>>

  /** One list of coordinates per input. */
  type SparseResponse = seq<seq<SparseValue>>
}

/** The segmenter API shared by the Jina and Chonkie clients. */
module SegmenterWire {

  import opened Common

  /** SegmentRequest: one content string and the segmenter knobs. */
  datatype SegmentRequest = SegmentRequest(
    content: string,
    returnTokens: bool,
    returnChunks: bool,
    maxChunkLength: Option<int>,
    head: Option<int>,
    tail: Option<int>,
    tokenizer: Option<string>)

  /** BatchSegmentRequest (Chonkie): several contents in one call. */
  datatype BatchSegmentRequest = BatchSegmentRequest(
    contents: seq<string>,
    returnTokens: bool,
    returnChunks: bool,
    maxChunkLength: Option<int>,
    head: Option<int>,
    tail: Option<int>,
    tokenizer: Option<string>)

  /** SegmentResponse: the chunk texts and, per chunk, its [start, end] positions. */
  datatype SegmentResponse = SegmentResponse(
    numTokens: int,
    tokenizer: string,
    numChunks: int,
    chunkPositions: seq<seq<int>>,
    chunks: seq<string>)
}

/** The Jina client (provider/jina/client). */
module JinaWire {

  import opened Common

  /** MultimodalEmbeddingInput: an optional text and an optional image URL. */
  datatype MultimodalInput = MultimodalInput(text: Option<string>, image: Option<string>)

  /** TextEmbeddingNewParams. */
  datatype TextParams = TextParams(model: string, task: Option<string>, input: seq<string>)

  /** MultimodalEmbeddingNewParams. */
  datatype MultimodalParams = MultimodalParams(model: string, task: Option<string>, input: seq<MultimodalInput>)

  /** The usage block of an embeddings response. */
  datatype Usage = Usage(promptTokens: int, totalTokens: int)

  /** CreateEmbeddingResponse: one vector per datum, in datum order. */
  datatype EmbeddingResponse = EmbeddingResponse(data: seq<seq<Float64>>, usage: Usage)
}

/** The Chonkie client (provider/chonkie/client). */
module ChonkieWire {

  import opened Common

  datatype MultimodalInput = MultimodalInput(text: Option<string>, image: Option<string>)

  /** MultimodalEmbeddingNewParams, with the fields the client reads. */
  datatype MultimodalParams = MultimodalParams(model: string, input: seq<MultimodalInput>)
}

/** The OpenAI SDK's embeddings request and response, as the codec uses them. */
module OpenAIWire {

  import opened Common

  /** EmbeddingNewParams with its input given as an array of strings. */
  datatype EmbeddingParams = EmbeddingParams(model: string, input: seq<string>, encodingFormat: string)

  const EncodingFormatFloat := "float"

  datatype EmbeddingResponse = EmbeddingResponse(data: seq<seq<Float64>>, promptTokens: int)
}

/** The Clinia models client: request and response messages of the gRPC services. */
module CliniaWire {

  import opened Common

  /** A handle on a gRPC requester; the connection behind it is not modelled. */
  datatype Requester = Requester(id: nat)

  datatype EmbedRequest = EmbedRequest(texts: seq<string>)
  datatype EmbedResponse = EmbedResponse(embeddings: seq<seq<Float32>>)

  datatype RankRequest = RankRequest(query: string, texts: seq<string>)
  datatype RankResponse = RankResponse(id: string, scores: seq<Float32>)

  /** ChunkRequest, which the segmenter reuses. */
  datatype ChunkRequest = ChunkRequest(texts: seq<string>)
  datatype WireChunk = WireChunk(id: string, text: string, startIndex: int, endIndex: int, tokenCount: int)
  datatype ChunkResponse = ChunkResponse(id: string, chunks: seq<seq<WireChunk>>)

  datatype SparseEmbedRequest = SparseEmbedRequest(texts: seq<string>)
  datatype SparseEmbedResponse = SparseEmbedResponse(id: string, embeddings: seq<map<string, Float32>>)

  /** codec.Metadata: a pre-built requester a caller can inject. */
  datatype Metadata = Metadata(requester: Option<Requester>)
}
