// The OpenAI embedding codecs (provider/openai): the encoder folds the
// embedding options itself, sends the caller's headers and, when one is
// given, the base URL, and asks for float vectors; the decoder copies the
// vectors and reports the prompt tokens as the token count.

module OpenAICodec {

  import opened Common
  import opened Api
  import opened CallOptions
  import opened RequestOptions
  import opened EncoderOptions
  import opened Vectors
  import OpenAIWire

  /**
   * EncodeEmbedding: the options are folded in order over the zero value;
   * then header options and a base-URL option exactly when the folded
   * record has one (the API key and the raw flag are not sent); the model
   * and the inputs as given, float encoding, no warnings.
   */
  method EncodeEmbedding(modelID: string, values: seq<string>, opts: seq<EmbeddingOption>)
    returns (params: OpenAIWire.EmbeddingParams, reqOpts: seq<RequestOption>, warnings: seq<CallWarning>)
    ensures params == OpenAIWire.EmbeddingParams(modelID, values, OpenAIWire.EncodingFormatFloat)
    ensures EncodedAs(reqOpts, FoldEmbedding(ZeroOptions, opts).headers, Trailer(None, FoldEmbedding(ZeroOptions, opts).baseURL, false))
    ensures warnings == []
  {
    var eo := BuildEmbeddingConfig(opts);
    reqOpts := EncodeOptions(eo.headers, Trailer(None, eo.baseURL, false));
    params := OpenAIWire.EmbeddingParams(modelID, values, OpenAIWire.EncodingFormatFloat);
    warnings := [];
  }

  /** DecodeEmbedding: nil is an empty-body error; otherwise the vectors copied, the prompt tokens as Tokens, an empty raw response. */
  method DecodeEmbedding(resp: Option<OpenAIWire.EmbeddingResponse>) returns (r: Result<EmbeddingResponse>)
    ensures resp.None? ==> r == Err(EmptyResponseBody("openai embeddings"))
    ensures resp.Some? ==> r == Ok(EmbeddingResponse(resp.value.data, Some(Usage(0, 0, resp.value.promptTokens)), Some(EmptyRawResponse)))
  {
    if resp.None? {
      return Err(EmptyResponseBody("openai embeddings"));
    }
    var embs := CopyVectors(resp.value.data);
    return Ok(EmbeddingResponse(embs, Some(Usage(0, 0, resp.value.promptTokens)), Some(EmptyRawResponse)));
  }
}
