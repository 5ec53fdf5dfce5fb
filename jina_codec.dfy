// The Jina codecs (provider/jina): the embedding encoders name the model,
// carry the inputs, emit header options only and take the task from Jina
// metadata when it is set and non-empty; the embedding decoder copies the
// vectors and the usage counts; the segmenting encoders reject an empty
// text and ask for chunks, and the decoder maps chunks to "c<i>" segments.

module JinaCodec {

  import opened Common
  import opened Api
  import opened Headers
  import opened CallOptions
  import opened Metadata
  import opened RequestOptions
  import opened HeaderOptions
  import opened EncoderOptions
  import opened Vectors
  import opened Segments
  import opened SegmenterWire
  import JinaWire

  // ---- Embedding ----

  /** The task a Jina metadata value supplies: only a set, non-empty task counts. */
  function GivenTask(task: Option<string>): (t: Option<string>)
    ensures t.Some? <==> task.Some? && task.value != ""
    ensures t.Some? ==> t == task
  {
    if task.Some? && task.value != "" then task else None
  }

  /** applyProviderMetadata: the task from Jina text-embedding metadata, when it is set and non-empty. */
  function ApplyProviderMetadata(params: JinaWire.TextParams, bag: Option<Bag>): (r: JinaWire.TextParams)
    ensures r.model == params.model && r.input == params.input
    ensures var m := JinaTextMetadata(bag);
      r.task == (if m.Some? && GivenTask(m.value.task).Some? then m.value.task else params.task)
  {
    match JinaTextMetadata(bag)
      case None => params
      case Some(m) => params.(task := Overlay(params.task, GivenTask(m.task)))
  }

  /** EncodeEmbedding: model and input as given, header options only, no warnings. */
  method EncodeEmbedding(modelID: string, values: seq<string>, opts: CallOptions)
    returns (params: JinaWire.TextParams, reqOpts: seq<RequestOption>, warnings: seq<CallWarning>)
    ensures params.model == modelID && params.input == values
    ensures var m := JinaTextMetadata(opts.providerMetadata);
      params.task == (if m.Some? && GivenTask(m.value.task).Some? then m.value.task else None)
    ensures EncodedAs(reqOpts, opts.headers, NoTrailer)
    ensures warnings == []
  {
    reqOpts := EncodeOptions(opts.headers, NoTrailer);
    params := JinaWire.TextParams(modelID, None, values);
    params := ApplyProviderMetadata(params, opts.providerMetadata);
    warnings := [];
  }

  /** One unified multimodal input as the Jina client's input: the same text and image. */
  function AsJinaInput(v: MultimodalInput): (w: JinaWire.MultimodalInput)
    ensures w.text == v.text && w.image == v.image
  {
    JinaWire.MultimodalInput(v.text, v.image)
  }

  /** The mapping loop: one client input per unified input, in the same position. */
  method MapInputs(values: seq<MultimodalInput>) returns (mapped: seq<JinaWire.MultimodalInput>)
    ensures |mapped| == |values|
    ensures forall i :: 0 <= i < |values| ==> mapped[i].text == values[i].text && mapped[i].image == values[i].image
  {
    var a := new JinaWire.MultimodalInput[|values|](_ => JinaWire.MultimodalInput(None, None));
    for i := 0 to |values|
      invariant forall k :: 0 <= k < i ==> a[k] == AsJinaInput(values[k])
    {
      a[i] := AsJinaInput(values[i]);
    }
    mapped := a[..];
  }

  /** applyProviderMultimodalMetadata: the task from Jina multimodal metadata, when set and non-empty. */
  function ApplyProviderMultimodalMetadata(params: JinaWire.MultimodalParams, bag: Option<Bag>): (r: JinaWire.MultimodalParams)
    ensures r.model == params.model && r.input == params.input
    ensures var m := JinaMultimodalMetadata(bag);
      r.task == (if m.Some? && GivenTask(m.value.task).Some? then m.value.task else params.task)
  {
    match JinaMultimodalMetadata(bag)
      case None => params
      case Some(m) => params.(task := Overlay(params.task, GivenTask(m.task)))
  }

  /** EncodeMultimodalEmbedding: the inputs mapped one to one, header options only, no warnings. */
  method EncodeMultimodalEmbedding(modelID: string, values: seq<MultimodalInput>, opts: CallOptions)
    returns (params: JinaWire.MultimodalParams, reqOpts: seq<RequestOption>, warnings: seq<CallWarning>)
    ensures params.model == modelID && |params.input| == |values|
    ensures forall i :: 0 <= i < |values| ==> params.input[i].text == values[i].text && params.input[i].image == values[i].image
    ensures var m := JinaMultimodalMetadata(opts.providerMetadata);
      params.task == (if m.Some? && GivenTask(m.value.task).Some? then m.value.task else None)
    ensures EncodedAs(reqOpts, opts.headers, NoTrailer)
    ensures warnings == []
  {
    reqOpts := EncodeOptions(opts.headers, NoTrailer);
    var mapped := MapInputs(values);
    params := JinaWire.MultimodalParams(modelID, None, mapped);
    params := ApplyProviderMultimodalMetadata(params, opts.providerMetadata);
    warnings := [];
  }

  /** A header table with one value under one name and two under another expands to three options. */
  lemma ThreeHeaderValues(opts: seq<RequestOption>)
    requires ExpandsHeaders(opts, map["X-One" := ["1"], "X-Multi" := ["A", "B"]])
    ensures |opts| == 3
  {
    var h: Header := map["X-One" := ["1"], "X-Multi" := ["A", "B"]];
    assert h.Keys == {"X-One", "X-Multi"};
    CountOverRemove(h, h.Keys, "X-One");
    assert h.Keys - {"X-One"} == {"X-Multi"};
    CountOverRemove(h, {"X-Multi"}, "X-Multi");
    assert {"X-Multi"} - {"X-Multi"} == {};
  }

  /** DecodeEmbedding: nil is an error naming the Jina API; otherwise the vectors copied, both usage counts, an empty raw response. */
  method DecodeEmbedding(resp: Option<JinaWire.EmbeddingResponse>) returns (r: Result<EmbeddingResponse>)
    ensures resp.None? ==> r == Err(EmptyResponseBody("response from Jina embeddings API is nil"))
    ensures resp.Some? ==> r.Ok? && r.value.embeddings == resp.value.data
    ensures resp.Some? ==> r.value.usage == Some(Usage(resp.value.usage.promptTokens, resp.value.usage.totalTokens, 0))
    ensures resp.Some? ==> r.value.rawResponse == Some(EmptyRawResponse)
  {
    if resp.None? {
      return Err(EmptyResponseBody("response from Jina embeddings API is nil"));
    }
    var embs := CopyVectors(resp.value.data);
    var usage := Usage(resp.value.usage.promptTokens, resp.value.usage.totalTokens, 0);
    return Ok(EmbeddingResponse(embs, Some(usage), Some(EmptyRawResponse)));
  }

  // ---- Segmenting ----

  /** A segmenter request body and the request options to send it with. */
  datatype SegmentCall = SegmentCall(body: SegmentRequest, reqOpts: seq<RequestOption>)

  const EmptyContent := Failure("jina/segment: content is empty")

  /** The body for one text: that content, with chunks requested and every other knob unset. */
  function SegmentBody(text: string): (b: SegmentRequest)
    ensures b.content == text && b.returnChunks && !b.returnTokens
  {
    SegmentRequest(text, false, true, None, None, None, None)
  }

  /** The options after the headers: the key and the base URL when non-empty, the raw flag when set. */
  function SegmentTrailer(opts: CallOptions): (t: Trailer)
    ensures t.apiKey.Some? <==> opts.apiKey != ""
    ensures t.apiKey.Some? ==> t.apiKey.value == opts.apiKey
    ensures t.baseURL.Some? <==> BaseURLText(opts) != ""
    ensures t.baseURL.Some? ==> t.baseURL.value == BaseURLText(opts)
    ensures t.useRawBaseURL == opts.useRawBaseURL
  {
    Trailer(
      if opts.apiKey != "" then Some(opts.apiKey) else None,
      if BaseURLText(opts) != "" then Some(BaseURLText(opts)) else None,
      opts.useRawBaseURL)
  }

  /** EncodeSegment: an empty text is rejected with no options; otherwise the chunking body and the full option list. */
  method EncodeSegment(text: string, opts: CallOptions) returns (r: Result<SegmentCall>)
    ensures text == "" ==> r == Err(EmptyContent)
    ensures text != "" ==> r.Ok? && r.value.body == SegmentBody(text)
    ensures text != "" ==> EncodedAs(r.value.reqOpts, opts.headers, SegmentTrailer(opts))
  {
    if text == "" {
      return Err(EmptyContent);
    }
    var reqOpts := EncodeOptions(opts.headers, SegmentTrailer(opts));
    return Ok(SegmentCall(SegmentBody(text), reqOpts));
  }

  /**
   * The older EncodeSegment, over the segmenting options: an empty text is
   * rejected; otherwise header options and a base-URL option exactly when
   * one was given, and never a key or a raw flag.
   */
  method EncodeSegmentScoped(text: string, opts: ScopedOptions) returns (r: Result<SegmentCall>)
    ensures text == "" ==> r == Err(EmptyContent)
    ensures text != "" ==> r.Ok? && r.value.body == SegmentBody(text)
    ensures text != "" ==> EncodedAs(r.value.reqOpts, opts.headers, Trailer(None, opts.baseURL, false))
  {
    if text == "" {
      return Err(EmptyContent);
    }
    var reqOpts := EncodeOptions(opts.headers, Trailer(None, opts.baseURL, false));
    return Ok(SegmentCall(SegmentBody(text), reqOpts));
  }

  const NilSegmentResponse := "jina/segment: response is nil"

  /** DecodeSegment (both variants): nil is an error; otherwise one "c<i>" segment per chunk, in order. */
  method DecodeSegment(resp: Option<SegmentResponse>) returns (r: Result<seq<Segment>>)
    ensures resp.None? ==> r == Err(Failure(NilSegmentResponse))
    ensures resp.Some? ==> r == Ok(Decoded(resp.value))
  {
    r := Segments.DecodeSegment(resp, NilSegmentResponse);
  }
}
