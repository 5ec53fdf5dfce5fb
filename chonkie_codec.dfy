// The Chonkie segmenting codecs (provider/chonkie): the encoders reject
// an empty input, ask for chunks and send the caller's headers, key, base
// URL and raw flag; the decoders map chunks to "c<i>" segments, the batch
// decoder one response per input text.

module ChonkieCodec {

  import opened Common
  import opened Api
  import opened CallOptions
  import opened RequestOptions
  import opened EncoderOptions
  import opened Segments
  import opened SegmenterWire

  /** The options after the headers: the key when non-empty, the base URL when given, the raw flag when set. */
  function ChonkieTrailer(opts: CallOptions): (t: Trailer)
    ensures t.apiKey.Some? <==> opts.apiKey != ""
    ensures t.apiKey.Some? ==> t.apiKey.value == opts.apiKey
    ensures t.baseURL == opts.baseURL
    ensures t.useRawBaseURL == opts.useRawBaseURL
  {
    Trailer(if opts.apiKey != "" then Some(opts.apiKey) else None, opts.baseURL, opts.useRawBaseURL)
  }

  datatype SegmentCall = SegmentCall(body: SegmentRequest, reqOpts: seq<RequestOption>)
  datatype BatchSegmentCall = BatchSegmentCall(body: BatchSegmentRequest, reqOpts: seq<RequestOption>)

  const EmptyContent := Failure("chonkie/segment: content is empty")
  const EmptyTexts := Failure("chonkie/segment: texts cannot be empty")

  /** EncodeSegment: an empty text is rejected; otherwise that content with chunks requested, and the full option list. */
  method EncodeSegment(text: string, opts: CallOptions) returns (r: Result<SegmentCall>)
    ensures text == "" ==> r == Err(EmptyContent)
    ensures text != "" ==> r.Ok? && r.value.body == SegmentRequest(text, false, true, None, None, None, None)
    ensures text != "" ==> EncodedAs(r.value.reqOpts, opts.headers, ChonkieTrailer(opts))
  {
    if text == "" {
      return Err(EmptyContent);
    }
    var reqOpts := EncodeOptions(opts.headers, ChonkieTrailer(opts));
    return Ok(SegmentCall(SegmentRequest(text, false, true, None, None, None, None), reqOpts));
  }

  /**
   * EncodeSegmentBatch: only an empty list is rejected (empty texts inside
   * it are sent); the contents are the texts in order, with chunks
   * requested, and the options as for EncodeSegment.
   */
  method EncodeSegmentBatch(texts: seq<string>, opts: CallOptions) returns (r: Result<BatchSegmentCall>)
    ensures texts == [] ==> r == Err(EmptyTexts)
    ensures texts != [] ==> r.Ok? && r.value.body == BatchSegmentRequest(texts, false, true, None, None, None, None)
    ensures texts != [] ==> EncodedAs(r.value.reqOpts, opts.headers, ChonkieTrailer(opts))
  {
    if |texts| == 0 {
      return Err(EmptyTexts);
    }
    var reqOpts := EncodeOptions(opts.headers, ChonkieTrailer(opts));
    return Ok(BatchSegmentCall(BatchSegmentRequest(texts, false, true, None, None, None, None), reqOpts));
  }

  const NilSegmentResponse := "chonkie/segment: response is nil"
  const NilBatchResponse := "chonkie/segment: batch response is nil"

  /** DecodeSegment: nil is an error; otherwise one "c<i>" segment per chunk, in order. */
  method DecodeSegment(resp: Option<SegmentResponse>) returns (r: Result<seq<Segment>>)
    ensures resp.None? ==> r == Err(Failure(NilSegmentResponse))
    ensures resp.Some? ==> r == Ok(Decoded(resp.value))
  {
    r := Segments.DecodeSegment(resp, NilSegmentResponse);
  }

  /**
   * DecodeSegmentBatch: an empty list is an error; otherwise group i is
   * the decoding of response i. Each response is passed by address, so
   * the per-response nil check never fires.
   */
  method DecodeSegmentBatch(resps: seq<SegmentResponse>) returns (r: Result<seq<seq<Segment>>>)
    ensures resps == [] ==> r == Err(Failure(NilBatchResponse))
    ensures resps != [] ==> r.Ok? && |r.value| == |resps|
    ensures resps != [] ==> forall i :: 0 <= i < |resps| ==> r.value[i] == Decoded(resps[i])
  {
    if |resps| == 0 {
      return Err(Failure(NilBatchResponse));
    }
    var out: seq<seq<Segment>> := [];
    for i := 0 to |resps|
      invariant |out| == i
      invariant forall k :: 0 <= k < i ==> out[k] == Decoded(resps[k])
    {
      var segs := DecodeSegment(Some(resps[i]));
      out := out + [segs.value];
    }
    return Ok(out);
  }
}
