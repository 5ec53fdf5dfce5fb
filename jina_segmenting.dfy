// The Jina segmenting model (provider/jina/segmenting.go): a constructor
// that never fails, and DoSegment, which sends one request per text in
// input order and stops at the first text that cannot be encoded, the
// first transport error or the first nil response, returning the zero
// response and none of the groups gathered so far.

module JinaSegmenting {

  import opened Common
  import opened Api
  import opened CallOptions
  import opened EncoderOptions
  import opened Segments
  import opened SegmenterWire
  import opened JinaCodec
  import HttpProviders

  /** A segmenting model: the id as given and what it keeps of its provider. */
  datatype SegmentingModel = SegmentingModel(modelID: string, providerName: string, client: HttpProviders.Client, apiKey: string)

  /** SegmentingModel: always a model, named "<provider>.segmenting", sharing the provider's client and key. */
  function NewSegmentingModel(p: HttpProviders.Provider, modelID: string): (r: Result<SegmentingModel>)
    requires p.backend == HttpProviders.Jina
    reads p
    ensures r.Ok?
    ensures r.value.modelID == modelID && r.value.providerName == p.name + ".segmenting"
    ensures r.value.client == p.client && r.value.apiKey == p.apiKey
  {
    Ok(SegmentingModel(modelID, p.name + ".segmenting", p.client, p.apiKey))
  }

  /** A reply the loop can decode: the client call succeeded and returned a response. */
  predicate Delivered(x: Result<Option<SegmentResponse>>)
  {
    x.Ok? && x.value.Some?
  }

  /** The error a reply that was not delivered ends the call with: the transport error, or the decoder's nil-response error. */
  function Refusal(x: Result<Option<SegmentResponse>>): Error
    requires !Delivered(x)
  {
    if x.Err? then x.error else Failure(NilSegmentResponse)
  }

  /** Request k carries the body for text k, which is non-empty, and the full option list. */
  ghost predicate SentInOrder(texts: seq<string>, opts: CallOptions, calls: seq<SegmentCall>)
  {
    && |calls| <= |texts|
    && forall k :: 0 <= k < |calls| ==>
         texts[k] != "" && calls[k].body == SegmentBody(texts[k]) && EncodedAs(calls[k].reqOpts, opts.headers, SegmentTrailer(opts))
  }

  /** Every one of `calls` got a decodable reply. */
  predicate AllDelivered(send: (HttpProviders.Client, SegmentCall) -> Result<Option<SegmentResponse>>,
                         client: HttpProviders.Client, calls: seq<SegmentCall>)
  {
    forall k :: 0 <= k < |calls| ==> Delivered(send(client, calls[k]))
  }

  /** Sending the next text's request keeps the requests in order. */
  lemma SentInOrderExtend(texts: seq<string>, opts: CallOptions, calls: seq<SegmentCall>, c: SegmentCall)
    requires SentInOrder(texts, opts, calls) && |calls| < |texts|
    requires texts[|calls|] != "" && c.body == SegmentBody(texts[|calls|])
    requires EncodedAs(c.reqOpts, opts.headers, SegmentTrailer(opts))
    ensures SentInOrder(texts, opts, calls + [c])
  {
    forall k | 0 <= k < |calls| + 1
      ensures (calls + [c])[k] == if k < |calls| then calls[k] else c
    {
    }
  }

  /** One more delivered reply keeps every reply delivered. */
  lemma AllDeliveredExtend(send: (HttpProviders.Client, SegmentCall) -> Result<Option<SegmentResponse>>,
                           client: HttpProviders.Client, calls: seq<SegmentCall>, c: SegmentCall)
    requires AllDelivered(send, client, calls) && Delivered(send(client, c))
    ensures AllDelivered(send, client, calls + [c])
  {
    forall k | 0 <= k < |calls| + 1
      ensures (calls + [c])[k] == if k < |calls| then calls[k] else c
    {
    }
  }

  /**
   * DoSegment. `send` is the Segments.New round trip; `calls` lists the
   * requests it was given, in order. Every call carries the body for the
   * text at its position and the full option list. The call succeeds
   * exactly when every text was sent and every reply delivered, and then
   * group k is the decoding of reply k. Otherwise the response is zero
   * and the call stopped either at an empty text, before sending it, or
   * at the reply of the last request sent.
   */
  method DoSegment(m: SegmentingModel, texts: seq<string>, opts: CallOptions,
                   send: (HttpProviders.Client, SegmentCall) -> Result<Option<SegmentResponse>>)
    returns (resp: SegmentingResponse, err: Option<Error>, calls: seq<SegmentCall>)
    ensures SentInOrder(texts, opts, calls)
    ensures err.None? <==> |calls| == |texts| && AllDelivered(send, m.client, calls)
    ensures err.None? ==> resp.requestID == "" && |resp.segments| == |texts|
    ensures err.None? ==> forall k :: 0 <= k < |texts| ==> resp.segments[k] == Decoded(send(m.client, calls[k]).value.value)
    ensures err.Some? ==> resp == ZeroSegmentingResponse
    ensures err.Some? ==>
      || (|calls| < |texts| && texts[|calls|] == "" && err == Some(EmptyContent) && AllDelivered(send, m.client, calls))
      || (0 < |calls| && !Delivered(send(m.client, calls[|calls| - 1]))
          && err == Some(Refusal(send(m.client, calls[|calls| - 1])))
          && AllDelivered(send, m.client, calls[..|calls| - 1]))
  {
    var groups: seq<seq<Segment>> := [];
    calls := [];
    for i := 0 to |texts|
      invariant |calls| == i && |groups| == i
      invariant SentInOrder(texts, opts, calls)
      invariant AllDelivered(send, m.client, calls)
      invariant forall k :: 0 <= k < i ==> groups[k] == Decoded(send(m.client, calls[k]).value.value)
    {
      var encoded := EncodeSegment(texts[i], opts);
      if encoded.Err? {
        return ZeroSegmentingResponse, Some(encoded.error), calls;
      }
      var before := calls;
      SentInOrderExtend(texts, opts, before, encoded.value);
      calls := before + [encoded.value];
      assert calls[..|calls| - 1] == before;
      var reply := send(m.client, encoded.value);
      if reply.Err? {
        return ZeroSegmentingResponse, Some(reply.error), calls;
      }
      var segs := JinaCodec.DecodeSegment(reply.value);
      if segs.Err? {
        return ZeroSegmentingResponse, Some(segs.error), calls;
      }
      AllDeliveredExtend(send, m.client, before, encoded.value);
      groups := groups + [segs.value];
    }
    return SegmentingResponse("", groups), None, calls;
  }
}
