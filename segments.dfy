// Decoding a segmenter response (Jina and Chonkie): chunk i becomes a
// segment with id "c<i>" and the chunk's text, positioned by entry i of
// the chunk positions only when that entry exists and has exactly two
// numbers; the token count is left 0.

module Segments {

  import opened Common
  import opened Text
  import opened Api
  import opened SegmenterWire

  /** The segment chunk `i` of a response decodes to. */
  function SegmentAt(resp: SegmentResponse, i: nat): Segment
    requires i < |resp.chunks|
  {
    var positioned := i < |resp.chunkPositions| && |resp.chunkPositions[i]| == 2;
    Segment(
      "c" + NatToString(i),
      resp.chunks[i],
      if positioned then resp.chunkPositions[i][0] else 0,
      if positioned then resp.chunkPositions[i][1] else 0,
      0)
  }

  /** All chunks of a response, decoded in order. */
  function Decoded(resp: SegmentResponse): (segs: seq<Segment>)
    ensures |segs| == |resp.chunks|
    ensures forall i :: 0 <= i < |segs| ==> segs[i] == SegmentAt(resp, i)
  {
    seq(|resp.chunks|, i requires 0 <= i < |resp.chunks| => SegmentAt(resp, i))
  }

  /**
   * DecodeSegment: a nil response is an error with the backend's message;
   * otherwise one segment per chunk, appended in chunk order.
   */
  method DecodeSegment(resp: Option<SegmentResponse>, nilMessage: string) returns (r: Result<seq<Segment>>)
    ensures resp.None? ==> r == Err(Failure(nilMessage))
    ensures resp.Some? ==> r == Ok(Decoded(resp.value))
  {
    if resp.None? {
      return Err(Failure(nilMessage));
    }
    var res := resp.value;
    var segs: seq<Segment> := [];
    for i := 0 to |res.chunks|
      invariant |segs| == i
      invariant forall k :: 0 <= k < i ==> segs[k] == SegmentAt(res, k)
    {
      var seg := Segment("c" + NatToString(i), res.chunks[i], 0, 0, 0);
      if i < |res.chunkPositions| && |res.chunkPositions[i]| == 2 {
        seg := seg.(startIndex := res.chunkPositions[i][0], endIndex := res.chunkPositions[i][1]);
      }
      segs := segs + [seg];
    }
    assert segs == Decoded(res);
    return Ok(segs);
  }

  /** Distinct chunks get distinct ids. */
  lemma SegmentIdsDistinct(resp: SegmentResponse, i: nat, j: nat)
    requires i < |resp.chunks| && j < |resp.chunks| && i != j
    ensures SegmentAt(resp, i).id != SegmentAt(resp, j).id
  {
    if SegmentAt(resp, i).id == SegmentAt(resp, j).id {
      assert NatToString(i) == SegmentAt(resp, i).id[1..];
      assert NatToString(j) == SegmentAt(resp, j).id[1..];
      assert IntToString(i) == IntToString(j);
      IntToStringInjective(i, j);
    }
  }

  /** A chunk without a well-formed position pair decodes to positions 0 and 0. */
  lemma UnpositionedChunk(resp: SegmentResponse, i: nat)
    requires i < |resp.chunks|
    requires i >= |resp.chunkPositions| || |resp.chunkPositions[i]| != 2
    ensures SegmentAt(resp, i).startIndex == 0 && SegmentAt(resp, i).endIndex == 0
  {
  }
}
