// Re-projecting rank results into a score array: the backend returns
// (index, score) pairs in relevance order, and the adapter writes each
// score at its index of a zero-filled array, skipping indices outside
// the array. The TEI decoder sizes the array by the largest index seen;
// the text-embeddings-inference ranking adapter by the number of texts.

module Scores {

  import opened Common

  /** The index and score of one rank result. */
  datatype Scored = Scored(index: int, score: Float64)

  /** The score of the last result carrying index `k`, or 0.0 when no result carries it. */
  function LastScoreAt(rs: seq<Scored>, k: int): Float64
  {
    if rs == [] then ZeroFloat64
    else if rs[|rs| - 1].index == k then rs[|rs| - 1].score
    else LastScoreAt(rs[..|rs| - 1], k)
  }

  /** When the result at `i` is the last with its index, its score is the one kept. */
  lemma {:induction false} LastScoreAtLastWriter(rs: seq<Scored>, i: nat)
    requires i < |rs|
    requires forall j :: i < j < |rs| ==> rs[j].index != rs[i].index
    ensures LastScoreAt(rs, rs[i].index) == rs[i].score
    decreases |rs|
  {
    if i < |rs| - 1 {
      LastScoreAtLastWriter(rs[..|rs| - 1], i);
    }
  }

  /** A position no result names keeps its zero. */
  lemma {:induction false} LastScoreAtUnnamed(rs: seq<Scored>, k: int)
    requires forall j :: 0 <= j < |rs| ==> rs[j].index != k
    ensures LastScoreAt(rs, k) == ZeroFloat64
    decreases |rs|
  {
    if rs != [] {
      LastScoreAtUnnamed(rs[..|rs| - 1], k);
    }
  }

  /** The largest index among the results, never below -1. */
  function MaxIndex(rs: seq<Scored>): (m: int)
    ensures m >= -1
    ensures forall j :: 0 <= j < |rs| ==> rs[j].index <= m
    ensures m >= 0 ==> exists j :: 0 <= j < |rs| && rs[j].index == m
  {
    if rs == [] then -1
    else
      var m := MaxIndex(rs[..|rs| - 1]);
      var last := rs[|rs| - 1].index;
      assert forall j :: 0 <= j < |rs| - 1 ==> rs[..|rs| - 1][j] == rs[j];
      if last > m then last else m
  }

  /** The loop that starts below every index and rises to each larger index it meets. */
  method MaxIndexOf(rs: seq<Scored>) returns (maxIndex: int)
    ensures maxIndex == MaxIndex(rs)
  {
    maxIndex := -1;
    for i := 0 to |rs|
      invariant maxIndex == MaxIndex(rs[..i])
    {
      assert rs[..i + 1][..i] == rs[..i];
      if rs[i].index > maxIndex {
        maxIndex := rs[i].index;
      }
    }
    assert rs[..|rs|] == rs;
  }

  /** A zero-filled array of `n` scores, with each in-range result's score written at its index. */
  method Scatter(n: nat, rs: seq<Scored>) returns (scores: seq<Float64>)
    ensures |scores| == n
    ensures forall k :: 0 <= k < n ==> scores[k] == LastScoreAt(rs, k)
  {
    var a := new Float64[n](_ => ZeroFloat64);
    for i := 0 to |rs|
      invariant forall k :: 0 <= k < n ==> a[k] == LastScoreAt(rs[..i], k)
    {
      assert rs[..i + 1][..i] == rs[..i];
      if 0 <= rs[i].index < n {
        a[rs[i].index] := rs[i].score;
      }
    }
    assert rs[..|rs|] == rs;
    scores := a[..];
  }
}
