// The copy loops of the embedding decoders: every vector of a response is
// copied into a freshly made, zero-filled slice of the same length. The
// Clinia decoders also widen each float32 entry to a float64; the
// widening is the parameter `widen`.

module Vectors {

  import opened Common

  /** A fresh vector of the same length with every entry copied. */
  method CopyVector(v: seq<Float64>) returns (c: seq<Float64>)
    ensures c == v
  {
    var a := new Float64[|v|](_ => ZeroFloat64);
    for j := 0 to |v|
      invariant forall k :: 0 <= k < j ==> a[k] == v[k]
    {
      a[j] := v[j];
    }
    c := a[..];
  }

  /** The decoders' outer loop: one fresh copy per vector, in the same positions. */
  method CopyVectors(vs: seq<seq<Float64>>) returns (cs: seq<seq<Float64>>)
    ensures cs == vs
  {
    var a := new seq<Float64>[|vs|](_ => []);
    for i := 0 to |vs|
      invariant forall k :: 0 <= k < i ==> a[k] == vs[k]
    {
      a[i] := CopyVector(vs[i]);
    }
    cs := a[..];
  }

  /** The float64 value of each float32 entry, position by position. */
  function Widened(v: seq<Float32>, widen: Float32 -> Float64): (w: seq<Float64>)
    ensures |w| == |v| && forall j :: 0 <= j < |v| ==> w[j] == widen(v[j])
  {
    seq(|v|, j requires 0 <= j < |v| => widen(v[j]))
  }

  /** The loop widening one vector entry by entry. */
  method WidenVector(v: seq<Float32>, widen: Float32 -> Float64) returns (c: seq<Float64>)
    ensures c == Widened(v, widen)
  {
    var a := new Float64[|v|](_ => ZeroFloat64);
    for j := 0 to |v|
      invariant forall k :: 0 <= k < j ==> a[k] == widen(v[k])
    {
      a[j] := widen(v[j]);
    }
    c := a[..];
  }

  /** The nested widening loops: the outer and every inner length are kept, and every entry is widened in place. */
  method WidenVectors(vs: seq<seq<Float32>>, widen: Float32 -> Float64) returns (cs: seq<seq<Float64>>)
    ensures |cs| == |vs|
    ensures forall i :: 0 <= i < |vs| ==> cs[i] == Widened(vs[i], widen)
  {
    var a := new seq<Float64>[|vs|](_ => []);
    for i := 0 to |vs|
      invariant forall k :: 0 <= k < i ==> a[k] == Widened(vs[k], widen)
    {
      a[i] := WidenVector(vs[i], widen);
    }
    cs := a[..];
  }
}
