// Shared vocabulary of the adapter layer: optional values, results, the
// error values the adapters return, bytes and the IEEE-754 values that
// backends put on the wire.

module Common {

  datatype Option<+T> = None | Some(value: T)
  {
    /** The value when present, otherwise `d` (the reading of a Go pointer with a fallback). */
    function OrElse(d: T): T
    {
      if Some? then value else d
    }
  }

  /**
   * The errors this layer returns. `Failure` is an `errors.New` or
   * `fmt.Errorf` value without a wrapped cause, `Wrapped` is
   * `fmt.Errorf("<context>: %w", cause)`, and the two others are the
   * shared API error kinds.
   */
  datatype Error =
    | Failure(message: string)
    | Wrapped(context: string, cause: Error)
    | UnsupportedFunctionality(functionality: string, message: string)
    | EmptyResponseBody(message: string)

  datatype Result<+T> = Ok(value: T) | Err(error: Error)
  {
    predicate IsFailure() { Err? }

    function PropagateFailure<U>(): Result<U>
      requires Err?
    {
      Err(error)
    }

    function Extract(): T
      requires Ok?
    {
      value
    }
  }

  newtype byte = x: int | 0 <= x < 256

  type Bytes = seq<byte>

  /** A float64 on the wire, by its bit pattern; the adapters only copy these. */
  datatype Float64 = Float64(bits: bv64)

  /** A float32 on the wire (the Clinia gRPC responses). */
  datatype Float32 = Float32(bits: bv32)

  /** The zero value of a Go float64 (positive zero). */
  const ZeroFloat64: Float64 := Float64(0)

  /** Go's `string(data)` for a byte slice, one character per byte. */
  function BytesToString(data: Bytes): (s: string)
    ensures |s| == |data|
    ensures forall i :: 0 <= i < |data| ==> s[i] as int == data[i] as int
  {
    seq(|data|, i requires 0 <= i < |data| => data[i] as int as char)
  }
}
