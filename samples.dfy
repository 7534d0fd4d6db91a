/** Values shared by the server and the client: optional values and error
    outcomes, Python's integer conversion, and operations on sample
    sequences. Samples are modelled as reals, so the float32 rounding of the
    original buffers is not part of the model. */
module Samples {

  /** A value that may be absent (Python's `None`). */
  datatype Option<T> = None | Some(value: T)

  /** The outcome of an operation that either completes or raises `error`. */
  datatype Outcome<E> = Pass | Fail(error: E)

  function Min(a: int, b: int): int { if a <= b then a else b }

  function Max(a: int, b: int): int { if a >= b then a else b }

  /** Python's `int(x)` on a float: truncation toward zero. */
  function Truncate(x: real): (r: int)
    ensures 0.0 <= x ==> 0 <= r && r as real <= x < r as real + 1.0
    ensures x < 0.0 ==> r <= 0 && r as real - 1.0 < x <= r as real
  {
    if x >= 0.0 then x.Floor else -((-x).Floor)
  }

  /** `int(seconds * sample_rate)`: a duration converted to a sample count. */
  function SecondsToSamples(seconds: real, sampleRate: int): (n: int)
    ensures 0.0 <= seconds && 0 <= sampleRate ==> 0 <= n && n as real <= seconds * sampleRate as real
  {
    Truncate(seconds * sampleRate as real)
  }

  /** `numpy.zeros(n)`: n samples of silence. */
  function Zeros(n: nat): (z: seq<real>)
    ensures |z| == n
    ensures forall i :: 0 <= i < n ==> z[i] == 0.0
  {
    seq(n, _ => 0.0)
  }

  /** The energy of one sample: its square, never negative. */
  function Square(x: real): (y: real)
    ensures y >= 0.0
  {
    x * x
  }

  /** The sum of the squared samples, `numpy.sum(s ** 2)`: never negative. */
  function SumSquares(s: seq<real>): (e: real)
    ensures e >= 0.0
  {
    if s == [] then 0.0 else Square(s[0]) + SumSquares(s[1..])
  }

  /** A window of silence carries no energy. */
  lemma {:induction false} SilenceHasNoEnergy(s: seq<real>)
    requires forall i :: 0 <= i < |s| ==> s[i] == 0.0
    ensures SumSquares(s) == 0.0
  {
    if s != [] {
      assert forall i :: 0 <= i < |s[1..]| ==> s[1..][i] == s[i + 1];
      SilenceHasNoEnergy(s[1..]);
    }
  }

  /** `numpy.concatenate(chunks)`: the chunks joined in order. */
  function Flatten(chunks: seq<seq<real>>): seq<real>
  {
    if chunks == [] then [] else Flatten(chunks[..|chunks| - 1]) + chunks[|chunks| - 1]
  }
}
