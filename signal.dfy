/** Sums, means and peaks over sample sequences, shared by the voice-activity
    detector and the audio helpers. Samples are modelled as exact reals. */
module Signal {

  function Sum(s: seq<real>): real {
    if s == [] then 0.0 else Sum(s[..|s| - 1]) + s[|s| - 1]
  }

  function Square(x: real): (r: real)
    ensures r >= 0.0
  {
    x * x
  }

  /** On non-negative values, comparing squares is comparing the values. */
  lemma SquareMonotone(a: real, b: real)
    requires 0.0 <= a && 0.0 <= b
    ensures a <= b <==> Square(a) <= Square(b)
  {
    var aa, ab, bb := a * a, a * b, b * b;
    if a <= b {
      assert aa <= ab <= bb;
    } else {
      assert bb <= ab;
      assert ab < aa;
    }
    assert Square(a) == aa && Square(b) == bb;
  }

  function SumSquares(s: seq<real>): (r: real)
    ensures r >= 0.0
  {
    if s == [] then 0.0 else SumSquares(s[..|s| - 1]) + Square(s[|s| - 1])
  }

  /** Mean of the squared samples, the square of the RMS amplitude. */
  function MeanSquare(s: seq<real>): (m: real)
    requires s != []
    ensures m >= 0.0
  {
    SumSquares(s) / (|s| as real)
  }

  /** Arithmetic mean; 0 for an empty bucket. */
  function Mean(s: seq<real>): real {
    if s == [] then 0.0 else Sum(s) / (|s| as real)
  }

  function Abs(x: real): (r: real)
    ensures r >= 0.0 && (r == x || r == -x)
  {
    if x < 0.0 then -x else x
  }

  function RealMax(a: real, b: real): (r: real)
    ensures r >= a && r >= b && (r == a || r == b)
  {
    if a >= b then a else b
  }

  /** `f32::clamp(lo, hi)` on exact values. */
  function RealClamp(x: real, lo: real, hi: real): (r: real)
    requires lo <= hi
    ensures lo <= r <= hi
    ensures lo <= x <= hi ==> r == x
  {
    if x < lo then lo else if x > hi then hi else x
  }

  /** The running peak the source keeps: it starts at 0 and takes every
      absolute value that exceeds it. */
  function PeakAbs(s: seq<real>): (r: real)
    ensures r >= 0.0
    ensures forall i :: 0 <= i < |s| ==> Abs(s[i]) <= r
    ensures r == 0.0 || exists i :: 0 <= i < |s| && r == Abs(s[i])
  {
    if s == [] then 0.0
    else
      var p := PeakAbs(s[..|s| - 1]);
      assert forall i :: 0 <= i < |s| - 1 ==> s[..|s| - 1][i] == s[i];
      if Abs(s[|s| - 1]) > p then Abs(s[|s| - 1]) else p
  }

  function Constant(n: nat, c: real): (r: seq<real>)
    ensures |r| == n && forall i :: 0 <= i < n ==> r[i] == c
  {
    seq(n, _ => c)
  }

  lemma {:induction false} SumOfConstant(s: seq<real>, c: real)
    requires forall i :: 0 <= i < |s| ==> s[i] == c
    ensures Sum(s) == (|s| as real) * c
  {
    if s != [] {
      SumOfConstant(s[..|s| - 1], c);
    }
  }

  /** The mean of a non-empty bucket of equal samples is that sample. */
  lemma MeanOfConstant(s: seq<real>, c: real)
    requires s != []
    requires forall i :: 0 <= i < |s| ==> s[i] == c
    ensures Mean(s) == c
  {
    SumOfConstant(s, c);
  }

  lemma {:induction false} SumSquaresOfZeros(s: seq<real>)
    requires forall i :: 0 <= i < |s| ==> s[i] == 0.0
    ensures SumSquares(s) == 0.0
  {
    if s != [] {
      SumSquaresOfZeros(s[..|s| - 1]);
    }
  }

  lemma {:induction false} PeakAbsOfConstant(s: seq<real>, c: real)
    requires s != []
    requires forall i :: 0 <= i < |s| ==> s[i] == c
    ensures PeakAbs(s) == Abs(c)
  {
    if |s| > 1 {
      PeakAbsOfConstant(s[..|s| - 1], c);
    }
  }
}
