/** Bin contents of a flattened binned distribution and the three operations the
    programs apply to them: the integral (sum of contents), scaling and bin-wise
    addition. Also the truncating double-to-integer conversion of C++. */
module Binned {

  /** Sum of all contents. */
  function Sum(s: seq<real>): real
  {
    if |s| == 0 then 0.0 else Sum(s[..|s| - 1]) + s[|s| - 1]
  }

  /** Every content multiplied by c. */
  function Scale(s: seq<real>, c: real): (r: seq<real>)
    ensures |r| == |s|
    ensures forall i :: 0 <= i < |s| ==> r[i] == c * s[i]
  {
    seq(|s|, i requires 0 <= i < |s| => c * s[i])
  }

  /** Normalise: every content divided by the integral, so that the contents sum to 1. */
  function Normalised(s: seq<real>): (r: seq<real>)
    requires Sum(s) != 0.0
    ensures |r| == |s|
    ensures Sum(r) == 1.0
    ensures forall i :: 0 <= i < |s| ==> r[i] * Sum(s) == s[i]
  {
    SumScale(s, 1.0 / Sum(s));
    Scale(s, 1.0 / Sum(s))
  }

  /** Normalising a normalised distribution changes nothing. */
  lemma NormalisedIdempotent(s: seq<real>)
    requires Sum(s) != 0.0
    ensures Normalised(Normalised(s)) == Normalised(s)
  {
    var t := Normalised(s);
    assert Normalised(t) == Scale(t, 1.0);
  }

  /** Bin-wise sum of two content vectors of the same length. */
  function Add(a: seq<real>, b: seq<real>): (r: seq<real>)
    requires |a| == |b|
    ensures |r| == |a|
    ensures forall i :: 0 <= i < |a| ==> r[i] == a[i] + b[i]
  {
    seq(|a|, i requires 0 <= i < |a| => a[i] + b[i])
  }

  /** n empty bins. */
  function Zeros(n: nat): (r: seq<real>)
    ensures |r| == n
    ensures forall i :: 0 <= i < n ==> r[i] == 0.0
  {
    seq(n, _ => 0.0)
  }

  /** Scaling scales the integral. */
  lemma {:induction false} SumScale(s: seq<real>, c: real)
    ensures Sum(Scale(s, c)) == c * Sum(s)
    decreases |s|
  {
    if |s| > 0 {
      var n := |s| - 1;
      var t := Scale(s, c);
      assert forall i :: 0 <= i < n ==> t[..n][i] == Scale(s[..n], c)[i];
      assert t[..n] == Scale(s[..n], c);
      SumScale(s[..n], c);
      assert Sum(t) == Sum(t[..n]) + t[n];
      Distribute(c, Sum(s[..n]), s[n]);
    }
  }

  lemma Distribute(c: real, a: real, b: real)
    ensures c * (a + b) == c * a + c * b
  {
  }

  /** Adding adds the integrals. */
  lemma {:induction false} SumAdd(a: seq<real>, b: seq<real>)
    requires |a| == |b|
    ensures Sum(Add(a, b)) == Sum(a) + Sum(b)
    decreases |a|
  {
    if |a| > 0 {
      var n := |a| - 1;
      assert forall i :: 0 <= i < n ==> Add(a, b)[..n][i] == Add(a[..n], b[..n])[i];
      assert Add(a, b)[..n] == Add(a[..n], b[..n]);
      SumAdd(a[..n], b[..n]);
    }
  }

  /** Empty bins have integral 0. */
  lemma {:induction false} SumZeros(n: nat)
    ensures Sum(Zeros(n)) == 0.0
  {
    if n > 0 {
      assert Zeros(n)[..n - 1] == Zeros(n - 1);
      SumZeros(n - 1);
    }
  }

  /** Adding empty bins changes nothing. */
  lemma AddZeros(a: seq<real>)
    ensures Add(Zeros(|a|), a) == a
  {
  }

  /** C++'s conversion of a double to an integer type: truncation toward zero. */
  function Truncate(x: real): (r: int)
    ensures x >= 0.0 ==> r as real <= x < r as real + 1.0
    ensures x < 0.0 ==> r as real - 1.0 < x <= r as real
  {
    if x >= 0.0 then x.Floor else -((-x).Floor)
  }
}
