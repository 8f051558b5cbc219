/**
 * The numeric helpers of the signal generator: bias removal, peak
 * normalisation, fractional part, sign and clamp. Samples are `real`
 * (exact arithmetic in place of IEEE doubles); a `valarray<double>` is a
 * `seq<real>`.
 */
module MathUtil {

  function Abs(x: real): (r: real)
    ensures r >= 0.0 && (r == x || r == -x)
  {
    if x < 0.0 then -x else x
  }

  /** `std::max` on two reals. */
  function Max2(a: real, b: real): (r: real)
    ensures r >= a && r >= b && (r == a || r == b)
  {
    if a < b then b else a
  }

  /** `std::min` on two reals. */
  function Min2(a: real, b: real): (r: real)
    ensures r <= a && r <= b && (r == a || r == b)
  {
    if b < a then b else a
  }

  /** A C++ cast of a floating value to an integer type: rounds toward zero. */
  function Trunc(x: real): (r: int)
    ensures Abs(r as real) <= Abs(x) && Abs(x - r as real) < 1.0
    ensures x >= 0.0 ==> r >= 0
    ensures x <= 0.0 ==> r <= 0
  {
    if x >= 0.0 then x.Floor else -((-x).Floor)
  }

  /** `fractional(n)`: n minus its truncation toward zero (`n - (long)n`). */
  function Fractional(n: real): (r: real)
    ensures -1.0 < r < 1.0
    ensures n >= 0.0 ==> r >= 0.0
    ensures n <= 0.0 ==> r <= 0.0
    ensures (n - r).Floor as real == n - r
  {
    n - Trunc(n) as real
  }

  /** `sign(n)`: 0 for 0, -1 for negatives, 1 for positives. */
  function Sign(n: real): (r: real)
    ensures r == -1.0 || r == 0.0 || r == 1.0
    ensures r == 0.0 <==> n == 0.0
    ensures r < 0.0 <==> n < 0.0
    ensures r * n == Abs(n)
  {
    if n == 0.0 then 0.0 else if n < 0.0 then -1.0 else 1.0
  }

  /** `clamp(n, min, max)` is `std::max(std::min(n, max), min)`. */
  function Clamp(n: real, lo: real, hi: real): (r: real)
    ensures lo <= r
    ensures lo <= hi ==> r <= hi
    ensures lo <= n <= hi ==> r == n
    ensures n < lo ==> r == lo
    ensures lo <= hi < n ==> r == hi
    ensures hi < lo ==> r == lo
  {
    Max2(Min2(n, hi), lo)
  }

  /** `valarray::sum`. */
  function Sum(s: seq<real>): real
  {
    if s == [] then 0.0 else s[0] + Sum(s[1..])
  }

  /** A sum of non-negative samples is non-negative. */
  lemma {:induction false} SumNonNegative(s: seq<real>)
    requires forall i :: 0 <= i < |s| ==> s[i] >= 0.0
    ensures Sum(s) >= 0.0
  {
    if s != [] {
      SumNonNegative(s[1..]);
    }
  }

  /** `valarray::max`, undefined on an empty array. */
  function Max(s: seq<real>): (r: real)
    requires |s| > 0
    ensures r in s
  {
    if |s| == 1 then s[0] else Max2(s[0], Max(s[1..]))
  }

  /** `valarray::min`, undefined on an empty array. */
  function Min(s: seq<real>): (r: real)
    requires |s| > 0
    ensures r in s
  {
    if |s| == 1 then s[0] else Min2(s[0], Min(s[1..]))
  }

  /** No element exceeds the maximum or is below the minimum. */
  lemma {:induction false} MaxMinBound(s: seq<real>)
    requires |s| > 0
    ensures forall i :: 0 <= i < |s| ==> Min(s) <= s[i] <= Max(s)
  {
    if |s| > 1 {
      MaxMinBound(s[1..]);
      assert forall i :: 1 <= i < |s| ==> s[i] == s[1..][i - 1];
    }
  }

  /** `ys - c` on a valarray. */
  function Shift(s: seq<real>, c: real): (r: seq<real>)
    ensures |r| == |s|
  {
    seq(|s|, i requires 0 <= i < |s| => s[i] - c)
  }

  /** Subtracting a constant from every element lowers the sum by |s| times it. */
  lemma {:induction false} SumShift(s: seq<real>, c: real)
    ensures Sum(Shift(s, c)) == Sum(s) - |s| as real * c
  {
    if s != [] {
      assert Shift(s, c)[1..] == Shift(s[1..], c);
      SumShift(s[1..], c);
    }
  }

  /** The arithmetic mean; `valarray::sum` is undefined on an empty array. */
  function Mean(s: seq<real>): (r: real)
    requires |s| > 0
    ensures r * |s| as real == Sum(s)
  {
    Sum(s) / |s| as real
  }

  /** `unbias(ys)`: shift the samples by their mean. */
  function Unbias(s: seq<real>): (r: seq<real>)
    requires |s| > 0
    ensures |r| == |s|
    ensures forall i, j :: 0 <= i < |s| && 0 <= j < |s| ==> r[i] - r[j] == s[i] - s[j]
  {
    Shift(s, Mean(s))
  }

  /** Bias removal leaves samples whose sum, hence whose mean, is zero. */
  lemma UnbiasHasZeroMean(s: seq<real>)
    requires |s| > 0
    ensures Sum(Unbias(s)) == 0.0
    ensures Mean(Unbias(s)) == 0.0
  {
    SumShift(s, Mean(s));
    var u := Unbias(s);
    assert Sum(u) == 0.0;
    assert Mean(u) == 0.0 / |u| as real;
  }

  predicate HasNonZero(s: seq<real>)
  {
    exists i :: 0 <= i < |s| && s[i] != 0.0
  }

  /** `std::max(abs(ys.max()), abs(ys.min()))`, the divisor of `normalize`. */
  function Peak(s: seq<real>): (p: real)
    requires |s| > 0
    ensures HasNonZero(s) ==> p > 0.0
  {
    MaxMinBound(s);
    Max2(Abs(Max(s)), Abs(Min(s)))
  }

  /**
   * The divisor of `normalize` as the source is compiled against a library
   * whose `<cmath>` puts no `abs(double)` in the global namespace: the
   * unqualified `abs` is C's `int abs(int)`, so each extreme is truncated
   * toward zero before its magnitude is taken.
   */
  function PeakAsWritten(s: seq<real>): (p: real)
    requires |s| > 0
    ensures 0.0 <= p <= Peak(s)
  {
    Max2(Abs(Trunc(Max(s)) as real), Abs(Trunc(Min(s)) as real))
  }

  /** With every sample strictly inside (-1, 1) the as-written divisor is 0. */
  lemma PeakAsWrittenVanishes(s: seq<real>)
    requires |s| > 0
    requires forall i :: 0 <= i < |s| ==> -1.0 < s[i] < 1.0
    ensures PeakAsWritten(s) == 0.0
  {
    var hi, lo := Max(s), Min(s);
    assert -1.0 < hi < 1.0 && -1.0 < lo < 1.0;
    assert Trunc(hi) == 0 && Trunc(lo) == 0;
  }

  /**
   * Two saw samples, fractional cycles 0 and 0.5, unbias to -0.25 and 0.25:
   * the as-written divisor is 0, so `normalize` divides by zero, while the
   * floating-point peak is 0.25.
   */
  lemma SawPeakAsWrittenIsZero()
    ensures var u := Unbias([0.0, 0.5]);
            u == [-0.25, 0.25] && HasNonZero(u) && PeakAsWritten(u) == 0.0 && Peak(u) == 0.25
  {
    var u := Unbias([0.0, 0.5]);
    assert Sum([0.0, 0.5]) == 0.5;
    assert u == [-0.25, 0.25];
    assert u[1] != 0.0;
    PeakAsWrittenVanishes(u);
    assert Max(u) == 0.25 && Min(u) == -0.25;
  }

  /** The peak is the largest magnitude of any sample. */
  lemma PeakIsLargestMagnitude(s: seq<real>)
    requires |s| > 0
    ensures forall i :: 0 <= i < |s| ==> Abs(s[i]) <= Peak(s)
    ensures exists j :: 0 <= j < |s| && Abs(s[j]) == Peak(s)
  {
    MaxMinBound(s);
    var hi, lo := Max(s), Min(s);
    var j :| 0 <= j < |s| && s[j] == (if Abs(hi) < Abs(lo) then lo else hi);
    assert Abs(s[j]) == Peak(s);
  }

  /** `normalize(ys, amp)`: scale by amp over the peak; needs a non-zero sample. */
  function Normalize(s: seq<real>, amp: real): (r: seq<real>)
    requires HasNonZero(s)
    ensures |r| == |s|
  {
    Scale(s, amp, Peak(s))
  }

  /** `amp * ys / p` on a valarray. */
  function Scale(s: seq<real>, amp: real, p: real): (r: seq<real>)
    requires p != 0.0
    ensures |r| == |s|
  {
    seq(|s|, i requires 0 <= i < |s| => amp * s[i] / p)
  }

  lemma CancelPositive(a: real, b: real, p: real)
    requires p > 0.0 && a * p <= b * p
    ensures a <= b
  {
    assert (a - b) * p == a * p - b * p;
  }

  lemma AbsMul(a: real, b: real)
    ensures Abs(a * b) == Abs(a) * Abs(b)
  {
    if a < 0.0 && b < 0.0 {
      assert a * b == (-a) * (-b);
    } else if a < 0.0 {
      assert a * b == -((-a) * b);
    } else if b < 0.0 {
      assert a * b == -(a * (-b));
    }
  }

  lemma MulMono(c: real, x: real, y: real)
    requires c >= 0.0 && x <= y
    ensures c * x <= c * y
  {
    assert c * y - c * x == c * (y - x);
  }

  /** Magnitudes of a product q * p == amp * y with p positive. */
  lemma AbsProduct(q: real, amp: real, y: real, p: real)
    requires p > 0.0 && q * p == amp * y
    ensures Abs(q) * p == Abs(amp) * Abs(y)
  {
    AbsMul(q, p);
    AbsMul(amp, y);
  }

  lemma CancelBound(aq: real, aa: real, ay: real, p: real)
    requires p > 0.0 && aa >= 0.0 && ay <= p && aq * p == aa * ay
    ensures aq <= aa
    ensures ay == p ==> aq == aa
  {
    MulMono(aa, ay, p);
    CancelPositive(aq, aa, p);
    if ay == p {
      CancelPositive(aa, aq, p);
    }
  }

  lemma ScaledMagnitude(amp: real, y: real, p: real, q: real)
    requires p > 0.0 && Abs(y) <= p && q == amp * y / p
    ensures Abs(q) <= Abs(amp)
    ensures Abs(y) == p ==> Abs(q) == Abs(amp)
  {
    assert q * p == amp * y;
    AbsProduct(q, amp, y, p);
    CancelBound(Abs(q), Abs(amp), Abs(y), p);
  }

  lemma ScaleFactor(s: seq<real>, amp: real, p: real, i: int)
    requires p != 0.0 && 0 <= i < |s|
    ensures Scale(s, amp, p)[i] == (amp / p) * s[i]
  {
    var x := Scale(s, amp, p)[i];
    assert x * p == amp * s[i];
    assert ((amp / p) * s[i]) * p == amp * s[i];
  }

  lemma ScaleAt(s: seq<real>, amp: real, p: real, i: int)
    requires p > 0.0 && 0 <= i < |s| && Abs(s[i]) <= p
    ensures Abs(Scale(s, amp, p)[i]) <= Abs(amp)
    ensures Abs(s[i]) == p ==> Abs(Scale(s, amp, p)[i]) == Abs(amp)
  {
    ScaledMagnitude(amp, s[i], p, Scale(s, amp, p)[i]);
  }

  /** Scaling by amp / p with p bounding every magnitude stays within |amp|, and reaches it where a sample reaches p. */
  lemma ScaleBounds(s: seq<real>, amp: real, p: real)
    requires p > 0.0
    requires forall k :: 0 <= k < |s| ==> Abs(s[k]) <= p
    ensures forall i :: 0 <= i < |s| ==> Abs(Scale(s, amp, p)[i]) <= Abs(amp)
    ensures forall i :: 0 <= i < |s| && Abs(s[i]) == p ==> Abs(Scale(s, amp, p)[i]) == Abs(amp)
  {
    forall i | 0 <= i < |s|
      ensures Abs(Scale(s, amp, p)[i]) <= Abs(amp)
      ensures Abs(s[i]) == p ==> Abs(Scale(s, amp, p)[i]) == Abs(amp)
    {
      ScaleAt(s, amp, p, i);
    }
  }

  /** Normalisation multiplies every sample by the one factor amp / p, p being the peak. */
  lemma NormalizeIsUniformScaling(s: seq<real>, amp: real, p: real)
    requires HasNonZero(s) && p == Peak(s)
    ensures forall i :: 0 <= i < |s| ==> Normalize(s, amp)[i] == (amp / p) * s[i]
  {
    forall i | 0 <= i < |s| ensures Normalize(s, amp)[i] == (amp / p) * s[i] {
      NormalizeAt(s, amp, p, i);
    }
  }

  lemma NormalizeAt(s: seq<real>, amp: real, p: real, i: int)
    requires HasNonZero(s) && p == Peak(s) && 0 <= i < |s|
    ensures Normalize(s, amp)[i] == (amp / p) * s[i]
  {
    ScaleFactor(s, amp, p, i);
    assert Normalize(s, amp)[i] == Scale(s, amp, p)[i];
  }

  /** After normalisation no sample exceeds |amp| in magnitude, and some sample reaches it. */
  lemma NormalizeReachesAmplitude(s: seq<real>, amp: real)
    requires HasNonZero(s)
    ensures forall i :: 0 <= i < |s| ==> Abs(Normalize(s, amp)[i]) <= Abs(amp)
    ensures exists j :: 0 <= j < |s| && Abs(Normalize(s, amp)[j]) == Abs(amp)
  {
    PeakIsLargestMagnitude(s);
    var p := Peak(s);
    assert Normalize(s, amp) == Scale(s, amp, p);
    ScaleBounds(s, amp, p);
    var j :| 0 <= j < |s| && Abs(s[j]) == p;
    assert Abs(Normalize(s, amp)[j]) == Abs(amp);
  }
}
