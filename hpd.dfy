/** The highest-posterior-density summary of MakePlots' GetHPD: from the most populated
    bin of a 1D posterior histogram, one walk upwards and one downwards until half of
    68.27% of the integral is covered, and a two-sided walk that widens symmetrically
    until 68.27% is covered. A histogram of N bins is an array of N + 2 contents: slot 0
    is the underflow and slot N + 1 the overflow. */
module Hpd {

  /** The coverage targets of the walks: 0.6827 and 0.6827 / 2. */
  const Coverage: real := 0.6827
  const HalfCoverage: real := 0.6827 / 2.0

  /** Number of ordinary bins of a histogram stored with underflow and overflow slots. */
  function NBins(h: seq<real>): int
  {
    |h| - 2
  }

  /** Centre of bin i of an axis with fixed-width bins starting at lo; the same formula
      extends to the underflow, the overflow and beyond. */
  function Center(lo: real, width: real, i: int): real
  {
    lo + (i as real - 0.5) * width
  }

  /** The sum of slots lo .. hi - 1 of h. */
  function RangeSum(h: seq<real>, lo: int, hi: int): real
    requires 0 <= lo <= hi <= |h|
    decreases hi - lo
  {
    if lo == hi then 0.0 else RangeSum(h, lo, hi - 1) + h[hi - 1]
  }

  /** The histogram integral: the ordinary bins 1 .. N, without underflow and overflow. */
  function Integral(h: seq<real>): real
    requires |h| >= 2
  {
    RangeSum(h, 1, |h| - 1)
  }

  /** `num / den < t` in IEEE arithmetic: a zero denominator gives -inf, +inf or NaN by the
      sign of the numerator, and only -inf compares below t. */
  function RatioBelow(num: real, den: real, t: real): bool
  {
    if den == 0.0 then num < 0.0 else num / den < t
  }

  /** `num / den > t` in IEEE arithmetic; only +inf compares above t when den is zero. */
  function RatioAbove(num: real, den: real, t: real): bool
  {
    if den == 0.0 then num > 0.0 else num / den > t
  }

  /** m is the first bin among 1 .. N holding the largest content, as the histogram's
      GetMaximumBin returns it. */
  predicate IsMaximumBin(h: seq<real>, m: int)
  {
    && 1 <= m <= NBins(h)
    && (forall i :: 1 <= i <= NBins(h) ==> h[i] <= h[m])
    && (forall i :: 1 <= i < m ==> h[i] < h[m])
  }

  lemma {:induction false} RangeSumSplit(h: seq<real>, lo: int, mid: int, hi: int)
    requires 0 <= lo <= mid <= hi <= |h|
    ensures RangeSum(h, lo, hi) == RangeSum(h, lo, mid) + RangeSum(h, mid, hi)
    decreases hi - mid
  {
    if mid < hi {
      RangeSumSplit(h, lo, mid, hi - 1);
    }
  }

  /** c is where the upward walk from maxBin stops: the covered fraction was below half the
      coverage before each bin maxBin .. c - 1 was added, and at c it is not, or c is the
      overflow. */
  ghost predicate UpStop(h: seq<real>, integral: real, maxBin: int, c: int)
    requires 1 <= maxBin <= NBins(h)
  {
    && maxBin <= c <= NBins(h) + 1
    && (forall k :: maxBin <= k < c ==> RatioBelow(RangeSum(h, maxBin, k), integral, HalfCoverage))
    && (!RatioBelow(RangeSum(h, maxBin, c), integral, HalfCoverage) || c == NBins(h) + 1)
  }

  /** c is where the downward walk from maxBin stops: the covered fraction was below half the
      coverage before each bin maxBin, maxBin - 1, .., c + 1 was added, and at c it is not, or
      c is -1 (the underflow was added). */
  ghost predicate DownStop(h: seq<real>, integral: real, maxBin: int, c: int)
    requires 1 <= maxBin <= NBins(h)
  {
    && -1 <= c <= maxBin
    && (forall k {:trigger RangeSum(h, k, maxBin + 1)} :: c + 1 < k <= maxBin + 1 ==> RatioBelow(RangeSum(h, k, maxBin + 1), integral, HalfCoverage))
    && (!RatioBelow(RangeSum(h, c + 1, maxBin + 1), integral, HalfCoverage) || c == -1)
  }

  /** The walk stop is determined by the histogram: UpStop has one solution at most. */
  lemma UpStopUnique(h: seq<real>, integral: real, maxBin: int, c1: int, c2: int)
    requires 1 <= maxBin <= NBins(h)
    requires UpStop(h, integral, maxBin, c1) && UpStop(h, integral, maxBin, c2)
    ensures c1 == c2
  {
  }

  /** The downward stop is determined by the histogram as well: DownStop has one solution at most. */
  lemma DownStopUnique(h: seq<real>, integral: real, maxBin: int, c1: int, c2: int)
    requires 1 <= maxBin <= NBins(h)
    requires DownStop(h, integral, maxBin, c1) && DownStop(h, integral, maxBin, c2)
    ensures c1 == c2
  {
  }

  /** The upward walk: adds bins maxBin, maxBin + 1, ... while the covered fraction is
      below half the coverage and the bin is not the overflow. It stops at the first bin
      where either fails, at most at N + 1. */
  method WalkUp(h: array<real>, integral: real, maxBin: int) returns (curr: int, sum: real)
    requires 1 <= maxBin <= NBins(h[..])
    ensures UpStop(h[..], integral, maxBin, curr)
    ensures sum == RangeSum(h[..], maxBin, curr)
  {
    sum := 0.0;
    curr := maxBin;
    while RatioBelow(sum, integral, HalfCoverage) && curr < NBins(h[..]) + 1
      invariant maxBin <= curr <= NBins(h[..]) + 1
      invariant sum == RangeSum(h[..], maxBin, curr)
      invariant forall k :: maxBin <= k < curr ==> RatioBelow(RangeSum(h[..], maxBin, k), integral, HalfCoverage)
      decreases NBins(h[..]) + 1 - curr
    {
      sum := sum + h[curr];
      curr := curr + 1;
    }
  }

  /** The downward walk: adds bins maxBin, maxBin - 1, ... down to the underflow while the
      covered fraction is below half the coverage; it stops at the first bin where the
      fraction is reached, or at -1. */
  method WalkDown(h: array<real>, integral: real, maxBin: int) returns (curr: int, sum: real)
    requires 1 <= maxBin <= NBins(h[..])
    ensures DownStop(h[..], integral, maxBin, curr)
    ensures sum == RangeSum(h[..], curr + 1, maxBin + 1)
  {
    sum := 0.0;
    curr := maxBin;
    while RatioBelow(sum, integral, HalfCoverage) && curr >= 0
      invariant -1 <= curr <= maxBin
      invariant sum == RangeSum(h[..], curr + 1, maxBin + 1)
      invariant forall k {:trigger RangeSum(h[..], k, maxBin + 1)} :: curr + 1 < k <= maxBin + 1 ==> RatioBelow(RangeSum(h[..], k, maxBin + 1), integral, HalfCoverage)
      decreases curr
    {
      RangeSumSplit(h[..], curr, curr + 1, maxBin + 1);
      sum := sum + h[curr];
      curr := curr - 1;
    }
  }

  /** Contents of the k bins on each side of maxBin, not counting maxBin itself. */
  function PairSum(h: seq<real>, maxBin: int, k: int): real
    requires 0 <= k && 0 <= maxBin - k && maxBin + k < |h|
  {
    if k == 0 then 0.0 else PairSum(h, maxBin, k - 1) + (h[maxBin - k] + h[maxBin + k])
  }

  /** Before each of the first k double steps of the two-sided walk the covered fraction was
      below the coverage, and adding both neighbours did not take it above the coverage. */
  ghost predicate Continued(h: seq<real>, integral: real, maxBin: int, k: int)
    requires 0 <= k <= maxBin && maxBin + k < |h|
  {
    forall j :: 0 <= j < k ==>
      && RatioBelow(PairSum(h, maxBin, j), integral, Coverage)
      && !RatioAbove(PairSum(h, maxBin, j) + h[maxBin - 1 - j] + h[maxBin + 1 + j], integral, Coverage)
  }

  /** The final state of the two-sided walk. Bins low and high are the next pair after
      k = maxBin - 1 - low completed double steps. Either the loop condition failed
      (fraction reached, or a side left the histogram) and LowCon/HighCon hold the last pair
      read, or the next pair would take the fraction above the coverage and only its larger
      content was added (ties go to the upper side). */
  ghost predicate TwoSidedStop(h: seq<real>, integral: real, maxBin: int,
                               low: int, high: int, sum: real, lowCon: real, highCon: real)
  {
    && 1 <= maxBin <= NBins(h)
    && -1 <= low <= maxBin - 1 && low + high == 2 * maxBin && high <= NBins(h) + 1
    && var k := maxBin - 1 - low;
       && Continued(h, integral, maxBin, k)
       && ((&& sum == PairSum(h, maxBin, k)
            && !(RatioBelow(sum, integral, Coverage) && low >= 0 && high < NBins(h) + 1)
            && (k == 0 ==> lowCon == 0.0 && highCon == 0.0)
            && (k > 0 ==> lowCon == h[low + 1] && highCon == h[high - 1]))
           ||
           (&& 0 <= low && high < NBins(h) + 1
            && RatioBelow(PairSum(h, maxBin, k), integral, Coverage)
            && lowCon == h[low] && highCon == h[high]
            && RatioAbove(PairSum(h, maxBin, k) + lowCon + highCon, integral, Coverage)
            && sum == PairSum(h, maxBin, k) + (if lowCon > highCon then lowCon else highCon)))
  }

  lemma ContinuedStep(h: seq<real>, integral: real, maxBin: int, k: int)
    requires 0 <= k < maxBin && maxBin + k + 1 < |h|
    requires Continued(h, integral, maxBin, k)
    requires RatioBelow(PairSum(h, maxBin, k), integral, Coverage)
    requires !RatioAbove(PairSum(h, maxBin, k) + h[maxBin - 1 - k] + h[maxBin + 1 + k], integral, Coverage)
    ensures Continued(h, integral, maxBin, k + 1)
  {
  }

  /** The walk's final state when the loop condition fails. */
  lemma StopAtExit(h: seq<real>, integral: real, maxBin: int,
                   low: int, high: int, sum: real, lowCon: real, highCon: real)
    requires 1 <= maxBin <= NBins(h)
    requires -1 <= low <= maxBin - 1 && low + high == 2 * maxBin && high <= NBins(h) + 1
    requires sum == PairSum(h, maxBin, maxBin - 1 - low)
    requires Continued(h, integral, maxBin, maxBin - 1 - low)
    requires low == maxBin - 1 ==> lowCon == 0.0 && highCon == 0.0
    requires low < maxBin - 1 ==> lowCon == h[low + 1] && highCon == h[high - 1]
    requires !(RatioBelow(sum, integral, Coverage) && low >= 0 && high < NBins(h) + 1)
    ensures TwoSidedStop(h, integral, maxBin, low, high, sum, lowCon, highCon)
  {
  }

  /** The walk's final state when the next pair would pass the coverage. */
  lemma StopAtBreak(h: seq<real>, integral: real, maxBin: int,
                    low: int, high: int, sum: real, lowCon: real, highCon: real)
    requires 1 <= maxBin <= NBins(h)
    requires 0 <= low <= maxBin - 1 && low + high == 2 * maxBin && high < NBins(h) + 1
    requires Continued(h, integral, maxBin, maxBin - 1 - low)
    requires RatioBelow(PairSum(h, maxBin, maxBin - 1 - low), integral, Coverage)
    requires lowCon == h[low] && highCon == h[high]
    requires RatioAbove(PairSum(h, maxBin, maxBin - 1 - low) + lowCon + highCon, integral, Coverage)
    requires sum == PairSum(h, maxBin, maxBin - 1 - low) + (if lowCon > highCon then lowCon else highCon)
    ensures TwoSidedStop(h, integral, maxBin, low, high, sum, lowCon, highCon)
  {
  }

  /** The final state of the two-sided walk is determined by the histogram: TwoSidedStop has
      one solution at most. */
  lemma TwoSidedStopUnique(h: seq<real>, integral: real, maxBin: int,
                           low1: int, high1: int, sum1: real, lowCon1: real, highCon1: real,
                           low2: int, high2: int, sum2: real, lowCon2: real, highCon2: real)
    requires TwoSidedStop(h, integral, maxBin, low1, high1, sum1, lowCon1, highCon1)
    requires TwoSidedStop(h, integral, maxBin, low2, high2, sum2, lowCon2, highCon2)
    ensures low1 == low2 && high1 == high2 && sum1 == sum2
    ensures lowCon1 == lowCon2 && highCon1 == highCon2
  {
  }

  /** The two-sided walk of GetHPD: the peak itself is not counted; both neighbours are
      added while the fraction stays below the coverage. */
  method TwoSidedWalk(h: array<real>, integral: real, maxBin: int)
    returns (low: int, high: int, sum: real, lowCon: real, highCon: real)
    requires 1 <= maxBin <= NBins(h[..])
    ensures TwoSidedStop(h[..], integral, maxBin, low, high, sum, lowCon, highCon)
  {
    ghost var s := h[..];
    var n := h.Length - 2;
    sum := 0.0;
    low := maxBin - 1;
    high := maxBin + 1;
    lowCon := 0.0;
    highCon := 0.0;
    while RatioBelow(sum, integral, Coverage) && low >= 0 && high < n + 1
      invariant n == NBins(s) && s == h[..]
      invariant -1 <= low <= maxBin - 1 && low + high == 2 * maxBin && high <= n + 1
      invariant sum == PairSum(s, maxBin, maxBin - 1 - low)
      invariant Continued(s, integral, maxBin, maxBin - 1 - low)
      invariant low == maxBin - 1 ==> lowCon == 0.0 && highCon == 0.0
      invariant low < maxBin - 1 ==> lowCon == s[low + 1] && highCon == s[high - 1]
      decreases low
    {
      lowCon := h[low];
      highCon := h[high];
      var total := sum + lowCon + highCon;
      if RatioAbove(total, integral, Coverage) {
        sum := sum + (if lowCon > highCon then lowCon else highCon);
        StopAtBreak(s, integral, maxBin, low, high, sum, lowCon, highCon);
        return;
      }
      ContinuedStep(s, integral, maxBin, maxBin - 1 - low);
      sum := total;
      low := low - 1;
      high := high + 1;
    }
    StopAtExit(s, integral, maxBin, low, high, sum, lowCon, highCon);
  }

  function Abs(x: real): (r: real)
    ensures r >= 0.0 && (r == x || r == -x)
  {
    if x < 0.0 then -x else x
  }

  /** The two-sided error: the distance from the peak to the side whose last content was
      larger, the upper side on ties. */
  function HpdSigma(lo: real, width: real, maxBin: int, low: int, high: int, lowCon: real, highCon: real): real
  {
    if lowCon > highCon then Abs(Center(lo, width, low) - Center(lo, width, maxBin))
    else Abs(Center(lo, width, high) - Center(lo, width, maxBin))
  }

  /** The histogram's GetMaximumBin: the first ordinary bin of largest content. */
  method MaximumBin(h: array<real>) returns (m: int)
    requires NBins(h[..]) >= 1
    ensures IsMaximumBin(h[..], m)
  {
    m := 1;
    var i := 2;
    while i <= NBins(h[..])
      invariant 2 <= i <= NBins(h[..]) + 1
      invariant 1 <= m < i
      invariant forall j :: 1 <= j < i ==> h[j] <= h[m]
      invariant forall j :: 1 <= j < m ==> h[j] < h[m]
    {
      if h[i] > h[m] {
        m := i;
      }
      i := i + 1;
    }
  }

  /** GetHPD: the central value is the centre of the maximum bin; the positive and negative
      errors are the distances to where the one-sided walks stop and the error is the
      two-sided walk's distance. The histogram has bins starting at lo, each width wide. */
  method GetHPD(h: array<real>, lo: real, width: real)
    returns (central: real, error: real, errorPos: real, errorNeg: real)
    requires NBins(h[..]) >= 1
    ensures exists m :: (&& IsMaximumBin(h[..], m) && central == Center(lo, width, m)
      && (exists up :: UpStop(h[..], Integral(h[..]), m, up)
            && errorPos == Abs(Center(lo, width, m) - Center(lo, width, up)))
      && (exists down :: DownStop(h[..], Integral(h[..]), m, down)
            && errorNeg == Abs(Center(lo, width, down) - Center(lo, width, m)))
      && (exists low, high, sum, lowCon, highCon ::
            TwoSidedStop(h[..], Integral(h[..]), m, low, high, sum, lowCon, highCon)
            && error == HpdSigma(lo, width, m, low, high, lowCon, highCon)))
    ensures error >= 0.0 && errorPos >= 0.0 && errorNeg >= 0.0
  {
    var maxBin := MaximumBin(h);
    central := Center(lo, width, maxBin);
    var integral := Integral(h[..]);
    var up, sumUp := WalkUp(h, integral, maxBin);
    errorPos := Abs(Center(lo, width, maxBin) - Center(lo, width, up));
    var down, sumDown := WalkDown(h, integral, maxBin);
    errorNeg := Abs(Center(lo, width, down) - Center(lo, width, maxBin));
    var low, high, sum, lowCon, highCon := TwoSidedWalk(h, integral, maxBin);
    error := HpdSigma(lo, width, maxBin, low, high, lowCon, highCon);
  }
}
