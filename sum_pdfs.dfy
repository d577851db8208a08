/** The out-of-ROI PSD averaging pass of sum_pdfs: a 48 x 6 x 5 x 5 (energy x r x psd1 x
    psd2) bin buffer is rewritten in place so that, for every energy bin outside the open
    interval (lowEBin, highEBin), each 5 x 5 PSD block holds its own mean; the result is
    then normalised when its integral is nonzero and its empty bins are counted. */
module SumPdfs {
  import opened Binned

  const EnergyBins := 48
  const RadialBins := 6
  const PsdBins := 5

  /** A bin's (energy, r, psd1, psd2) indices. */
  datatype Coord = Coord(e: int, r: int, p1: int, p2: int)

  predicate InGrid(c: Coord)
  {
    0 <= c.e < EnergyBins && 0 <= c.r < RadialBins && 0 <= c.p1 < PsdBins && 0 <= c.p2 < PsdBins
  }

  predicate IsBlock(e: int, r: int)
  {
    0 <= e < EnergyBins && 0 <= r < RadialBins
  }

  /** The distribution's index flattening: every grid cell gets its own buffer slot. */
  ghost predicate ValidFlatten(flat: Coord -> int, n: int)
  {
    && (forall c :: InGrid(c) ==> 0 <= flat(c) < n)
    && (forall c, d :: InGrid(c) && InGrid(d) && flat(c) == flat(d) ==> c == d)
  }

  /** Energy bins strictly inside (lowEBin, highEBin) are skipped; all others, including
      the two boundary bins, are averaged. */
  predicate Treated(e: int, lowEBin: int, highEBin: int)
  {
    !(lowEBin < e < highEBin)
  }

  /** Sum of the first k cells of PSD row p1 of block (e, r). */
  function RowSum(s: seq<real>, flat: Coord -> int, e: int, r: int, p1: int, k: int): real
    requires ValidFlatten(flat, |s|) && IsBlock(e, r) && 0 <= p1 < PsdBins && 0 <= k <= PsdBins
  {
    if k == 0 then 0.0 else RowSum(s, flat, e, r, p1, k - 1) + s[flat(Coord(e, r, p1, k - 1))]
  }

  /** Sum of the first j PSD rows of block (e, r). */
  function RowsSum(s: seq<real>, flat: Coord -> int, e: int, r: int, j: int): real
    requires ValidFlatten(flat, |s|) && IsBlock(e, r) && 0 <= j <= PsdBins
  {
    if j == 0 then 0.0 else RowsSum(s, flat, e, r, j - 1) + RowSum(s, flat, e, r, j - 1, PsdBins)
  }

  /** Sum of the 25 PSD cells of block (e, r). */
  function BlockSum(s: seq<real>, flat: Coord -> int, e: int, r: int): real
    requires ValidFlatten(flat, |s|) && IsBlock(e, r)
  {
    RowsSum(s, flat, e, r, PsdBins)
  }

  function BlockMean(s: seq<real>, flat: Coord -> int, e: int, r: int): real
    requires ValidFlatten(flat, |s|) && IsBlock(e, r)
  {
    BlockSum(s, flat, e, r) / 25.0
  }

  /** Two buffers that agree on a block's cells have the same block sum. */
  lemma {:induction false} BlockSumFrame(s: seq<real>, t: seq<real>, flat: Coord -> int, e: int, r: int)
    requires |s| == |t| && ValidFlatten(flat, |s|) && IsBlock(e, r)
    requires forall c :: InGrid(c) && c.e == e && c.r == r ==> s[flat(c)] == t[flat(c)]
    ensures BlockSum(s, flat, e, r) == BlockSum(t, flat, e, r)
  {
    forall j | 0 <= j <= PsdBins ensures RowsSum(s, flat, e, r, j) == RowsSum(t, flat, e, r, j) {
      RowsFrame(s, t, flat, e, r, j);
    }
  }

  lemma {:induction false} RowsFrame(s: seq<real>, t: seq<real>, flat: Coord -> int, e: int, r: int, j: int)
    requires |s| == |t| && ValidFlatten(flat, |s|) && IsBlock(e, r) && 0 <= j <= PsdBins
    requires forall c :: InGrid(c) && c.e == e && c.r == r ==> s[flat(c)] == t[flat(c)]
    ensures RowsSum(s, flat, e, r, j) == RowsSum(t, flat, e, r, j)
  {
    if j > 0 {
      RowsFrame(s, t, flat, e, r, j - 1);
      RowFrame(s, t, flat, e, r, j - 1, PsdBins);
    }
  }

  lemma {:induction false} RowFrame(s: seq<real>, t: seq<real>, flat: Coord -> int, e: int, r: int, p1: int, k: int)
    requires |s| == |t| && ValidFlatten(flat, |s|) && IsBlock(e, r) && 0 <= p1 < PsdBins && 0 <= k <= PsdBins
    requires forall c :: InGrid(c) && c.e == e && c.r == r ==> s[flat(c)] == t[flat(c)]
    ensures RowSum(s, flat, e, r, p1, k) == RowSum(t, flat, e, r, p1, k)
  {
    if k > 0 {
      RowFrame(s, t, flat, e, r, p1, k - 1);
      assert InGrid(Coord(e, r, p1, k - 1));
    }
  }

  /** A block whose 25 cells all hold v sums to 25 v. */
  lemma {:induction false} BlockSumConstant(s: seq<real>, flat: Coord -> int, e: int, r: int, v: real)
    requires ValidFlatten(flat, |s|) && IsBlock(e, r)
    requires forall c :: InGrid(c) && c.e == e && c.r == r ==> s[flat(c)] == v
    ensures BlockSum(s, flat, e, r) == 25.0 * v
  {
    forall j | 0 <= j <= PsdBins ensures RowsSum(s, flat, e, r, j) == (PsdBins * j) as real * v {
      RowsConstant(s, flat, e, r, j, v);
    }
  }

  lemma {:induction false} RowsConstant(s: seq<real>, flat: Coord -> int, e: int, r: int, j: int, v: real)
    requires ValidFlatten(flat, |s|) && IsBlock(e, r) && 0 <= j <= PsdBins
    requires forall c :: InGrid(c) && c.e == e && c.r == r ==> s[flat(c)] == v
    ensures RowsSum(s, flat, e, r, j) == (PsdBins * j) as real * v
  {
    if j > 0 {
      RowsConstant(s, flat, e, r, j - 1, v);
      RowConstant(s, flat, e, r, j - 1, PsdBins, v);
    }
  }

  lemma {:induction false} RowConstant(s: seq<real>, flat: Coord -> int, e: int, r: int, p1: int, k: int, v: real)
    requires ValidFlatten(flat, |s|) && IsBlock(e, r) && 0 <= p1 < PsdBins && 0 <= k <= PsdBins
    requires forall c :: InGrid(c) && c.e == e && c.r == r ==> s[flat(c)] == v
    ensures RowSum(s, flat, e, r, p1, k) == k as real * v
  {
    if k > 0 {
      RowConstant(s, flat, e, r, p1, k - 1, v);
      assert InGrid(Coord(e, r, p1, k - 1));
    }
  }

  /** Replacing every cell of a block by the block's mean leaves its sum unchanged. */
  lemma AveragingConservesSum(s: seq<real>, t: seq<real>, flat: Coord -> int, e: int, r: int)
    requires |s| == |t| && ValidFlatten(flat, |s|) && IsBlock(e, r)
    requires forall c :: InGrid(c) && c.e == e && c.r == r ==> t[flat(c)] == BlockMean(s, flat, e, r)
    ensures BlockSum(t, flat, e, r) == BlockSum(s, flat, e, r)
  {
    BlockSumConstant(t, flat, e, r, BlockMean(s, flat, e, r));
  }

  /** Sums the 25 PSD cells of block (e, r), row by row. */
  method SumBlock(a: array<real>, flat: Coord -> int, e: int, r: int) returns (sum: real)
    requires ValidFlatten(flat, a.Length) && IsBlock(e, r)
    ensures sum == BlockSum(a[..], flat, e, r)
  {
    sum := 0.0;
    for p1 := 0 to PsdBins
      invariant sum == RowsSum(a[..], flat, e, r, p1)
    {
      ghost var before := sum;
      for p2 := 0 to PsdBins
        invariant sum == before + RowSum(a[..], flat, e, r, p1, p2)
      {
        assert InGrid(Coord(e, r, p1, p2));
        sum := sum + a[flat(Coord(e, r, p1, p2))];
      }
    }
  }

  /** Cells of block (e, r) written so far: rows before p1, and row p1 up to p2. */
  predicate Written(c: Coord, e: int, r: int, p1: int, p2: int)
  {
    c.e == e && c.r == r && (c.p1 < p1 || (c.p1 == p1 && c.p2 < p2))
  }

  /** Sets every PSD cell of block (e, r) to v; nothing else changes. */
  method FillBlock(a: array<real>, flat: Coord -> int, e: int, r: int, v: real)
    requires ValidFlatten(flat, a.Length) && IsBlock(e, r)
    modifies a
    ensures forall c :: InGrid(c) && c.e == e && c.r == r ==> a[flat(c)] == v
    ensures forall i :: 0 <= i < a.Length && (forall c :: InGrid(c) && c.e == e && c.r == r ==> flat(c) != i) ==>
      a[i] == old(a[i])
  {
    for p1 := 0 to PsdBins
      invariant forall c :: InGrid(c) && Written(c, e, r, p1, 0) ==> a[flat(c)] == v
      invariant forall i :: 0 <= i < a.Length && (forall c :: InGrid(c) && Written(c, e, r, p1, 0) ==> flat(c) != i) ==>
        a[i] == old(a[i])
    {
      for p2 := 0 to PsdBins
        invariant forall c :: InGrid(c) && Written(c, e, r, p1, p2) ==> a[flat(c)] == v
        invariant forall i :: 0 <= i < a.Length && (forall c :: InGrid(c) && Written(c, e, r, p1, p2) ==> flat(c) != i) ==>
          a[i] == old(a[i])
      {
        assert InGrid(Coord(e, r, p1, p2));
        a[flat(Coord(e, r, p1, p2))] := v;
      }
    }
  }

  /** Replaces every PSD cell of block (e, r) by the mean of the block's cells, whose
      contents are still those of `orig`; nothing else changes. */
  method AverageBlock(a: array<real>, flat: Coord -> int, e: int, r: int, ghost orig: seq<real>)
    requires ValidFlatten(flat, a.Length) && IsBlock(e, r) && |orig| == a.Length
    requires forall c :: InGrid(c) && c.e == e && c.r == r ==> a[flat(c)] == orig[flat(c)]
    modifies a
    ensures forall c :: InGrid(c) && c.e == e && c.r == r ==> a[flat(c)] == BlockMean(orig, flat, e, r)
    ensures forall i :: 0 <= i < a.Length && (forall c :: InGrid(c) && c.e == e && c.r == r ==> flat(c) != i) ==>
      a[i] == old(a[i])
  {
    var summed := SumBlock(a, flat, e, r);
    BlockSumFrame(a[..], orig, flat, e, r);
    FillBlock(a, flat, e, r, summed / 25.0);
  }

  /** Blocks handled before block (e, r) in the loop order: earlier energy bins, then
      earlier radial bins of the same energy bin. */
  predicate Done(c: Coord, e: int, r: int)
  {
    c.e < e || (c.e == e && c.r < r)
  }

  /** The averaging pass over every energy bin e < 48 outside (lowEBin, highEBin) and every
      radial bin r < 6. */
  method AverageOutsideRoi(a: array<real>, flat: Coord -> int, lowEBin: int, highEBin: int)
    requires ValidFlatten(flat, a.Length)
    modifies a
    ensures forall c :: InGrid(c) && Treated(c.e, lowEBin, highEBin) ==>
      a[flat(c)] == BlockMean(old(a[..]), flat, c.e, c.r)
    ensures forall i :: 0 <= i < a.Length && (forall c :: InGrid(c) && Treated(c.e, lowEBin, highEBin) ==> flat(c) != i) ==>
      a[i] == old(a[i])
    ensures forall c :: InGrid(c) && !Treated(c.e, lowEBin, highEBin) ==> a[flat(c)] == old(a[flat(c)])
    ensures forall e, r :: IsBlock(e, r) && Treated(e, lowEBin, highEBin) ==>
      BlockSum(a[..], flat, e, r) == BlockSum(old(a[..]), flat, e, r)
  {
    ghost var orig := a[..];
    for e := 0 to EnergyBins
      invariant forall c :: InGrid(c) && Treated(c.e, lowEBin, highEBin) && c.e < e ==>
        a[flat(c)] == BlockMean(orig, flat, c.e, c.r)
      invariant forall i :: 0 <= i < a.Length && (forall c :: InGrid(c) && Treated(c.e, lowEBin, highEBin) && c.e < e ==> flat(c) != i) ==>
        a[i] == orig[i]
    {
      if lowEBin < e < highEBin {
        continue;
      }
      for r := 0 to RadialBins
        invariant forall c :: InGrid(c) && Treated(c.e, lowEBin, highEBin) && Done(c, e, r) ==>
          a[flat(c)] == BlockMean(orig, flat, c.e, c.r)
        invariant forall i :: 0 <= i < a.Length && (forall c :: InGrid(c) && Treated(c.e, lowEBin, highEBin) && Done(c, e, r) ==> flat(c) != i) ==>
          a[i] == orig[i]
      {
        forall c | InGrid(c) && c.e == e && c.r == r
          ensures a[flat(c)] == orig[flat(c)]
        {
          forall d | InGrid(d) && Treated(d.e, lowEBin, highEBin) && Done(d, e, r)
            ensures flat(d) != flat(c)
          {
            assert d != c;
          }
        }
        AverageBlock(a, flat, e, r, orig);
      }
    }
    forall c | InGrid(c) && !Treated(c.e, lowEBin, highEBin)
      ensures a[flat(c)] == orig[flat(c)]
    {
      forall d | InGrid(d) && Treated(d.e, lowEBin, highEBin)
        ensures flat(d) != flat(c)
      {
        assert d != c;
      }
    }
    forall e, r | IsBlock(e, r) && Treated(e, lowEBin, highEBin)
      ensures BlockSum(a[..], flat, e, r) == BlockSum(orig, flat, e, r)
    {
      AveragingConservesSum(orig, a[..], flat, e, r);
    }
  }

  /** Number of bins of `s` whose content is exactly zero. */
  function CountZeros(s: seq<real>): nat
  {
    if |s| == 0 then 0 else CountZeros(s[..|s| - 1]) + (if s[|s| - 1] == 0.0 then 1 else 0)
  }

  /** The indices of the empty bins. */
  function ZeroIndices(s: seq<real>): set<int>
  {
    set i | 0 <= i < |s| && s[i] == 0.0
  }

  /** The zero count is the number of empty bins, so at most the number of bins. */
  lemma {:induction false} CountZerosIsCardinality(s: seq<real>)
    ensures CountZeros(s) == |ZeroIndices(s)|
    ensures CountZeros(s) <= |s|
  {
    if |s| > 0 {
      var n := |s| - 1;
      CountZerosIsCardinality(s[..n]);
      var prefix := ZeroIndices(s[..n]);
      if s[n] == 0.0 {
        assert ZeroIndices(s) == prefix + {n};
        assert n !in prefix;
      } else {
        assert ZeroIndices(s) == prefix;
      }
    }
  }

  /** Counts the bins whose content is zero. */
  method CountZeroBins(a: array<real>) returns (zeroBins: nat)
    ensures zeroBins == CountZeros(a[..])
  {
    zeroBins := 0;
    for i := 0 to a.Length
      invariant zeroBins == CountZeros(a[..i])
    {
      assert a[..i + 1][..i] == a[..i];
      if a[i] == 0.0 {
        zeroBins := zeroBins + 1;
      }
    }
    assert a[..a.Length] == a[..];
  }

  /** Normalises the distribution only when its integral is nonzero: the contents are
      divided by the integral in place, so that they sum to 1; an empty distribution is
      left as it is. */
  method NormaliseIfNonEmpty(a: array<real>)
    modifies a
    ensures Sum(old(a[..])) != 0.0 ==> a[..] == Normalised(old(a[..])) && Sum(a[..]) == 1.0
    ensures Sum(old(a[..])) == 0.0 ==> a[..] == old(a[..])
  {
    var integral := Sum(a[..]);
    if integral != 0.0 {
      ghost var normalised := Normalised(a[..]);
      var scale := 1.0 / integral;
      assert normalised == Scale(old(a[..]), scale);
      for i := 0 to a.Length
        invariant a[..i] == normalised[..i]
        invariant a[i..] == old(a[i..])
      {
        assert a[i] == old(a[..])[i];
        a[i] := scale * a[i];
        assert a[i] == normalised[i];
        assert a[..i + 1] == normalised[..i + 1];
      }
      assert a[..] == a[..a.Length];
    }
  }

  /** One event type of sum_pdfs: the loaded distribution is first copied into `dists`,
      then averaged outside the ROI, normalised when nonempty, and its empty bins counted. */
  method SumPdf(a: array<real>, flat: Coord -> int, lowEBin: int, highEBin: int, dists: seq<seq<real>>)
    returns (newDists: seq<seq<real>>, zeroBins: nat, ghost averaged: seq<real>)
    requires ValidFlatten(flat, a.Length)
    modifies a
    ensures newDists == dists + [old(a[..])]
    ensures |averaged| == a.Length
    ensures forall c :: InGrid(c) && Treated(c.e, lowEBin, highEBin) ==>
      averaged[flat(c)] == BlockMean(old(a[..]), flat, c.e, c.r)
    ensures forall i :: 0 <= i < a.Length && (forall c :: InGrid(c) && Treated(c.e, lowEBin, highEBin) ==> flat(c) != i) ==>
      averaged[i] == old(a[i])
    ensures a[..] == if Sum(averaged) != 0.0 then Normalised(averaged) else averaged
    ensures Sum(averaged) != 0.0 ==> Sum(a[..]) == 1.0
    ensures zeroBins == CountZeros(a[..])
  {
    newDists := dists + [a[..]];
    AverageOutsideRoi(a, flat, lowEBin, highEBin);
    averaged := a[..];
    NormaliseIfNonEmpty(a);
    zeroBins := CountZeroBins(a);
  }
}
