/** Counting entries by trigger index: ten buckets, bucket evIndex + 1 counts the
    entries with that index, then a table of the buckets and one of their running
    totals. */
module Triggers {
  import opened Wrappers

  const Buckets: nat := 10

  /** The list slot triggers[evIndex + 1] names: Python indexing, where a negative
      index counts from the end and an index outside -10..9 raises IndexError. */
  function Bucket(evIndex: int): (b: Option<nat>)
    ensures b.Some? <==> -11 <= evIndex <= 8
    ensures b.Some? ==> b.value < Buckets
    ensures -1 <= evIndex <= 8 ==> b == Some(evIndex + 1)
    ensures -11 <= evIndex <= -2 ==> b == Some(evIndex + 11)
  {
    var k := evIndex + 1;
    if 0 <= k < Buckets then Some(k)
    else if -(Buckets as int) <= k < 0 then Some(k + Buckets)
    else None
  }

  /** The number of entries landing in bucket b. */
  function CountIn(evIndices: seq<int>, b: nat): nat
  {
    if |evIndices| == 0 then 0
    else
      var n := |evIndices| - 1;
      CountIn(evIndices[..n], b) + (if Bucket(evIndices[n]) == Some(b) then 1 else 0)
  }

  /** Sum of a list of counts. */
  function Total(s: seq<int>): int
  {
    if |s| == 0 then 0 else Total(s[..|s| - 1]) + s[|s| - 1]
  }

  /** count_ev_indices: the ten buckets, filled entry by entry; the first entry
      whose index is out of range raises IndexError. */
  method CountEvIndices(evIndices: seq<int>) returns (r: Option<seq<int>>)
    ensures r.Some? <==> forall i :: 0 <= i < |evIndices| ==> Bucket(evIndices[i]).Some?
    ensures r.Some? ==> |r.value| == Buckets
    ensures r.Some? ==> forall b :: 0 <= b < Buckets ==> r.value[b] == CountIn(evIndices, b)
  {
    var triggers := new int[Buckets](_ => 0);
    for i := 0 to |evIndices|
      invariant forall k :: 0 <= k < i ==> Bucket(evIndices[k]).Some?
      invariant forall b :: 0 <= b < Buckets ==> triggers[b] == CountIn(evIndices[..i], b)
    {
      var slot := Bucket(evIndices[i]);
      if slot.None? {
        return None;
      }
      assert evIndices[..i + 1][..i] == evIndices[..i];
      triggers[slot.value] := triggers[slot.value] + 1;
    }
    assert evIndices[..|evIndices|] == evIndices;
    r := Some(triggers[..]);
  }

  /** With every index in range, the buckets count every entry once. */
  lemma {:induction false} BucketsCountAll(evIndices: seq<int>)
    requires forall i :: 0 <= i < |evIndices| ==> Bucket(evIndices[i]).Some?
    ensures Total(seq(Buckets, b requires 0 <= b < Buckets => CountIn(evIndices, b) as int)) == |evIndices|
    decreases |evIndices|
  {
    var counts := seq(Buckets, b requires 0 <= b < Buckets => CountIn(evIndices, b) as int);
    if |evIndices| == 0 {
      TotalZeros(counts);
    } else {
      var n := |evIndices| - 1;
      var prefix := evIndices[..n];
      var before := seq(Buckets, b requires 0 <= b < Buckets => CountIn(prefix, b) as int);
      BucketsCountAll(prefix);
      var k := Bucket(evIndices[n]).value;
      assert counts == before[k := before[k] + 1];
      TotalIncrement(before, k);
    }
  }

  lemma {:induction false} TotalZeros(s: seq<int>)
    requires forall i :: 0 <= i < |s| ==> s[i] == 0
    ensures Total(s) == 0
  {
    if |s| > 0 {
      TotalZeros(s[..|s| - 1]);
    }
  }

  /** One more in one slot is one more in the total. */
  lemma {:induction false} TotalIncrement(s: seq<int>, k: nat)
    requires k < |s|
    ensures Total(s[k := s[k] + 1]) == Total(s) + 1
    decreases |s|
  {
    var n := |s| - 1;
    var t := s[k := s[k] + 1];
    if k < n {
      assert t[..n] == s[..n][k := s[k] + 1];
      TotalIncrement(s[..n], k);
    } else {
      assert t[..n] == s[..n];
    }
  }

  /** The positions of the entries with index k. */
  function Positions(evIndices: seq<int>, k: int): (p: set<int>)
    ensures forall i :: i in p <==> 0 <= i < |evIndices| && evIndices[i] == k
  {
    set i | 0 <= i < |evIndices| && evIndices[i] == k
  }

  /** One more entry adds its position when it has index k. */
  lemma PositionsLast(evIndices: seq<int>, k: int)
    requires |evIndices| > 0
    ensures var n := |evIndices| - 1;
      Positions(evIndices, k)
      == Positions(evIndices[..n], k) + (if evIndices[n] == k then {n} else {})
  {
    var n := |evIndices| - 1;
    var rhs := Positions(evIndices[..n], k) + (if evIndices[n] == k then {n} else {});
    forall i
      ensures i in Positions(evIndices, k) <==> i in rhs
    {
      if 0 <= i < n {
        assert evIndices[..n][i] == evIndices[i];
      }
    }
  }

  /** With every index in -1..8 no index wraps: the bucket labelled k in the first
      table holds exactly the entries with index k. */
  lemma {:induction false} BucketHoldsIndex(evIndices: seq<int>, k: int)
    requires forall i :: 0 <= i < |evIndices| ==> -1 <= evIndices[i] <= 8
    requires -1 <= k <= 8
    ensures CountIn(evIndices, k + 1) == |Positions(evIndices, k)|
    decreases |evIndices|
  {
    if |evIndices| > 0 {
      var n := |evIndices| - 1;
      BucketHoldsIndex(evIndices[..n], k);
      PositionsLast(evIndices, k);
      assert n !in Positions(evIndices[..n], k);
    }
  }

  /** The first table: bucket i labelled i - 1, the trigger index it counts. */
  function Labelled(counts: seq<int>): (rows: seq<(int, int)>)
    ensures |rows| == |counts|
    ensures forall i :: 0 <= i < |counts| ==> rows[i] == (i - 1, counts[i])
  {
    seq(|counts|, i requires 0 <= i < |counts| => (i - 1, counts[i]))
  }

  /** With every index in -1..8, each line of the first table printed from the buckets
      names a trigger index and gives the number of entries with that index. */
  lemma LabelledCountsIndex(evIndices: seq<int>, counts: seq<int>)
    requires forall i :: 0 <= i < |evIndices| ==> -1 <= evIndices[i] <= 8
    requires |counts| == Buckets
    requires forall b :: 0 <= b < Buckets ==> counts[b] == CountIn(evIndices, b)
    ensures forall i :: 0 <= i < |counts| ==>
              Labelled(counts)[i].1 == |Positions(evIndices, Labelled(counts)[i].0)|
  {
    forall i | 0 <= i < |counts|
      ensures Labelled(counts)[i].1 == |Positions(evIndices, Labelled(counts)[i].0)|
    {
      BucketHoldsIndex(evIndices, i - 1);
    }
  }

  /** The second table: bucket i labelled i with the running total up to it. */
  method RunningTotals(counts: seq<int>) returns (rows: seq<(int, int)>)
    ensures |rows| == |counts|
    ensures forall i :: 0 <= i < |counts| ==> rows[i] == (i, Total(counts[..i + 1]))
  {
    var sum := 0;
    rows := [];
    for i := 0 to |counts|
      invariant |rows| == i
      invariant sum == Total(counts[..i])
      invariant forall k :: 0 <= k < i ==> rows[k] == (k, Total(counts[..k + 1]))
    {
      sum := sum + counts[i];
      assert counts[..i + 1][..i] == counts[..i];
      rows := rows + [(i, sum)];
    }
  }

  /** Running totals of counts never decrease, and the last is the total. */
  lemma {:induction false} RunningTotalsGrow(counts: seq<int>, i: nat, j: nat)
    requires forall k :: 0 <= k < |counts| ==> counts[k] >= 0
    requires i <= j < |counts|
    ensures Total(counts[..i + 1]) <= Total(counts[..j + 1])
    ensures Total(counts[..|counts|]) == Total(counts)
    decreases j - i
  {
    assert counts[..|counts|] == counts;
    if i < j {
      RunningTotalsGrow(counts, i, j - 1);
      assert counts[..j + 1][..j] == counts[..j];
    }
  }
}
