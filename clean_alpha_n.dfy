/** The coincidence veto of the alpha-n cleaning pass: each entry after the first
    is judged against its predecessor, and an entry passes only when neither it
    nor its predecessor was flagged as part of a close pair of energetic events. */
module AlphaN {

  /** One entry of the chain: its universal time in nanoseconds and its energy. */
  datatype Entry = Entry(time: real, energy: real)

  /** flag1 of entry i: the first entry is always flagged; a later one when it
      follows its predecessor by less than deltaT and both energies exceed 1. */
  predicate Flag(entries: seq<Entry>, i: nat, deltaT: real)
    requires i < |entries|
  {
    i == 0 ||
    (entries[i].time - entries[i - 1].time < deltaT && entries[i].energy > 1.0 && entries[i - 1].energy > 1.0)
  }

  /** Entry i passes when neither it nor its predecessor is flagged. */
  predicate Passes(entries: seq<Entry>, i: nat, deltaT: real)
    requires 1 <= i < |entries|
  {
    !Flag(entries, i, deltaT) && !Flag(entries, i - 1, deltaT)
  }

  /** The Clean loop. verdicts[i - 1] is the line printed for entry i (true for
      "passes", false for "fails"); the first entry prints nothing. */
  method Clean(entries: seq<Entry>, deltaT: real) returns (verdicts: seq<bool>)
    ensures |verdicts| == if |entries| == 0 then 0 else |entries| - 1
    ensures forall i :: 1 <= i < |entries| ==>
              (verdicts[i - 1] <==> Passes(entries, i, deltaT))
    ensures |entries| >= 2 ==> !verdicts[0]
  {
    verdicts := [];
    var lastTime, lastEnergy := 0.0, 0.0;
    var flag1, flag2 := false, false;
    ghost var flag2Set := false;
    for i := 0 to |entries|
      invariant |verdicts| == if i == 0 then 0 else i - 1
      invariant forall k :: 1 <= k < i ==>
                  (verdicts[k - 1] <==> Passes(entries, k, deltaT))
      invariant i > 0 ==> lastTime == entries[i - 1].time && lastEnergy == entries[i - 1].energy
      invariant flag2Set <==> i > 0
      invariant i > 0 ==> flag2 == Flag(entries, i - 1, deltaT)
    {
      var thisTime, energy := entries[i].time, entries[i].energy;
      var diff := thisTime - lastTime;
      if i == 0 {
        flag1 := true;
      } else {
        flag1 := diff < deltaT && energy > 1.0 && lastEnergy > 1.0;
        assert flag2Set;
        verdicts := verdicts + [!flag1 && !flag2];
      }
      lastTime := thisTime;
      lastEnergy := energy;
      flag2 := flag1;
      flag2Set := true;
    }
    if |entries| >= 2 {
      assert Flag(entries, 0, deltaT);
      assert verdicts[0] <==> Passes(entries, 1, deltaT);
    }
  }

  /** A pass needs two consecutive entries that are each far from their own
      predecessor or not energetic: an entry whose predecessor is within deltaT of
      it, both above energy 1, fails, and so does the entry after it. */
  lemma CloseEnergeticPairFails(entries: seq<Entry>, i: nat, deltaT: real)
    requires 1 <= i < |entries|
    requires entries[i].time - entries[i - 1].time < deltaT
    requires entries[i].energy > 1.0 && entries[i - 1].energy > 1.0
    ensures !Passes(entries, i, deltaT)
    ensures i + 1 < |entries| ==> !Passes(entries, i + 1, deltaT)
  {
  }
}
