/** Splitting one pruned ntuple into two by position: the leading fraction of the
    entries goes to the first output, the rest to the second, in order. */
module SplitHalf {
  import opened Wrappers
  import opened EventConfigs
  import Ordering

  /** One entry of the "pruned" ntuple, by branch. */
  datatype Entry = Entry(
    energy: real,
    fitValid: real,
    reff: real,
    qmcdep: real,
    bipoCumul: real,
    biPoLikelihood214: real,
    itr: real)

  /** The column order of both output ntuples. */
  const Columns: seq<string> := ["energy", "fitValid", "reff", "qmcdep", "bipoCumul", "biPoLikelihood214", "itr"]

  /** The input branch a column name is bound to. */
  function Branch(e: Entry, column: string): Option<real>
  {
    if column == "energy" then Some(e.energy)
    else if column == "fitValid" then Some(e.fitValid)
    else if column == "reff" then Some(e.reff)
    else if column == "qmcdep" then Some(e.qmcdep)
    else if column == "bipoCumul" then Some(e.bipoCumul)
    else if column == "biPoLikelihood214" then Some(e.biPoLikelihood214)
    else if column == "itr" then Some(e.itr)
    else None
  }

  /** The values filled into an output ntuple for one entry. */
  function FillValues(e: Entry): seq<real>
  {
    [e.energy, e.fitValid, e.reff, e.qmcdep, e.bipoCumul, e.biPoLikelihood214, e.itr]
  }

  /** Every filled value sits under the column of the branch it was read from. */
  lemma FillMatchesColumns(e: Entry)
    ensures |FillValues(e)| == |Columns|
    ensures forall k :: 0 <= k < |Columns| ==> Branch(e, Columns[k]) == Some(FillValues(e)[k])
  {
  }

  function Filled(es: seq<Entry>): (r: seq<seq<real>>)
    ensures |r| == |es|
    ensures forall i :: 0 <= i < |es| ==> r[i] == FillValues(es[i])
  {
    seq(|es|, i requires 0 <= i < |es| => FillValues(es[i]))
  }

  /** Entry i of n goes to the first output when i / n is below frac. */
  predicate ToFirst(i: nat, n: nat, frac: real)
    requires n > 0
  {
    (i as real) / (n as real) < frac
  }

  /** i / n < frac exactly when i < frac x n. */
  lemma ToFirstIff(i: nat, n: nat, frac: real)
    requires n > 0
    ensures ToFirst(i, n, frac) <==> (i as real) < frac * n as real
  {
    var q := (i as real) / (n as real);
    assert q * n as real == i as real;
  }

  /** The number of entries the first output receives: the number of indices
      i < n with i < frac x n, that is frac x n rounded up, within 0..n. */
  function FirstCount(n: nat, frac: real): (k: nat)
    ensures k <= n
  {
    if frac <= 0.0 then 0
    else
      var x := frac * n as real;
      var c := if x.Floor as real == x then x.Floor else x.Floor + 1;
      if c < n then c else n
  }

  /** The indices routed to the first output are exactly those below FirstCount:
      the first output is a prefix and the second the remaining suffix. */
  lemma FirstCountSplits(n: nat, frac: real)
    requires n > 0
    ensures forall i: nat :: i < n ==> (i < FirstCount(n, frac) <==> ToFirst(i, n, frac))
  {
    forall i: nat | i < n
      ensures i < FirstCount(n, frac) <==> ToFirst(i, n, frac)
    {
      ToFirstIff(i, n, frac);
      if frac > 0.0 {
        var x := frac * n as real;
        assert frac * n as real > 0.0;
      }
    }
  }

  /** A fraction of 0 or below sends everything to the second output. */
  lemma NoFraction(n: nat, frac: real)
    requires frac <= 0.0
    ensures FirstCount(n, frac) == 0
  {
  }

  /** A fraction above (n - 1) / n sends everything to the first output. */
  lemma WholeFraction(n: nat, frac: real)
    requires n > 0
    requires frac > ((n - 1) as real) / (n as real)
    ensures FirstCount(n, frac) == n
  {
    FirstCountSplits(n, frac);
    assert ToFirst(n - 1, n, frac);
  }

  /** The loop of the program: each entry in turn is filled into the first output
      when its position i satisfies i / n < frac, into the second otherwise. */
  method SplitInTwo(entries: seq<Entry>, frac: real) returns (tree1: seq<seq<real>>, tree2: seq<seq<real>>)
    ensures tree1 == Filled(entries[..FirstCount(|entries|, frac)])
    ensures tree2 == Filled(entries[FirstCount(|entries|, frac)..])
    ensures tree1 + tree2 == Filled(entries)
  {
    var n := |entries|;
    var k := FirstCount(n, frac);
    if n > 0 {
      FirstCountSplits(n, frac);
    }
    tree1, tree2 := [], [];
    for i := 0 to n
      invariant i <= k ==> tree1 == Filled(entries[..i]) && tree2 == []
      invariant i > k ==> tree1 == Filled(entries[..k]) && tree2 == Filled(entries[k..i])
    {
      var fillVals := FillValues(entries[i]);
      if (i as real) / (n as real) < frac {
        assert ToFirst(i, n, frac);
        assert entries[..i + 1] == entries[..i] + [entries[i]];
        tree1 := tree1 + [fillVals];
      } else {
        assert !ToFirst(i, n, frac);
        assert tree2 == Filled(entries[k..i]);
        assert entries[k..i + 1] == entries[k..i] + [entries[i]];
        tree2 := tree2 + [fillVals];
      }
    }
    assert entries[..n] == entries;
    assert entries == entries[..k] + entries[k..];
  }

  /** The output files of one event type. */
  datatype Job = Job(input: string, output1: string, output2: string)

  /** The jobs of main, one per active event type in name order: the type's pruned
      file split into splitDir1/name.root and splitDir2/name.root. */
  function Jobs(active: map<string, EventRecord>, splitDir1: string, splitDir2: string): (r: seq<Job>)
    ensures |r| == |active|
    ensures forall i :: 0 <= i < |r| ==>
      var name := Ordering.SortedKeys(active.Keys)[i];
      r[i] == Job(active[name].prunedPath, splitDir1 + "/" + name + ".root", splitDir2 + "/" + name + ".root")
  {
    var names := Ordering.SortedKeys(active.Keys);
    seq(|names|, i requires 0 <= i < |names| =>
      Job(active[names[i]].prunedPath, splitDir1 + "/" + names[i] + ".root", splitDir2 + "/" + names[i] + ".root"))
  }

  /** The four arguments main reads: event configuration, both split directories
      and the fraction's text. */
  datatype Args = Args(eventConfig: string, splitDir1: string, splitDir2: string, frac: string)

  /** What main does with its argument vector (program name first): it prints the
      usage line when there are not exactly four arguments, and goes on in every
      case; with fewer than four it reads past the end (None: undefined). */
  function Launch(argv: seq<string>): (r: (bool, Option<Args>))
    ensures r.0 <==> |argv| != 5
    ensures r.1.Some? <==> |argv| >= 5
    ensures r.1.Some? ==> r.1.value == Args(argv[1], argv[2], argv[3], argv[4])
  {
    (|argv| != 5, if |argv| >= 5 then Some(Args(argv[1], argv[2], argv[3], argv[4])) else None)
  }

  /** Extra arguments print the usage line and the split is still done. */
  lemma ExtraArgumentsDoNotStop(argv: seq<string>)
    requires |argv| > 5
    ensures Launch(argv).0 && Launch(argv).1.Some?
  {
  }
}
