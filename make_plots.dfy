/** MakePlots: turns an MCMC chain into per-parameter summaries. It picks the parameter
    branches, applies the burn-in cut, reads the Asimov rates and the fit configuration
    into five global parameter maps (rekeyed so that the first '-' of a name becomes '_'),
    looks up each parameter's limits, normalises the summaries to the Asimov value, fills
    the correlation matrix and builds the prefit plot. The HPD summary itself is in Hpd. */
module MakePlots {
  import opened Text
  import Ordering
  import FitConfigs
  import Binned
  import opened Maps

  /** The chain's maximum step is divided by this to get the burn-in cut. */
  const BurnInCut: int := 5

  /** A branch holds a fit parameter unless its name begins with LogL, Accepted or Step. */
  predicate IsParameterBranch(name: string)
  {
    !StartsWith(name, "LogL") && !StartsWith(name, "Accepted") && !StartsWith(name, "Step")
  }

  /** The parameter branches, in chain order. */
  function ParameterBranches(branches: seq<string>): (r: seq<string>)
    ensures |r| <= |branches|
    ensures forall x :: x in r <==> x in branches && IsParameterBranch(x)
  {
    if branches == [] then []
    else
      var last := branches[|branches| - 1];
      ParameterBranches(branches[..|branches| - 1]) + (if IsParameterBranch(last) then [last] else [])
  }

  /** Keeping the parameter branches keeps their relative order: filtering a concatenation
      is the concatenation of the filtered parts. */
  lemma {:induction false} ParameterBranchesAppend(a: seq<string>, b: seq<string>)
    ensures ParameterBranches(a + b) == ParameterBranches(a) + ParameterBranches(b)
    decreases |b|
  {
    if b == [] {
      assert a + b == a;
    } else {
      var init := b[..|b| - 1];
      assert (a + b)[..|a + b| - 1] == a + init;
      ParameterBranchesAppend(a, init);
    }
  }

  /** One more branch: the filter gains it exactly when it is a parameter branch. */
  lemma ParameterBranchesStep(branches: seq<string>, i: nat)
    requires i < |branches|
    ensures ParameterBranches(branches[..i + 1])
         == ParameterBranches(branches[..i]) + (if IsParameterBranch(branches[i]) then [branches[i]] else [])
  {
    assert branches[..i + 1][..i] == branches[..i];
  }

  /** Writes name into slot n of the buffer, after the n names already stored. */
  method Store(bnames: array<string>, n: nat, name: string)
    requires n < bnames.Length
    modifies bnames
    ensures bnames[..n + 1] == old(bnames[..n]) + [name]
  {
    bnames[n] := name;
  }

  /** The branch loop of MakePlots: names go into a buffer of one slot per branch, and npar
      counts the parameters stored. */
  method SelectBranches(branches: seq<string>) returns (bnames: array<string>, npar: int)
    ensures fresh(bnames) && bnames.Length == |branches|
    ensures 0 <= npar <= |branches|
    ensures bnames[..npar] == ParameterBranches(branches)
  {
    bnames := new string[|branches|](_ => "");
    npar := 0;
    for i := 0 to |branches|
      invariant 0 <= npar <= i
      invariant bnames[..npar] == ParameterBranches(branches[..i])
    {
      ParameterBranchesStep(branches, i);
      var bname := branches[i];
      if !IsParameterBranch(bname) {
        continue;
      }
      Store(bnames, npar, bname);
      npar := npar + 1;
    }
    assert branches[..|branches|] == branches;
  }

  /** The burn-in cut: the chain's maximum step over BurnInCut, truncated. For a
      non-negative step count it is the largest cut with cut * 5 <= maxStep. */
  function BurnIn(maxStep: real): (cut: int)
    ensures maxStep >= 0.0 ==> cut >= 0 && (cut * BurnInCut) as real <= maxStep < ((cut + 1) * BurnInCut) as real
    ensures maxStep < 0.0 ==> ((cut - 1) * BurnInCut) as real < maxStep <= (cut * BurnInCut) as real
  {
    Binned.Truncate(maxStep / BurnInCut as real)
  }

  /** The selection applied to every projection of the chain. */
  function StepCut(maxStep: real): string
  {
    "Step > " + IntToString(BurnIn(maxStep))
  }

  /** std::map operator[] on a parameter map read for its value: 0 for a missing key. */
  function Lookup(m: map<string, real>, k: string): real
  {
    if k in m then m[k] else 0.0
  }

  /** The map after operator[] has been applied to k: k is present, with 0 if it was missing. */
  function WithDefault(m: map<string, real>, k: string): (r: map<string, real>)
    ensures r.Keys == m.Keys + {k}
    ensures forall j :: Lookup(r, j) == Lookup(m, j)
  {
    if k in m then m else m[k := 0.0]
  }

  /** The map after operator[] has been applied to every name of names. */
  function WithDefaults(m: map<string, real>, names: set<string>): (r: map<string, real>)
    ensures r.Keys == m.Keys + names
    ensures forall j :: Lookup(r, j) == Lookup(m, j)
  {
    map k | k in m.Keys + names :: Lookup(m, k)
  }

  /** The outputs of GetParLimits. */
  datatype Limits = Limits(central: real, prior: real, down: real, up: real)

  /** GetParLimits: the Asimov rate, the constraint mean, and a range of one constraint
      sigma around the Asimov rate clipped to the parameter's minimum and maximum. */
  function ParLimits(asimovRates: map<string, real>, constrMeans: map<string, real>,
                     constrSigmas: map<string, real>, mins: map<string, real>,
                     maxs: map<string, real>, name: string): (l: Limits)
    ensures l.central == Lookup(asimovRates, name)
    ensures l.prior == Lookup(constrMeans, name)
    ensures l.down >= Lookup(mins, name) && l.down >= l.central - Lookup(constrSigmas, name)
    ensures l.down == Lookup(mins, name) || l.down == l.central - Lookup(constrSigmas, name)
    ensures l.up <= Lookup(maxs, name) && l.up <= l.central + Lookup(constrSigmas, name)
    ensures l.up == Lookup(maxs, name) || l.up == l.central + Lookup(constrSigmas, name)
  {
    var central := Lookup(asimovRates, name);
    var error := Lookup(constrSigmas, name);
    var down := if central - error < Lookup(mins, name) then Lookup(mins, name) else central - error;
    var up := if central + error > Lookup(maxs, name) then Lookup(maxs, name) else central + error;
    Limits(central, Lookup(constrMeans, name), down, up)
  }

  /** The eight summary values of one parameter: arithmetic, Gaussian and HPD. */
  datatype Summary = Summary(mean: real, rms: real, gaussMean: real, gaussRms: real,
                             peak: real, sigmaHpd: real, sigmaP: real, sigmaM: real)

  /** x divided by c. */
  function Quotient(x: real, c: real): (r: real)
    requires c != 0.0
    ensures r * c == x
  {
    x / c
  }

  /** The summary relative to the Asimov value central: each value divided by central, or,
      when central is 0, the three central values shifted by 1 and the errors kept. */
  function Normalise(s: Summary, central: real): (r: Summary)
    ensures central != 0.0 ==>
      && r.mean * central == s.mean && r.rms * central == s.rms
      && r.gaussMean * central == s.gaussMean && r.gaussRms * central == s.gaussRms
      && r.peak * central == s.peak && r.sigmaHpd * central == s.sigmaHpd
      && r.sigmaP * central == s.sigmaP && r.sigmaM * central == s.sigmaM
    ensures central == 0.0 ==>
      && r.mean == s.mean + 1.0 && r.gaussMean == s.gaussMean + 1.0 && r.peak == s.peak + 1.0
      && r.rms == s.rms && r.gaussRms == s.gaussRms
      && r.sigmaHpd == s.sigmaHpd && r.sigmaP == s.sigmaP && r.sigmaM == s.sigmaM
  {
    if central != 0.0 then
      Summary(Quotient(s.mean, central), Quotient(s.rms, central),
              Quotient(s.gaussMean, central), Quotient(s.gaussRms, central),
              Quotient(s.peak, central), Quotient(s.sigmaHpd, central),
              Quotient(s.sigmaP, central), Quotient(s.sigmaM, central))
    else
      s.(mean := s.mean + 1.0, gaussMean := s.gaussMean + 1.0, peak := s.peak + 1.0)
  }

  /** The final entry (a, b) of the correlation matrix: 1 on the diagonal and, when
      correlations are drawn, the correlation factor of the later parameter against the
      earlier one on both sides of the diagonal; 0 otherwise. */
  function CorrelationEntry(correlations: bool, factor: (int, int) -> real, a: int, b: int): real
  {
    if a == b then 1.0
    else if !correlations then 0.0
    else if b < a then factor(a, b)
    else factor(b, a)
  }

  /** The correlation matrix of MakePlots: zeroed, then for each parameter i the diagonal
      entry, then each (i, j) with j < i and its mirror (j, i). factor(i, j) stands for the
      correlation factor of the 2D posterior of parameter j against parameter i. */
  method FillCorrelation(npar: nat, correlations: bool, factor: (int, int) -> real)
    returns (c: array2<real>)
    ensures fresh(c) && c.Length0 == npar && c.Length1 == npar
    ensures forall a, b :: 0 <= a < npar && 0 <= b < npar ==> c[a, b] == CorrelationEntry(correlations, factor, a, b)
    ensures forall a, b :: 0 <= a < npar && 0 <= b < npar ==> c[a, b] == c[b, a]
    ensures forall a :: 0 <= a < npar ==> c[a, a] == 1.0
  {
    c := new real[npar, npar];
    for i := 0 to npar
      invariant forall a, b :: 0 <= a < i && 0 <= b < npar ==> c[a, b] == 0.0
    {
      for j := 0 to npar
        invariant forall a, b :: 0 <= a < i && 0 <= b < npar ==> c[a, b] == 0.0
        invariant forall b :: 0 <= b < j ==> c[i, b] == 0.0
      {
        c[i, j] := 0.0;
      }
    }
    for i := 0 to npar
      invariant forall a, b :: 0 <= a < npar && 0 <= b < npar ==>
        c[a, b] == if a < i && b < i then CorrelationEntry(correlations, factor, a, b) else 0.0
    {
      c[i, i] := 1.0;
      if correlations {
        for j := 0 to i
          invariant forall a, b :: 0 <= a < npar && 0 <= b < npar ==>
            c[a, b] == if (a < i && b < i) || (a == i && b < j) || (b == i && a < j) || (a == i && b == i)
                       then CorrelationEntry(correlations, factor, a, b) else 0.0
        {
          c[i, j] := factor(i, j);
          c[j, i] := c[i, j];
        }
      }
    }
  }

  /** The prefit histogram: contents and errors of cells 0 (underflow) to nbins + 1
      (overflow), and the labels set on ordinary bins. */
  datatype Prefit = Prefit(contents: seq<real>, errors: seq<real>, labels: map<nat, string>)

  /** The number of bins of a TH1D asked for n bins: ROOT takes 1 for n <= 0. */
  function HistBins(n: int): nat
  {
    if n >= 1 then n else 1
  }

  /** The first n parameters of keys are placed in the prefit histogram h of nb bins: the
      k-th goes to bin k + 1, with its prefit value; a parameter landing in the overflow
      bin nb + 1 gets its value there but no label, and one past the overflow bin is
      dropped; every other cell holds 0. */
  predicate PrefitFilled(h: Prefit, a: map<string, real>, m: map<string, real>, s: map<string, real>,
                         keys: seq<string>, nb: nat, n: nat)
    requires n <= |keys|
  {
    && |h.contents| == nb + 2 && |h.errors| == nb + 2
    && h.contents[0] == 0.0 && h.errors[0] == 0.0
    && (forall b :: 1 <= b <= nb + 1 ==>
          h.contents[b] == (if b <= n then PrefitValue(Lookup(a, keys[b - 1]), Lookup(m, keys[b - 1]), Lookup(s, keys[b - 1])).0 else 0.0))
    && (forall b :: 1 <= b <= nb + 1 ==>
          h.errors[b] == (if b <= n then PrefitValue(Lookup(a, keys[b - 1]), Lookup(m, keys[b - 1]), Lookup(s, keys[b - 1])).1 else 0.0))
    && (forall b: nat :: 1 <= b <= nb && b <= n ==> b in h.labels)
    && (forall b :: b in h.labels ==> 1 <= b <= nb && b <= n && h.labels[b] == keys[b - 1])
  }

  /** Every parameter of distinct keys gets a labelled bin exactly when there are no more
      parameters than bins. */
  lemma {:induction false} PrefitLabelsEveryParameter(h: Prefit, a: map<string, real>, m: map<string, real>,
                                                      s: map<string, real>, keys: seq<string>, nb: nat)
    requires PrefitFilled(h, a, m, s, keys, nb, |keys|)
    requires forall i, j :: 0 <= i < j < |keys| ==> keys[i] != keys[j]
    ensures (forall k :: 0 <= k < |keys| ==> keys[k] in h.labels.Values) <==> |keys| <= nb
  {
    if |keys| <= nb {
      forall k | 0 <= k < |keys|
        ensures keys[k] in h.labels.Values
      {
        assert k + 1 in h.labels;
      }
    } else {
      forall b | b in h.labels
        ensures h.labels[b] != keys[nb]
      {
        assert b - 1 < nb;
      }
      assert keys[nb] !in h.labels.Values;
    }
  }

  /** The prefit content relative to the Asimov rate: the constraint mean and sigma over the
      Asimov rate when both are nonzero; 1 without a constraint; constraint mean + 1 with the
      plain sigma when the Asimov rate is 0. */
  function PrefitValue(asimov: real, mean: real, sigma: real): (r: (real, real))
    ensures asimov != 0.0 && mean != 0.0 ==> r.0 * asimov == mean && r.1 * asimov == sigma
    ensures mean == 0.0 ==> r == (1.0, 0.0)
    ensures asimov == 0.0 && mean != 0.0 ==> r == (mean + 1.0, sigma)
  {
    if asimov != 0.0 then
      if mean != 0.0 then (mean / asimov, sigma / asimov)
      else assert asimov / asimov == 1.0; (asimov / asimov, 0.0)
    else
      if mean != 0.0 then (mean + 1.0, sigma) else (asimov + 1.0, 0.0)
  }

  /** Replaces the first '-' of a parameter name by '_'; every other character, later
      dashes included, is kept. */
  function Rename(s: string): (r: string)
    ensures |r| == |s|
    ensures forall j :: 0 <= j < |s| && j != FirstIndexOf(s, '-') ==> r[j] == s[j]
    ensures '-' in s ==> r[FirstIndexOf(s, '-')] == '_'
    ensures '-' !in s ==> r == s
  {
    var i := FirstIndexOf(s, '-');
    if i == -1 then s else s[i := '_']
  }

  /** One map of LoadInputVals rebuilt under the keys renamed by rn (Rename there), visiting keys in order: a key
      whose new name an earlier key already produced overwrites that entry. */
  function Rekey(keys: seq<string>, src: map<string, real>, rn: string -> string): map<string, real>
  {
    if keys == [] then map[]
    else Rekey(keys[..|keys| - 1], src, rn)[rn(keys[|keys| - 1]) := Lookup(src, keys[|keys| - 1])]
  }

  /** The keys of a rekeyed map are exactly the new names of the keys. */
  lemma {:induction false} RekeyKeys(keys: seq<string>, src: map<string, real>, rn: string -> string)
    ensures forall i :: 0 <= i < |keys| ==> rn(keys[i]) in Rekey(keys, src, rn)
    ensures forall n :: n in Rekey(keys, src, rn) ==> exists i :: 0 <= i < |keys| && rn(keys[i]) == n
  {
    if keys != [] {
      var init := keys[..|keys| - 1];
      RekeyKeys(init, src, rn);
      forall n | n in Rekey(keys, src, rn)
        ensures exists i :: 0 <= i < |keys| && rn(keys[i]) == n
      {
        if n != rn(keys[|keys| - 1]) {
          var i :| 0 <= i < |init| && rn(init[i]) == n;
          assert keys[i] == init[i];
        }
      }
      forall i | 0 <= i < |keys| - 1
        ensures rn(keys[i]) in Rekey(keys, src, rn)
      {
        assert keys[i] == init[i];
      }
    }
  }

  /** Rekeying one more key updates the entry of its new name. */
  lemma RekeyExtend(keys: seq<string>, src: map<string, real>, rn: string -> string, i: int)
    requires 0 <= i < |keys|
    ensures Rekey(keys[..i + 1], src, rn) == Rekey(keys[..i], src, rn)[rn(keys[i]) := Lookup(src, keys[i])]
  {
    assert keys[..i + 1][..i] == keys[..i];
  }

  /** In a rekeyed map, the entry of a new name holds the value of the last key renamed to
      it. */
  lemma {:induction false} RekeyLastWins(keys: seq<string>, src: map<string, real>, rn: string -> string, i: int)
    requires 0 <= i < |keys|
    requires forall j :: i < j < |keys| ==> rn(keys[j]) != rn(keys[i])
    ensures rn(keys[i]) in Rekey(keys, src, rn)
    ensures Rekey(keys, src, rn)[rn(keys[i])] == Lookup(src, keys[i])
  {
    var init := keys[..|keys| - 1];
    if i < |keys| - 1 {
      assert init[i] == keys[i];
      RekeyLastWins(init, src, rn, i);
    }
  }

  /** When no two keys share a new name, every key's value moves to its new name. */
  lemma RekeyInjective(keys: seq<string>, src: map<string, real>, rn: string -> string)
    requires forall i, j :: 0 <= i < j < |keys| ==> rn(keys[i]) != rn(keys[j])
    ensures forall i :: 0 <= i < |keys| ==> rn(keys[i]) in Rekey(keys, src, rn) && Rekey(keys, src, rn)[rn(keys[i])] == Lookup(src, keys[i])
  {
    forall i | 0 <= i < |keys|
      ensures rn(keys[i]) in Rekey(keys, src, rn) && Rekey(keys, src, rn)[rn(keys[i])] == Lookup(src, keys[i])
    {
      RekeyLastWins(keys, src, rn, i);
    }
  }

  /** The five parameter maps of MakePlots, as one value. */
  datatype ParMaps = ParMaps(asimovRates: map<string, real>, constrMeans: map<string, real>,
                             constrSigmas: map<string, real>, mins: map<string, real>, maxs: map<string, real>)

  /** LoadInputVals' rekeying of all five maps by the keys of the minima. */
  function RekeyAll(keys: seq<string>, src: ParMaps): ParMaps
  {
    ParMaps(Rekey(keys, src.asimovRates, Rename), Rekey(keys, src.constrMeans, Rename),
            Rekey(keys, src.constrSigmas, Rename), Rekey(keys, src.mins, Rename), Rekey(keys, src.maxs, Rename))
  }

  /** Rekeying one more key updates the new name's entry in all five maps. */
  lemma RekeyAllExtend(keys: seq<string>, src: ParMaps, i: int)
    requires 0 <= i < |keys|
    ensures var k := keys[i]; var n := Rename(k); var p := RekeyAll(keys[..i], src);
      RekeyAll(keys[..i + 1], src) == ParMaps(p.asimovRates[n := Lookup(src.asimovRates, k)],
        p.constrMeans[n := Lookup(src.constrMeans, k)], p.constrSigmas[n := Lookup(src.constrSigmas, k)],
        p.mins[n := Lookup(src.mins, k)], p.maxs[n := Lookup(src.maxs, k)])
  {
    RekeyExtend(keys, src.asimovRates, Rename, i);
    RekeyExtend(keys, src.constrMeans, Rename, i);
    RekeyExtend(keys, src.constrSigmas, Rename, i);
    RekeyExtend(keys, src.mins, Rename, i);
    RekeyExtend(keys, src.maxs, Rename, i);
  }

  /** The maps LoadInputVals leaves: the Asimov rates and the fit configuration's maps,
      rekeyed by the minima's keys in map order. */
  function LoadedInputs(rates: map<string, real>, config: FitConfigs.FitRecord): ParMaps
  {
    RekeyAll(Ordering.SortedKeys(config.minima.Keys),
             ParMaps(rates, config.constrMeans, config.constrSigmas, config.minima, config.maxima))
  }

  /** limits holds, in order, the limits of each of names read from the given maps. */
  predicate AreLimits(limits: seq<Limits>, a: map<string, real>, m: map<string, real>, s: map<string, real>,
                      lo: map<string, real>, hi: map<string, real>, names: seq<string>)
  {
    |limits| == |names| && forall k :: 0 <= k < |names| ==> limits[k] == ParLimits(a, m, s, lo, hi, names[k])
  }

  /** Collecting the limits of one more name. */
  lemma AreLimitsAppend(limits: seq<Limits>, a: map<string, real>, m: map<string, real>, s: map<string, real>,
                        lo: map<string, real>, hi: map<string, real>, names: seq<string>, i: nat, l: Limits)
    requires i < |names|
    requires AreLimits(limits, a, m, s, lo, hi, names[..i])
    requires l == ParLimits(a, m, s, lo, hi, names[i])
    ensures AreLimits(limits + [l], a, m, s, lo, hi, names[..i + 1])
  {
    assert names[..i + 1] == names[..i] + [names[i]];
  }

  /** The global parameter maps of MakePlots. */
  class PlotInputs {
    var asimovRates: map<string, real>
    var constrMeans: map<string, real>
    var constrSigmas: map<string, real>
    var mins: map<string, real>
    var maxs: map<string, real>

    function Value(): ParMaps
      reads this
    {
      ParMaps(asimovRates, constrMeans, constrSigmas, mins, maxs)
    }

    constructor()
      ensures asimovRates == map[] && constrMeans == map[] && constrSigmas == map[]
      ensures mins == map[] && maxs == map[]
    {
      asimovRates := map[];
      constrMeans := map[];
      constrSigmas := map[];
      mins := map[];
      maxs := map[];
    }

    /** LoadInputVals: takes the Asimov rates (read from a file) and the constraint, minimum
        and maximum maps of the active fit configuration, and rekeys all five by the renamed
        keys of the minima, visiting them in map order. */
    method LoadInputVals(rates: map<string, real>, config: FitConfigs.FitRecord)
      modifies this
      ensures Value() == LoadedInputs(rates, config)
    {
      var src := ParMaps(rates, config.constrMeans, config.constrSigmas, config.minima, config.maxima);
      var keys := Ordering.SortedKeys(src.mins.Keys);
      var temp := ParMaps(map[], map[], map[], map[], map[]);
      for i := 0 to |keys|
        invariant temp == RekeyAll(keys[..i], src)
      {
        RekeyAllExtend(keys, src, i);
        var tempName := Rename(keys[i]);
        temp := ParMaps(temp.asimovRates[tempName := Lookup(src.asimovRates, keys[i])],
                        temp.constrMeans[tempName := Lookup(src.constrMeans, keys[i])],
                        temp.constrSigmas[tempName := Lookup(src.constrSigmas, keys[i])],
                        temp.mins[tempName := src.mins[keys[i]]],
                        temp.maxs[tempName := Lookup(src.maxs, keys[i])]);
      }
      assert keys[..|keys|] == keys;
      constrMeans := temp.constrMeans;
      constrSigmas := temp.constrSigmas;
      mins := temp.mins;
      maxs := temp.maxs;
      asimovRates := temp.asimovRates;
    }

    /** GetParLimits: the limits from the current maps; reading the five maps with
        operator[] adds the name, with 0, to each map that lacks it. */
    method GetParLimits(name: string) returns (l: Limits)
      modifies this
      ensures l == ParLimits(old(asimovRates), old(constrMeans), old(constrSigmas), old(mins), old(maxs), name)
      ensures asimovRates == WithDefault(old(asimovRates), name)
      ensures constrMeans == WithDefault(old(constrMeans), name)
      ensures constrSigmas == WithDefault(old(constrSigmas), name)
      ensures mins == WithDefault(old(mins), name)
      ensures maxs == WithDefault(old(maxs), name)
    {
      var a, m, s, lo, hi := asimovRates, constrMeans, constrSigmas, mins, maxs;
      l := ParLimits(a, m, s, lo, hi, name);
      asimovRates, constrMeans, constrSigmas, mins, maxs :=
        WithDefault(a, name), WithDefault(m, name), WithDefault(s, name), WithDefault(lo, name), WithDefault(hi, name);
    }

    /** The maps equal the given ones with the names added by operator[]. */
    predicate DefaultedFrom(a: map<string, real>, m: map<string, real>, s: map<string, real>,
                            lo: map<string, real>, hi: map<string, real>, names: set<string>)
      reads this
    {
      && asimovRates == WithDefaults(a, names) && constrMeans == WithDefaults(m, names)
      && constrSigmas == WithDefaults(s, names) && mins == WithDefaults(lo, names)
      && maxs == WithDefaults(hi, names)
    }

    /** One pass of the parameter loop for parameter i: its own GetParLimits call,
        then, with correlations, the calls for the pairs with earlier parameters. */
    method ParameterLimits(bnames: seq<string>, i: nat, correlations: bool,
                           ghost a: map<string, real>, ghost m: map<string, real>, ghost s: map<string, real>,
                           ghost lo: map<string, real>, ghost hi: map<string, real>) returns (l: Limits)
      requires i < |bnames|
      requires DefaultedFrom(a, m, s, lo, hi, Names(bnames[..i]))
      modifies this
      ensures l == ParLimits(a, m, s, lo, hi, bnames[i])
      ensures DefaultedFrom(a, m, s, lo, hi, Names(bnames[..i + 1]))
    {
      ghost var seen := Names(bnames[..i]);
      l := GetParLimits(bnames[i]);
      ParLimitsOfDefaults(a, m, s, lo, hi, seen, bnames[i]);
      NamesExtend(bnames, i);
      DefaultsAdd(a, m, s, lo, hi, seen, bnames[i]);
      if correlations {
        PairLimits(bnames, i, a, m, s, lo, hi);
      }
    }

    /** The GetParLimits calls for the correlation plots of parameter i, one per
        earlier parameter: the names are already defaulted, so the maps stay. */
    method PairLimits(bnames: seq<string>, i: nat, ghost a: map<string, real>, ghost m: map<string, real>,
                      ghost s: map<string, real>, ghost lo: map<string, real>, ghost hi: map<string, real>)
      requires i < |bnames|
      requires DefaultedFrom(a, m, s, lo, hi, Names(bnames[..i + 1]))
      modifies this
      ensures DefaultedFrom(a, m, s, lo, hi, Names(bnames[..i + 1]))
    {
      for j := 0 to i
        invariant DefaultedFrom(a, m, s, lo, hi, Names(bnames[..i + 1]))
      {
        NamesPrefix(bnames, j, i + 1);
        var _ := GetParLimits(bnames[j]);
        DefaultsAdd(a, m, s, lo, hi, Names(bnames[..i + 1]), bnames[j]);
      }
    }

    /** Before the loop, the maps are their own defaulted versions over no names. */
    lemma DefaultedFromStart()
      ensures DefaultedFrom(asimovRates, constrMeans, constrSigmas, mins, maxs, {})
    {
      DefaultsOfKnownNames(asimovRates, {});
      DefaultsOfKnownNames(constrMeans, {});
      DefaultsOfKnownNames(constrSigmas, {});
      DefaultsOfKnownNames(mins, {});
      DefaultsOfKnownNames(maxs, {});
    }

    /** One pass of the parameter loop, collecting parameter i's limits. */
    method NextLimits(bnames: seq<string>, i: nat, correlations: bool, limits: seq<Limits>,
                      ghost a: map<string, real>, ghost m: map<string, real>, ghost s: map<string, real>,
                      ghost lo: map<string, real>, ghost hi: map<string, real>) returns (limits': seq<Limits>)
      requires i < |bnames|
      requires AreLimits(limits, a, m, s, lo, hi, bnames[..i])
      requires DefaultedFrom(a, m, s, lo, hi, Names(bnames[..i]))
      modifies this
      ensures AreLimits(limits', a, m, s, lo, hi, bnames[..i + 1])
      ensures DefaultedFrom(a, m, s, lo, hi, Names(bnames[..i + 1]))
    {
      var l := ParameterLimits(bnames, i, correlations, a, m, s, lo, hi);
      limits' := limits + [l];
      AreLimitsAppend(limits, a, m, s, lo, hi, bnames, i, l);
    }

    /** The GetParLimits calls of the parameter loop of MakePlots: one per parameter and,
        when correlations are drawn, one more per earlier parameter. The limits are those of
        the maps as loaded; the maps gain the parameter names they lacked. */
    method LimitsPass(bnames: seq<string>, correlations: bool) returns (limits: seq<Limits>)
      modifies this
      ensures |limits| == |bnames|
      ensures forall i :: 0 <= i < |bnames| ==>
        limits[i] == ParLimits(old(asimovRates), old(constrMeans), old(constrSigmas), old(mins), old(maxs), bnames[i])
      ensures DefaultedFrom(old(asimovRates), old(constrMeans), old(constrSigmas), old(mins), old(maxs),
                            Names(bnames))
    {
      ghost var a, m, s, lo, hi := asimovRates, constrMeans, constrSigmas, mins, maxs;
      limits := [];
      DefaultedFromStart();
      assert Names(bnames[..0]) == {};
      for i := 0 to |bnames|
        invariant AreLimits(limits, a, m, s, lo, hi, bnames[..i])
        invariant DefaultedFrom(a, m, s, lo, hi, Names(bnames[..i]))
      {
        limits := NextLimits(bnames, i, correlations, limits, a, m, s, lo, hi);
      }
      assert bnames[..|bnames|] == bnames;
    }

    /** MakePrefit(nPar): a histogram of nPar bins; bin k + 1 takes the k-th parameter of
        mins in map order, so that parameters past the nPar-th land in the overflow bin or
        are dropped. Reading asimovRates and constrMeans with operator[] adds every parameter
        to them, with 0; constrSigmas is read, and so gains the name, only for a nonzero
        constraint mean. */
    method MakePrefit(nPar: int) returns (h: Prefit)
      modifies this
      ensures PrefitFilled(h, old(asimovRates), old(constrMeans), old(constrSigmas),
                           Ordering.SortedKeys(mins.Keys), HistBins(nPar), |mins|)
      ensures mins == old(mins) && maxs == old(maxs)
      ensures asimovRates == WithDefaults(old(asimovRates), mins.Keys)
      ensures constrMeans == WithDefaults(old(constrMeans), mins.Keys)
      ensures constrSigmas == WithDefaults(old(constrSigmas), NonzeroMeans(old(constrMeans), mins.Keys))
    {
      var a0, m0, s0 := asimovRates, constrMeans, constrSigmas;
      var keys := Ordering.SortedKeys(mins.Keys);
      var nb := HistBins(nPar);
      h := Prefit(seq(nb + 2, _ => 0.0), seq(nb + 2, _ => 0.0), map[]);
      EmptyPrefit(h, a0, m0, s0, keys, nb);
      NoneReadYet(keys);
      for count := 0 to |keys|
        invariant PrefitFilled(h, a0, m0, s0, keys, nb, count)
        invariant ReadUpTo(keys, count, a0, m0, s0)
        invariant mins == old(mins) && maxs == old(maxs)
      {
        h := PlaceParameter(h, a0, m0, s0, keys, nb, count);
        ReadParameter(keys, count, a0, m0, s0);
      }
      ReadAll(keys, mins.Keys, a0, m0, s0);
    }

    /** The maps after MakePrefit read the first n parameters of keys with operator[],
        starting from a0, m0 and s0. */
    predicate ReadUpTo(keys: seq<string>, n: nat, a0: map<string, real>, m0: map<string, real>, s0: map<string, real>)
      requires n <= |keys|
      reads this
    {
      (asimovRates, constrMeans, constrSigmas) == ReadMaps(keys, n, a0, m0, s0)
    }

    /** Before the fill loop no parameter has been read. */
    lemma NoneReadYet(keys: seq<string>)
      ensures ReadUpTo(keys, 0, asimovRates, constrMeans, constrSigmas)
    {
      assert Names(keys[..0]) == {};
      assert NonzeroMeans(constrMeans, {}) == {};
      DefaultsOfKnownNames(asimovRates, {});
      DefaultsOfKnownNames(constrMeans, {});
      DefaultsOfKnownNames(constrSigmas, {});
    }

    /** The operator[] reads of one loop pass of MakePrefit. */
    method ReadParameter(keys: seq<string>, count: nat, ghost a0: map<string, real>,
                         ghost m0: map<string, real>, ghost s0: map<string, real>)
      requires count < |keys|
      requires ReadUpTo(keys, count, a0, m0, s0)
      modifies this
      ensures ReadUpTo(keys, count + 1, a0, m0, s0)
      ensures mins == old(mins) && maxs == old(maxs)
    {
      var name := keys[count];
      ReadStep(keys, count, a0, m0, s0);
      asimovRates := WithDefault(asimovRates, name);
      constrMeans := WithDefault(constrMeans, name);
      if Lookup(constrMeans, name) != 0.0 {
        constrSigmas := WithDefault(constrSigmas, name);
      }
    }
  }

  /** The parameters of names with a nonzero constraint mean in m. */
  function NonzeroMeans(m: map<string, real>, names: set<string>): set<string>
  {
    set k | k in names && Lookup(m, k) != 0.0
  }

  /** The rates, constraint means and constraint sigmas once the first n parameters of keys
      were read with operator[]: the first two gain every name, the sigmas the names with a
      nonzero mean. */
  function ReadMaps(keys: seq<string>, n: nat, a0: map<string, real>, m0: map<string, real>, s0: map<string, real>)
    : (map<string, real>, map<string, real>, map<string, real>)
    requires n <= |keys|
  {
    (WithDefaults(a0, Names(keys[..n])), WithDefaults(m0, Names(keys[..n])), WithDefaults(s0, NonzeroMeans(m0, Names(keys[..n]))))
  }

  /** Reading one more parameter with operator[] defaults one name more. */
  lemma ReadStep(keys: seq<string>, count: nat, a0: map<string, real>, m0: map<string, real>, s0: map<string, real>)
    requires count < |keys|
    ensures var name, (a, m, s) := keys[count], ReadMaps(keys, count, a0, m0, s0);
      ReadMaps(keys, count + 1, a0, m0, s0)
      == (WithDefault(a, name), WithDefault(m, name), if Lookup(WithDefault(m, name), name) != 0.0 then WithDefault(s, name) else s)
  {
    var name, seen := keys[count], Names(keys[..count]);
    NamesExtend(keys, count);
    WithDefaultsAdd(a0, seen, name);
    WithDefaultsAdd(m0, seen, name);
    if Lookup(m0, name) != 0.0 {
      assert NonzeroMeans(m0, seen + {name}) == NonzeroMeans(m0, seen) + {name};
      WithDefaultsAdd(s0, NonzeroMeans(m0, seen), name);
    } else {
      assert NonzeroMeans(m0, seen + {name}) == NonzeroMeans(m0, seen);
    }
  }

  /** Once every parameter was read, every name of the key set was defaulted. */
  lemma ReadAll(keys: seq<string>, names: set<string>, a0: map<string, real>, m0: map<string, real>, s0: map<string, real>)
    requires forall k :: k in keys <==> k in names
    ensures ReadMaps(keys, |keys|, a0, m0, s0)
            == (WithDefaults(a0, names), WithDefaults(m0, names), WithDefaults(s0, NonzeroMeans(m0, names)))
  {
    assert keys[..|keys|] == keys;
    assert Names(keys) == names;
  }

  /** The freshly created histogram holds no parameter yet. */
  lemma EmptyPrefit(h: Prefit, a: map<string, real>, m: map<string, real>, s: map<string, real>,
                    keys: seq<string>, nb: nat)
    requires h == Prefit(seq(nb + 2, _ => 0.0), seq(nb + 2, _ => 0.0), map[])
    ensures PrefitFilled(h, a, m, s, keys, nb, 0)
  {
  }

  /** One pass of the fill loop of MakePrefit for parameter count: bin count + 1 takes its
      content, its label when it is an ordinary bin, and its error when the constraint mean
      is nonzero; past the overflow bin nothing changes. */
  function PlaceParameter(h: Prefit, a: map<string, real>, m: map<string, real>, s: map<string, real>,
                          keys: seq<string>, nb: nat, count: nat): (h': Prefit)
    requires count < |keys|
    requires PrefitFilled(h, a, m, s, keys, nb, count)
    ensures PrefitFilled(h', a, m, s, keys, nb, count + 1)
  {
    var name := keys[count];
    var v := PrefitValue(Lookup(a, name), Lookup(m, name), Lookup(s, name));
    if count + 1 <= nb + 1 then
      var labels := if count + 1 <= nb then h.labels[count + 1 := name] else h.labels;
      var errors := if Lookup(m, name) != 0.0 then h.errors[count + 1 := v.1] else h.errors;
      Prefit(h.contents[count + 1 := v.0], errors, labels)
    else
      h
  }

  /** Adding a name to the defaulted maps is defaulting one name more. */
  lemma WithDefaultsAdd(m: map<string, real>, names: set<string>, k: string)
    ensures WithDefault(WithDefaults(m, names), k) == WithDefaults(m, names + {k})
  {
  }

  lemma DefaultsAdd(a: map<string, real>, m: map<string, real>, s: map<string, real>,
                    lo: map<string, real>, hi: map<string, real>, names: set<string>, k: string)
    ensures WithDefault(WithDefaults(a, names), k) == WithDefaults(a, names + {k})
    ensures WithDefault(WithDefaults(m, names), k) == WithDefaults(m, names + {k})
    ensures WithDefault(WithDefaults(s, names), k) == WithDefaults(s, names + {k})
    ensures WithDefault(WithDefaults(lo, names), k) == WithDefaults(lo, names + {k})
    ensures WithDefault(WithDefaults(hi, names), k) == WithDefaults(hi, names + {k})
  {
    WithDefaultsAdd(a, names, k);
    WithDefaultsAdd(m, names, k);
    WithDefaultsAdd(s, names, k);
    WithDefaultsAdd(lo, names, k);
    WithDefaultsAdd(hi, names, k);
  }

  /** Limits read from defaulted maps are the limits of the maps before. */
  lemma ParLimitsOfDefaults(a: map<string, real>, m: map<string, real>, s: map<string, real>,
                            lo: map<string, real>, hi: map<string, real>, names: set<string>, k: string)
    ensures ParLimits(WithDefaults(a, names), WithDefaults(m, names), WithDefaults(s, names),
                      WithDefaults(lo, names), WithDefaults(hi, names), k)
         == ParLimits(a, m, s, lo, hi, k)
  {
    assert Lookup(WithDefaults(a, names), k) == Lookup(a, k);
    assert Lookup(WithDefaults(m, names), k) == Lookup(m, k);
    assert Lookup(WithDefaults(s, names), k) == Lookup(s, k);
    assert Lookup(WithDefaults(lo, names), k) == Lookup(lo, k);
    assert Lookup(WithDefaults(hi, names), k) == Lookup(hi, k);
  }

  /** When every branch name is already a parameter of the loaded maps, the limit lookups
      add nothing, so the prefit plot lists exactly the configured parameters. */
  lemma DefaultsOfKnownNames(m: map<string, real>, names: set<string>)
    requires names <= m.Keys
    ensures WithDefaults(m, names) == m
  {
    assert m.Keys + names == m.Keys;
  }
}
