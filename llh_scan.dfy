/** llh_scan: a one-dimensional likelihood scan of every fit parameter. Each parameter of
    the fit configuration is moved over 150 points between its minimum and maximum while
    every other parameter stays at its start value (the constraint mean for constrained
    parameters, the Asimov rate otherwise), and the likelihood is evaluated at each point.
    The likelihood itself is a parameter of the model: a function of the parameter
    dictionary. */
module LlhScan {
  import opened Wrappers
  import opened Text
  import Ordering

  /** Points per scan, and the progress-report stride 150 / 5. */
  const NPoints: int := 150
  const CountWidth: int := 30

  /** The data path is read as a histogram when the text after its last '.' is "h5";
      find_last_of gives npos without a '.', and npos + 1 wraps to 0, so such a path is
      compared whole. */
  function IsHistogramPath(path: string): bool
  {
    path[LastIndexOf(path, '.') + 1..] == "h5"
  }

  /** A path with a '.' is a histogram exactly when it ends in ".h5"; one without a '.'
      only when it is "h5". */
  lemma HistogramPathExtension(path: string)
    ensures '.' in path ==> (IsHistogramPath(path) <==> EndsWith(path, ".h5"))
    ensures '.' !in path ==> (IsHistogramPath(path) <==> path == "h5")
  {
    if '.' in path {
      if EndsWith(path, ".h5") {
        EndsInExtension(path);
      }
      if IsHistogramPath(path) {
        ExtensionEnds(path);
      }
    } else {
      assert LastIndexOf(path, '.') == -1;
    }
  }

  lemma EndsInExtension(path: string)
    requires EndsWith(path, ".h5")
    ensures IsHistogramPath(path)
  {
    var dot := LastIndexOf(path, '.');
    assert path[|path| - 3] == '.';
    assert path[|path| - 2] != '.' && path[|path| - 1] != '.';
    assert dot == |path| - 3;
    assert path[dot + 1..] == path[|path| - 2..] == "h5";
  }

  lemma ExtensionEnds(path: string)
    requires '.' in path && IsHistogramPath(path)
    ensures EndsWith(path, ".h5")
  {
    var dot := LastIndexOf(path, '.');
    var i :| 0 <= i < |path| && path[i] == '.';
    assert dot >= 0;
    assert |path| == dot + 3;
    assert path[|path| - 3..] == [path[dot]] + path[dot + 1..];
  }

  /** The observables the data distribution is marginalised onto: energy, r and timePSD
      for "3d", energy and r for "2d", and none (the distribution is kept) otherwise. */
  function KeptObservables(dims: string): (r: Option<seq<string>>)
    ensures r.Some? <==> dims == "3d" || dims == "2d"
    ensures r.Some? ==> |r.value| >= 2 && r.value[..2] == ["energy", "r"]
    ensures r.Some? ==> ("timePSD" in r.value <==> dims == "3d")
  {
    if dims == "3d" then Some(["energy", "r", "timePSD"])
    else if dims == "2d" then Some(["energy", "r"])
    else None
  }

  /** The data distribution that is fitted: marginalised as KeptObservables says, or left
      as it is (any other dims, "4d" included). */
  function FittedData<D>(data: D, dims: string, marginalise: (D, seq<string>) -> D): (r: D)
    ensures dims != "3d" && dims != "2d" ==> r == data
    ensures KeptObservables(dims).Some? ==> r == marginalise(data, KeptObservables(dims).value)
  {
    var afterThree := if dims == "3d" then marginalise(data, ["energy", "r", "timePSD"]) else data;
    if dims == "2d" then marginalise(afterThree, ["energy", "r"]) else afterThree
  }

  /** A Gaussian constraint registered with the likelihood. */
  datatype Constraint = Constraint(name: string, mean: real, sigma: real)

  /** rs registers, in order, the constraint of each key of keys: its mean and its sigma. */
  predicate Registered(rs: seq<Constraint>, keys: seq<string>, means: map<string, real>, sigmas: map<string, real>)
  {
    && |rs| == |keys|
    && forall i :: 0 <= i < |keys| ==>
         keys[i] in means && keys[i] in sigmas && rs[i] == Constraint(keys[i], means[keys[i]], sigmas[keys[i]])
  }

  /** The constraint loop: every constraint mean, in key order, is registered with the
      sigma of the same key. A mean without a sigma ends the program (std::map::at throws);
      the error names that key, the first such one in key order. */
  method RegisterConstraints(constrMeans: map<string, real>, constrSigmas: map<string, real>)
    returns (r: Result<seq<Constraint>, string>)
    ensures r.Ok? <==> constrMeans.Keys <= constrSigmas.Keys
    ensures r.Ok? ==> Registered(r.value, Ordering.SortedKeys(constrMeans.Keys), constrMeans, constrSigmas)
    ensures r.Err? ==> && r.error in constrMeans && r.error !in constrSigmas
                       && forall k :: k in constrMeans && Ordering.Less(k, r.error) ==> k in constrSigmas
  {
    var keys := Ordering.SortedKeys(constrMeans.Keys);
    var registered := [];
    for i := 0 to |keys|
      invariant Registered(registered, keys[..i], constrMeans, constrSigmas)
    {
      if keys[i] !in constrSigmas {
        EarlierKeysPresent(registered, keys, i, constrMeans, constrSigmas);
        return Err(keys[i]);
      }
      RegisteredAppend(registered, keys, i, constrMeans, constrSigmas);
      registered := registered + [Constraint(keys[i], constrMeans[keys[i]], constrSigmas[keys[i]])];
    }
    assert keys[..|keys|] == keys;
    RegisteredCovers(registered, constrMeans, constrSigmas);
    return Ok(registered);
  }

  lemma RegisteredAppend(rs: seq<Constraint>, keys: seq<string>, i: nat, means: map<string, real>, sigmas: map<string, real>)
    requires i < |keys| && keys[i] in means && keys[i] in sigmas
    requires Registered(rs, keys[..i], means, sigmas)
    ensures Registered(rs + [Constraint(keys[i], means[keys[i]], sigmas[keys[i]])], keys[..i + 1], means, sigmas)
  {
  }

  /** Registering every key in order needs a sigma for every mean. */
  lemma RegisteredCovers(rs: seq<Constraint>, means: map<string, real>, sigmas: map<string, real>)
    requires Registered(rs, Ordering.SortedKeys(means.Keys), means, sigmas)
    ensures means.Keys <= sigmas.Keys
  {
    var keys := Ordering.SortedKeys(means.Keys);
    forall k | k in means
      ensures k in sigmas
    {
      var j :| 0 <= j < |keys| && keys[j] == k;
    }
  }

  /** When the first i keys in order are registered, every key ordered before key i has a sigma. */
  lemma EarlierKeysPresent(rs: seq<Constraint>, keys: seq<string>, i: nat, means: map<string, real>, sigmas: map<string, real>)
    requires keys == Ordering.SortedKeys(means.Keys) && i < |keys|
    requires Registered(rs, keys[..i], means, sigmas)
    ensures forall k :: k in means && Ordering.Less(k, keys[i]) ==> k in sigmas
  {
    forall k | k in means && Ordering.Less(k, keys[i])
      ensures k in sigmas
    {
      var j :| 0 <= j < |keys| && keys[j] == k;
      if j >= i {
        if j == i {
          Ordering.LessIrreflexive(k);
        } else {
          Ordering.LessAsymmetric(keys[i], k);
        }
      } else {
        assert keys[..i][j] == k;
      }
    }
  }

  /** base with key k set to vals' value for k (0 when vals lacks it), for every k of
      ks in turn. */
  function Fill(base: map<string, real>, ks: seq<string>, vals: map<string, real>): map<string, real>
  {
    if ks == [] then base
    else Fill(base, ks[..|ks| - 1], vals)[ks[|ks| - 1] := Lookup(vals, ks[|ks| - 1])]
  }

  /** Filling adds the keys of ks, each with its value from vals, and keeps every other entry. */
  lemma {:induction false} FillContents(base: map<string, real>, ks: seq<string>, vals: map<string, real>)
    ensures forall k :: k in Fill(base, ks, vals) <==> k in base || k in ks
    ensures forall k :: k in ks ==> Fill(base, ks, vals)[k] == Lookup(vals, k)
    ensures forall k :: k in base && k !in ks ==> Fill(base, ks, vals)[k] == base[k]
  {
    if ks != [] {
      var init := ks[..|ks| - 1];
      FillContents(base, init, vals);
      assert ks == init + [ks[|ks| - 1]];
    }
  }

  lemma FillExtend(base: map<string, real>, ks: seq<string>, vals: map<string, real>, i: int)
    requires 0 <= i < |ks|
    ensures Fill(base, ks[..i + 1], vals) == Fill(base, ks[..i], vals)[ks[i] := Lookup(vals, ks[i])]
  {
    assert ks[..i + 1][..i] == ks[..i];
  }

  /** One of the two filling loops of the start dictionary: pv[k] = vals[k] for every
      key k of ks in order, starting from base. */
  method FillLoop(base: map<string, real>, ks: seq<string>, vals: map<string, real>) returns (pv: map<string, real>)
    ensures pv == Fill(base, ks, vals)
  {
    pv := base;
    for i := 0 to |ks|
      invariant pv == Fill(base, ks[..i], vals)
    {
      FillExtend(base, ks, vals, i);
      pv := pv[ks[i] := Lookup(vals, ks[i])];
    }
    assert ks[..|ks|] == ks;
  }

  /** The dictionary the two filling loops build. */
  function StartDict(mins: map<string, real>, asimovRates: map<string, real>, constrMeans: map<string, real>): map<string, real>
  {
    Fill(Fill(map[], Ordering.SortedKeys(mins.Keys), asimovRates), Ordering.SortedKeys(constrMeans.Keys), constrMeans)
  }

  /** The start dictionary: every parameter of the minima gets its Asimov rate (0 when it
      has none), then every constrained parameter is overwritten by its constraint mean. */
  method StartValues(mins: map<string, real>, asimovRates: map<string, real>, constrMeans: map<string, real>)
    returns (pv: map<string, real>)
    ensures pv == StartDict(mins, asimovRates, constrMeans)
    ensures pv.Keys == mins.Keys + constrMeans.Keys
    ensures forall k :: k in constrMeans ==> pv[k] == constrMeans[k]
    ensures forall k :: k in mins && k !in constrMeans ==> pv[k] == Lookup(asimovRates, k)
  {
    var minKeys := Ordering.SortedKeys(mins.Keys);
    var seeded := FillLoop(map[], minKeys, asimovRates);
    FillContents(map[], minKeys, asimovRates);
    var meanKeys := Ordering.SortedKeys(constrMeans.Keys);
    pv := FillLoop(seeded, meanKeys, constrMeans);
    FillContents(seeded, meanKeys, constrMeans);
    KeysOfUnion(pv, seeded, minKeys, meanKeys, mins.Keys, constrMeans.Keys);
  }

  lemma KeysOfUnion(pv: map<string, real>, seeded: map<string, real>, minKeys: seq<string>,
                    meanKeys: seq<string>, a: set<string>, b: set<string>)
    requires forall k :: k in pv <==> k in seeded || k in meanKeys
    requires forall k :: k in seeded <==> k in minKeys
    requires forall k :: k in minKeys <==> k in a
    requires forall k :: k in meanKeys <==> k in b
    ensures pv.Keys == a + b
  {
  }

  /** operator[] on a dictionary read for its value: 0 for a missing key. */
  function Lookup(m: map<string, real>, k: string): real
  {
    if k in m then m[k] else 0.0
  }

  /** Point i of a scan: the centre of bin i + 1 of 150 equal bins over [lo / nom, hi / nom],
      times nom. */
  function ScanPoint(lo: real, hi: real, nom: real, i: int): real
    requires nom != 0.0
  {
    var xmin := lo / nom;
    var width := (hi / nom - lo / nom) / NPoints as real;
    (xmin + i as real * width + 0.5 * width) * nom
  }

  /** The nominal value cancels: the points are the centres of 150 equal bins over
      [lo, hi] itself. */
  lemma ScanPointAbsolute(lo: real, hi: real, nom: real, i: int)
    requires nom != 0.0
    ensures ScanPoint(lo, hi, nom, i) == lo + (i as real + 0.5) * (hi - lo) / NPoints as real
  {
    var xmin := lo / nom;
    var width := (hi / nom - lo / nom) / NPoints as real;
    var c := i as real + 0.5;
    assert xmin * nom == lo;
    assert (hi / nom - lo / nom) * nom == hi - lo;
    assert width * nom == (hi - lo) / NPoints as real;
    calc {
      ScanPoint(lo, hi, nom, i);
      (xmin + i as real * width + 0.5 * width) * nom;
      (xmin + c * width) * nom;
      xmin * nom + c * (width * nom);
      lo + c * ((hi - lo) / NPoints as real);
      lo + c * (hi - lo) / NPoints as real;
    }
  }

  /** For lo < hi the scan points increase strictly and lie inside (lo, hi). */
  lemma ScanPointsOrdered(lo: real, hi: real, nom: real, i: int, j: int)
    requires nom != 0.0 && lo < hi
    requires 0 <= i < j < NPoints
    ensures lo < ScanPoint(lo, hi, nom, i) < ScanPoint(lo, hi, nom, j) < hi
  {
    ScanPointAbsolute(lo, hi, nom, i);
    ScanPointAbsolute(lo, hi, nom, j);
    var step := (hi - lo) / NPoints as real;
    var ci, cj := i as real + 0.5, j as real + 0.5;
    assert step > 0.0;
    assert ci * (hi - lo) / NPoints as real == ci * step;
    assert cj * (hi - lo) / NPoints as real == cj * step;
    assert ci * step > 0.0;
    assert cj * step - ci * step == (cj - ci) * step > 0.0;
    assert NPoints as real * step - cj * step == (NPoints as real - cj) * step > 0.0;
    assert NPoints as real * step == hi - lo;
  }

  /** The progress reports of a scan of n points: the multiples of 30 below n, in order. */
  function Reports(n: nat): seq<int>
  {
    seq((n + CountWidth - 1) / CountWidth, k => CountWidth * k)
  }

  /** Point i is reported exactly when i % 30 == 0. */
  lemma ReportsStep(i: nat)
    ensures Reports(i + 1) == Reports(i) + (if i % CountWidth == 0 then [i] else [])
  {
    var q, r := i / CountWidth, i % CountWidth;
    assert i == CountWidth * q + r;
    if r == 0 {
      assert (i + CountWidth) / CountWidth == q + 1;
      assert (i + CountWidth - 1) / CountWidth == q;
    } else {
      assert (i + CountWidth) / CountWidth == q + 1;
      assert (i + CountWidth - 1) / CountWidth == q + 1;
    }
  }

  /** The scan of one parameter: at point i the dictionary holds the point for name and is
      otherwise the base dictionary; the value of name is put back after every point, so
      the dictionary after the scan equals the one before (name read with operator[]).
      Progress is reported at points 0, 30, 60, 90 and 120. */
  method ScanParameter(pv: map<string, real>, name: string, lo: real, hi: real, nom: real,
                       evaluate: map<string, real> -> real)
    returns (llh: seq<real>, progress: seq<int>, pvAfter: map<string, real>)
    requires nom != 0.0
    ensures |llh| == NPoints
    ensures forall i :: 0 <= i < NPoints ==> llh[i] == evaluate(pv[name := ScanPoint(lo, hi, nom, i)])
    ensures progress == [0, 30, 60, 90, 120]
    ensures pvAfter == if name in pv then pv else pv[name := 0.0]
  {
    pvAfter := pv;
    llh := [];
    progress := [];
    for i := 0 to NPoints
      invariant |llh| == i
      invariant forall k :: 0 <= k < i ==> llh[k] == evaluate(pv[name := ScanPoint(lo, hi, nom, k)])
      invariant progress == Reports(i)
      invariant pvAfter == if name in pv || i == 0 then pv else pv[name := 0.0]
    {
      ReportsStep(i);
      if i % CountWidth == 0 {
        progress := progress + [i];
      }
      var parval := ScanPoint(lo, hi, nom, i);
      var tempval := Lookup(pvAfter, name);
      pvAfter := pvAfter[name := parval];
      assert pvAfter == pv[name := parval];
      var value := evaluate(pvAfter);
      llh := llh + [value];
      pvAfter := pvAfter[name := tempval];
      assert pvAfter == if name in pv then pv else pv[name := 0.0];
    }
    assert Reports(NPoints) == [0, 30, 60, 90, 120];
  }

  /** The scan of one parameter, or None when its Asimov rate is 0: the axis range
      [min / 0, max / 0] is then not a number and no scan point is defined. */
  datatype Scan = Scan(name: string, llh: seq<real>)

  /** s is the scan of parameter name from start: none when its Asimov rate nom is 0,
      otherwise the likelihood at each of the NPoints scan points over [min, max]. */
  predicate ScanOf(s: Option<Scan>, name: string, min: real, max: real, nom: real,
                   start: map<string, real>, evaluate: map<string, real> -> real)
  {
    && (nom == 0.0 <==> s.None?)
    && (s.Some? ==>
          && s.value.name == name
          && |s.value.llh| == NPoints
          && forall i :: 0 <= i < NPoints ==>
               s.value.llh[i] == evaluate(start[name := ScanPoint(min, max, nom, i)]))
  }

  /** scans holds, in order, the scan of each parameter of keys, with its minimum, its
      maximum and its Asimov rate as nominal value (0 for each one the maps lack). */
  predicate ScansOf(scans: seq<Option<Scan>>, keys: seq<string>, mins: map<string, real>, maxs: map<string, real>,
                    asimovRates: map<string, real>, start: map<string, real>, evaluate: map<string, real> -> real)
  {
    && |scans| == |keys|
    && forall k :: 0 <= k < |keys| ==>
         ScanOf(scans[k], keys[k], Lookup(mins, keys[k]), Lookup(maxs, keys[k]), Lookup(asimovRates, keys[k]), start, evaluate)
  }

  lemma ScansOfAppend(scans: seq<Option<Scan>>, keys: seq<string>, i: nat, s: Option<Scan>, mins: map<string, real>,
                      maxs: map<string, real>, asimovRates: map<string, real>, start: map<string, real>,
                      evaluate: map<string, real> -> real)
    requires i < |keys| && ScansOf(scans, keys[..i], mins, maxs, asimovRates, start, evaluate)
    requires ScanOf(s, keys[i], Lookup(mins, keys[i]), Lookup(maxs, keys[i]), Lookup(asimovRates, keys[i]), start, evaluate)
    ensures ScansOf(scans + [s], keys[..i + 1], mins, maxs, asimovRates, start, evaluate)
  {
    var ks := keys[..i + 1];
    forall k | 0 <= k < |ks|
      ensures ScanOf((scans + [s])[k], ks[k], Lookup(mins, ks[k]), Lookup(maxs, ks[k]), Lookup(asimovRates, ks[k]), start, evaluate)
    {
      if k < i {
        assert ks[k] == keys[..i][k];
      }
    }
  }

  /** The whole scan: every parameter of the minima in key order, with its Asimov rate as
      nominal value, its minimum and its maximum (0 when the maxima lack it), from the
      start dictionary. */
  method ScanAll(mins: map<string, real>, maxs: map<string, real>, asimovRates: map<string, real>,
                 start: map<string, real>, evaluate: map<string, real> -> real)
    returns (scans: seq<Option<Scan>>)
    requires mins.Keys <= start.Keys
    ensures ScansOf(scans, Ordering.SortedKeys(mins.Keys), mins, maxs, asimovRates, start, evaluate)
  {
    var keys := Ordering.SortedKeys(mins.Keys);
    var pv := start;
    scans := [];
    for k := 0 to |keys|
      invariant pv == start
      invariant ScansOf(scans, keys[..k], mins, maxs, asimovRates, start, evaluate)
    {
      var name := keys[k];
      var s;
      s, pv := ScanOne(pv, name, Lookup(mins, name), Lookup(maxs, name), Lookup(asimovRates, name), evaluate);
      ScansOfAppend(scans, keys, k, s, mins, maxs, asimovRates, start, evaluate);
      scans := scans + [s];
    }
    assert keys[..|keys|] == keys;
  }

  /** One pass of the parameter loop: a parameter with Asimov rate 0 is skipped, any
      other is scanned; the dictionary is left as it was. */
  method ScanOne(pv: map<string, real>, name: string, min: real, max: real, nom: real,
                 evaluate: map<string, real> -> real)
    returns (s: Option<Scan>, pvAfter: map<string, real>)
    requires name in pv
    ensures ScanOf(s, name, min, max, nom, pv, evaluate)
    ensures pvAfter == pv
  {
    pvAfter := pv;
    if nom == 0.0 {
      s := None;
    } else {
      var llh, progress;
      llh, progress, pvAfter := ScanParameter(pv, name, min, max, nom, evaluate);
      s := Some(Scan(name, llh));
    }
  }

  /** llh_scan after the configuration is loaded: the constraints are registered (a
      constraint mean without a sigma stops it), then every parameter is scanned from the
      start dictionary. */
  method Run(mins: map<string, real>, maxs: map<string, real>, constrMeans: map<string, real>,
             constrSigmas: map<string, real>, asimovRates: map<string, real>,
             evaluate: map<string, real> -> real)
    returns (r: Result<seq<Option<Scan>>, string>)
    ensures r.Ok? <==> constrMeans.Keys <= constrSigmas.Keys
    ensures r.Ok? ==> ScansOf(r.value, Ordering.SortedKeys(mins.Keys), mins, maxs, asimovRates,
                              StartDict(mins, asimovRates, constrMeans), evaluate)
  {
    var constraints := RegisterConstraints(constrMeans, constrSigmas);
    if constraints.Err? {
      return Err(constraints.error);
    }
    var start := StartValues(mins, asimovRates, constrMeans);
    var scans := ScanAll(mins, maxs, asimovRates, start, evaluate);
    return Ok(scans);
  }
}
