/** FitConfigLoader: reads the sampler settings from the summary section and one
    parameter (min, max, sig, nbins) per name listed under summary/fit_dists. */
module FitConfigLoader {
  import opened Wrappers
  import opened ConfigStore
  import opened FitConfigs
  import Ordering
  import opened Maps

  /** The four numbers read for one fit parameter. */
  datatype Param = Param(min: real, max: real, sig: real, nbins: int)

  /** The four numbers of one parameter, read in order; the first that cannot be read
      aborts the load. */
  function LoadParam(store: Store, name: string): Result<Param, ConfigError>
  {
    var min :- LoadReal(store, name, "min");
    var max :- LoadReal(store, name, "max");
    var sig :- LoadReal(store, name, "sig");
    var nbins :- LoadInt(store, name, "nbins");
    Ok(Param(min, max, sig, nbins))
  }

  /** A parameter loads exactly when its four numbers load, and carries them. */
  lemma LoadParamFields(store: Store, name: string)
    ensures LoadParam(store, name).Ok? <==>
      && LoadReal(store, name, "min").Ok? && LoadReal(store, name, "max").Ok?
      && LoadReal(store, name, "sig").Ok? && LoadInt(store, name, "nbins").Ok?
    ensures LoadParam(store, name).Ok? ==>
      LoadParam(store, name).value == Param(LoadReal(store, name, "min").value, LoadReal(store, name, "max").value,
                                            LoadReal(store, name, "sig").value, LoadInt(store, name, "nbins").value)
    ensures LoadParam(store, name).Err? ==> LoadParam(store, name).error.section == name
  {
  }

  /** The configuration holding the summary settings and the parameters `ps`, none of
      them constrained. */
  function WithParams(outDir: string, iterations: int, burnIn: int, ps: map<string, Param>): FitRecord
  {
    FitRecord(outDir, Project(ps, (p: Param) => p.min), Project(ps, (p: Param) => p.max),
              Project(ps, (p: Param) => p.sig), Project(ps, (p: Param) => p.nbins as real),
              map[], map[], iterations, burnIn, 0, 0.0)
  }

  /** Without parameters, the configuration holds just the summary settings. */
  lemma WithParamsEmpty(outDir: string, iterations: int, burnIn: int)
    ensures WithParams(outDir, iterations, burnIn, map[])
      == DefaultRecord.(outDir := outDir, iterations := iterations, burnIn := burnIn)
  {
  }

  /** Adding one parameter to a configuration built from `ps` gives the one built from
      `ps` with that parameter. */
  lemma WithParamsAdd(outDir: string, iterations: int, burnIn: int, ps: map<string, Param>, n: string, p: Param)
    ensures WithParams(outDir, iterations, burnIn, ps[n := p])
         == Added(WithParams(outDir, iterations, burnIn, ps), n, p.min, p.max, p.sig, p.nbins)
  {
    ProjectAdd(ps, (p: Param) => p.min, n, p);
    ProjectAdd(ps, (p: Param) => p.max, n, p);
    ProjectAdd(ps, (p: Param) => p.sig, n, p);
    ProjectAdd(ps, (p: Param) => p.nbins as real, n, p);
  }

  /** The summary settings: iterations, burn-in, output directory and the names of the
      parameters to fit. */
  datatype Summary = Summary(iterations: int, burnIn: int, outDir: string, names: set<string>)

  function LoadSummary(store: Store): (r: Result<Summary, ConfigError>)
    ensures r.Ok? ==> LoadSet(store, "summary", "fit_dists") == Ok(r.value.names)
    ensures r.Ok? ==> LoadInt(store, "summary", "iterations") == Ok(r.value.iterations)
    ensures r.Ok? ==> LoadInt(store, "summary", "burn_in") == Ok(r.value.burnIn)
    ensures r.Ok? ==> LoadText(store, "summary", "output_directory") == Ok(r.value.outDir)
    ensures r.Err? ==> r.error.section == "summary"
  {
    var it :- LoadInt(store, "summary", "iterations");
    var burnIn :- LoadInt(store, "summary", "burn_in");
    var outDir :- LoadText(store, "summary", "output_directory");
    var names :- LoadSet(store, "summary", "fit_dists");
    Ok(Summary(it, burnIn, outDir, names))
  }

  /** The configuration LoadActive returns, or None when some field cannot be loaded. */
  function LoadActiveSpec(store: Store): Option<FitRecord>
  {
    match LoadSummary(store)
    case Err(_) => None
    case Ok(s) =>
      match LoadEach(s.names, n => LoadParam(store, n))
      case Some(ps) => Some(WithParams(s.outDir, s.iterations, s.burnIn, ps))
      case None => None
  }

  /** A loaded configuration has exactly the listed parameters, each with the values of
      its own section, and no constraints. */
  lemma {:induction false} LoadedParameters(store: Store)
    requires LoadActiveSpec(store).Some?
    ensures var rec := LoadActiveSpec(store).value;
      && Consistent(rec)
      && LoadSet(store, "summary", "fit_dists").Ok?
      && rec.minima.Keys == LoadSet(store, "summary", "fit_dists").value
      && (forall n :: n in rec.minima ==>
            && rec.minima[n] == LoadReal(store, n, "min").value
            && rec.maxima[n] == LoadReal(store, n, "max").value
            && rec.sigmas[n] == LoadReal(store, n, "sig").value
            && rec.nbins[n] == LoadInt(store, n, "nbins").value as real)
      && rec.constrMeans == map[] && rec.constrSigmas == map[]
      && rec.iterations == LoadInt(store, "summary", "iterations").value
      && rec.burnIn == LoadInt(store, "summary", "burn_in").value
  {
    var s := LoadSummary(store).value;
    var ps := LoadEach(s.names, n => LoadParam(store, n)).value;
    forall n | n in ps
      ensures LoadParam(store, n) == Ok(Param(LoadReal(store, n, "min").value, LoadReal(store, n, "max").value,
                                              LoadReal(store, n, "sig").value, LoadInt(store, n, "nbins").value))
    {
      LoadParamFields(store, n);
    }
  }

  /** One step of the loading loop: the configuration gains parameter `n`. */
  method AddOne(ret: FitConfig, n: string, p: Param, ghost outDir: string, ghost it: int, ghost burnIn: int,
                ghost loaded: map<string, Param>)
    requires ret.Value() == WithParams(outDir, it, burnIn, loaded)
    modifies ret
    ensures ret.Value() == WithParams(outDir, it, burnIn, loaded[n := p])
  {
    ret.AddParameter(n, p.min, p.max, p.sig, p.nbins);
    WithParamsAdd(outDir, it, burnIn, loaded, n, p);
  }

  /** Loads the parameters `names` in order into `ret`, stopping at the first failure;
      on success returns what was loaded. */
  method AddParams(ret: FitConfig, store: Store, names: seq<string>, ghost outDir: string, ghost it: int, ghost burnIn: int)
    returns (r: Result<map<string, Param>, ConfigError>)
    requires ret.Value() == WithParams(outDir, it, burnIn, map[])
    modifies ret
    ensures r.Ok? <==> forall n :: n in names ==> LoadParam(store, n).Ok?
    ensures r.Ok? ==> r.value.Keys == Names(names)
    ensures r.Ok? ==> forall n :: n in r.value ==> LoadParam(store, n) == Ok(r.value[n])
    ensures r.Ok? ==> ret.Value() == WithParams(outDir, it, burnIn, r.value)
  {
    var loaded: map<string, Param> := map[];
    for i := 0 to |names|
      invariant loaded.Keys == Names(names[..i])
      invariant forall n :: n in loaded ==> LoadParam(store, n) == Ok(loaded[n])
      invariant ret.Value() == WithParams(outDir, it, burnIn, loaded)
    {
      var p := LoadParam(store, names[i]);
      if p.Err? {
        assert names[i] in names;
        return Err(p.error);
      }
      AddOne(ret, names[i], p.value, outDir, it, burnIn, loaded);
      NamesExtend(names, i);
      loaded := loaded[names[i] := p.value];
    }
    assert names[..|names|] == names;
    return Ok(loaded);
  }

  /** A loaded summary and parameters that each load make the configuration LoadActive
      returns. */
  lemma LoadActiveOk(store: Store, s: Summary, ps: map<string, Param>)
    requires LoadSummary(store) == Ok(s)
    requires ps.Keys == s.names && forall n :: n in ps ==> LoadParam(store, n) == Ok(ps[n])
    ensures LoadActiveSpec(store) == Some(WithParams(s.outDir, s.iterations, s.burnIn, ps))
  {
    LoadEachOf(s.names, n => LoadParam(store, n), ps);
  }

  /** A listed parameter that does not load makes the load fail. */
  lemma LoadActiveFails(store: Store, s: Summary)
    requires LoadSummary(store) == Ok(s)
    requires exists n :: n in s.names && LoadParam(store, n).Err?
    ensures LoadActiveSpec(store).None?
  {
  }

  method LoadActive(store: Store) returns (r: Result<FitConfig, ConfigError>)
    ensures r.Ok? <==> LoadActiveSpec(store).Some?
    ensures r.Ok? ==> fresh(r.value) && r.value.Value() == LoadActiveSpec(store).value
  {
    var ret := new FitConfig();
    var summary := LoadSummary(store);
    if summary.Err? { return Err(summary.error); }
    var s := summary.value;
    ret.SetOutDir(s.outDir);
    ret.SetIterations(s.iterations);
    ret.SetBurnIn(s.burnIn);
    WithParamsEmpty(s.outDir, s.iterations, s.burnIn);

    var names := Ordering.SortedKeys(s.names);
    assert Names(names) == s.names;
    var ps := AddParams(ret, store, names, s.outDir, s.iterations, s.burnIn);
    if ps.Err? {
      LoadActiveFails(store, s);
      return Err(ps.error);
    }
    LoadActiveOk(store, s, ps.value);
    return Ok(ret);
  }
}
