/** SystConfigLoader: one systematic parameter per name listed under summary/active
    (every non-summary section when the list holds "all"); a parameter is constrained
    exactly when both constraint fields are present. */
module SystConfigLoader {
  import opened Wrappers
  import opened ConfigStore
  import opened SystConfigs
  import Ordering
  import opened Maps

  /** The settings read for one systematic parameter. */
  datatype SystParam = SystParam(nom: real, min: real, max: real, mass: real, nbins: int,
                                 obs: string, systType: string, constraint: Option<(real, real)>)

  predicate IsConstrained(p: SystParam)
  {
    p.constraint.Some?
  }

  function ConstraintMean(p: SystParam): real
  {
    if p.constraint.Some? then p.constraint.value.0 else 0.0
  }

  function ConstraintSigma(p: SystParam): real
  {
    if p.constraint.Some? then p.constraint.value.1 else 0.0
  }

  /** The optional constraint: a missing constraint_mean or constraint_sigma leaves the
      parameter unconstrained; a present but unreadable one is an error. */
  function LoadConstraint(store: Store, name: string): (r: Result<Option<(real, real)>, ConfigError>)
    ensures r.Ok? && r.value.Some? <==>
      LoadReal(store, name, "constraint_mean").Ok? && LoadReal(store, name, "constraint_sigma").Ok?
    ensures r.Ok? && r.value.Some? ==>
      r.value.value == (LoadReal(store, name, "constraint_mean").value, LoadReal(store, name, "constraint_sigma").value)
    ensures r == Ok(None) <==>
      || LoadReal(store, name, "constraint_mean") == Err(FieldMissing(name, "constraint_mean"))
      || (LoadReal(store, name, "constraint_mean").Ok? &&
          LoadReal(store, name, "constraint_sigma") == Err(FieldMissing(name, "constraint_sigma")))
    ensures r.Err? ==> r.error.BadValue?
  {
    match LoadReal(store, name, "constraint_mean")
    case Err(e) => if e.FieldMissing? then Ok(None) else Err(e)
    case Ok(m) =>
      match LoadReal(store, name, "constraint_sigma")
      case Err(e) => if e.FieldMissing? then Ok(None) else Err(e)
      case Ok(s) => Ok(Some((m, s)))
  }

  /** The settings of one parameter, read in the order the loader reads them; the first
      that cannot be read aborts the load. */
  function LoadParam(store: Store, name: string): Result<SystParam, ConfigError>
  {
    var nom :- LoadReal(store, name, "nominal");
    var min :- LoadReal(store, name, "minima");
    var max :- LoadReal(store, name, "maxima");
    var mass :- LoadReal(store, name, "mass");
    var nbins :- LoadInt(store, name, "nbins");
    var obs :- LoadText(store, name, "obs");
    var systType :- LoadText(store, name, "type");
    var constraint :- LoadConstraint(store, name);
    Ok(SystParam(nom, min, max, mass, nbins, obs, systType, constraint))
  }

  /** A parameter loads exactly when its seven settings load and its constraint is either
      readable or missing; it carries the values read. */
  lemma LoadParamFields(store: Store, name: string)
    ensures LoadParam(store, name).Ok? <==>
      && LoadReal(store, name, "nominal").Ok? && LoadReal(store, name, "minima").Ok?
      && LoadReal(store, name, "maxima").Ok? && LoadReal(store, name, "mass").Ok?
      && LoadInt(store, name, "nbins").Ok? && LoadText(store, name, "obs").Ok?
      && LoadText(store, name, "type").Ok? && LoadConstraint(store, name).Ok?
    ensures LoadParam(store, name).Ok? ==>
      LoadParam(store, name).value == SystParam(
        LoadReal(store, name, "nominal").value, LoadReal(store, name, "minima").value,
        LoadReal(store, name, "maxima").value, LoadReal(store, name, "mass").value,
        LoadInt(store, name, "nbins").value, LoadText(store, name, "obs").value,
        LoadText(store, name, "type").value, LoadConstraint(store, name).value)
  {
  }

  /** The names loaded: every non-summary section when the active set holds "all". */
  function ActiveNames(store: Store): (r: Result<set<string>, ConfigError>)
    ensures r.Ok? <==> LoadSet(store, "summary", "active").Ok?
    ensures r.Ok? ==> r.value == if "all" in LoadSet(store, "summary", "active").value
                                 then NonSummarySections(store) else LoadSet(store, "summary", "active").value
  {
    var active :- LoadSet(store, "summary", "active");
    if "all" in active then Ok(NonSummarySections(store)) else Ok(active)
  }

  /** The configuration holding the parameters `ps`. */
  function WithParams(ps: map<string, SystParam>): SystRecord
  {
    SystRecord("",
      Project(ps, (p: SystParam) => p.nom),
      Project(ps, (p: SystParam) => p.min),
      Project(ps, (p: SystParam) => p.max),
      Project(ps, (p: SystParam) => p.mass),
      Project(ps, (p: SystParam) => p.nbins as real),
      ProjectWhere(ps, IsConstrained, ConstraintMean),
      ProjectWhere(ps, IsConstrained, ConstraintSigma),
      Project(ps, (p: SystParam) => p.obs),
      Project(ps, (p: SystParam) => p.systType))
  }

  /** The configuration LoadActive returns, or None when some field cannot be loaded. */
  function LoadActiveSpec(store: Store): Option<SystRecord>
  {
    match ActiveNames(store)
    case Err(_) => None
    case Ok(names) =>
      match LoadEach(names, n => LoadParam(store, n))
      case Some(ps) => Some(WithParams(ps))
      case None => None
  }

  /** A loaded configuration is consistent; its parameters are the active names, and a
      parameter is constrained exactly when both constraint fields load. */
  lemma {:induction false} LoadedConstraints(store: Store)
    requires LoadActiveSpec(store).Some?
    ensures Consistent(LoadActiveSpec(store).value)
    ensures LoadActiveSpec(store).value.nominal.Keys == ActiveNames(store).value
    ensures forall n :: n in LoadActiveSpec(store).value.nominal ==>
      (n in LoadActiveSpec(store).value.constrMean <==>
        LoadReal(store, n, "constraint_mean").Ok? && LoadReal(store, n, "constraint_sigma").Ok?)
  {
    var ps := LoadEach(ActiveNames(store).value, n => LoadParam(store, n)).value;
    forall n | n in ps
      ensures n in WithParams(ps).constrMean <==>
        LoadReal(store, n, "constraint_mean").Ok? && LoadReal(store, n, "constraint_sigma").Ok?
    {
      assert LoadParam(store, n).Ok?;
      LoadParamFields(store, n);
    }
  }

  /** Without "all", the loaded parameters are the listed ones. */
  lemma ActiveListed(store: Store)
    requires LoadActiveSpec(store).Some?
    requires "all" !in LoadSet(store, "summary", "active").value
    ensures LoadActiveSpec(store).value.nominal.Keys == LoadSet(store, "summary", "active").value
  {
  }

  lemma WithParamsEmpty()
    ensures WithParams(map[]) == DefaultRecord
  {
  }

  lemma WithParamsAdd(ps: map<string, SystParam>, n: string, p: SystParam)
    requires n !in ps
    ensures p.constraint.Some? ==>
      WithParams(ps[n := p]) == AddedConstrained(WithParams(ps), n, p.nom, p.min, p.max, p.mass, p.nbins,
                                                 p.constraint.value.0, p.constraint.value.1, p.obs, p.systType)
    ensures p.constraint.None? ==>
      WithParams(ps[n := p]) == Added(WithParams(ps), n, p.nom, p.min, p.max, p.mass, p.nbins, p.obs, p.systType)
  {
    ProjectAdd(ps, (p: SystParam) => p.nom, n, p);
    ProjectAdd(ps, (p: SystParam) => p.min, n, p);
    ProjectAdd(ps, (p: SystParam) => p.max, n, p);
    ProjectAdd(ps, (p: SystParam) => p.mass, n, p);
    ProjectAdd(ps, (p: SystParam) => p.nbins as real, n, p);
    ProjectAdd(ps, (p: SystParam) => p.obs, n, p);
    ProjectAdd(ps, (p: SystParam) => p.systType, n, p);
    ProjectWhereAdd(ps, IsConstrained, ConstraintMean, n, p);
    ProjectWhereAdd(ps, IsConstrained, ConstraintSigma, n, p);
  }

  /** What adding parameter `n` does to a configuration: the constrained overload when
      its constraint loaded, the unconstrained one otherwise. */
  function Step(rec: SystRecord, n: string, p: SystParam): SystRecord
  {
    if IsConstrained(p) then
      AddedConstrained(rec, n, p.nom, p.min, p.max, p.mass, p.nbins,
                       p.constraint.value.0, p.constraint.value.1, p.obs, p.systType)
    else Added(rec, n, p.nom, p.min, p.max, p.mass, p.nbins, p.obs, p.systType)
  }

  /** The configuration after adding the parameters `params` under `names`, in order. */
  function Build(names: seq<string>, params: seq<SystParam>): SystRecord
    requires |names| == |params|
  {
    if |names| == 0 then DefaultRecord
    else Step(Build(names[..|names| - 1], params[..|params| - 1]), names[|names| - 1], params[|params| - 1])
  }

  /** The parameters `params` keyed by `names`. */
  function MapOf(names: seq<string>, params: seq<SystParam>): (m: map<string, SystParam>)
    requires |names| == |params|
    ensures m.Keys == Names(names)
  {
    if |names| == 0 then map[]
    else
      var k := |names| - 1;
      var m := MapOf(names[..k], params[..k])[names[k] := params[k]];
      NamesExtend(names, k);
      assert names[..k + 1] == names;
      m
  }

  /** Adding distinct parameters one by one, in any order, yields the configuration
      holding all of them. */
  lemma {:induction false} BuildIsWithParams(names: seq<string>, params: seq<SystParam>)
    requires |names| == |params|
    requires forall i, j :: 0 <= i < j < |names| ==> names[i] != names[j]
    ensures Build(names, params) == WithParams(MapOf(names, params))
  {
    if |names| == 0 {
      WithParamsEmpty();
    } else {
      var k := |names| - 1;
      var init, inits := names[..k], params[..k];
      var m := MapOf(init, inits);
      assert names[k] !in m by {
        forall i | 0 <= i < k ensures init[i] != names[k] {
          assert init[i] == names[i];
        }
      }
      var before := Build(init, inits);
      assert Build(names, params) == Step(before, names[k], params[k]);
      assert MapOf(names, params) == m[names[k] := params[k]];
      BuildIsWithParams(init, inits);
      StepAdds(m, names[k], params[k]);
    }
  }

  /** Adding a new parameter to the configuration holding ps gives the one holding ps
      and the new parameter. */
  lemma StepAdds(ps: map<string, SystParam>, n: string, p: SystParam)
    requires n !in ps
    ensures Step(WithParams(ps), n, p) == WithParams(ps[n := p])
  {
    WithParamsAdd(ps, n, p);
  }

  /** Every parameter kept by MapOf is the one its name loads to. */
  lemma {:induction false} MapOfLoads(loadOne: string -> Result<SystParam, ConfigError>, names: seq<string>,
                                      params: seq<SystParam>)
    requires |names| == |params|
    requires forall j :: 0 <= j < |names| ==> loadOne(names[j]) == Ok(params[j])
    ensures forall n :: n in MapOf(names, params) ==> loadOne(n) == Ok(MapOf(names, params)[n])
  {
    if |names| > 0 {
      var k := |names| - 1;
      MapOfLoads(loadOne, names[..k], params[..k]);
    }
  }

  /** One step of the loading loop: the configuration gains the parameter `n`. */
  method AddOne(ret: SystConfig, n: string, p: SystParam)
    modifies ret
    ensures ret.Value() == Step(old(ret.Value()), n, p)
  {
    if p.constraint.Some? {
      ret.AddConstrainedParameter(n, p.nom, p.min, p.max, p.mass, p.nbins,
                                  p.constraint.value.0, p.constraint.value.1, p.obs, p.systType);
    } else {
      ret.AddParameter(n, p.nom, p.min, p.max, p.mass, p.nbins, p.obs, p.systType);
    }
  }

  /** Loads the parameters `names` (no repeats) in order into `ret`, each with loadOne
      (LoadParam on the configuration), stopping at the first failure; on success
      returns what was loaded. */
  method AddParams(ret: SystConfig, loadOne: string -> Result<SystParam, ConfigError>, names: seq<string>)
    returns (r: Result<map<string, SystParam>, ConfigError>)
    requires Ordering.StrictlySorted(names)
    requires ret.Value() == DefaultRecord
    modifies ret
    ensures r.Ok? <==> forall n :: n in names ==> loadOne(n).Ok?
    ensures r.Ok? ==> r.value.Keys == Names(names)
    ensures r.Ok? ==> forall n :: n in r.value ==> loadOne(n) == Ok(r.value[n])
    ensures r.Ok? ==> ret.Value() == WithParams(r.value)
  {
    var params: seq<SystParam> := [];
    for i := 0 to |names|
      invariant |params| == i
      invariant forall j :: 0 <= j < i ==> loadOne(names[j]) == Ok(params[j])
      invariant ret.Value() == Build(names[..i], params)
    {
      var p := loadOne(names[i]);
      if p.Err? {
        assert names[i] in names;
        return Err(p.error);
      }
      AddNext(ret, names, params, i, p.value);
      params := params + [p.value];
    }
    assert names[..|names|] == names;
    LoadedAll(loadOne, names, params);
    return Ok(MapOf(names, params));
  }

  /** One pass of the loading loop: the configuration built from the first i names gains
      the parameter of name i. */
  method AddNext(ret: SystConfig, names: seq<string>, ghost params: seq<SystParam>, i: nat, p: SystParam)
    requires i < |names| && |params| == i
    requires ret.Value() == Build(names[..i], params)
    modifies ret
    ensures ret.Value() == Build(names[..i + 1], params + [p])
  {
    AddOne(ret, names[i], p);
    BuildStep(names, params, i, p);
  }

  /** Adding the parameter of name i to the configuration built from the first i names. */
  lemma BuildStep(names: seq<string>, params: seq<SystParam>, i: nat, p: SystParam)
    requires i < |names| && |params| == i
    ensures Build(names[..i + 1], params + [p]) == Step(Build(names[..i], params), names[i], p)
  {
    assert names[..i + 1][..i] == names[..i];
    assert (params + [p])[..i] == params;
  }

  /** Parameters loaded for distinct sorted names make the configuration holding them. */
  lemma LoadedAll(loadOne: string -> Result<SystParam, ConfigError>, names: seq<string>, params: seq<SystParam>)
    requires Ordering.StrictlySorted(names) && |names| == |params|
    requires forall j :: 0 <= j < |names| ==> loadOne(names[j]) == Ok(params[j])
    ensures Build(names, params) == WithParams(MapOf(names, params))
    ensures forall n :: n in MapOf(names, params) ==> loadOne(n) == Ok(MapOf(names, params)[n])
  {
    forall i, j | 0 <= i < j < |names| ensures names[i] != names[j] {
      Ordering.SortedDistinct(names, i, j);
    }
    BuildIsWithParams(names, params);
    MapOfLoads(loadOne, names, params);
  }

  /** LoadActiveSpec in terms of the active names and the parameters loaded for them. */
  lemma LoadActiveSpecOf(store: Store, names: set<string>, ps: map<string, SystParam>)
    requires ActiveNames(store) == Ok(names)
    requires ps.Keys == names
    requires forall n :: n in ps ==> LoadParam(store, n) == Ok(ps[n])
    ensures LoadActiveSpec(store) == Some(WithParams(ps))
  {
    LoadEachOf(names, n => LoadParam(store, n), ps);
  }

  /** An active parameter that does not load makes the load fail. */
  lemma LoadActiveFails(store: Store, names: set<string>)
    requires ActiveNames(store) == Ok(names)
    requires exists n :: n in names && LoadParam(store, n).Err?
    ensures LoadActiveSpec(store).None?
  {
  }

  method LoadActive(store: Store) returns (r: Result<SystConfig, ConfigError>)
    ensures r.Ok? <==> LoadActiveSpec(store).Some?
    ensures r.Ok? ==> fresh(r.value) && r.value.Value() == LoadActiveSpec(store).value
  {
    var ret := new SystConfig();
    var toLoad := ActiveNames(store);
    if toLoad.Err? { return Err(toLoad.error); }
    var names := toLoad.value;
    var sorted := Ordering.SortedKeys(names);
    assert Names(sorted) == names;
    var ps := AddParams(ret, n => LoadParam(store, n), sorted);
    if ps.Err? {
      LoadActiveFails(store, names);
      return Err(ps.error);
    }
    LoadActiveSpecOf(store, names, ps.value);
    return Ok(ret);
  }
}
