/** FitConfig: the fit's parameter ranges, proposal widths and bin counts keyed by
    parameter name, optional Gaussian constraints, and the sampler's scalar settings. */
module FitConfigs {
  import Maps

  /** The value a FitConfig holds. */
  datatype FitRecord = FitRecord(
    outDir: string,
    minima: map<string, real>,
    maxima: map<string, real>,
    sigmas: map<string, real>,
    nbins: map<string, real>,
    constrMeans: map<string, real>,
    constrSigmas: map<string, real>,
    iterations: int,
    burnIn: int,
    nSteps: int,
    epsilon: real)

  /** A fresh FitConfig: no parameters; the scalar settings, which the C++ class leaves
      uninitialised, are taken to be zero. */
  const DefaultRecord := FitRecord("", map[], map[], map[], map[], map[], map[], 0, 0, 0, 0.0)

  /** Every parameter has a minimum, a maximum, a width and a bin count, and every
      constrained parameter has both a constraint mean and a constraint width. */
  predicate Consistent(rec: FitRecord)
  {
    && rec.maxima.Keys == rec.minima.Keys
    && rec.sigmas.Keys == rec.minima.Keys
    && rec.nbins.Keys == rec.minima.Keys
    && rec.constrSigmas.Keys == rec.constrMeans.Keys
    && rec.constrMeans.Keys <= rec.minima.Keys
  }

  /** The record after AddParameter(name, min, max, sigma, bins). */
  function Added(rec: FitRecord, name: string, min: real, max: real, sigma: real, bins: int): FitRecord
  {
    FitRecord(rec.outDir, rec.minima[name := min], rec.maxima[name := max], rec.sigmas[name := sigma],
              rec.nbins[name := bins as real], rec.constrMeans, rec.constrSigmas,
              rec.iterations, rec.burnIn, rec.nSteps, rec.epsilon)
  }

  /** The record after the constrained AddParameter: Added, with the constraint recorded. */
  function AddedConstrained(rec: FitRecord, name: string, min: real, max: real, sigma: real, bins: int,
                            constrMean: real, constrSigma: real): FitRecord
  {
    FitRecord(rec.outDir, rec.minima[name := min], rec.maxima[name := max], rec.sigmas[name := sigma],
              rec.nbins[name := bins as real], rec.constrMeans[name := constrMean],
              rec.constrSigmas[name := constrSigma], rec.iterations, rec.burnIn, rec.nSteps, rec.epsilon)
  }

  /** The unconstrained overload adds exactly the parameter name, leaves the constraints
      and the scalar settings alone, and keeps a consistent record consistent. */
  lemma AddedKeepsConsistent(rec: FitRecord, name: string, min: real, max: real, sigma: real, bins: int)
    requires Consistent(rec)
    ensures var a := Added(rec, name, min, max, sigma, bins);
      && Consistent(a)
      && a.minima.Keys == rec.minima.Keys + {name}
      && a.constrMeans == rec.constrMeans && a.constrSigmas == rec.constrSigmas
  {
    Maps.UpdateKeys(rec.minima, name, min);
    Maps.UpdateKeys(rec.maxima, name, max);
    Maps.UpdateKeys(rec.sigmas, name, sigma);
    Maps.UpdateKeys(rec.nbins, name, bins as real);
  }

  /** The constrained overload adds the parameter name and its constraint, and keeps a
      consistent record consistent. */
  lemma AddedConstrainedKeepsConsistent(rec: FitRecord, name: string, min: real, max: real, sigma: real, bins: int,
                                        constrMean: real, constrSigma: real)
    requires Consistent(rec)
    ensures var c := AddedConstrained(rec, name, min, max, sigma, bins, constrMean, constrSigma);
      && Consistent(c)
      && c.minima.Keys == rec.minima.Keys + {name}
      && c.constrMeans.Keys == rec.constrMeans.Keys + {name}
  {
    AddedKeepsConsistent(rec, name, min, max, sigma, bins);
    Maps.UpdateKeys(rec.constrMeans, name, constrMean);
    Maps.UpdateKeys(rec.constrSigmas, name, constrSigma);
  }

  class FitConfig {
    var outDir: string
    var minima: map<string, real>
    var maxima: map<string, real>
    var sigmas: map<string, real>
    var nbins: map<string, real>
    var constrMeans: map<string, real>
    var constrSigmas: map<string, real>
    var iterations: int
    var burnIn: int
    var nSteps: int
    var epsilon: real

    function Value(): FitRecord
      reads this
    {
      FitRecord(outDir, minima, maxima, sigmas, nbins, constrMeans, constrSigmas,
                iterations, burnIn, nSteps, epsilon)
    }

    constructor ()
      ensures Value() == DefaultRecord
      ensures Consistent(Value())
    {
      outDir := "";
      minima, maxima, sigmas, nbins := map[], map[], map[], map[];
      constrMeans, constrSigmas := map[], map[];
      iterations, burnIn, nSteps := 0, 0, 0;
      epsilon := 0.0;
    }

    /** The names of the parameters added so far. */
    function GetParamNames(): set<string>
      reads this
    {
      minima.Keys
    }

    function GetMinima(): map<string, real> reads this { minima }
    function GetMaxima(): map<string, real> reads this { maxima }
    function GetSigmas(): map<string, real> reads this { sigmas }
    function GetNBins(): map<string, real> reads this { nbins }
    function GetConstrMeans(): map<string, real> reads this { constrMeans }
    function GetConstrSigmas(): map<string, real> reads this { constrSigmas }
    function GetIterations(): int reads this { iterations }
    function GetBurnIn(): int reads this { burnIn }
    function GetOutDir(): string reads this { outDir }
    function GetNSteps(): int reads this { nSteps }
    function GetEpsilon(): real reads this { epsilon }

    method SetIterations(it: int)
      modifies this
      ensures Value() == old(Value()).(iterations := it)
    {
      iterations := it;
    }

    method SetBurnIn(b: int)
      modifies this
      ensures Value() == old(Value()).(burnIn := b)
    {
      burnIn := b;
    }

    method SetOutDir(s: string)
      modifies this
      ensures Value() == old(Value()).(outDir := s)
    {
      outDir := s;
    }

    method SetNSteps(n: int)
      modifies this
      ensures Value() == old(Value()).(nSteps := n)
    {
      nSteps := n;
    }

    method SetEpsilon(e: real)
      modifies this
      ensures Value() == old(Value()).(epsilon := e)
    {
      epsilon := e;
    }

    /** Adds (or overwrites) an unconstrained parameter; any constraint recorded earlier
        for the same name stays. */
    method AddParameter(name: string, min: real, max: real, sigma: real, bins: int)
      modifies this
      ensures Value() == Added(old(Value()), name, min, max, sigma, bins)
    {
      minima := minima[name := min];
      maxima := maxima[name := max];
      sigmas := sigmas[name := sigma];
      nbins := nbins[name := bins as real];
    }

    /** Adds a parameter with a Gaussian constraint: records the constraint, then adds
        the parameter as the unconstrained overload does. */
    method AddConstrainedParameter(name: string, min: real, max: real, sigma: real, bins: int,
                                   constrMean: real, constrSigma: real)
      modifies this
      ensures Value() == AddedConstrained(old(Value()), name, min, max, sigma, bins, constrMean, constrSigma)
    {
      constrMeans := constrMeans[name := constrMean];
      constrSigmas := constrSigmas[name := constrSigma];
      AddParameter(name, min, max, sigma, bins);
    }
  }
}
