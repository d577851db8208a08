/** SystConfig: the systematic (detector response) parameters of a fit, keyed by
    parameter name: nominal value, range, mass, bin count, observable, type, and an
    optional Gaussian constraint. */
module SystConfigs {
  import Maps

  /** The value a SystConfig holds. */
  datatype SystRecord = SystRecord(
    name: string,
    nominal: map<string, real>,
    minima: map<string, real>,
    maxima: map<string, real>,
    mass: map<string, real>,
    nbins: map<string, real>,
    constrMean: map<string, real>,
    constrSigma: map<string, real>,
    obs: map<string, string>,
    systType: map<string, string>)

  const DefaultRecord := SystRecord("", map[], map[], map[], map[], map[], map[], map[], map[], map[])

  /** Every parameter carries all seven per-parameter settings, and every constrained
      parameter carries both a constraint mean and a constraint width. */
  predicate Consistent(rec: SystRecord)
  {
    && rec.minima.Keys == rec.nominal.Keys
    && rec.maxima.Keys == rec.nominal.Keys
    && rec.mass.Keys == rec.nominal.Keys
    && rec.nbins.Keys == rec.nominal.Keys
    && rec.obs.Keys == rec.nominal.Keys
    && rec.systType.Keys == rec.nominal.Keys
    && rec.constrSigma.Keys == rec.constrMean.Keys
    && rec.constrMean.Keys <= rec.nominal.Keys
  }

  /** The record after the unconstrained AddParameter(n, ...). */
  function Added(rec: SystRecord, n: string, nom: real, min: real, max: real, m: real, bins: int,
                 o: string, t: string): SystRecord
  {
    SystRecord(rec.name, rec.nominal[n := nom], rec.minima[n := min], rec.maxima[n := max],
               rec.mass[n := m], rec.nbins[n := bins as real], rec.constrMean, rec.constrSigma,
               rec.obs[n := o], rec.systType[n := t])
  }

  /** The record after the constrained AddParameter(n, ...). */
  function AddedConstrained(rec: SystRecord, n: string, nom: real, min: real, max: real, m: real, bins: int,
                            cMean: real, cSigma: real, o: string, t: string): SystRecord
  {
    SystRecord(rec.name, rec.nominal[n := nom], rec.minima[n := min], rec.maxima[n := max],
               rec.mass[n := m], rec.nbins[n := bins as real], rec.constrMean[n := cMean],
               rec.constrSigma[n := cSigma], rec.obs[n := o], rec.systType[n := t])
  }

  /** The unconstrained overload adds exactly the parameter `n`, leaves the constraints
      alone and keeps a consistent record consistent. */
  lemma AddedKeepsConsistent(rec: SystRecord, n: string, nom: real, min: real, max: real, m: real, bins: int,
                             o: string, t: string)
    requires Consistent(rec)
    ensures var a := Added(rec, n, nom, min, max, m, bins, o, t);
      Consistent(a) && a.nominal.Keys == rec.nominal.Keys + {n} && a.constrMean == rec.constrMean
  {
    Maps.UpdateKeys(rec.nominal, n, nom);
    Maps.UpdateKeys(rec.minima, n, min);
    Maps.UpdateKeys(rec.maxima, n, max);
    Maps.UpdateKeys(rec.mass, n, m);
    Maps.UpdateKeys(rec.nbins, n, bins as real);
    Maps.UpdateKeys(rec.obs, n, o);
    Maps.UpdateKeys(rec.systType, n, t);
  }

  /** The constrained overload adds the parameter `n` and its constraint and keeps a
      consistent record consistent. */
  lemma AddedConstrainedKeepsConsistent(rec: SystRecord, n: string, nom: real, min: real, max: real, m: real,
                                        bins: int, cMean: real, cSigma: real, o: string, t: string)
    requires Consistent(rec)
    ensures var c := AddedConstrained(rec, n, nom, min, max, m, bins, cMean, cSigma, o, t);
      Consistent(c) && c.nominal.Keys == rec.nominal.Keys + {n} && c.constrMean.Keys == rec.constrMean.Keys + {n}
  {
    AddedKeepsConsistent(rec, n, nom, min, max, m, bins, o, t);
    Maps.UpdateKeys(rec.constrMean, n, cMean);
    Maps.UpdateKeys(rec.constrSigma, n, cSigma);
  }

  class SystConfig {
    var name: string
    var nominal: map<string, real>
    var minima: map<string, real>
    var maxima: map<string, real>
    var mass: map<string, real>
    var nbins: map<string, real>
    var constrMean: map<string, real>
    var constrSigma: map<string, real>
    var obs: map<string, string>
    var systType: map<string, string>

    function Value(): SystRecord
      reads this
    {
      SystRecord(name, nominal, minima, maxima, mass, nbins, constrMean, constrSigma, obs, systType)
    }

    constructor ()
      ensures Value() == DefaultRecord
      ensures Consistent(Value())
    {
      name := "";
      nominal, minima, maxima, mass, nbins := map[], map[], map[], map[], map[];
      constrMean, constrSigma := map[], map[];
      obs, systType := map[], map[];
    }

    function GetName(): string reads this { name }
    function GetNominal(): map<string, real> reads this { nominal }
    function GetMinima(): map<string, real> reads this { minima }
    function GetMaxima(): map<string, real> reads this { maxima }
    function GetMass(): map<string, real> reads this { mass }
    function GetNBins(): map<string, real> reads this { nbins }
    function GetConstrMean(): map<string, real> reads this { constrMean }
    function GetConstrSigma(): map<string, real> reads this { constrSigma }
    function GetObs(): map<string, string> reads this { obs }
    function GetType(): map<string, string> reads this { systType }

    /** Adds (or overwrites) an unconstrained parameter; a constraint recorded earlier
        for the same name stays. */
    method AddParameter(n: string, nom: real, min: real, max: real, m: real, bins: int, o: string, t: string)
      modifies this
      ensures Value() == Added(old(Value()), n, nom, min, max, m, bins, o, t)
    {
      SetRange(n, nom, min, max);
      SetShape(n, m, bins, o, t);
    }

    /** The nominal value and the range of parameter n. */
    method SetRange(n: string, nom: real, min: real, max: real)
      modifies this
      ensures nominal == old(nominal)[n := nom] && minima == old(minima)[n := min] && maxima == old(maxima)[n := max]
      ensures name == old(name) && mass == old(mass) && nbins == old(nbins)
      ensures constrMean == old(constrMean) && constrSigma == old(constrSigma)
      ensures obs == old(obs) && systType == old(systType)
    {
      nominal := nominal[n := nom];
      minima := minima[n := min];
      maxima := maxima[n := max];
    }

    /** The mass, bin count, observable and type of parameter n. */
    method SetShape(n: string, m: real, bins: int, o: string, t: string)
      modifies this
      ensures mass == old(mass)[n := m] && nbins == old(nbins)[n := bins as real]
      ensures obs == old(obs)[n := o] && systType == old(systType)[n := t]
      ensures name == old(name) && nominal == old(nominal) && minima == old(minima) && maxima == old(maxima)
      ensures constrMean == old(constrMean) && constrSigma == old(constrSigma)
    {
      mass := mass[n := m];
      nbins := nbins[n := bins as real];
      obs := obs[n := o];
      systType := systType[n := t];
    }

    /** Adds (or overwrites) a parameter together with its Gaussian constraint. */
    method AddConstrainedParameter(n: string, nom: real, min: real, max: real, m: real, bins: int,
                                   cMean: real, cSigma: real, o: string, t: string)
      modifies this
      ensures Value() == AddedConstrained(old(Value()), n, nom, min, max, m, bins, cMean, cSigma, o, t)
    {
      AddParameter(n, nom, min, max, m, bins, o, t);
      constrMean := constrMean[n := cMean];
      constrSigma := constrSigma[n := cSigma];
    }
  }
}
