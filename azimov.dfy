/** The Asimov data set: every active event type's distribution, scaled to its
    expected count (live time x rate / number generated), summed bin by bin; or,
    with loadPDF, a high-dimensional template per type rescaled to that count. */
module Azimov {
  import opened Wrappers
  import opened Binned
  import opened EventConfigs
  import Ordering

  /** 2^64: unsigned long arithmetic is modulo this. */
  const Two64: int := 0x1_0000_0000_0000_0000

  /** A binned distribution: bins per axis and the flattened contents. */
  datatype Dist = Dist(axes: seq<nat>, bins: seq<real>)

  function Integral(d: Dist): real
  {
    Sum(d.bins)
  }

  function ScaleDist(d: Dist, c: real): (r: Dist)
    ensures r.axes == d.axes && |r.bins| == |d.bins|
  {
    d.(bins := Scale(d.bins, c))
  }

  /** Number of bins of a distribution over the given axes. */
  function Cells(axes: seq<nat>): nat
  {
    if |axes| == 0 then 1 else Cells(axes[..|axes| - 1]) * axes[|axes| - 1]
  }

  /** An empty distribution over the given axes. */
  function Empty(axes: seq<nat>): Dist
  {
    Dist(axes, Zeros(Cells(axes)))
  }

  /** A default-constructed distribution: no axes, no bins. */
  const Unset := Dist([], [])

  /** The path of an event type's high-dimensional template. */
  function TemplatePath(pdfDir: string, name: string): string
  {
    pdfDir + "/" + name + ".h5"
  }

  /** Everything the accumulation reads besides the event types: the live time, the
      loadPDF switch, the nGen scaling, the axes built from the PDF configuration,
      the template directory, and the external engine as functions: the cut
      distribution built for a type, the entry count of its data set, and the
      histogram loaded from a path. */
  datatype Run = Run(
    liveTime: real,
    loadPDF: bool,
    nGenScale: real,
    axes: seq<nat>,
    pdfDir: string,
    build: string -> Dist,
    entries: string -> nat,
    load: string -> Dist)

  /** Where the program leaves defined behaviour: nGen x nGenScale is out of the
      range of unsigned long; the type's distribution does not have the Asimov
      binning; a template of integral 0 is rescaled by a division by zero. */
  datatype Failure = NGenOutOfRange(name: string) | BinningMismatch(name: string) | ZeroTemplate(name: string)

  /** The unsigned long that GetNGenerated()'s int becomes when it is assigned to nGen:
      the value modulo 2^64. */
  function AssignedNGen(nGenerated: int): (r: nat)
    ensures r < Two64
    ensures (r - nGenerated) % Two64 == 0
  {
    nGenerated % Two64
  }

  /** The number generated for a type: the data set's entries unless the configured
      n_generated is nonzero; then n_generated as an unsigned long, times nGenScale,
      truncated. None when the truncated value does not fit an unsigned long (the
      conversion is then undefined). The product is exact here; the source's double
      rounds it. */
  function NGen(entries: nat, nGenerated: int, nGenScale: real): (r: Option<nat>)
    ensures nGenerated == 0 ==> r == Some(entries)
    ensures nGenerated != 0 ==>
      var p := AssignedNGen(nGenerated) as real * nGenScale;
      && (r.Some? <==> -1.0 < p < Two64 as real)
      && (r.Some? && p >= 0.0 ==> r.value as real <= p < r.value as real + 1.0)
      && (r.Some? && p < 0.0 ==> r.value == 0)
  {
    if nGenerated == 0 then Some(entries)
    else
      var p := AssignedNGen(nGenerated) as real * nGenScale;
      if -1.0 < p < Two64 as real then Some(Truncate(p)) else None
  }

  /** With scaling 1, a positive n_generated is used as it is. */
  lemma NGenUnscaled(entries: nat, nGenerated: int)
    requires 0 < nGenerated < Two64
    ensures NGen(entries, nGenerated, 1.0) == Some(nGenerated)
  {
  }

  /** Assigning a negative n_generated to the unsigned nGen wraps it around to
      2^64 + n_generated. */
  lemma NGenNegativeWraps(nGenerated: int)
    requires -Two64 < nGenerated < 0
    ensures AssignedNGen(nGenerated) == Two64 + nGenerated
  {
  }

  /** The factor a type's distribution is scaled by, liveTime x rate / nGen; None
      when nGen is 0 (the division yields no number). */
  function ScaleFactor(liveTime: real, rate: real, nGen: nat): (r: Option<real>)
    ensures r.Some? <==> nGen != 0
    ensures r.Some? ==> r.value * nGen as real == liveTime * rate
  {
    if nGen == 0 then None else Some(liveTime * rate / nGen as real)
  }

  /** The accumulator and whether its axes have been fixed. */
  datatype Acc = Acc(azimov: Dist, setAxes: bool)

  /** Before the first type: the axes of the PDF configuration, or nothing yet when
      the templates will supply them. */
  function Start(run: Run): Acc
  {
    if run.loadPDF then Acc(Unset, false) else Acc(Empty(run.axes), true)
  }

  /** Bin-wise addition into the accumulator; the binnings must agree. */
  function AddTo(acc: Acc, d: Dist, name: string): (r: Result<Acc, Failure>)
    ensures r.Ok? <==> d.axes == acc.azimov.axes && |d.bins| == |acc.azimov.bins|
    ensures r.Ok? ==> r.value.setAxes == acc.setAxes && r.value.azimov.axes == acc.azimov.axes
    ensures r.Ok? ==> |r.value.azimov.bins| == |acc.azimov.bins|
  {
    if d.axes == acc.azimov.axes && |d.bins| == |acc.azimov.bins|
    then Ok(acc.(azimov := acc.azimov.(bins := Add(acc.azimov.bins, d.bins))))
    else Err(BinningMismatch(name))
  }

  /** A type's distribution scaled to its expected count: Err when nGen is
      undefined, None when the type is skipped for rate 0 or for nGen 0 (the
      scaled integral is then not a number). */
  function Scaled(name: string, rec: EventRecord, run: Run): Result<Option<Dist>, Failure>
  {
    var nGen := NGen(run.entries(name), rec.nGenerated, run.nGenScale);
    if nGen.None? then Err(NGenOutOfRange(name))
    else if rec.rate == 0.0 then Ok(None)
    else
      var c := ScaleFactor(run.liveTime, rec.rate, nGen.value);
      if c.None? then Ok(None) else Ok(Some(ScaleDist(run.build(name), c.value)))
  }

  /** Adding a scaled distribution: directly without loadPDF; with loadPDF, unless
      its integral is 0, the type's template rescaled to that integral, after
      taking the accumulator's axes from the template if none are set yet. */
  function Place(acc: Acc, dist: Dist, name: string, run: Run): Result<Acc, Failure>
  {
    if !run.loadPDF then AddTo(acc, dist, name)
    else if Integral(dist) == 0.0 then Ok(acc)
    else
      var high := run.load(TemplatePath(run.pdfDir, name));
      var acc' := if acc.setAxes then acc else Acc(Empty(high.axes), true);
      if Integral(high) == 0.0 then Err(ZeroTemplate(name))
      else AddTo(acc', ScaleDist(high, Integral(dist) / Integral(high)), name)
  }

  /** One event type through the loop body. */
  function Step(acc: Acc, name: string, rec: EventRecord, run: Run): Result<Acc, Failure>
  {
    match Scaled(name, rec, run)
    case Err(e) => Err(e)
    case Ok(None) => Ok(acc)
    case Ok(Some(dist)) => Place(acc, dist, name, run)
  }

  /** The loop over the types in order, stopping at the first failure. */
  function Fold(run: Run, types: seq<(string, EventRecord)>): Result<Acc, Failure>
    decreases |types|
  {
    if |types| == 0 then Ok(Start(run))
    else match Fold(run, types[..|types| - 1])
      case Err(e) => Err(e)
      case Ok(acc) => Step(acc, types[|types| - 1].0, types[|types| - 1].1, run)
  }

  /** The active types in the order of the std::map: sorted by name. */
  function Entries(toGet: map<string, EventRecord>): (r: seq<(string, EventRecord)>)
    ensures |r| == |toGet|
    ensures forall i :: 0 <= i < |r| ==> r[i].0 in toGet && r[i].1 == toGet[r[i].0]
  {
    var keys := Ordering.SortedKeys(toGet.Keys);
    seq(|keys|, i requires 0 <= i < |keys| => (keys[i], toGet[keys[i]]))
  }

  /** The Asimov distribution for the active types. */
  function Outcome(toGet: map<string, EventRecord>, run: Run): Result<Dist, Failure>
  {
    match Fold(run, Entries(toGet))
    case Ok(acc) => Ok(acc.azimov)
    case Err(e) => Err(e)
  }

  // ---------------------------------------------------------------------------
  // What the accumulation adds up to.

  /** The expected count a type contributes: the integral of its scaled
      distribution; 0 when it is skipped. */
  function Expected(name: string, rec: EventRecord, run: Run): real
  {
    match Scaled(name, rec, run)
    case Ok(Some(d)) => Integral(d)
    case _ => 0.0
  }

  /** The expected count is liveTime x rate / nGen times the integral of the
      type's distribution. */
  lemma ExpectedCount(name: string, rec: EventRecord, run: Run, nGen: nat)
    requires NGen(run.entries(name), rec.nGenerated, run.nGenScale) == Some(nGen)
    requires rec.rate != 0.0 && nGen != 0
    ensures Expected(name, rec, run) * nGen as real == run.liveTime * rec.rate * Integral(run.build(name))
  {
    var c := ScaleFactor(run.liveTime, rec.rate, nGen).value;
    SumScale(run.build(name).bins, c);
    assert Expected(name, rec, run) == c * Integral(run.build(name));
    calc {
      Expected(name, rec, run) * nGen as real;
      (c * nGen as real) * Integral(run.build(name));
      run.liveTime * rec.rate * Integral(run.build(name));
    }
  }

  function ExpectedTotal(types: seq<(string, EventRecord)>, run: Run): real
    decreases |types|
  {
    if |types| == 0 then 0.0
    else ExpectedTotal(types[..|types| - 1], run) + Expected(types[|types| - 1].0, types[|types| - 1].1, run)
  }

  /** What a type adds to bin j without loadPDF: its scaled content of bin j, or
      0 when it is skipped. */
  function BinAdd(name: string, rec: EventRecord, run: Run, j: nat): real
  {
    match Scaled(name, rec, run)
    case Ok(Some(d)) => if j < |d.bins| then d.bins[j] else 0.0
    case _ => 0.0
  }

  /** Contents of bin j summed over the types, without loadPDF. */
  function BinTotal(types: seq<(string, EventRecord)>, run: Run, j: nat): real
    decreases |types|
  {
    if |types| == 0 then 0.0
    else BinTotal(types[..|types| - 1], run, j) + BinAdd(types[|types| - 1].0, types[|types| - 1].1, run, j)
  }

  /** Whether a type loads its template under loadPDF: it is not skipped and its
      scaled integral is nonzero. */
  predicate Loads(name: string, rec: EventRecord, run: Run)
  {
    match Scaled(name, rec, run)
    case Ok(Some(d)) => Integral(d) != 0.0
    case _ => false
  }

  /** The first type that loads its template. */
  function FirstLoaded(types: seq<(string, EventRecord)>, run: Run): Option<string>
    decreases |types|
  {
    if |types| == 0 then None
    else match FirstLoaded(types[..|types| - 1], run)
      case Some(n) => Some(n)
      case None =>
        var (name, rec) := types[|types| - 1];
        if Loads(name, rec, run) then Some(name) else None
  }

  /** A type of rate 0 leaves the accumulator as it is. */
  lemma ZeroRateSkipped(acc: Acc, name: string, rec: EventRecord, run: Run)
    requires NGen(run.entries(name), rec.nGenerated, run.nGenScale).Some?
    requires rec.rate == 0.0
    ensures Step(acc, name, rec, run) == Ok(acc)
  {
  }

  /** A type whose nGen is 0 (its scaled integral is not a number) is skipped. */
  lemma NoGeneratedSkipped(acc: Acc, name: string, rec: EventRecord, run: Run)
    requires NGen(run.entries(name), rec.nGenerated, run.nGenScale) == Some(0)
    ensures Step(acc, name, rec, run) == Ok(acc)
  {
  }

  /** A rescaled template has the integral it was rescaled to. */
  lemma TemplateRescaled(high: Dist, target: real)
    requires Integral(high) != 0.0
    ensures Integral(ScaleDist(high, target / Integral(high))) == target
  {
    SumScale(high.bins, target / Integral(high));
  }

  /** Placing a distribution adds its integral; the accumulator stays
      default-constructed until its axes are set. */
  lemma PlaceIntegral(acc: Acc, dist: Dist, name: string, run: Run)
    requires !acc.setAxes ==> acc.azimov == Unset
    requires Place(acc, dist, name, run).Ok?
    ensures Integral(Place(acc, dist, name, run).value.azimov) == Integral(acc.azimov) + Integral(dist)
    ensures !Place(acc, dist, name, run).value.setAxes ==> Place(acc, dist, name, run).value.azimov == Unset
  {
    if !run.loadPDF {
      SumAdd(acc.azimov.bins, dist.bins);
    } else if Integral(dist) != 0.0 {
      var high := run.load(TemplatePath(run.pdfDir, name));
      var acc' := if acc.setAxes then acc else Acc(Empty(high.axes), true);
      SumZeros(Cells(high.axes));
      assert Integral(acc'.azimov) == Integral(acc.azimov);
      var t := ScaleDist(high, Integral(dist) / Integral(high));
      TemplateRescaled(high, Integral(dist));
      SumAdd(acc'.azimov.bins, t.bins);
    }
  }

  /** One step adds the type's expected count to the integral. */
  lemma StepIntegral(acc: Acc, name: string, rec: EventRecord, run: Run)
    requires !acc.setAxes ==> acc.azimov == Unset
    requires Step(acc, name, rec, run).Ok?
    ensures Integral(Step(acc, name, rec, run).value.azimov) == Integral(acc.azimov) + Expected(name, rec, run)
    ensures !Step(acc, name, rec, run).value.setAxes ==> Step(acc, name, rec, run).value.azimov == Unset
  {
    match Scaled(name, rec, run)
    case Ok(Some(dist)) => PlaceIntegral(acc, dist, name, run);
    case _ =>
  }

  /** Under loadPDF the axes are set by the first type that loads a template, and
      kept afterwards. */
  lemma StepAxes(acc: Acc, name: string, rec: EventRecord, run: Run)
    requires run.loadPDF
    requires Step(acc, name, rec, run).Ok?
    ensures Step(acc, name, rec, run).value.setAxes == (acc.setAxes || Loads(name, rec, run))
    ensures acc.setAxes ==> Step(acc, name, rec, run).value.azimov.axes == acc.azimov.axes
    ensures !acc.setAxes && Loads(name, rec, run) ==>
              Step(acc, name, rec, run).value.azimov.axes == run.load(TemplatePath(run.pdfDir, name)).axes
  {
  }

  /** Without loadPDF each step adds the type's scaled contents bin by bin. */
  lemma StepBins(acc: Acc, name: string, rec: EventRecord, run: Run)
    requires !run.loadPDF
    requires Step(acc, name, rec, run).Ok?
    ensures Step(acc, name, rec, run).value.setAxes == acc.setAxes
    ensures Step(acc, name, rec, run).value.azimov.axes == acc.azimov.axes
    ensures |Step(acc, name, rec, run).value.azimov.bins| == |acc.azimov.bins|
    ensures forall j :: 0 <= j < |acc.azimov.bins| ==>
              Step(acc, name, rec, run).value.azimov.bins[j] == acc.azimov.bins[j] + BinAdd(name, rec, run, j)
  {
  }

  /** What the accumulator satisfies between types. */
  ghost predicate Between(acc: Acc, types: seq<(string, EventRecord)>, run: Run)
  {
    && Integral(acc.azimov) == ExpectedTotal(types, run)
    && (!acc.setAxes ==> acc.azimov == Unset)
    && (run.loadPDF ==> (acc.setAxes <==> FirstLoaded(types, run).Some?))
    && (run.loadPDF && acc.setAxes ==>
          acc.azimov.axes == run.load(TemplatePath(run.pdfDir, FirstLoaded(types, run).value)).axes)
    && (!run.loadPDF ==> acc.setAxes && acc.azimov.axes == run.axes && |acc.azimov.bins| == Cells(run.axes))
    && (!run.loadPDF ==> forall j :: 0 <= j < |acc.azimov.bins| ==> acc.azimov.bins[j] == BinTotal(types, run, j))
  }

  lemma {:induction false} FoldBetween(run: Run, types: seq<(string, EventRecord)>)
    requires Fold(run, types).Ok?
    ensures Between(Fold(run, types).value, types, run)
    decreases |types|
  {
    if |types| == 0 {
      SumZeros(Cells(run.axes));
    } else {
      var prefix := types[..|types| - 1];
      var (name, rec) := types[|types| - 1];
      FoldBetween(run, prefix);
      var acc := Fold(run, prefix).value;
      StepIntegral(acc, name, rec, run);
      if run.loadPDF {
        StepAxes(acc, name, rec, run);
      } else {
        StepBins(acc, name, rec, run);
      }
    }
  }

  /** The Asimov total is the sum over types of liveTime x rate / nGen times the
      integral of the type's distribution, with and without loadPDF. */
  lemma TotalIsExpected(run: Run, types: seq<(string, EventRecord)>)
    requires Fold(run, types).Ok?
    ensures Integral(Fold(run, types).value.azimov) == ExpectedTotal(types, run)
  {
    FoldBetween(run, types);
  }

  /** Without loadPDF, every bin holds the sum of the scaled contents of that bin
      over the types that were not skipped. */
  lemma BinsAreScaledSums(run: Run, types: seq<(string, EventRecord)>)
    requires !run.loadPDF
    requires Fold(run, types).Ok?
    ensures Fold(run, types).value.azimov.axes == run.axes
    ensures |Fold(run, types).value.azimov.bins| == Cells(run.axes)
    ensures forall j :: 0 <= j < Cells(run.axes) ==>
              Fold(run, types).value.azimov.bins[j] == BinTotal(types, run, j)
  {
    FoldBetween(run, types);
  }

  /** With loadPDF, the axes are those of the first loaded template; with none
      loaded, the distribution stays default-constructed. */
  lemma AxesFromFirstTemplate(run: Run, types: seq<(string, EventRecord)>)
    requires run.loadPDF
    requires Fold(run, types).Ok?
    ensures FirstLoaded(types, run).Some? ==>
              Fold(run, types).value.azimov.axes
                == run.load(TemplatePath(run.pdfDir, FirstLoaded(types, run).value)).axes
    ensures FirstLoaded(types, run).None? ==> Fold(run, types).value.azimov == Unset
  {
    FoldBetween(run, types);
  }

  /** Once a type fails, the loop's outcome is that failure. */
  lemma {:induction false} FailureStays(run: Run, types: seq<(string, EventRecord)>, i: nat)
    requires i <= |types|
    requires Fold(run, types[..i]).Err?
    ensures Fold(run, types) == Fold(run, types[..i])
    decreases |types| - i
  {
    if i < |types| {
      assert types[..i + 1][..i] == types[..i];
      FailureStays(run, types, i + 1);
    } else {
      assert types[..i] == types;
    }
  }

  /** The loop over one more type is one more step. */
  lemma FoldStep(run: Run, types: seq<(string, EventRecord)>, i: nat, acc: Acc)
    requires i < |types|
    requires Fold(run, types[..i]) == Ok(acc)
    ensures Fold(run, types[..i + 1]) == Step(acc, types[i].0, types[i].1, run)
  {
    assert types[..i + 1][..i] == types[..i];
  }

  /** The outcome once every type went through the loop. */
  lemma FoldDone(toGet: map<string, EventRecord>, run: Run, acc: Acc)
    requires Fold(run, Entries(toGet)[..|Entries(toGet)|]) == Ok(acc)
    ensures Outcome(toGet, run) == Ok(acc.azimov)
  {
    assert Entries(toGet)[..|Entries(toGet)|] == Entries(toGet);
  }

  /** The loop body of BuildAzimov for one event type: nGen, the skips, the
      scaling and the addition (directly, or through the type's template). */
  method AddType(azimov: Dist, setAxes: bool, name: string, rec: EventRecord, run: Run)
    returns (azimov': Dist, setAxes': bool, failure: Option<Failure>)
    ensures failure.None? ==> Step(Acc(azimov, setAxes), name, rec, run) == Ok(Acc(azimov', setAxes'))
    ensures failure.Some? ==> Step(Acc(azimov, setAxes), name, rec, run) == Err(failure.value)
  {
    azimov', setAxes', failure := azimov, setAxes, None;
    var dist := run.build(name);
    var nGen := NGen(run.entries(name), rec.nGenerated, run.nGenScale);
    if nGen.None? {
      return azimov, setAxes, Some(NGenOutOfRange(name));
    }
    if rec.rate == 0.0 {
      return;
    }
    var c := ScaleFactor(run.liveTime, rec.rate, nGen.value);
    if c.None? {
      return;
    }
    dist := ScaleDist(dist, c.value);
    if !run.loadPDF {
      var added := AddTo(Acc(azimov', setAxes'), dist, name);
      if added.Err? {
        return azimov, setAxes, Some(added.error);
      }
      azimov' := added.value.azimov;
    }
    if Integral(dist) == 0.0 {
      return;
    }
    if run.loadPDF {
      var high := run.load(TemplatePath(run.pdfDir, name));
      if !setAxes' {
        azimov' := Empty(high.axes);
        setAxes' := true;
      }
      if Integral(high) == 0.0 {
        return azimov, setAxes, Some(ZeroTemplate(name));
      }
      high := ScaleDist(high, Integral(dist) / Integral(high));
      var added := AddTo(Acc(azimov', setAxes'), high, name);
      if added.Err? {
        return azimov, setAxes, Some(added.error);
      }
      azimov' := added.value.azimov;
    }
  }

  /** The loop of the program: accumulate every active type in name order, then
      decide whether the ROOT copy is written (fewer than 3 dimensions). */
  method BuildAzimov(toGet: map<string, EventRecord>, run: Run) returns (r: Result<Dist, Failure>, writeRoot: bool)
    ensures r == Outcome(toGet, run)
    ensures writeRoot <==> r.Ok? && |r.value.axes| < 3
  {
    var types := Entries(toGet);
    var azimov := Unset;
    var setAxes := false;
    if !run.loadPDF {
      azimov := Empty(run.axes);
      setAxes := true;
    }
    var i := 0;
    while i < |types|
      invariant 0 <= i <= |types|
      invariant Fold(run, types[..i]) == Ok(Acc(azimov, setAxes))
    {
      var (name, rec) := types[i];
      FoldStep(run, types, i, Acc(azimov, setAxes));
      var failure;
      azimov, setAxes, failure := AddType(azimov, setAxes, name, rec, run);
      i := i + 1;
      if failure.Some? {
        FailureStays(run, types, i);
        return Err(failure.value), false;
      }
    }
    FoldDone(toGet, run, Acc(azimov, setAxes));
    r := Ok(azimov);
    writeRoot := |azimov.axes| < 3;
  }
}
