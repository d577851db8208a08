# bb-likelihood-analysis, modelled in Dafny

This project models the core of the double-beta likelihood analysis chain of the
bb-likelihood-analysis repository, and proves properties of the model:

- **Configuration.** The configuration records and their loaders:
  - `FitConfig` and `FitConfigLoader`: sampler settings and fit parameters;
  - `SystConfig` and `SystConfigLoader`: systematic parameters with optional Gaussian constraints;
  - `EventConfig` and `EventConfigLoader`: per-event-type rate, generated count, ntuple files and paths;
  - `CutConfigLoader`: the cuts.

  The INI files they read are a store of sections of typed fields, where a field can be
  missing or fail to parse.
- **Fitting programs.**
  - `sum_pdfs`: PSD averaging outside the region of interest, normalisation and zero-bin count.
  - `build_azimov`: the Asimov data set. Each event type is scaled by live time × rate / nGen and added.
  - `llh_scan`: the one-dimensional likelihood scans.
  - `split_half`: the split of an ntuple into two outputs at a fraction.
  - `MakePlots`: branch selection, burn-in cut, the highest-posterior-density interval
    `GetHPD`, parameter limits, the normalised summaries, the correlation matrix,
    the prefit histogram and the re-keying of parameter names.
  - `overlay.py`: grouping, stacking, the legend and the chi-square of the stacked fit.
- **Rates.** `lt_equivalent.py`: the live-time equivalent of each simulated sample, its
  number formatting and its sorted report.
- **Data-manipulation scripts.**
  - `clean_alpha_n.cpp`: the coincidence veto.
  - `count_triggers.py`: the event-index histogram and its running totals.
  - `separate.py`: moving files into per-event-type directories.
  - `count_prod.py`: file and event counting and its table.

**How the model is written**
- Each source file has one module, except fit/MakePlots.cc, which is split into `MakePlots`
  and `Hpd` (its GetHPD walks). The modules are `ConfigStore`, `FitConfigs`, `FitConfigLoader`,
  `SystConfigs`, `SystConfigLoader`, `EventConfigs`, `EventConfigLoader`,
  `CutConfigLoader`, `SumPdfs`, `Azimov`, `LlhScan`, `SplitHalf`, `MakePlots`, `Hpd`,
  `Overlay`, `LiveTime`, `AlphaN`, `Triggers`, `Separate` and `CountProd`.
- Shared helper modules: `Wrappers`, `Text`, `Ordering`, `Maps`, `Binned` and `IniFiles`.
- Classes whose fields the source updates in place are Dafny classes:
  - `FitConfig`, `SystConfig` and `EventConfig`;
  - the global parameter maps of MakePlots (`PlotInputs`);
  - the ROOT histogram and the `Grouper` of the overlay script.
- Loops of the source are `while`/`for` loops proved against specification functions:
  - in place on an `array` where the source works on a binned buffer (sum_pdfs, GetHPD);
  - otherwise on sequences and maps.
- `std::map` iteration is in sorted key order, written `Ordering.SortedKeys`.
- Python dict, glob and `os.walk` order are parameters.
- Errors the source raises are `Result`/`Option` values: a missing configuration field,
  `KeyError`, `ValueError`, `IndexError`, and an `at()` that throws.
- External engines are function-valued parameters:
  - ROOT and OXSX: distribution building, marginalisation, likelihood evaluation,
    the correlation factor. Normalisation, scaling, adding and the integral of
    binned distributions are modelled concretely, in `Binned`;
  - the file system, and number parsing.

## Model

| member | source | states |
|---|---|---|
| ConfigStore.Failure | fit/src/SystConfigLoader.cc:48-55 | the error of an unreadable field is FieldMissing exactly when the section or key is absent, and names the section and key |
| ConfigStore.LoadReal | fit/src/FitConfigLoader.cc:43-45 | loading a double succeeds exactly when the field holds a real or an integer, otherwise fails with that field's error |
| ConfigStore.LoadInt | fit/src/FitConfigLoader.cc:46 | loading an int succeeds exactly when the field holds an integer |
| ConfigStore.LoadText | fit/src/FitConfigLoader.cc:26 | loading a string succeeds exactly when the field holds text |
| ConfigStore.LoadList | fit/src/EventConfigLoader.cc:50 | loading a vector succeeds exactly when the field holds a list, keeping its items |
| ConfigStore.LoadSet | fit/src/FitConfigLoader.cc:32-34 | loading a set succeeds exactly when the list loads, and holds exactly the listed items |
| ConfigStore.NonSummarySections | fit/src/EventConfigLoader.cc:70-71 | ListSections minus "summary": a name is in it exactly when it is a section of the file other than "summary" |
| ConfigStore.LoadEach | fit/src/EventConfigLoader.cc:74-77 | loading a set of names into a map succeeds exactly when every name loads; the keys are the names and each value is what its name loads to |
| ConfigStore.LoadEachFails | fit/src/EventConfigLoader.cc:74-77 | one name that fails to load makes the whole load fail |
| ConfigStore.LoadEachOf | fit/src/EventConfigLoader.cc:74-77 | a map whose every entry is what its key loads to, over exactly the names, is the result of the load |
| FitConfigs.AddedKeepsConsistent | fit/src/FitConfig.cc:47-52 | the unconstrained AddParameter adds exactly the name to all four parameter maps, leaves the constraints alone and keeps the maps' key sets equal |
| FitConfigs.AddedConstrainedKeepsConsistent | fit/src/FitConfig.cc:91-98 | the constrained AddParameter adds the name to the parameters and to both constraint maps and keeps every constrained name a parameter |
| FitConfigs.FitConfig.constructor | fit/src/FitConfig.hh:28-35 | a fresh configuration holds no parameters and no constraints (scalar settings zero) |
| FitConfigs.FitConfig.SetIterations | fit/src/FitConfig.cc:31-34 | only the iteration count changes, to the value given |
| FitConfigs.FitConfig.SetBurnIn | fit/src/FitConfig.cc:41-44 | only the burn-in changes |
| FitConfigs.FitConfig.SetOutDir | fit/src/FitConfig.cc:64-67 | only the output directory changes |
| FitConfigs.FitConfig.SetNSteps | fit/src/FitConfig.cc:74-77 | only the step count changes |
| FitConfigs.FitConfig.SetEpsilon | fit/src/FitConfig.cc:84-87 | only epsilon changes |
| FitConfigs.FitConfig.AddParameter | fit/src/FitConfig.cc:46-52 | the new state is the old one with min, max, sigma and bin count recorded under the name (an earlier constraint stays) |
| FitConfigs.FitConfig.AddConstrainedParameter | fit/src/FitConfig.cc:90-98 | the new state records the constraint mean and sigma and then the parameter, as the delegation to the unconstrained overload does |
| FitConfigLoader.LoadParamFields | fit/src/FitConfigLoader.cc:43-46 | a parameter loads exactly when min, max, sig and nbins all load, and carries those four values; a failure names the parameter's section |
| FitConfigLoader.WithParamsEmpty | fit/src/FitConfigLoader.cc:24-30 | before the loop the configuration holds only the summary settings |
| FitConfigLoader.WithParamsAdd | fit/src/FitConfigLoader.cc:48 | adding one loaded parameter to the configuration of a parameter map gives the configuration of the extended map |
| FitConfigLoader.LoadSummary | fit/src/FitConfigLoader.cc:24-34 | the summary settings are the iterations, burn_in, output_directory and fit_dists fields of "summary"; a failure names "summary" |
| FitConfigLoader.LoadedParameters | fit/src/FitConfigLoader.cc:41-49 | a loaded configuration is consistent, its parameters are exactly the fit_dists names, each with the values of its own section, with no constraints and the summary's settings |
| FitConfigLoader.AddOne | fit/src/FitConfigLoader.cc:48 | one pass of the loop turns the configuration of the loaded map into that of the map with the new parameter |
| FitConfigLoader.AddParams | fit/src/FitConfigLoader.cc:41-49 | the loop succeeds exactly when every name loads; the loaded map has exactly the names as keys, each with its own section's values, and the configuration holds them |
| FitConfigLoader.LoadActiveOk | fit/src/FitConfigLoader.cc:16-52 | a loaded summary and parameters that all load determine the configuration LoadActive returns |
| FitConfigLoader.LoadActiveFails | fit/src/FitConfigLoader.cc:41-46 | a listed parameter that does not load makes LoadActive fail |
| FitConfigLoader.LoadActive | fit/src/FitConfigLoader.cc:16-52 | LoadActive succeeds exactly when the summary and every listed parameter load, and returns a fresh configuration holding exactly them |
| SystConfigs.AddedKeepsConsistent | fit/src/SystConfig.cc:56-64 | the unconstrained AddParameter adds exactly the name to all seven maps and leaves the constraints alone, keeping the configuration consistent |
| SystConfigs.AddedConstrainedKeepsConsistent | fit/src/SystConfig.cc:67-77 | the constrained AddParameter adds the name to the parameters and to both constraint maps, keeping the configuration consistent |
| SystConfigs.SystConfig.constructor | fit/src/SystConfig.hh:26-36 | a fresh configuration has no parameters and is consistent |
| SystConfigs.SystConfig.AddParameter | fit/src/SystConfig.cc:56-64 | the new state records nominal, range, mass, bins, observable and type under the name and changes nothing else |
| SystConfigs.SystConfig.SetRange | fit/src/SystConfig.cc:58-60 | (a helper of the model, not a method of the C++ class: the first half of AddParameter's body) only nominal, minimum and maximum of the name change |
| SystConfigs.SystConfig.SetShape | fit/src/SystConfig.cc:61-64 | (a helper of the model, not a method of the C++ class: the second half of AddParameter's body) only mass, bin count, observable and type of the name change |
| SystConfigs.SystConfig.AddConstrainedParameter | fit/src/SystConfig.cc:67-77 | the new state records every field of the parameter and its constraint mean and sigma |
| SystConfigLoader.LoadConstraint | fit/src/SystConfigLoader.cc:48-55 | the constraint is present exactly when both fields load; a missing field (the caught ConfigFieldMissing) leaves the parameter unconstrained; any other failure is an error |
| SystConfigLoader.LoadParamFields | fit/src/SystConfigLoader.cc:40-50 | a parameter loads exactly when its seven fields load and its constraint loads or is missing, and carries the values read |
| SystConfigLoader.ActiveNames | fit/src/SystConfigLoader.cc:18-36 | the names loaded are the active set, or every non-summary section when it holds "all" |
| SystConfigLoader.LoadedConstraints | fit/src/SystConfigLoader.cc:38-56 | a loaded configuration is consistent, its parameters are exactly the active names, and a parameter is constrained exactly when both constraint fields load |
| SystConfigLoader.ActiveListed | fit/src/SystConfigLoader.cc:20 | without "all", the loaded parameters are exactly the listed ones |
| SystConfigLoader.WithParamsEmpty | fit/src/SystConfigLoader.cc:15 | the configuration of no parameters is the default-constructed one |
| SystConfigLoader.WithParamsAdd | fit/src/SystConfigLoader.cc:51-54 | adding a new parameter by the overload its constraint selects gives the configuration of the extended map |
| SystConfigLoader.MapOf | fit/src/SystConfigLoader.cc:38-39 | the parameters keyed by name have exactly the listed names as keys |
| SystConfigLoader.BuildIsWithParams | fit/src/SystConfigLoader.cc:38-56 | adding distinct parameters one by one yields the configuration holding all of them, whatever the order |
| SystConfigLoader.StepAdds | fit/src/SystConfigLoader.cc:48-55 | one loop step with a new name extends the configuration by that parameter |
| SystConfigLoader.MapOfLoads | fit/src/SystConfigLoader.cc:38-46 | every parameter kept under a name is the one that name loads to |
| SystConfigLoader.AddOne | fit/src/SystConfigLoader.cc:48-55 | a parameter with a loaded constraint goes through the constrained overload, any other through the unconstrained one |
| SystConfigLoader.AddParams | fit/src/SystConfigLoader.cc:38-56 | the loop succeeds exactly when every name loads; the result maps exactly the names to what they load to, and the configuration holds them |
| SystConfigLoader.AddNext | fit/src/SystConfigLoader.cc:38-56 | one pass of the loop extends the configuration built so far by name i |
| SystConfigLoader.BuildStep | fit/src/SystConfigLoader.cc:38-56 | building from one more name is one more step |
| SystConfigLoader.LoadedAll | fit/src/SystConfigLoader.cc:38-56 | sorted distinct names with loaded parameters build the configuration of their map |
| SystConfigLoader.LoadActiveSpecOf | fit/src/SystConfigLoader.cc:13-59 | the active names and their loaded parameters determine the configuration returned |
| SystConfigLoader.LoadActiveFails | fit/src/SystConfigLoader.cc:38-47 | an active parameter that does not load makes the load fail |
| SystConfigLoader.LoadActive | fit/src/SystConfigLoader.cc:13-59 | LoadActive succeeds exactly when the active list and every active parameter load, and returns a fresh configuration holding exactly them |
| EventConfigs.EventConfig.constructor | fit/src/EventConfig.hh:9 | a fresh record has rate -1, no generated events and empty strings |
| EventConfigs.EventConfig.SetRate | fit/src/EventConfig.cc:9-11 | only the rate changes; GetRate returns it |
| EventConfigs.EventConfig.SetNGenerated | fit/src/EventConfig.cc:19-22 | only the generated count changes |
| EventConfigs.EventConfig.SetNtupFiles | fit/src/EventConfig.cc:30-32 | only the ntuple file list changes |
| EventConfigs.EventConfig.SetTexLabel | fit/src/EventConfig.cc:40-42 | only the label changes |
| EventConfigs.EventConfig.SetName | fit/src/EventConfig.cc:50-52 | only the name changes |
| EventConfigs.EventConfig.SetNtupBaseDir | fit/src/EventConfig.cc:60-62 | only the base directory changes |
| EventConfigs.EventConfig.SetPrunedPath | fit/src/EventConfig.cc:70-72 | only the pruned path changes, and GetPrunedPath returns it |
| EventConfigs.HoldsAdd | fit/src/EventConfigLoader.cc:58 | storing a configuration object under a key stores its record under that key |
| EventConfigLoader.LoadOneFields | fit/src/EventConfigLoader.cc:14-41 | a section loads exactly when both summary directories and its four fields load; the record carries them, its own name and the pruned path dir + name + ".root" |
| EventConfigLoader.ActiveNames | fit/src/EventConfigLoader.cc:49-58 | the names loaded are every non-summary section when the list holds "all", otherwise exactly the listed names |
| EventConfigLoader.ActiveAllDelegates | fit/src/EventConfigLoader.cc:53-54 | "all" in the active list makes LoadActive return what LoadAll returns |
| EventConfigLoader.ActiveKeysAreListed | fit/src/EventConfigLoader.cc:56-58 | without "all", the loaded keys are exactly the listed names, duplicates collapsing |
| EventConfigLoader.LoadAllKeys | fit/src/EventConfigLoader.cc:68-79 | LoadAll loads every section except "summary" |
| EventConfigLoader.LoadOne | fit/src/EventConfigLoader.cc:14-41 | the method returns a fresh object holding the record the section loads to, or the first field's error |
| EventConfigLoader.LoadNames | fit/src/EventConfigLoader.cc:56-58 | the loop succeeds exactly when every name loads, and the map holds each name's record; a failure is some listed name's error |
| EventConfigLoader.LoadAll | fit/src/EventConfigLoader.cc:68-79 | LoadAll succeeds exactly when every non-summary section loads, holding their records |
| EventConfigLoader.LoadActive | fit/src/EventConfigLoader.cc:44-61 | LoadActive succeeds exactly when the list and each active section load, holding their records |
| CutConfigLoader.LoadOne | fit/src/CutConfigLoader.cc:14-31 | a cut loads exactly when value, type and obs load, and carries them and its own name; a failure names its section |
| CutConfigLoader.LoadedCutsNamed | fit/src/CutConfigLoader.cc:34-51 | every loaded cut carries its key as name, and without "all" the keys are exactly the listed names |
| CutConfigLoader.LoadNames | fit/src/CutConfigLoader.cc:46-48 | the loop succeeds exactly when every listed cut loads, and returns each listed name's cut |
| CutConfigLoader.LoadAll | fit/src/CutConfigLoader.cc:58-69 | LoadAll loads exactly the non-summary sections and never "summary" |
| CutConfigLoader.LoadActive | fit/src/CutConfigLoader.cc:34-51 | LoadActive returns the listed cuts, or every non-summary one when the list holds "all" |
| Binned.SumScale | fit/build_azimov.cc:84 | scaling a distribution scales its integral by the same factor |
| Binned.SumAdd | fit/build_azimov.cc:90 | adding two distributions adds their integrals |
| Binned.Truncate | fit/build_azimov.cc:77 | conversion to an integer truncates toward zero |
| SumPdfs.AveragingConservesSum | fit/sum_pdfs.cc:94-119 | replacing each cell of a block by the block mean leaves the block's sum unchanged |
| SumPdfs.SumBlock | fit/sum_pdfs.cc:94-106 | the accumulated content is the sum of the 25 PSD cells of the block |
| SumPdfs.FillBlock | fit/sum_pdfs.cc:109-119 | every PSD cell of the block holds the value and no other bin changes |
| SumPdfs.AverageBlock | fit/sum_pdfs.cc:90-120 | every cell of the block holds the mean of the block's original cells; other bins are untouched |
| SumPdfs.AverageOutsideRoi | fit/sum_pdfs.cc:87-122 | every treated cell holds its block's mean, cells of skipped energy bins and bins outside the grid are unchanged, and every treated block keeps its sum |
| SumPdfs.CountZerosIsCardinality | fit/sum_pdfs.cc:247-253 | the zero count is the number of empty bins, at most the number of bins |
| SumPdfs.CountZeroBins | fit/sum_pdfs.cc:247-253 | the count is the number of bins whose content is zero |
| Binned.Normalised | fit/sum_pdfs.cc:241 | a normalised distribution has the same number of bins, sums to 1, and each bin times the original integral gives back the original content |
| Binned.NormalisedIdempotent | fit/sum_pdfs.cc:241 | normalising an already normalised distribution changes nothing |
| SumPdfs.NormaliseIfNonEmpty | fit/sum_pdfs.cc:239-243 | when the bin sum is nonzero the contents become the normalised distribution and sum to 1; a distribution whose bin sum is 0 (an all-empty one included) is left unchanged |
| SumPdfs.SumPdf | fit/sum_pdfs.cc:66-254 | the pre-averaging copy is appended to the list, the averaged buffer is normalised (and then sums to 1) exactly when its bin sum is nonzero, and kept otherwise, and the zero count is that of the result |
| Azimov.AssignedNGen | fit/build_azimov.cc:73 | the unsigned long assigned from n_generated is below 2^64 and congruent to n_generated modulo 2^64 |
| Azimov.NGen | fit/build_azimov.cc:71-78 | nGen is the entry count when n_generated is 0, otherwise the assigned unsigned long times the scale (exactly), truncated, and undefined when out of range |
| Azimov.NGenUnscaled | fit/build_azimov.cc:72-78 | with scale 1 a positive n_generated is used as is |
| Azimov.NGenNegativeWraps | fit/build_azimov.cc:73 | assigning a negative n_generated to the unsigned nGen gives 2^64 + n_generated |
| Azimov.ScaleFactor | fit/build_azimov.cc:84 | the scale factor exists exactly when nGen is nonzero, and times nGen gives liveTime × rate |
| Azimov.ExpectedCount | fit/build_azimov.cc:82-84 | a type's expected count times nGen is liveTime × rate × the integral of its distribution |
| Azimov.ZeroRateSkipped | fit/build_azimov.cc:80-81 | a type with rate 0 leaves the accumulator unchanged |
| Azimov.NoGeneratedSkipped | fit/build_azimov.cc:88-96 | a type with nGen 0, whose scaled integral is not a number, is skipped |
| Azimov.TemplateRescaled | fit/build_azimov.cc:112 | scaling a template by the target over its own integral gives it exactly the target integral |
| Azimov.PlaceIntegral | fit/build_azimov.cc:88-120 | adding a type adds its integral to the Asimov integral, and the accumulator stays default-constructed until its axes are set |
| Azimov.TotalIsExpected | fit/build_azimov.cc:67-123 | the Asimov integral is the sum over types of their expected counts |
| Azimov.BinsAreScaledSums | fit/build_azimov.cc:60-92 | without loadPDF the Asimov has the configured axes and each bin is the sum of that bin of the scaled distributions |
| Azimov.AxesFromFirstTemplate | fit/build_azimov.cc:103-111 | with loadPDF the axes are those of the first template loaded, or the distribution stays default-constructed when none is |
| Azimov.AddTo | fit/build_azimov.cc:90 | adding a distribution succeeds exactly when its binning equals the Asimov's, and keeps the axes and the bin count |
| Azimov.StepIntegral | fit/build_azimov.cc:80-120 | one event type raises the Asimov integral by exactly its expected count |
| Azimov.StepAxes | fit/build_azimov.cc:103-111 | with loadPDF the axes are set by the first type that loads a template and never change afterwards |
| Azimov.StepBins | fit/build_azimov.cc:88-92 | without loadPDF each bin grows by that bin of the type's scaled distribution, and the axes stay |
| Azimov.AddType | fit/build_azimov.cc:68-120 | the loop body computes exactly one step of the accumulation, or the failure that step meets |
| Azimov.BuildAzimov | fit/build_azimov.cc:57-127 | the result is the accumulation over the active types in name order, and a ROOT file is written exactly when it succeeds with fewer than three dimensions |
| Hpd.UpStopUnique | fit/MakePlots.cc:595-600 | the stopping bin of the upward walk is determined by the histogram |
| Hpd.WalkUp | fit/MakePlots.cc:595-600 | the upward walk stops at the first bin where half the coverage is reached or the overflow is passed, and its sum is the content from the peak up to there |
| Hpd.WalkDown | fit/MakePlots.cc:605-611 | the downward walk stops at the first bin where half the coverage is reached or the underflow is passed, and its sum is the content from there up to the peak |
| Hpd.DownStopUnique | fit/MakePlots.cc:605-611 | the stopping bin of the downward walk is determined by the histogram |
| Hpd.TwoSidedWalk | fit/MakePlots.cc:613-639 | the two-sided walk stops at the first pair that would pass the coverage (adding its larger side) or at the histogram edge, having covered every earlier pair |
| Hpd.TwoSidedStopUnique | fit/MakePlots.cc:613-639 | the final bins, sum and last pair read of the two-sided walk are determined by the histogram |
| Hpd.MaximumBin | fit/MakePlots.cc:584 | the result is the first ordinary bin of largest content |
| Hpd.GetHPD | fit/MakePlots.cc:581-653 | the central value is the maximum bin's centre, the errors are the distances the three walks reach, and all errors are non-negative |
| MakePlots.ParameterBranches | fit/MakePlots.cc:118-131 | the parameter branches are exactly the branches not starting with LogL, Accepted or Step |
| MakePlots.ParameterBranchesAppend | fit/MakePlots.cc:118-131 | the filter keeps the branches' relative order |
| MakePlots.Store | fit/MakePlots.cc:129 | writing a name into the next free slot appends it to the stored names |
| MakePlots.SelectBranches | fit/MakePlots.cc:118-131 | the first npar slots of the buffer hold the parameter branches in chain order |
| MakePlots.BurnIn | fit/MakePlots.cc:97 | the burn-in cut is the maximum step over the cut divisor, truncated toward zero |
| MakePlots.ParLimits | fit/MakePlots.cc:732-756 | the central value is the Asimov rate and the prior the constraint mean; down and up are one constraint sigma from the centre, clipped to the parameter's minimum and maximum |
| MakePlots.Normalise | fit/MakePlots.cc:263-276 | for a nonzero Asimov value the eight summary values are divided by it; otherwise the three central values move up by one |
| MakePlots.FillCorrelation | fit/MakePlots.cc:181-365 | the correlation matrix is symmetric with a unit diagonal, holding the correlation factors when correlations are drawn and zeros otherwise |
| MakePlots.PrefitValue | fit/MakePlots.cc:770-786 | the prefit bin is the constraint relative to the Asimov rate, 1 without a constraint, and the constraint mean + 1 for a zero rate |
| MakePlots.Rename | fit/MakePlots.cc:714-715 | only the first '-' becomes '_', and nothing else changes |
| MakePlots.RekeyKeys | fit/MakePlots.cc:712-721 | the rekeyed map's keys are exactly the renamed keys |
| MakePlots.RekeyLastWins | fit/MakePlots.cc:712-721 | when two keys rename alike, the later key's value wins |
| MakePlots.RekeyInjective | fit/MakePlots.cc:712-721 | when no two keys rename alike, every value moves to its key's new name |
| MakePlots.PlotInputs.constructor | fit/MakePlots.cc:35-39 | the global parameter maps start empty |
| MakePlots.PlotInputs.LoadInputVals | fit/MakePlots.cc:694-727 | the five maps become the Asimov rates and the configuration's constraint, minimum and maximum maps, rekeyed over the renamed minima keys in key order |
| MakePlots.PlotInputs.GetParLimits | fit/MakePlots.cc:732-756 | the limits are those of the maps before the call, and each map gains the name with 0 when it lacked it |
| MakePlots.PlotInputs.ParameterLimits | fit/MakePlots.cc:207-215 | parameter i's limits are those of the maps as loaded, whatever names earlier calls added |
| MakePlots.PlotInputs.PairLimits | fit/MakePlots.cc:325-333 | the calls for the correlation pairs of parameter i leave the maps as the earlier calls left them |
| MakePlots.PlotInputs.NextLimits | fit/MakePlots.cc:207-365 | one pass of the parameter loop collects parameter i's limits from the maps as loaded |
| MakePlots.PlotInputs.LimitsPass | fit/MakePlots.cc:207-365 | the limits of each parameter are those of the maps as loaded, and the maps gain every branch name |
| MakePlots.PrefitLabelsEveryParameter | fit/MakePlots.cc:763-790 | every parameter gets a labelled bin exactly when there are no more parameters than the nPar bins |
| MakePlots.EmptyPrefit | fit/MakePlots.cc:763-767 | the new histogram has nPar bins plus under- and overflow, all 0 and unlabelled |
| MakePlots.PlaceParameter | fit/MakePlots.cc:769-790 | one pass of the fill loop places the next parameter: its content in its bin, its label only in an ordinary bin, its error when its constraint mean is nonzero, and nothing past the overflow bin |
| MakePlots.ReadStep | fit/MakePlots.cc:770-785 | reading one more parameter with operator[] adds it to the rates and means, and to the sigmas only for a nonzero mean |
| MakePlots.PlotInputs.ReadParameter | fit/MakePlots.cc:770-785 | one pass's operator[] reads change the three maps as ReadStep says and nothing else |
| MakePlots.PlotInputs.MakePrefit | fit/MakePlots.cc:760-790 | a histogram of nPar bins (1 when nPar <= 0): bin k+1 holds the k-th parameter of the minima in key order with its prefit value and error, labelled with its name when k < nPar; the parameter at k = nPar lands in the overflow bin without a label, later ones are dropped, and bins without a parameter stay 0; the rates and means gain every parameter with 0, the sigmas every parameter with a nonzero mean, and the minima and maxima stay |
| MakePlots.WithDefault | fit/MakePlots.cc:739-741 | operator[] on a missing name adds it with 0 and changes no lookup |
| MakePlots.ParLimitsOfDefaults | fit/MakePlots.cc:738-741 | reading limits from maps that operator[] has extended gives the limits of the original maps |
| MakePlots.DefaultsOfKnownNames | fit/MakePlots.cc:738-741 | branch names already in the maps add nothing to them |
| LlhScan.HistogramPathExtension | fit/llh_scan.cc:88 | a path with a '.' is read as a histogram exactly when it ends in ".h5" |
| LlhScan.KeptObservables | fit/llh_scan.cc:110-127 | "3d" keeps energy, r and timePSD, "2d" keeps energy and r, and anything else marginalises nothing |
| LlhScan.FittedData | fit/llh_scan.cc:110-127 | the fitted data is the marginalisation for 3d and 2d and the loaded data otherwise |
| LlhScan.RegisterConstraints | fit/llh_scan.cc:140-142 | every constraint is registered in key order with its sigma, and the at() lookup fails exactly when a mean lacks a sigma |
| LlhScan.StartValues | fit/llh_scan.cc:157-164 | every parameter starts at its Asimov rate, except constrained ones, which start at their constraint mean |
| LlhScan.FillContents | fit/llh_scan.cc:159-163 | a filling loop adds its keys with their values and keeps every other entry |
| LlhScan.ScanPointAbsolute | fit/llh_scan.cc:181-198 | the nominal value cancels: the points are the bin centres of 150 equal bins over [min, max] |
| LlhScan.ScanPointsOrdered | fit/llh_scan.cc:181-198 | for min < max the scan points increase strictly and lie strictly inside (min, max) |
| LlhScan.ReportsStep | fit/llh_scan.cc:193-195 | point i is reported exactly when i is a multiple of 30 |
| LlhScan.ScanParameter | fit/llh_scan.cc:191-212 | 150 points; point i is the likelihood with only the scanned parameter set to the i-th scan point; progress is reported at points 0, 30, 60, 90 and 120; the dictionary is restored, with the name added at 0 when it was absent |
| LlhScan.ScanOne | fit/llh_scan.cc:171-217 | a parameter is scanned as ScanParameter does, with no scan when its Asimov rate is 0; the dictionary is unchanged |
| LlhScan.ScanAll | fit/llh_scan.cc:171-217 | every parameter of the minima is scanned in key order from the start dictionary |
| LlhScan.Run | fit/llh_scan.cc:135-217 | the run succeeds exactly when every constrained parameter has a sigma, and then scans every parameter from the start dictionary |
| SplitHalf.FillMatchesColumns | fit/split_half.cc:39-47 | every filled value sits under the column of the branch it was read from |
| SplitHalf.ToFirstIff | fit/split_half.cc:48 | entry i goes to the first output exactly when i < frac × n |
| SplitHalf.FirstCountSplits | fit/split_half.cc:45-54 | the entries sent to the first output are exactly a prefix, of FirstCount entries |
| SplitHalf.NoFraction | fit/split_half.cc:48 | a fraction of zero or below sends everything to the second output |
| SplitHalf.WholeFraction | fit/split_half.cc:48 | a fraction above (n - 1) / n sends everything to the first output |
| SplitHalf.SplitInTwo | fit/split_half.cc:45-54 | the first output holds the prefix and the second the rest, so together they hold every entry in order |
| SplitHalf.Jobs | fit/split_half.cc:90-95 | one job per active event type, in name order, splitting its pruned file into the two directories |
| SplitHalf.Launch | fit/split_half.cc:73-79 | the usage line is printed exactly when there are not four arguments; the arguments are read when there are at least four |
| SplitHalf.ExtraArgumentsDoNotStop | fit/split_half.cc:73-75 | extra arguments print the usage line and the split still runs |
| Overlay.Added | fit/bin/overlay.py:10 | TH1::Add sums bin-wise for equal binnings and leaves the histogram as it was otherwise |
| Overlay.Histo.Add | fit/bin/overlay.py:10 | the histogram's contents become the sum with the other's |
| Overlay.Histo.constructor | fit/bin/overlay.py:20-24 | a histogram read from a file holds the given contents |
| Overlay.Grouper.constructor | fit/bin/overlay.py:5-6 | a new grouper has no groups |
| Overlay.Grouper.Add | fit/bin/overlay.py:8-12 | an existing group's histogram gains the contents; a new group stores the histogram itself |
| Overlay.AssignGroup | fit/bin/overlay.py:14-18 | the group is the plot_group option, or the name when there is none; a missing section raises |
| Overlay.BeforeFirst | fit/bin/overlay.py:61 | the result is the text before the first occurrence of the pattern |
| Overlay.InputPaths | fit/bin/overlay.py:60 | there are no more inputs than listed paths |
| Overlay.InputPathsMembers | fit/bin/overlay.py:60 | the inputs are exactly the listed paths not ending in "data.root" |
| Overlay.InputPathsSingle | fit/bin/overlay.py:60 | a single path is kept exactly when it does not end in "data.root" |
| Overlay.InputPathsAppend | fit/bin/overlay.py:60 | the filter keeps order and duplicates: the inputs of two concatenated lists are the inputs of each, in order |
| Overlay.InputNameDropsExtension | fit/bin/overlay.py:61 | a distribution's name is its basename without ".root" |
| Overlay.GroupSumIsBinwiseSum | fit/bin/overlay.py:74-76 | with equal binnings a group holds the bin-wise sum of its members |
| Overlay.GroupAll | fit/bin/overlay.py:74-76 | the grouper has exactly the groups; each group's histogram is its first member's, holding the sum of the members; every other member's histogram keeps its original contents |
| Overlay.EventGroupsDefined | fit/bin/overlay.py:70 | every name gets a group exactly when every name has a section, and the group is assign_group's |
| Overlay.EventLabelsDefined | fit/bin/overlay.py:71 | the labels exist exactly when every name has a tex_label |
| Overlay.UpdateLabels | fit/bin/overlay.py:82-90 | a group with a plot section takes its tex_label, or keeps or gets its own name without one; labels of other groups are unchanged |
| Overlay.PlotOrder | fit/bin/overlay.py:93 | the order exists exactly when the option does, and joining it with commas gives the option back |
| Overlay.PresentMembers | fit/bin/overlay.py:29-34 | the kept names are exactly the listed names that have histograms |
| Overlay.PresentReverse | fit/bin/overlay.py:39-43 | filtering the reversed order is reversing the filtered order |
| Overlay.Stack | fit/bin/overlay.py:26-44 | the stack holds the listed groups that have histograms, in order, and the legend holds those that also have labels, in reverse order |
| Overlay.StackLayers | fit/bin/overlay.py:29-37 | the stack holds the listed groups with histograms, in order |
| Overlay.LegendEntries | fit/bin/overlay.py:39-43 | the legend holds the listed groups with histograms and labels, from last to first |
| Overlay.LegendMirrorsStack | fit/bin/overlay.py:26-44 | when every group has a label, the legend lists the stacked histograms in reverse |
| Overlay.StackTotal | fit/bin/overlay.py:112 | the stack's top histogram exists exactly when some layer was added, and has the last layer's binning |
| Overlay.StackTotalIsBinwiseSum | fit/bin/overlay.py:112 | with equal binnings each bin of the stack's top histogram is the sum of that bin over the layers |
| Overlay.ChiSquare | fit/bin/overlay.py:113-118 | the loop's result is the chi-square over bins 1..N, skipping bins where the stack is empty |
| Overlay.ChiNonNegative | fit/bin/overlay.py:113-118 | with non-negative stack contents the chi-square is non-negative |
| Overlay.ChiZeroWhenMatching | fit/bin/overlay.py:113-118 | data equal to the stack gives chi-square 0 |
| Overlay.ChiIgnoresEmptyBins | fit/bin/overlay.py:115-118 | the data in bins where the stack is empty do not enter the chi-square |
| Overlay.GroupsWithinNdf | fit/bin/overlay.py:121 | there are never more groups than the reported degrees of freedom |
| LiveTime.Trim | rates/lt_equivalent.py:8 | the trimmed mantissa is a prefix of the mantissa that does not end in '.'; what is removed is a run of points followed by the whole trailing run of zeros, and the points removed are the whole run before those zeros |
| LiveTime.TrimUnique | rates/lt_equivalent.py:8 | that description determines the result: any prefix meeting it is the trimmed mantissa |
| LiveTime.FormatE | rates/lt_equivalent.py:6-8 | format_e is defined exactly when the text has an 'E' |
| LiveTime.FormatEKeepsExponent | rates/lt_equivalent.py:6-8 | the exponent is kept verbatim and only the mantissa is trimmed |
| LiveTime.TrimKeepsIntegerZeros | rates/lt_equivalent.py:8 | trailing zeros are stripped before the point, so "10.000000" becomes "10" |
| LiveTime.EquivalentTimesRate | rates/lt_equivalent.py:22-25 | a nonzero rate times the equivalent gives the count back; a zero rate gives -1 |
| LiveTime.LtEquivs | rates/lt_equivalent.py:13-27 | the keys are the rates' keys; every rate gets count/rate (or -1 for rate 0), the count being n_generated when that is given and the counted events otherwise; a KeyError is raised exactly when some rate lacks a count or an n_generated entry |
| LiveTime.ParentDirOf | rates/lt_equivalent.py:38 | the piece before the last '/' is the parent directory's name |
| LiveTime.ParentDirs | rates/lt_equivalent.py:38 | the parent directories exist exactly when every path has a '/', otherwise IndexError |
| LiveTime.CountsOf | rates/lt_equivalent.py:40 | the counts exist exactly when every directory has an entry with two values, and are their second values |
| LiveTime.LoadCountNoFiles | rates/lt_equivalent.py:35-36 | an empty ntup_files counts 0 events |
| LiveTime.LoadCountOfDirs | rates/lt_equivalent.py:33-42 | files listed with commas count the sum of their directories' counts |
| LiveTime.RateOf | rates/lt_equivalent.py:71-78 | a section gives its rate, and its n_generated or None when the option is missing |
| LiveTime.LoadRates | rates/lt_equivalent.py:58-80 | it succeeds exactly when every non-summary section has a parseable rate (and n_generated where given), with those values; otherwise the error is some section's |
| LiveTime.LoadCounts | rates/lt_equivalent.py:45-56 | every non-summary section gets its count, or some section's error is raised |
| LiveTime.Insert | rates/lt_equivalent.py:97 | insertion keeps the items' multiset and their order by value |
| LiveTime.SortByValue | rates/lt_equivalent.py:97 | the sorted items are a permutation of the items, ordered by value in the requested direction |
| LiveTime.ReportLines | rates/lt_equivalent.py:103 | the report has one line per item |
| AlphaN.Clean | data_manip/clean_alpha_n.cpp:28-52 | one verdict per entry after the first: an entry passes exactly when neither it nor its predecessor is flagged, so the second entry always fails |
| AlphaN.CloseEnergeticPairFails | data_manip/clean_alpha_n.cpp:41-45 | a close pair of energetic entries fails, and so does the entry after it |
| Triggers.Bucket | data_manip/count_triggers.py:9 | the slot index of evIndex + 1, wrapping for negative values as Python does, and defined exactly for -11..8 |
| Triggers.CountEvIndices | data_manip/count_triggers.py:7-10 | the ten buckets count the entries of each slot, and an out-of-range index raises |
| Triggers.BucketsCountAll | data_manip/count_triggers.py:7-10 | with every index in range the buckets count every entry once |
| Triggers.BucketHoldsIndex | data_manip/count_triggers.py:9 | with every index in -1..8, the bucket labelled k counts exactly the entries with index k |
| Triggers.LabelledCountsIndex | data_manip/count_triggers.py:20-21 | with every index in -1..8, each line i - 1, count of the first table gives the number of entries whose index is i - 1 |
| Triggers.RunningTotals | data_manip/count_triggers.py:23-26 | the second table pairs each bucket with the running total up to it |
| Triggers.RunningTotalsGrow | data_manip/count_triggers.py:23-26 | with non-negative counts the running totals never decrease and the last one is the total |
| Separate.LongestCapture | data_manip/separate.py:15 | the longest run without white space that ends just before "_r" |
| Separate.Search | data_manip/separate.py:15 | re.search finds the leftmost match and the longest capture there, or none exists |
| Separate.ReadEventType | data_manip/separate.py:9-18 | the event type exists exactly when the pattern matches, otherwise ValueError |
| Separate.EventTypeOccurs | data_manip/separate.py:9-18 | the event type is a non-empty run without white space between "TeLoaded" and "_r" |
| Separate.EventTypeLeftmostGreedy | data_manip/separate.py:15 | the match is the leftmost one, with the longest capture there |
| Separate.NewDirs | data_manip/separate.py:28-29 | exactly the destinations not existing beforehand are created, each once |
| Separate.MovedIntoMadeDirs | data_manip/separate.py:29-33 | every file is moved into a directory that existed beforehand or was created no later than its move |
| Separate.HandleFile | data_manip/separate.py:27-33 | handling one file with an event type extends the created directories by its destination when that is new, and the moves by that file unless on a dry run |
| Separate.SeparateOutFiles | data_manip/separate.py:20-33 | it succeeds exactly when every file has an event type; each file goes to the directory joined with its event type; the directories not existing before are created once each, in order, also on a dry run; each file is moved there, in order, only when not on a dry run; the first file without an event type raises ValueError after the earlier files were handled |
| CountProd.FormatRowLayout | data_manip/count_prod.py:55 | a line is at least 86 characters long, starts with the name and has its separator at column 40 when the name fits |
| CountProd.FormatResultLines | data_manip/count_prod.py:50-55 | the table has one line per row |
| CountProd.ExamineDirectory | data_manip/count_prod.py:25-40 | one row per visited directory, in walk order: its basename, the number of .root files directly in it, and their events, which are counted only when there is a file (0 otherwise) |
| CountProd.ExaminePath | data_manip/count_prod.py:57-66 | a directory is walked as ExamineDirectory states; anything else gives, as examine_files does, the single row of the pattern's basename, the number of files it matches and their events |

## Left out

- Reading and writing files (ROOT, HDF5, JSON, INI text), printing, canvases, colours and
  drawing are not modelled. The model produces the values that would be written, and
  the lists of created directories and moved files.
- ROOT and OXSX are not part of this model: distribution building with cuts,
  marginalisation, likelihood evaluation, histogram projection and the correlation factor,
  the sampler (`fit_dataset.cc`), the Gaussian fits of MakePlots, `GetGaussian`
  and `Smooth`. Each is a function parameter or is left out.
- Floating point is modelled by exact reals.
  - NaN and infinities are modelled only where a branch tests for them: nGen 0 in
    build_azimov, the zero denominators of GetHPD, the zero-rate case of llh_scan.
  - Float_t narrowing of the split_half outputs is not modelled.
- The second PSD pass of sum_pdfs (fit/sum_pdfs.cc:124-168) is live code that does not compile
  as written, so only the first pass is modelled. Lines 126-129 declare `axCol`, `axE`, `lowEBin`
  and `highEBin` again in the scope of lines 82-85, and line 158 uses `iEBin` outside the loop
  that declares it. The comment block that follows starts at line 171.
- `EventConfig::GetPrunedPath`/`SetPrunedPath` use a field `fPrunedDir` the header does not
  declare. The model stores the pruned path in its own field.
- Fields the `.cc` files use but the headers lack are modelled as the `.cc` uses them:
  - `FitConfig`'s constraint maps, step count and epsilon;
  - `EventConfig`'s split path and random split (no loader sets them, so they are not modelled).
- `SystConfig::SetName` is declared but never defined; the model has no setter for the name.
- The INI reader's `DEFAULT` section and value interpolation are not modelled.
- Python `ConfigParser` is case-folding; the model keeps names as given.
- ConfigLoader's parsing of numbers and lists is taken as given: a field either holds a
  value of the requested type or is a failure distinct from a missing field.
- Uninitialised C++ values:
  - `FitConfig`'s scalar settings are taken as zero.
  - `clean_alpha_n`'s `flag2` and `lastEnergy` before the first entry do not matter,
    since the first entry always sets them.
  - The unused `eMin` is left out.
- clean_alpha_n's `UniversalTime` (days, seconds, nanoseconds) is modelled as one real time value.
- AlphaN.Clean: data_manip/clean_alpha_n.cpp does not compile as written, and its `main` never
  calls `Clean`. Lines 15-16 and 32 use `secs` and `nsecs`, but the variables are declared as
  `sec` and `ns`. The model gives `Clean` the behaviour that its body evidently intends.
- Triggers.Labelled: data_manip/count_triggers.py:15-16 call `parser.add_arguments`, which
  argparse does not have. As written, the script raises AttributeError before printing either
  table. `Triggers.Labelled` and `Triggers.RunningTotals` model the two tables that lines 19-26
  would print once the parser is built.
- Azimov.NGen / Azimov.NGenNegativeWraps: the product of line 77 is exact in the model. The
  source converts the unsigned long to a double, which rounds any value above 2^53. A negative
  n_generated n wraps to 2^64 + n at line 73, and the double then rounds that to a multiple of
  2048 (n = -3000 gives 2^64 - 2048). For -1024 <= n < 0 it rounds to 2^64 itself, and
  converting that back to unsigned long is undefined behaviour. NGenNegativeWraps therefore
  states the wrap of the assignment at line 73 only, not the value after line 77.
- Azimov.NGen: the nGen = 0 case is modelled as a skipped type. The source divides by zero
  there and then skips on the NaN integral; an infinite rate/nGen quotient is not modelled.
- Azimov.AddType: a template whose integral is 0 is modelled as a `ZeroTemplate` failure that
  stops the build. In the source the rescaling at fit/build_azimov.cc:112 divides by zero,
  which makes the template NaN. The source then prints "ahhhh!" at lines 113-116, adds the
  NaN template anyway and keeps looping, so the Asimov data set comes out NaN.
- Azimov.AddTo: adding distributions with different binnings is a `BinningMismatch` failure,
  not whatever the external Add does.
- LlhScan.ScanOne: a parameter with Asimov rate 0 is modelled as not scanned. The source
  still builds a histogram over an infinite range and evaluates NaN points.
- LlhScan.Run: the likelihood engine (`Evaluate`, `SetParameters`) is a function of the
  parameter dictionary; its internal state is not modelled.
- SystConfigLoader.AddParams: takes the per-name loader as a function argument rather than
  reading the loader object's file.
- Overlay: the names after `split(".root")` may collide (two paths with the same basename);
  the dictionary keeps the last, and the model assumes distinct names.
- Overlay.ChiSquare: data histograms with a binning other than the stack's are not modelled.
- Overlay.StackTotal: `GetStack()` of an empty stack (no listed group has a histogram) is
  an absent value; ROOT's behaviour there is not modelled.
- JSON count values are taken to be integers: the conversion by `int()` and its ValueError
  are not modelled. Only the option-text conversions `float()`/`int()` (RateOf's
  `parseReal`/`parseInt`) are parameters; `%E` formatting is taken as given text.
- LiveTime.SortByValue: states ordering and permutation, not the stability of Python's sort
  (ties may come out in either order).
- `count_ngen_meta.py`, `make_pdfs.cc` and `split_data.cc` are not part of this model.
- MakePlots' `GetCorrelationFactor` is a function parameter.
- MakePlots.PlotInputs.MakePrefit follows ROOT's documented behaviour for the histogram.
  `SetBinContent` and `SetBinError` accept the overflow bin and ignore bins past it.
  `SetBinLabel` refuses any bin outside 1..nbins. A TH1D asked for `nPar <= 0` bins gets one bin.
- The order of `glob`, `os.walk` and Python dictionaries is a parameter of the model.
- Separate.SeparateOutFiles: `dirname` is the directory after `os.path.abspath`
  (data_manip/separate.py:23); the model takes that absolute path as its argument and does not
  model the conversion itself.
