/** EventConfigLoader: builds one EventConfig per event-type section of the event
    configuration, for the sections listed under summary/active or, when that list
    holds "all", for every section except "summary". */
module EventConfigLoader {
  import opened Wrappers
  import opened ConfigStore
  import opened EventConfigs
  import Ordering
  import opened Maps

  /** What LoadOne reads for one section, in the order it reads it; the first field that
      cannot be loaded aborts the load. */
  function LoadOneSpec(store: Store, name: string): Result<EventRecord, ConfigError>
  {
    var baseDir :- LoadText(store, "summary", "orig_base_dir");
    var prunedDir :- LoadText(store, "summary", "pruned_ntup_dir");
    var rate :- LoadReal(store, name, "rate");
    var nGenerated :- LoadInt(store, name, "n_generated");
    var texLabel :- LoadText(store, name, "texLabel");
    var ntupFiles :- LoadList(store, name, "ntup_files");
    Ok(EventRecord(rate, nGenerated, ntupFiles, texLabel, name, baseDir, prunedDir + name + ".root"))
  }

  /** A section loads exactly when the two summary directories and its four fields
      load, and the record carries them, its name and the pruned path built from them. */
  lemma LoadOneFields(store: Store, name: string)
    ensures var r := LoadOneSpec(store, name);
      r.Ok? <==>
        && LoadText(store, "summary", "orig_base_dir").Ok?
        && LoadText(store, "summary", "pruned_ntup_dir").Ok?
        && LoadReal(store, name, "rate").Ok?
        && LoadInt(store, name, "n_generated").Ok?
        && LoadText(store, name, "texLabel").Ok?
        && LoadList(store, name, "ntup_files").Ok?
    ensures var r := LoadOneSpec(store, name);
      r.Ok? ==>
        && r.value.name == name
        && r.value.prunedPath == LoadText(store, "summary", "pruned_ntup_dir").value + name + ".root"
        && r.value.ntupBaseDir == LoadText(store, "summary", "orig_base_dir").value
        && r.value.rate == LoadReal(store, name, "rate").value
        && r.value.nGenerated == LoadInt(store, name, "n_generated").value
        && r.value.texLabel == LoadText(store, name, "texLabel").value
        && r.value.ntupFiles == LoadList(store, name, "ntup_files").value
  {
  }

  /** The names LoadActive loads: every non-summary section when the active list holds
      "all", the listed names (duplicates collapsed) otherwise. */
  function ActiveNames(store: Store): (r: Result<set<string>, ConfigError>)
    ensures r.Ok? <==> LoadList(store, "summary", "active").Ok?
    ensures r.Ok? && "all" in LoadList(store, "summary", "active").value ==> r.value == NonSummarySections(store)
    ensures r.Ok? && "all" !in LoadList(store, "summary", "active").value ==>
      forall n :: n in r.value <==> n in LoadList(store, "summary", "active").value
  {
    var active :- LoadList(store, "summary", "active");
    if "all" in active then Ok(NonSummarySections(store)) else Ok(set n | n in active)
  }

  /** The records LoadAll returns, or None when a load fails. */
  function LoadAllSpec(store: Store): Option<map<string, EventRecord>>
  {
    LoadEach(NonSummarySections(store), n => LoadOneSpec(store, n))
  }

  /** The records LoadActive returns, or None when a load fails. */
  function LoadActiveSpec(store: Store): Option<map<string, EventRecord>>
  {
    match ActiveNames(store)
    case Err(_) => None
    case Ok(names) => LoadEach(names, n => LoadOneSpec(store, n))
  }

  /** "all" in the active list makes LoadActive return what LoadAll returns. */
  lemma ActiveAllDelegates(store: Store)
    requires LoadList(store, "summary", "active").Ok?
    requires "all" in LoadList(store, "summary", "active").value
    ensures LoadActiveSpec(store) == LoadAllSpec(store)
  {
  }

  /** Without "all", the loaded keys are exactly the listed names, duplicates collapsing. */
  lemma ActiveKeysAreListed(store: Store)
    requires LoadList(store, "summary", "active").Ok?
    requires "all" !in LoadList(store, "summary", "active").value
    requires LoadActiveSpec(store).Some?
    ensures forall n :: n in LoadActiveSpec(store).value <==> n in LoadList(store, "summary", "active").value
  {
  }

  /** LoadAll never loads the "summary" section and loads every other one. */
  lemma LoadAllKeys(store: Store)
    requires LoadAllSpec(store).Some?
    ensures "summary" !in LoadAllSpec(store).value
    ensures forall s :: s in store && s != "summary" ==> s in LoadAllSpec(store).value
  {
  }

  method LoadOne(store: Store, name: string) returns (r: Result<EventConfig, ConfigError>)
    ensures r.Ok? <==> LoadOneSpec(store, name).Ok?
    ensures r.Ok? ==> fresh(r.value) && r.value.Value() == LoadOneSpec(store, name).value
    ensures r.Err? ==> r.error == LoadOneSpec(store, name).error
  {
    var baseDir := LoadText(store, "summary", "orig_base_dir");
    if baseDir.Err? { return Err(baseDir.error); }
    var prunedDir := LoadText(store, "summary", "pruned_ntup_dir");
    if prunedDir.Err? { return Err(prunedDir.error); }
    var rate := LoadReal(store, name, "rate");
    if rate.Err? { return Err(rate.error); }
    var nGenerated := LoadInt(store, name, "n_generated");
    if nGenerated.Err? { return Err(nGenerated.error); }
    var texLabel := LoadText(store, name, "texLabel");
    if texLabel.Err? { return Err(texLabel.error); }
    var ntupFiles := LoadList(store, name, "ntup_files");
    if ntupFiles.Err? { return Err(ntupFiles.error); }

    var retVal := new EventConfig();
    retVal.SetRate(rate.value);
    retVal.SetNGenerated(nGenerated.value);
    retVal.SetNtupFiles(ntupFiles.value);
    retVal.SetTexLabel(texLabel.value);
    retVal.SetName(name);
    retVal.SetNtupBaseDir(baseDir.value);
    retVal.SetPrunedPath(prunedDir.value + name + ".root");
    return Ok(retVal);
  }

  /** The records loading every name of `keys` gives, or None when one fails. */
  function NamesSpec(store: Store, keys: seq<string>): Option<map<string, EventRecord>>
  {
    LoadEach(Names(keys), n => LoadOneSpec(store, n))
  }

  /** Loads every name of `keys` into a fresh map, stopping at the first failure. */
  method LoadNames(store: Store, keys: seq<string>) returns (r: Result<map<string, EventConfig>, ConfigError>)
    ensures r.Ok? <==> NamesSpec(store, keys).Some?
    ensures r.Ok? ==> Holds(r.value, NamesSpec(store, keys).value)
    ensures r.Err? ==> exists k :: k in keys && LoadOneSpec(store, k) == Err(r.error)
  {
    var evMap: map<string, EventConfig> := map[];
    ghost var records: map<string, EventRecord> := map[];
    for i := 0 to |keys|
      invariant evMap.Keys == records.Keys == Names(keys[..i])
      invariant forall k :: k in records ==> LoadOneSpec(store, k) == Ok(records[k])
      invariant Holds(evMap, records)
    {
      var one := LoadOne(store, keys[i]);
      if one.Err? {
        LoadEachFails(Names(keys), n => LoadOneSpec(store, n), keys[i]);
        return Err(one.error);
      }
      NamesExtend(keys, i);
      HoldsAdd(evMap, records, keys[i], one.value);
      evMap := evMap[keys[i] := one.value];
      records := records[keys[i] := one.value.Value()];
    }
    assert keys[..|keys|] == keys;
    LoadEachOf(Names(keys), n => LoadOneSpec(store, n), records);
    return Ok(evMap);
  }

  method LoadAll(store: Store) returns (r: Result<map<string, EventConfig>, ConfigError>)
    ensures r.Ok? <==> LoadAllSpec(store).Some?
    ensures r.Ok? ==> Holds(r.value, LoadAllSpec(store).value)
  {
    var toLoad := Ordering.SortedKeys(NonSummarySections(store));
    assert Names(toLoad) == NonSummarySections(store);
    r := LoadNames(store, toLoad);
  }

  method LoadActive(store: Store) returns (r: Result<map<string, EventConfig>, ConfigError>)
    ensures r.Ok? <==> LoadActiveSpec(store).Some?
    ensures r.Ok? ==> Holds(r.value, LoadActiveSpec(store).value)
  {
    var toLoad := LoadList(store, "summary", "active");
    if toLoad.Err? {
      return Err(toLoad.error);
    }
    if "all" in toLoad.value {
      r := LoadAll(store);
      return;
    }
    r := LoadNames(store, toLoad.value);
  }
}
