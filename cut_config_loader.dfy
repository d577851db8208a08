/** CutConfigLoader: one cut per section of the cut configuration, for the sections
    listed under summary/order or, when that list holds "all", for every section
    except "summary". */
module CutConfigLoader {
  import opened Wrappers
  import opened ConfigStore
  import Ordering
  import opened Maps

  /** A cut as LoadOne fills it: name, value, type and observable (a second value is
      never set by the loader). */
  datatype CutRecord = CutRecord(name: string, value: real, cutType: string, obs: string)

  /** What LoadOne reads for one section; the first field that cannot be loaded aborts. */
  function LoadOne(store: Store, name: string): (r: Result<CutRecord, ConfigError>)
    ensures r.Ok? <==>
      LoadReal(store, name, "value").Ok? && LoadText(store, name, "type").Ok? && LoadText(store, name, "obs").Ok?
    ensures r.Ok? ==> r.value.name == name
    ensures r.Ok? ==> r.value.value == LoadReal(store, name, "value").value
    ensures r.Ok? ==> r.value.cutType == LoadText(store, name, "type").value
    ensures r.Ok? ==> r.value.obs == LoadText(store, name, "obs").value
    ensures r.Err? ==> r.error.section == name
  {
    var value :- LoadReal(store, name, "value");
    var cutType :- LoadText(store, name, "type");
    var obs :- LoadText(store, name, "obs");
    Ok(CutRecord(name, value, cutType, obs))
  }

  /** The cuts loading every name of `names` gives, or None when one fails. */
  function LoadNamesSpec(store: Store, names: set<string>): Option<map<string, CutRecord>>
  {
    LoadEach(names, n => LoadOne(store, n))
  }

  /** The cuts LoadActive returns, or None when a load fails. */
  function LoadActiveSpec(store: Store): Option<map<string, CutRecord>>
  {
    match LoadList(store, "summary", "order")
    case Err(_) => None
    case Ok(order) =>
      if "all" in order then LoadNamesSpec(store, NonSummarySections(store))
      else LoadNamesSpec(store, Names(order))
  }

  /** Loading the listed cuts gives every listed name, and each record carries its own name. */
  lemma LoadedCutsNamed(store: Store)
    requires LoadActiveSpec(store).Some?
    ensures forall n :: n in LoadActiveSpec(store).value ==> LoadActiveSpec(store).value[n].name == n
    ensures "all" !in LoadList(store, "summary", "order").value ==>
      forall n :: n in LoadActiveSpec(store).value <==> n in LoadList(store, "summary", "order").value
  {
  }

  /** Loads every name of `keys` in turn; later duplicates overwrite earlier ones with the
      same record. */
  method LoadNames(store: Store, keys: seq<string>) returns (r: Result<map<string, CutRecord>, ConfigError>)
    ensures r.Ok? <==> LoadNamesSpec(store, Names(keys)).Some?
    ensures r.Ok? ==> r.value == LoadNamesSpec(store, Names(keys)).value
    ensures r.Err? ==> exists k :: k in keys && LoadOne(store, k) == Err(r.error)
  {
    var cutMap: map<string, CutRecord> := map[];
    for i := 0 to |keys|
      invariant cutMap.Keys == Names(keys[..i])
      invariant forall k :: k in cutMap ==> LoadOne(store, k) == Ok(cutMap[k])
    {
      var one := LoadOne(store, keys[i]);
      if one.Err? {
        LoadEachFails(Names(keys), n => LoadOne(store, n), keys[i]);
        return Err(one.error);
      }
      NamesExtend(keys, i);
      cutMap := cutMap[keys[i] := one.value];
    }
    assert keys[..|keys|] == keys;
    LoadEachOf(Names(keys), n => LoadOne(store, n), cutMap);
    return Ok(cutMap);
  }

  method LoadAll(store: Store) returns (r: Result<map<string, CutRecord>, ConfigError>)
    ensures r.Ok? <==> LoadNamesSpec(store, NonSummarySections(store)).Some?
    ensures r.Ok? ==> r.value == LoadNamesSpec(store, NonSummarySections(store)).value
    ensures r.Ok? ==> "summary" !in r.value
  {
    var toLoad := Ordering.SortedKeys(NonSummarySections(store));
    assert Names(toLoad) == NonSummarySections(store);
    r := LoadNames(store, toLoad);
  }

  method LoadActive(store: Store) returns (r: Result<map<string, CutRecord>, ConfigError>)
    ensures r.Ok? <==> LoadActiveSpec(store).Some?
    ensures r.Ok? ==> r.value == LoadActiveSpec(store).value
  {
    var toLoad := LoadList(store, "summary", "order");
    if toLoad.Err? {
      return Err(toLoad.error);
    }
    if "all" in toLoad.value {
      r := LoadAll(store);
      return;
    }
    r := LoadNames(store, toLoad.value);
  }
}
