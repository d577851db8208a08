/** The configuration files every loader reads, as the loaders see them through
    ConfigLoader::Load and ConfigLoader::ListSections: sections of named fields
    whose values are already parsed into the type the field holds. */
module ConfigStore {
  import opened Wrappers

  datatype Value =
    | RealValue(r: real)
    | IntValue(i: int)
    | TextValue(s: string)
    | ListValue(items: seq<string>)

  /** section name -> field name -> value */
  type Store = map<string, map<string, Value>>

  /** FieldMissing is the ConfigFieldMissing exception; BadValue is a present field
      whose value cannot be read as the requested type. */
  datatype ConfigError = FieldMissing(section: string, key: string) | BadValue(section: string, key: string)

  predicate Has(store: Store, section: string, key: string) {
    section in store && key in store[section]
  }

  /** The error for a field that cannot be read as the requested type. */
  function Failure(store: Store, section: string, key: string): (e: ConfigError)
    ensures e.FieldMissing? <==> !Has(store, section, key)
    ensures e.section == section && e.key == key
  {
    if Has(store, section, key) then BadValue(section, key) else FieldMissing(section, key)
  }

  /** Load into a double: a real, or an integer converted to a real. */
  function LoadReal(store: Store, section: string, key: string): (r: Result<real, ConfigError>)
    ensures r.Ok? <==> Has(store, section, key) && (store[section][key].RealValue? || store[section][key].IntValue?)
    ensures r.Err? ==> r.error == Failure(store, section, key)
  {
    if Has(store, section, key) && store[section][key].RealValue? then Ok(store[section][key].r)
    else if Has(store, section, key) && store[section][key].IntValue? then Ok(store[section][key].i as real)
    else Err(Failure(store, section, key))
  }

  function LoadInt(store: Store, section: string, key: string): (r: Result<int, ConfigError>)
    ensures r.Ok? <==> Has(store, section, key) && store[section][key].IntValue?
    ensures r.Err? ==> r.error == Failure(store, section, key)
  {
    if Has(store, section, key) && store[section][key].IntValue? then Ok(store[section][key].i)
    else Err(Failure(store, section, key))
  }

  function LoadText(store: Store, section: string, key: string): (r: Result<string, ConfigError>)
    ensures r.Ok? <==> Has(store, section, key) && store[section][key].TextValue?
    ensures r.Err? ==> r.error == Failure(store, section, key)
  {
    if Has(store, section, key) && store[section][key].TextValue? then Ok(store[section][key].s)
    else Err(Failure(store, section, key))
  }

  /** Load into a std::vector<std::string>: the listed items, in order, duplicates kept. */
  function LoadList(store: Store, section: string, key: string): (r: Result<seq<string>, ConfigError>)
    ensures r.Ok? <==> Has(store, section, key) && store[section][key].ListValue?
    ensures r.Err? ==> r.error == Failure(store, section, key)
  {
    if Has(store, section, key) && store[section][key].ListValue? then Ok(store[section][key].items)
    else Err(Failure(store, section, key))
  }

  /** Load into a std::set<std::string>: the listed items with duplicates collapsed. */
  function LoadSet(store: Store, section: string, key: string): (r: Result<set<string>, ConfigError>)
    ensures r.Ok? <==> LoadList(store, section, key).Ok?
    ensures r.Ok? ==> forall x :: x in r.value <==> x in LoadList(store, section, key).value
  {
    var items :- LoadList(store, section, key);
    Ok(set x | x in items)
  }

  /** ConfigLoader::ListSections minus "summary": what the loaders' "all" rule loads. */
  function NonSummarySections(store: Store): (names: set<string>)
    ensures "summary" !in names
    ensures forall s :: s in names <==> s in store && s != "summary"
  {
    store.Keys - {"summary"}
  }

  /** Loading every name of a set with a per-name loader, as a std::map keyed by name:
      defined exactly when every name loads. */
  function LoadEach<R>(names: set<string>, loadOne: string -> Result<R, ConfigError>): (m: Option<map<string, R>>)
    ensures m.Some? <==> forall n :: n in names ==> loadOne(n).Ok?
    ensures m.Some? ==> m.value.Keys == names
    ensures m.Some? ==> forall n :: n in names ==> m.value[n] == loadOne(n).value
  {
    if forall n :: n in names ==> loadOne(n).Ok? then Some(map n | n in names :: loadOne(n).value) else None
  }

  /** One name that fails to load makes LoadEach fail. */
  lemma LoadEachFails<R>(names: set<string>, loadOne: string -> Result<R, ConfigError>, n: string)
    requires n in names && loadOne(n).Err?
    ensures LoadEach(names, loadOne).None?
  {
  }

  /** A map holding, for every name, the value that name loads to is what LoadEach returns. */
  lemma LoadEachOf<R>(names: set<string>, loadOne: string -> Result<R, ConfigError>, m: map<string, R>)
    requires m.Keys == names
    requires forall n :: n in m ==> loadOne(n) == Ok(m[n])
    ensures LoadEach(names, loadOne) == Some(m)
  {
    assert LoadEach(names, loadOne).Some?;
    assert LoadEach(names, loadOne).value == m;
  }
}
