/** Live-time equivalents of the simulated samples: for every event type, the
    number of generated events divided by the rate, that is how much data the
    simulation stands for; the mantissa trimming of the report; the loading of
    rates and counts from the event configuration. */
module LiveTime {
  import opened Wrappers
  import opened Text
  import opened IniFiles
  import opened Maps

  /** The exceptions the script can raise. */
  datatype LoadError =
    | Config(e: IniError)
    | IndexError
    | KeyError(key: string)
    | ValueError(text: string)

  /** The mantissa with trailing zeros and then trailing points removed: the removed
      suffix is a run of points followed by a run of zeros, the zero run is the whole
      trailing run of zeros, and the point run the whole run of points before it. */
  function Trim(mantissa: string): (r: string)
    ensures StartsWith(mantissa, r)
    ensures r == [] || r[|r| - 1] != '.'
    ensures exists k :: StrippedAt(mantissa, r, k)
  {
    var t := RStrip(mantissa, '0');
    assert StrippedAt(mantissa, RStrip(t, '.'), |t|);
    RStrip(t, '.')
  }

  /** r is s with the zeros from k on removed and then the points between |r| and k: every
      character from k on is '0' and the one before k is not, every character between |r|
      and k is '.'. */
  predicate StrippedAt(s: string, r: string, k: int)
  {
    && |r| <= k <= |s|
    && (forall i :: |r| <= i < k ==> s[i] == '.')
    && (forall i :: k <= i < |s| ==> s[i] == '0')
    && (k == 0 || s[k - 1] != '0')
  }

  /** format_e applied to the "%E" rendering a of a number: the text before the
      first 'E' trimmed, then 'E' and the text between the first and second 'E';
      None (IndexError) for a rendering without 'E'. */
  function FormatE(a: string): (r: Option<string>)
    ensures r.Some? <==> 'E' in a
  {
    var parts := Split(a, 'E');
    SplitInTwo(a, 'E');
    if |parts| >= 2 then Some(Trim(parts[0]) + "E" + parts[1]) else None
  }

  /** A text splits into two or more pieces exactly when it holds the separator. */
  lemma {:induction false} SplitInTwo(s: string, sep: char)
    ensures |Split(s, sep)| >= 2 <==> sep in s
  {
    if s != [] && s[0] != sep {
      SplitInTwo(s[1..], sep);
      assert sep in s <==> sep in s[1..] by {
        assert s == [s[0]] + s[1..];
      }
    }
  }

  /** The description of Trim determines its result: a prefix that does not end in '.'
      and leaves a run of points and then the trailing zeros is the trimmed mantissa. */
  lemma TrimUnique(mantissa: string, r: string, k: int)
    requires StartsWith(mantissa, r) && (r == [] || r[|r| - 1] != '.')
    requires StrippedAt(mantissa, r, k)
    ensures r == Trim(mantissa)
  {
    var t := RStrip(mantissa, '0');
    var r' := RStrip(t, '.');
    assert k == |t| by {
      assert |t| > 0 ==> t[|t| - 1] == mantissa[|t| - 1];
    }
    assert |r| == |r'| by {
      assert |r'| > 0 ==> r'[|r'| - 1] == mantissa[|r'| - 1];
    }
    assert r == mantissa[..|r|] == r';
  }

  /** The exponent is kept verbatim and only the mantissa is trimmed. */
  lemma FormatEKeepsExponent(mantissa: string, exponent: string)
    requires 'E' !in mantissa && 'E' !in exponent
    ensures FormatE(mantissa + "E" + exponent) == Some(Trim(mantissa) + "E" + exponent)
  {
    SplitConcat(mantissa, 'E', exponent);
    SplitNoSeparator(mantissa, 'E');
    SplitNoSeparator(exponent, 'E');
  }

  /** 10.000000 trims to 10: the zeros go before the point does, so the zeros of
      the integer part stay. */
  lemma TrimKeepsIntegerZeros()
    ensures Trim("10.000000") == "10"
  {
    var s := "10.000000";
    assert s[..8] == "10.00000" && s[..7] == "10.0000" && s[..6] == "10.000";
    assert s[..5] == "10.00" && s[..4] == "10.0" && s[..3] == "10." && s[..2] == "10";
    assert RStrip(s[..3], '0') == s[..3];
    assert RStrip(s, '0') == s[..3];
    assert RStrip(s[..3], '.') == s[..2];
  }

  /** The live-time equivalent of count events at the given rate; -1 for a zero rate. */
  function Equivalent(rate: real, count: int): real
  {
    if rate != 0.0 then count as real / rate else -1.0
  }

  /** A nonzero rate times the equivalent gives the count back. */
  lemma EquivalentTimesRate(rate: real, count: int)
    ensures rate != 0.0 ==> Equivalent(rate, count) * rate == count as real
    ensures rate == 0.0 ==> Equivalent(rate, count) == -1.0
  {
  }

  /** The count used for an event type: the configured n_generated when there is
      one, the counted events otherwise. */
  function CountUsed(counted: int, nGen: Option<int>): (c: int)
    ensures nGen.Some? ==> c == nGen.value
    ensures nGen.None? ==> c == counted
  {
    if nGen.Some? then nGen.value else counted
  }

  /** lt_equivs, over the names of rates in the order given by keys. The counts
      entry is read before n_generated is consulted, so it must exist even when
      n_generated overrides it. */
  method LtEquivs(rates: map<string, real>, nGens: map<string, Option<int>>, counts: map<string, int>, keys: seq<string>)
    returns (r: Result<map<string, real>, LoadError>)
    requires forall n :: n in keys <==> n in rates
    ensures r.Ok? <==> forall n :: n in rates ==> n in counts && n in nGens
    ensures r.Ok? ==> r.value.Keys == rates.Keys
    ensures r.Ok? ==> forall n :: n in rates ==> r.value[n] == Equivalent(rates[n], CountUsed(counts[n], nGens[n]))
    ensures r.Err? ==> exists n :: n in rates && r.error == KeyError(n) && (n !in counts || n !in nGens)
  {
    var lts: map<string, real> := map[];
    for i := 0 to |keys|
      invariant ComputedUpTo(rates, nGens, counts, keys, i, lts)
    {
      var name := keys[i];
      var rate := rates[name];
      if name !in counts {
        return Err(KeyError(name));
      }
      var count := counts[name];
      if name !in nGens {
        return Err(KeyError(name));
      }
      if nGens[name].Some? {
        count := nGens[name].value;
      }
      var lt := if rate != 0.0 then count as real / rate else -1.0;
      ComputedStep(rates, nGens, counts, keys, i, lts, lt);
      lts := lts[name := lt];
    }
    ComputedAll(rates, nGens, counts, keys, lts);
    r := Ok(lts);
  }

  /** The first i names of keys have a count and an n_generated entry, and lts holds
      exactly their equivalents. */
  predicate ComputedUpTo(rates: map<string, real>, nGens: map<string, Option<int>>, counts: map<string, int>,
                         keys: seq<string>, i: nat, lts: map<string, real>)
    requires i <= |keys|
    requires forall n :: n in keys <==> n in rates
  {
    && (forall k :: 0 <= k < i ==> keys[k] in counts && keys[k] in nGens)
    && lts.Keys == Names(keys[..i])
    && forall n :: n in lts ==> lts[n] == Equivalent(rates[n], CountUsed(counts[n], nGens[n]))
  }

  /** One more name with a count and an n_generated entry gets its equivalent. */
  lemma ComputedStep(rates: map<string, real>, nGens: map<string, Option<int>>, counts: map<string, int>,
                     keys: seq<string>, i: nat, lts: map<string, real>, lt: real)
    requires i < |keys|
    requires forall n :: n in keys <==> n in rates
    requires ComputedUpTo(rates, nGens, counts, keys, i, lts)
    requires keys[i] in counts && keys[i] in nGens
    requires lt == Equivalent(rates[keys[i]], CountUsed(counts[keys[i]], nGens[keys[i]]))
    ensures ComputedUpTo(rates, nGens, counts, keys, i + 1, lts[keys[i] := lt])
  {
    NamesExtend(keys, i);
  }

  /** After the last name, every rate has a count and an n_generated entry. */
  lemma ComputedAll(rates: map<string, real>, nGens: map<string, Option<int>>, counts: map<string, int>,
                    keys: seq<string>, lts: map<string, real>)
    requires forall n :: n in keys <==> n in rates
    requires ComputedUpTo(rates, nGens, counts, keys, |keys|, lts)
    ensures forall n :: n in rates ==> n in counts && n in nGens
    ensures lts.Keys == rates.Keys
    ensures forall n :: n in rates ==> lts[n] == Equivalent(rates[n], CountUsed(counts[n], nGens[n]))
  {
    assert keys[..|keys|] == keys;
    forall n | n in rates
      ensures n in counts && n in nGens
    {
      var k :| 0 <= k < |keys| && keys[k] == n;
    }
  }

  /** Sum of integers. */
  function IntSum(s: seq<int>): int
  {
    if |s| == 0 then 0 else IntSum(s[..|s| - 1]) + s[|s| - 1]
  }

  /** x.split("/")[-2]: the name of the directory a file sits in; IndexError for a
      path without '/'. */
  function ParentDir(path: string): Option<string>
  {
    var parts := Split(path, '/');
    if |parts| >= 2 then Some(parts[|parts| - 2]) else None
  }

  /** The piece before the last '/' is the parent directory's name. */
  lemma ParentDirOf(base: string, dir: string, file: string)
    requires '/' !in dir && '/' !in file
    ensures ParentDir(base + "/" + dir + "/" + file) == Some(dir)
  {
    SplitConcat(base, '/', dir + "/" + file);
    SplitConcat(dir, '/', file);
    SplitNoSeparator(dir, '/');
    SplitNoSeparator(file, '/');
    assert base + "/" + dir + "/" + file == base + ['/'] + (dir + ['/'] + file);
  }

  /** The list comprehension over ParentDir: the first path without '/' raises. */
  function ParentDirs(paths: seq<string>): (r: Result<seq<string>, LoadError>)
    ensures r.Ok? <==> forall i :: 0 <= i < |paths| ==> ParentDir(paths[i]).Some?
    ensures r.Ok? ==> |r.value| == |paths| && forall i :: 0 <= i < |paths| ==> r.value[i] == ParentDir(paths[i]).value
    ensures r.Err? ==> r.error == IndexError
  {
    if forall i :: 0 <= i < |paths| ==> ParentDir(paths[i]).Some?
    then Ok(seq(|paths|, i requires 0 <= i < |paths| => ParentDir(paths[i]).value))
    else Err(IndexError)
  }

  /** The list comprehension int(counts_dict[x][1]): the first directory without an
      entry raises KeyError, the first entry with fewer than two items IndexError. */
  function CountsOf(dirs: seq<string>, counts: map<string, seq<int>>): (r: Result<seq<int>, LoadError>)
    ensures r.Ok? <==> forall i :: 0 <= i < |dirs| ==> dirs[i] in counts && |counts[dirs[i]]| >= 2
    ensures r.Ok? ==> |r.value| == |dirs| && forall i :: 0 <= i < |dirs| ==> r.value[i] == counts[dirs[i]][1]
    ensures r.Err? ==> exists i :: 0 <= i < |dirs| && (r.error == KeyError(dirs[i]) <==> dirs[i] !in counts)
    decreases |dirs|
  {
    if |dirs| == 0 then Ok([])
    else if dirs[0] !in counts then Err(KeyError(dirs[0]))
    else if |counts[dirs[0]]| < 2 then Err(IndexError)
    else
      match CountsOf(dirs[1..], counts)
      case Err(e) =>
        assert forall i :: 0 <= i < |dirs[1..]| ==> dirs[1..][i] == dirs[i + 1];
        Err(e)
      case Ok(rest) =>
        assert forall i :: 1 <= i < |dirs| ==> dirs[i] == dirs[1..][i - 1];
        Ok([counts[dirs[0]][1]] + rest)
  }

  /** load_count: the ntup_files of the event type split at commas; no files count
      0; otherwise the sum of the second item of the counts entry of every file's
      directory. */
  function LoadCount(counts: map<string, seq<int>>, events: Ini, name: string): Result<int, LoadError>
  {
    match Get(events, name, "ntup_files")
    case Err(e) => Err(Config(e))
    case Ok(text) =>
      var paths := Split(text, ',');
      if paths == [""] then Ok(0)
      else
        match ParentDirs(paths)
        case Err(e) => Err(e)
        case Ok(dirs) =>
          match CountsOf(dirs, counts)
          case Err(e) => Err(e)
          case Ok(cs) => Ok(IntSum(cs))
  }

  /** An empty ntup_files counts 0 events. */
  lemma LoadCountNoFiles(counts: map<string, seq<int>>, events: Ini, name: string)
    requires name in events && "ntup_files" in events[name] && events[name]["ntup_files"] == ""
    ensures LoadCount(counts, events, name) == Ok(0)
  {
  }

  /** Files base/dir/file listed with commas count the sum of their directories'
      entries. */
  lemma LoadCountOfDirs(counts: map<string, seq<int>>, events: Ini, name: string,
                        bases: seq<string>, dirs: seq<string>, files: seq<string>)
    requires |bases| == |dirs| == |files| >= 1
    requires forall i :: 0 <= i < |dirs| ==> ',' !in bases[i] + dirs[i] + files[i]
    requires forall i :: 0 <= i < |dirs| ==> '/' !in dirs[i] && '/' !in files[i]
    requires forall i :: 0 <= i < |dirs| ==> dirs[i] in counts && |counts[dirs[i]]| >= 2
    requires name in events && "ntup_files" in events[name]
    requires events[name]["ntup_files"] ==
               Join(seq(|dirs|, i requires 0 <= i < |dirs| => bases[i] + "/" + dirs[i] + "/" + files[i]), ",")
    ensures LoadCount(counts, events, name) == Ok(IntSum(seq(|dirs|, i requires 0 <= i < |dirs| => counts[dirs[i]][1])))
  {
    var paths := seq(|dirs|, i requires 0 <= i < |dirs| => bases[i] + "/" + dirs[i] + "/" + files[i]);
    forall i | 0 <= i < |dirs|
      ensures ',' !in paths[i]
      ensures ParentDir(paths[i]) == Some(dirs[i])
    {
      assert paths[i] == bases[i] + dirs[i] + files[i] || ',' !in paths[i];
      ParentDirOf(bases[i], dirs[i], files[i]);
    }
    SplitJoin(paths, ',');
    assert Split(events[name]["ntup_files"], ',') == paths;
    assert paths[0][|bases[0]|] == '/';
    assert ParentDirs(paths).Ok?;
    assert ParentDirs(paths).value == dirs;
    assert CountsOf(dirs, counts).value == seq(|dirs|, i requires 0 <= i < |dirs| => counts[dirs[i]][1]);
  }

  /** One section's rate and n_generated: float(rate), and int(n_generated) or
      None when the option is absent. A missing rate or a value that does not
      convert raises. */
  function RateOf(config: Ini, section: string, parseReal: string -> Option<real>, parseInt: string -> Option<int>)
    : (r: Result<(real, Option<int>), LoadError>)
    requires section in config
    ensures r.Ok? <==> "rate" in config[section] && parseReal(config[section]["rate"]).Some? &&
                       ("n_generated" in config[section] ==> parseInt(config[section]["n_generated"]).Some?)
    ensures r.Ok? ==> r.value.0 == parseReal(config[section]["rate"]).value
    ensures r.Ok? ==> (r.value.1.None? <==> "n_generated" !in config[section])
    ensures r.Ok? && "n_generated" in config[section] ==> r.value.1 == parseInt(config[section]["n_generated"])
  {
    match Get(config, section, "rate")
    case Err(e) => Err(Config(e))
    case Ok(rateText) =>
      match parseReal(rateText)
      case None => Err(ValueError(rateText))
      case Some(rate) =>
        match Get(config, section, "n_generated")
        case Err(_) => Ok((rate, None))
        case Ok(nText) =>
          match parseInt(nText)
          case None => Err(ValueError(nText))
          case Some(n) => Ok((rate, Some(n)))
  }

  /** load_rates over the sections in file order, skipping "summary". */
  method LoadRates(config: Ini, sections: seq<string>, parseReal: string -> Option<real>, parseInt: string -> Option<int>)
    returns (r: Result<(map<string, real>, map<string, Option<int>>), LoadError>)
    requires forall s :: s in sections <==> s in config
    ensures r.Ok? <==> forall s :: s in config && s != "summary" ==> RateOf(config, s, parseReal, parseInt).Ok?
    ensures r.Ok? ==> r.value.0.Keys == config.Keys - {"summary"} && r.value.1.Keys == config.Keys - {"summary"}
    ensures r.Ok? ==> forall s :: s in r.value.0 ==> (r.value.0[s], r.value.1[s]) == RateOf(config, s, parseReal, parseInt).value
    ensures r.Err? ==> exists s :: s in config && s != "summary" && RateOf(config, s, parseReal, parseInt) == Err(r.error)
  {
    var rates: map<string, real> := map[];
    var nGens: map<string, Option<int>> := map[];
    for i := 0 to |sections|
      invariant rates.Keys == nGens.Keys == Names(sections[..i]) - {"summary"}
      invariant forall s :: s in rates ==> RateOf(config, s, parseReal, parseInt) == Ok((rates[s], nGens[s]))
    {
      var section := sections[i];
      NamesExtend(sections, i);
      if section == "summary" {
        continue;
      }
      var loaded := RateOf(config, section, parseReal, parseInt);
      if loaded.Err? {
        return Err(loaded.error);
      }
      rates := rates[section := loaded.value.0];
      nGens := nGens[section := loaded.value.1];
    }
    assert sections[..|sections|] == sections;
    r := Ok((rates, nGens));
  }

  /** load_counts over the sections in file order, skipping "summary". */
  method LoadCounts(counts: map<string, seq<int>>, config: Ini, sections: seq<string>)
    returns (r: Result<map<string, int>, LoadError>)
    requires forall s :: s in sections <==> s in config
    ensures r.Ok? <==> forall s :: s in config && s != "summary" ==> LoadCount(counts, config, s).Ok?
    ensures r.Ok? ==> r.value.Keys == config.Keys - {"summary"}
    ensures r.Ok? ==> forall s :: s in r.value ==> r.value[s] == LoadCount(counts, config, s).value
    ensures r.Err? ==> exists s :: s in config && s != "summary" && LoadCount(counts, config, s) == Err(r.error)
  {
    var loadedCounts: map<string, int> := map[];
    for i := 0 to |sections|
      invariant loadedCounts.Keys == Names(sections[..i]) - {"summary"}
      invariant forall s :: s in loadedCounts ==> LoadCount(counts, config, s) == Ok(loadedCounts[s])
    {
      var section := sections[i];
      NamesExtend(sections, i);
      if section == "summary" {
        continue;
      }
      var loaded := LoadCount(counts, config, section);
      if loaded.Err? {
        return Err(loaded.error);
      }
      loadedCounts := loadedCounts[section := loaded.value];
    }
    assert sections[..|sections|] == sections;
    r := Ok(loadedCounts);
  }

  /** Item a goes strictly before item b in the requested order of values. */
  predicate Before(a: (string, real), b: (string, real), descending: bool)
  {
    if descending then a.1 > b.1 else a.1 < b.1
  }

  predicate Ordered(s: seq<(string, real)>, descending: bool)
  {
    forall i, j :: 0 <= i < j < |s| ==> !Before(s[j], s[i], descending)
  }

  /** An item that goes before none of an ordered list can follow it. */
  lemma OrderedAppend(p: seq<(string, real)>, y: (string, real), descending: bool)
    requires Ordered(p, descending)
    requires forall e :: e in p ==> !Before(y, e, descending)
    ensures Ordered(p + [y], descending)
  {
    forall i, j | 0 <= i < j < |p| + 1
      ensures !Before((p + [y])[j], (p + [y])[i], descending)
    {
      if j == |p| {
        assert (p + [y])[i] in p;
      }
    }
  }

  /** x placed after every item it does not go before. */
  function Insert(s: seq<(string, real)>, x: (string, real), descending: bool): (r: seq<(string, real)>)
    requires Ordered(s, descending)
    ensures multiset(r) == multiset(s) + multiset{x}
    ensures Ordered(r, descending)
    decreases |s|
  {
    if |s| == 0 || !Before(x, s[|s| - 1], descending) then
      OrderedAppend(s, x, descending);
      s + [x]
    else
      var n := |s| - 1;
      assert s == s[..n] + [s[n]];
      var p := Insert(s[..n], x, descending);
      forall e | e in p
        ensures !Before(s[n], e, descending)
      {
        assert e in multiset(s[..n]) + multiset{x};
      }
      OrderedAppend(p, s[n], descending);
      p + [s[n]]
  }

  /** sorted(items, key = value, reverse = descending): the items ordered by value. */
  function SortByValue(items: seq<(string, real)>, descending: bool): (r: seq<(string, real)>)
    ensures multiset(r) == multiset(items)
    ensures Ordered(r, descending)
    decreases |items|
  {
    if |items| == 0 then []
    else
      var n := |items| - 1;
      assert items == items[..n] + [items[n]];
      Insert(SortByValue(items[..n], descending), items[n], descending)
  }

  /** The text report: one line "name | value" per item in increasing order of
      value, each field left-aligned and padded (40 and 20 characters). */
  function Report(items: seq<(string, real)>, render: real -> string): string
  {
    var sorted := SortByValue(items, false);
    Join(seq(|sorted|, i requires 0 <= i < |sorted| => PadRight(sorted[i].0, 40) + " | " + PadRight(render(sorted[i].1), 20)), "\n")
  }

  /** The report has a line per item: names and rendered values without line
      breaks give exactly one newline fewer than items. */
  lemma ReportLines(items: seq<(string, real)>, render: real -> string)
    requires |items| >= 1
    requires forall i :: 0 <= i < |items| ==> '\n' !in items[i].0 && '\n' !in render(items[i].1)
    ensures Occurrences(Report(items, render), '\n') == |items| - 1
  {
    var sorted := SortByValue(items, false);
    var lines := seq(|sorted|, i requires 0 <= i < |sorted| => PadRight(sorted[i].0, 40) + " | " + PadRight(render(sorted[i].1), 20));
    assert |multiset(sorted)| == |multiset(items)|;
    forall i | 0 <= i < |sorted|
      ensures '\n' !in lines[i]
    {
      assert sorted[i] in multiset(items);
      var k :| 0 <= k < |items| && items[k] == sorted[i];
      var a, b := PadRight(sorted[i].0, 40), PadRight(render(sorted[i].1), 20);
      assert '\n' !in a by {
        assert forall j :: 0 <= j < |a| ==> a[j] != '\n' by {
          forall j | 0 <= j < |a| ensures a[j] != '\n' {
            if j < |sorted[i].0| { assert a[j] == sorted[i].0[j]; }
          }
        }
      }
      assert '\n' !in b by {
        forall j | 0 <= j < |b| ensures b[j] != '\n' {
          if j < |render(sorted[i].1)| { assert b[j] == render(sorted[i].1)[j]; }
        }
      }
    }
    JoinSeparatorCount(lines, '\n');
  }
}
