/** Sorting a directory of files into one sub-directory per event type, the type
    read from each file name by the pattern TeLoaded(\S+)_r. */
module Separate {
  import opened Wrappers
  import opened Text

  const Prefix: string := "TeLoaded"
  const Suffix: string := "_r"

  /** The capture (\S+) can be the len characters from q: they hold no white
      space and "_r" follows them. */
  predicate CaptureEnds(path: string, q: nat, len: nat)
  {
    && len >= 1
    && q + len + |Suffix| <= |path|
    && (forall i :: q <= i < q + len ==> !IsSpace(path[i]))
    && path[q + len..q + len + |Suffix|] == Suffix
  }

  /** The pattern matches at position p with a capture of len characters. */
  predicate Matches(path: string, p: nat, len: nat)
  {
    p + |Prefix| <= |path| && path[p..p + |Prefix|] == Prefix && CaptureEnds(path, p + |Prefix|, len)
  }

  /** The longest capture from q of at most len characters: greedy \S+ backtracks
      from the longest run down to one character. */
  function LongestCapture(path: string, q: nat, len: nat): (r: Option<nat>)
    ensures r.Some? ==> 1 <= r.value <= len && CaptureEnds(path, q, r.value)
    ensures r.Some? ==> forall l: nat :: r.value < l <= len ==> !CaptureEnds(path, q, l)
    ensures r.None? ==> forall l: nat :: l <= len ==> !CaptureEnds(path, q, l)
    decreases len
  {
    if len == 0 then None
    else if CaptureEnds(path, q, len) then Some(len)
    else LongestCapture(path, q, len - 1)
  }

  /** re.search from position p on: the leftmost position where the pattern
      matches, with its greedy capture length. */
  function Search(path: string, p: nat): (r: Option<(nat, nat)>)
    ensures r.Some? ==> p <= r.value.0 && Matches(path, r.value.0, r.value.1)
    ensures r.Some? ==> forall p': nat, l: nat :: p <= p' < r.value.0 ==> !Matches(path, p', l)
    ensures r.Some? ==> forall l: nat :: l > r.value.1 ==> !Matches(path, r.value.0, l)
    ensures r.None? ==> forall p': nat, l: nat :: p <= p' ==> !Matches(path, p', l)
    decreases |path| - p
  {
    if p + |Prefix| > |path| then None
    else
      var q := p + |Prefix|;
      var longest := if q + |Suffix| <= |path| then |path| - q - |Suffix| else 0;
      var capture := if path[p..q] == Prefix then LongestCapture(path, q, longest) else None;
      if capture.Some? then
        Some((p, capture.value))
      else
        Search(path, p + 1)
  }

  /** The ValueError for a name without an event type. */
  datatype SeparateError = ValueError(path: string)

  /** read_event_type: group 1 of the leftmost match; ValueError without one. */
  function ReadEventType(path: string): (r: Result<string, SeparateError>)
    ensures r.Ok? <==> exists p: nat, l: nat :: Matches(path, p, l)
    ensures r.Err? ==> r.error == ValueError(path)
  {
    match Search(path, 0)
    case None => Err(ValueError(path))
    case Some((p, l)) => Ok(path[p + |Prefix|..p + |Prefix| + l])
  }

  /** text occurs in path at position p. */
  predicate OccursAt(path: string, text: string, p: nat)
  {
    p + |text| <= |path| && path[p..p + |text|] == text
  }

  /** The event type is a non-empty run without white space that sits between
      "TeLoaded" and "_r" in the name. */
  lemma EventTypeOccurs(path: string)
    requires ReadEventType(path).Ok?
    ensures |ReadEventType(path).value| >= 1
    ensures forall i :: 0 <= i < |ReadEventType(path).value| ==> !IsSpace(ReadEventType(path).value[i])
    ensures exists p: nat :: OccursAt(path, Prefix + ReadEventType(path).value + Suffix, p)
  {
    var (p, l) := Search(path, 0).value;
    var t := ReadEventType(path).value;
    var q := p + |Prefix|;
    assert path[p..q + l + |Suffix|] == path[p..q] + path[q..q + l] + path[q + l..q + l + |Suffix|];
    assert OccursAt(path, Prefix + t + Suffix, p);
  }

  /** The match is the leftmost one and its capture the longest there: no match
      starts earlier, and none at the same place captures more. */
  lemma EventTypeLeftmostGreedy(path: string)
    requires ReadEventType(path).Ok?
    ensures exists p: nat :: Matches(path, p, |ReadEventType(path).value|) &&
              (forall p': nat, l: nat :: p' < p ==> !Matches(path, p', l)) &&
              (forall l: nat :: l > |ReadEventType(path).value| ==> !Matches(path, p, l))
  {
    var (p, l) := Search(path, 0).value;
    assert |ReadEventType(path).value| == l;
  }

  /** The destination of a file: dirname joined with its event type. */
  function Destination(dirname: string, path: string): string
    requires ReadEventType(path).Ok?
  {
    PathJoin(dirname, ReadEventType(path).value)
  }

  /** The destinations of files that all have an event type, in order. */
  function Destinations(dirname: string, paths: seq<string>): (ds: seq<string>)
    requires forall k :: 0 <= k < |paths| ==> ReadEventType(paths[k]).Ok?
    ensures |ds| == |paths|
  {
    if |paths| == 0 then []
    else
      var n := |paths| - 1;
      Destinations(dirname, paths[..n]) + [Destination(dirname, paths[n])]
  }

  /** The directories created for destinations ds in order: a destination is
      created when it is neither an existing directory nor created before. */
  function NewDirs(ds: seq<string>, existing: set<string>): (made: seq<string>)
    ensures forall d :: d in made ==> d in ds && d !in existing
    ensures forall d :: d in ds ==> d in existing || d in made
    ensures forall i, j :: 0 <= i < j < |made| ==> made[i] != made[j]
  {
    if |ds| == 0 then []
    else
      var n := |ds| - 1;
      var before := NewDirs(ds[..n], existing);
      assert forall d :: d in ds <==> d in ds[..n] || d == ds[n] by {
        assert ds == ds[..n] + [ds[n]];
      }
      if ds[n] in existing || ds[n] in before then before else before + [ds[n]]
  }

  /** The moves of the files into their destinations. */
  function Moves(dirname: string, paths: seq<string>): (ms: seq<(string, string)>)
    requires forall k :: 0 <= k < |paths| ==> ReadEventType(paths[k]).Ok?
    ensures |ms| == |paths|
    ensures forall k :: 0 <= k < |paths| ==> ms[k] == (paths[k], Destination(dirname, paths[k]))
  {
    if |paths| == 0 then []
    else
      var n := |paths| - 1;
      Moves(dirname, paths[..n]) + [(paths[n], Destination(dirname, paths[n]))]
  }

  /** Every file is moved into a directory that existed beforehand or was created by the
      time it is moved, and never into one created later. */
  lemma MovedIntoMadeDirs(dirname: string, listed: seq<string>, existing: set<string>)
    requires forall k :: 0 <= k < |listed| ==> ReadEventType(listed[k]).Ok?
    ensures forall k :: 0 <= k < |listed| ==>
              var d := Moves(dirname, listed)[k].1;
              d in existing || d in NewDirs(Destinations(dirname, listed[..k + 1]), existing)
  {
    forall k | 0 <= k < |listed|
      ensures var d := Moves(dirname, listed)[k].1;
              d in existing || d in NewDirs(Destinations(dirname, listed[..k + 1]), existing)
    {
      assert listed[..k + 1][..k] == listed[..k];
      assert Destinations(dirname, listed[..k + 1])[k] == Moves(dirname, listed)[k].1;
    }
  }

  /** listed[k] is the first file without an event type. */
  predicate FailsFirstAt(listed: seq<string>, k: int)
  {
    0 <= k < |listed| && ReadEventType(listed[k]).Err? &&
    forall j :: 0 <= j < k ==> ReadEventType(listed[j]).Ok?
  }

  /** One more destination creates its directory when it is new. */
  lemma NewDirsAppend(ds: seq<string>, d: string, existing: set<string>)
    ensures NewDirs(ds + [d], existing) ==
      var before := NewDirs(ds, existing);
      if d in existing || d in before then before else before + [d]
  {
    assert (ds + [d])[..|ds|] == ds;
  }

  /** Handling one more file with an event type adds its destination and its move. */
  lemma DestinationsStep(dirname: string, listed: seq<string>, i: nat)
    requires i < |listed|
    requires forall k :: 0 <= k <= i ==> ReadEventType(listed[k]).Ok?
    ensures Destinations(dirname, listed[..i + 1]) == Destinations(dirname, listed[..i]) + [Destination(dirname, listed[i])]
    ensures Moves(dirname, listed[..i + 1]) == Moves(dirname, listed[..i]) + [(listed[i], Destination(dirname, listed[i]))]
  {
    assert listed[..i + 1][..i] == listed[..i];
  }

  /** Every one of the first n files has an event type. */
  predicate TypedUpTo(listed: seq<string>, n: nat)
    requires n <= |listed|
  {
    forall k :: 0 <= k < n ==> ReadEventType(listed[k]).Ok?
  }

  /** The directories created once the first n files were handled. */
  function MadeAfter(dirname: string, listed: seq<string>, n: nat, existing: set<string>): seq<string>
    requires n <= |listed| && TypedUpTo(listed, n)
  {
    NewDirs(Destinations(dirname, listed[..n]), existing)
  }

  /** The moves made once the first n files were handled. */
  function MovedAfter(dirname: string, listed: seq<string>, n: nat, dryRun: bool): seq<(string, string)>
    requires n <= |listed| && TypedUpTo(listed, n)
  {
    if dryRun then [] else Moves(dirname, listed[..n])
  }

  /** Handles file i, which has an event type: creates its destination when that is
      new, and moves it there unless on a dry run. */
  method HandleFile(dirname: string, listed: seq<string>, i: nat, existing: set<string>, dryRun: bool,
                    made: seq<string>, moved: seq<(string, string)>)
    returns (made': seq<string>, moved': seq<(string, string)>)
    requires i < |listed| && TypedUpTo(listed, i + 1)
    requires made == MadeAfter(dirname, listed, i, existing)
    requires moved == MovedAfter(dirname, listed, i, dryRun)
    ensures made' == MadeAfter(dirname, listed, i + 1, existing)
    ensures moved' == MovedAfter(dirname, listed, i + 1, dryRun)
  {
    var subdir := PathJoin(dirname, ReadEventType(listed[i]).value);
    DestinationsStep(dirname, listed, i);
    NewDirsAppend(Destinations(dirname, listed[..i]), subdir, existing);
    made', moved' := made, moved;
    if subdir !in existing && subdir !in made {
      made' := made + [subdir];
    }
    if !dryRun {
      moved' := moved + [(listed[i], subdir)];
    }
  }

  /** separate_out_files over the files the glob listed, in order, with the
      directories existing beforehand: the mkdir calls (made, in order, also on a
      dry run) and the move calls (moved, none on a dry run); the first file
      without an event type raises ValueError, after the earlier files were
      handled. */
  method SeparateOutFiles(dirname: string, listed: seq<string>, existing: set<string>, dryRun: bool)
    returns (made: seq<string>, moved: seq<(string, string)>, r: Result<(), SeparateError>)
    ensures r.Ok? <==> forall k :: 0 <= k < |listed| ==> ReadEventType(listed[k]).Ok?
    ensures r.Ok? ==> made == NewDirs(Destinations(dirname, listed), existing)
    ensures r.Ok? ==> moved == if dryRun then [] else Moves(dirname, listed)
    ensures r.Err? ==>
              exists k :: FailsFirstAt(listed, k) && r.error == ValueError(listed[k]) &&
                made == NewDirs(Destinations(dirname, listed[..k]), existing) &&
                moved == (if dryRun then [] else Moves(dirname, listed[..k]))
  {
    made, moved := [], [];
    for i := 0 to |listed|
      invariant TypedUpTo(listed, i)
      invariant made == MadeAfter(dirname, listed, i, existing)
      invariant moved == MovedAfter(dirname, listed, i, dryRun)
    {
      var etype := ReadEventType(listed[i]);
      if etype.Err? {
        assert FailsFirstAt(listed, i);
        return made, moved, Err(etype.error);
      }
      made, moved := HandleFile(dirname, listed, i, existing, dryRun, made, moved);
    }
    assert listed[..|listed|] == listed;
    r := Ok(());
  }
}
