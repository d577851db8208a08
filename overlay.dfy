/** The stacked-fit plot: scaled distributions collected into plot groups, the
    groups stacked in the configured order with a legend, and the chi-square of
    the stack against the data. Histograms keep ROOT's layout: slot 0 is the
    underflow, the last slot the overflow, bins 1..N in between. */
module Overlay {
  import opened Wrappers
  import opened Text
  import opened IniFiles
  import Binned

  /** TH1::Add's effect on contents: bin-wise sum for the same number of bins;
      another binning is refused and the contents stay. */
  function Added(a: seq<real>, b: seq<real>): (r: seq<real>)
    ensures |r| == |a|
    ensures |a| == |b| ==> forall j :: 0 <= j < |a| ==> r[j] == a[j] + b[j]
    ensures |a| != |b| ==> r == a
  {
    if |a| == |b| then Binned.Add(a, b) else a
  }

  /** A ROOT histogram object. */
  class Histo {
    var bins: seq<real>

    constructor (contents: seq<real>)
      ensures bins == contents
    {
      bins := contents;
    }

    method Add(h: Histo)
      modifies this
      ensures bins == Added(old(bins), old(h.bins))
    {
      bins := Added(bins, h.bins);
    }
  }

  /** Grouper: a dictionary from group name to the histogram that holds the
      group's sum. */
  class Grouper {
    var hists: map<string, Histo>

    constructor ()
      ensures hists == map[]
    {
      hists := map[];
    }

    /** The first histogram of a group is stored itself (aliased, not copied);
        later ones are added into it in place. */
    method Add(hist: Histo, group: string)
      modifies this, if group in hists then {hists[group]} else {}
      ensures group in old(hists) ==> hists == old(hists)
      ensures group in old(hists) ==> hists[group].bins == Added(old(hists[group].bins), old(hist.bins))
      ensures group !in old(hists) ==> hists == old(hists)[group := hist]
    {
      if group in hists {
        hists[group].Add(hist);
      } else {
        hists := hists[group := hist];
      }
    }
  }

  /** assign_group: the event type's plot_group option, or its own name without
      one; a type without a section raises NoSectionError. */
  function AssignGroup(events: Ini, name: string): (r: Result<string, IniError>)
    ensures r.Err? <==> name !in events
    ensures r.Ok? && "plot_group" in events[name] ==> r.value == events[name]["plot_group"]
    ensures r.Ok? && "plot_group" !in events[name] ==> r.value == name
  {
    match Get(events, name, "plot_group")
    case Ok(g) => Ok(g)
    case Err(NoOption(_, _)) => Ok(name)
    case Err(e) => Err(e)
  }

  /** The text before the first occurrence of pat in s (all of s without one):
      Python's s.split(pat)[0]. */
  function BeforeFirst(s: string, pat: string): (r: string)
    requires |pat| > 0
    ensures StartsWith(s, r)
    ensures forall i :: 0 <= i < |r| ==> !StartsWith(s[i..], pat)
    ensures |r| < |s| ==> StartsWith(s[|r|..], pat)
    decreases |s|
  {
    if |s| < |pat| then s
    else if s[..|pat|] == pat then ""
    else
      var rest := BeforeFirst(s[1..], pat);
      assert forall i :: 1 <= i <= |rest| ==> s[i..] == s[1..][i - 1..];
      [s[0]] + rest
  }

  /** The inputs: every scaled_dists path not ending in "data.root", and its
      name, the basename up to the first ".root". */
  function InputPaths(paths: seq<string>): (r: seq<string>)
    ensures |r| <= |paths|
  {
    if |paths| == 0 then []
    else InputPaths(paths[..|paths| - 1]) + (if EndsWith(paths[|paths| - 1], "data.root") then [] else [paths[|paths| - 1]])
  }

  /** The inputs are exactly the paths not ending in "data.root". */
  lemma {:induction false} InputPathsMembers(paths: seq<string>)
    ensures forall x :: x in InputPaths(paths) <==> x in paths && !EndsWith(x, "data.root")
    decreases |paths|
  {
    if |paths| > 0 {
      var n := |paths| - 1;
      InputPathsMembers(paths[..n]);
      assert paths == paths[..n] + [paths[n]];
    }
  }

  /** A single path is an input exactly when it does not end in "data.root". */
  lemma InputPathsSingle(p: string)
    ensures InputPaths([p]) == if EndsWith(p, "data.root") then [] else [p]
  {
    assert [p][..0] == [];
  }

  /** The filter keeps order and duplicates: the inputs of two concatenated lists are
      the inputs of the first followed by those of the second. */
  lemma {:induction false} InputPathsAppend(a: seq<string>, b: seq<string>)
    ensures InputPaths(a + b) == InputPaths(a) + InputPaths(b)
    decreases |b|
  {
    if |b| == 0 {
      assert a + b == a;
    } else {
      var n := |b| - 1;
      var last := if EndsWith(b[n], "data.root") then [] else [b[n]];
      InputPathsAppend(a, b[..n]);
      assert (a + b)[..|a + b| - 1] == a + b[..n];
      assert InputPaths(a + b) == InputPaths(a + b[..n]) + last;
      assert InputPaths(b) == InputPaths(b[..n]) + last;
    }
  }

  function InputName(path: string): string
  {
    BeforeFirst(Basename(path), ".root")
  }

  /** A scaled distribution's name is the basename without ".root". */
  lemma InputNameDropsExtension(dir: string, name: string)
    requires '/' !in name
    requires forall i :: 0 <= i < |name| ==> !StartsWith((name + ".root")[i..], ".root")
    ensures InputName(dir + "/" + name + ".root") == name
  {
    var p := dir + "/" + name + ".root";
    var tail := name + ".root";
    assert p == (dir + "/") + tail;
    assert '/' !in tail;
    assert p[|dir|] == '/';
    assert forall i :: |dir| < i < |p| ==> p[i] == tail[i - |dir| - 1];
    assert LastIndexOf(p, '/') == |dir|;
    assert Basename(p) == name + ".root";
    assert StartsWith((name + ".root")[|name|..], ".root");
  }

  /** The contents of the histograms, in order. */
  function Contents(hs: seq<Histo>): (c: seq<seq<real>>)
    reads hs
    ensures |c| == |hs|
    ensures forall k :: 0 <= k < |hs| ==> c[k] == hs[k].bins
  {
    seq(|hs|, k requires 0 <= k < |hs| reads hs => hs[k].bins)
  }

  /** The group of each name, in order. */
  function GroupsOf(names: seq<string>, groups: map<string, string>): (gs: seq<string>)
    requires forall n :: n in names ==> n in groups
    ensures |gs| == |names|
    ensures forall k :: 0 <= k < |names| ==> gs[k] == groups[names[k]]
  {
    seq(|names|, k requires 0 <= k < |names| => groups[names[k]])
  }

  /** Member k is the first of group g. */
  predicate IsFirst(gs: seq<string>, g: string, k: int)
  {
    0 <= k < |gs| && gs[k] == g && forall j :: 0 <= j < k ==> gs[j] != g
  }

  /** What the group holder holds after members with groups gs and contents c
      were added in order: the first member's contents, then each later member's
      added by TH1::Add. */
  function GroupSum(gs: seq<string>, c: seq<seq<real>>, g: string): (r: Option<seq<real>>)
    requires |gs| == |c|
    ensures r.Some? <==> g in gs
    decreases |gs|
  {
    if |gs| == 0 then None
    else
      var n := |gs| - 1;
      var prev := GroupSum(gs[..n], c[..n], g);
      assert gs == gs[..n] + [gs[n]];
      if gs[n] != g then prev
      else if prev.None? then Some(c[n])
      else Some(Added(prev.value, c[n]))
  }

  /** Sum of bin j over the members of group g. */
  function MemberSum(gs: seq<string>, c: seq<seq<real>>, g: string, j: nat): real
    requires |gs| == |c|
    decreases |gs|
  {
    if |gs| == 0 then 0.0
    else
      var n := |gs| - 1;
      MemberSum(gs[..n], c[..n], g, j) + (if gs[n] == g && j < |c[n]| then c[n][j] else 0.0)
  }

  /** When all members have the same binning, the group holds their bin-wise sum. */
  lemma {:induction false} GroupSumIsBinwiseSum(gs: seq<string>, c: seq<seq<real>>, g: string, width: nat)
    requires |gs| == |c|
    requires forall k :: 0 <= k < |c| ==> |c[k]| == width
    requires g in gs
    ensures |GroupSum(gs, c, g).value| == width
    ensures forall j :: 0 <= j < width ==> GroupSum(gs, c, g).value[j] == MemberSum(gs, c, g, j)
    decreases |gs|
  {
    var n := |gs| - 1;
    if g in gs[..n] {
      GroupSumIsBinwiseSum(gs[..n], c[..n], g, width);
    } else {
      MemberSumAbsent(gs[..n], c[..n], g, width);
    }
  }

  /** A group without members has 0 in every bin. */
  lemma {:induction false} MemberSumAbsent(gs: seq<string>, c: seq<seq<real>>, g: string, width: nat)
    requires |gs| == |c|
    requires g !in gs
    ensures forall j :: 0 <= j < width ==> MemberSum(gs, c, g, j) == 0.0
    decreases |gs|
  {
    if |gs| > 0 {
      var n := |gs| - 1;
      MemberSumAbsent(gs[..n], c[..n], g, width);
    }
  }

  /** GroupSum after one more member. */
  lemma GroupSumStep(gs: seq<string>, c: seq<seq<real>>, i: nat)
    requires |gs| == |c| && i < |gs|
    ensures forall h :: h in gs[..i + 1] <==> h in gs[..i] || h == gs[i]
    ensures forall h :: GroupSum(gs[..i + 1], c[..i + 1], h) ==
              if gs[i] != h then GroupSum(gs[..i], c[..i], h)
              else if GroupSum(gs[..i], c[..i], h).None? then Some(c[i])
              else Some(Added(GroupSum(gs[..i], c[..i], h).value, c[i]))
  {
    assert gs[..i + 1] == gs[..i] + [gs[i]];
    assert gs[..i + 1][..i] == gs[..i] && c[..i + 1][..i] == c[..i];
  }

  /** The grouping loop's state after i members, in terms of contents: holder[g]
      is the index of the histogram holding group g, which holds GroupSum; the
      histograms not yet added, and those added into another's group, still hold their
      original contents. */
  ghost predicate Holding(gs: seq<string>, orig: seq<seq<real>>, cur: seq<seq<real>>, holder: map<string, int>, i: nat)
  {
    && |gs| == |orig| == |cur| && i <= |gs|
    && (forall g :: g in holder <==> g in gs[..i])
    && (forall g :: g in holder ==> holder[g] < i && IsFirst(gs, g, holder[g]))
    && (forall g :: g in holder ==> GroupSum(gs[..i], orig[..i], g) == Some(cur[holder[g]]))
    && (forall k :: i <= k < |cur| ==> cur[k] == orig[k])
    && (forall k :: 0 <= k < i && !IsFirst(gs, gs[k], k) ==> cur[k] == orig[k])
  }

  /** Adding member i into the holder of its group. */
  lemma HoldingAdd(gs: seq<string>, orig: seq<seq<real>>, cur: seq<seq<real>>, holder: map<string, int>, i: nat)
    requires Holding(gs, orig, cur, holder, i)
    requires i < |gs| && gs[i] in holder
    ensures Holding(gs, orig, cur[holder[gs[i]] := Added(cur[holder[gs[i]]], cur[i])], holder, i + 1)
  {
    GroupSumStep(gs, orig, i);
    var cur' := cur[holder[gs[i]] := Added(cur[holder[gs[i]]], cur[i])];
    forall g | g in holder
      ensures GroupSum(gs[..i + 1], orig[..i + 1], g) == Some(cur'[holder[g]])
    {
      if g != gs[i] {
        assert gs[holder[g]] != gs[holder[gs[i]]];
      }
    }
  }

  /** Member i starts a new group and becomes its holder. */
  lemma HoldingNew(gs: seq<string>, orig: seq<seq<real>>, cur: seq<seq<real>>, holder: map<string, int>, i: nat)
    requires Holding(gs, orig, cur, holder, i)
    requires i < |gs| && gs[i] !in holder
    ensures Holding(gs, orig, cur, holder[gs[i] := i], i + 1)
  {
    GroupSumStep(gs, orig, i);
    assert IsFirst(gs, gs[i], i);
    forall k | 0 <= k < i + 1 && !IsFirst(gs, gs[k], k)
      ensures cur[k] == orig[k]
    {
      assert k < i;
    }
  }

  /** The loop state of the grouping: the group holders, as indices into hs. */
  ghost predicate Tracks(hists: map<string, Histo>, hs: seq<Histo>, holder: map<string, int>)
  {
    && holder.Keys == hists.Keys
    && forall h :: h in holder ==> 0 <= holder[h] < |hs| && hists[h] == hs[holder[h]]
  }

  /** A new group held by member i. */
  lemma TracksNew(hists: map<string, Histo>, hs: seq<Histo>, holder: map<string, int>, i: nat, g: string)
    requires Tracks(hists, hs, holder) && i < |hs| && g !in holder
    ensures Tracks(hists[g := hs[i]], hs, holder[g := i])
  {
  }

  /** Member i joins its group, which already has a holder. */
  method AddToHolder(grouper: Grouper, hs: seq<Histo>, i: nat, g: string,
                     ghost gs: seq<string>, ghost orig: seq<seq<real>>, ghost holder: map<string, int>)
    requires i < |hs| == |gs| && gs[i] == g && g in holder
    requires forall a, b :: 0 <= a < b < |hs| ==> hs[a] != hs[b]
    requires Tracks(grouper.hists, hs, holder)
    requires Holding(gs, orig, Contents(hs), holder, i)
    modifies grouper, hs
    ensures Tracks(grouper.hists, hs, holder)
    ensures Holding(gs, orig, Contents(hs), holder, i + 1)
  {
    ghost var cur := Contents(hs);
    var h := holder[g];
    grouper.Add(hs[i], g);
    ghost var next := Contents(hs);
    forall k | 0 <= k < |hs|
      ensures next[k] == cur[h := Added(cur[h], cur[i])][k]
    {
      if k != h {
        assert hs[k] != hs[h];
      }
    }
    assert next == cur[h := Added(cur[h], cur[i])];
    HoldingAdd(gs, orig, cur, holder, i);
  }

  /** Member i is the first of its group and becomes the holder. */
  method StartGroup(grouper: Grouper, hs: seq<Histo>, i: nat, g: string,
                    ghost gs: seq<string>, ghost orig: seq<seq<real>>, ghost holder: map<string, int>)
    returns (ghost holder': map<string, int>)
    requires i < |hs| == |gs| && gs[i] == g && g !in holder
    requires Tracks(grouper.hists, hs, holder)
    requires Holding(gs, orig, Contents(hs), holder, i)
    modifies grouper
    ensures Tracks(grouper.hists, hs, holder')
    ensures Holding(gs, orig, Contents(hs), holder', i + 1)
  {
    ghost var cur := Contents(hs);
    ghost var hists := grouper.hists;
    grouper.Add(hs[i], g);
    assert grouper.hists == hists[g := hs[i]];
    assert Contents(hs) == cur;
    TracksNew(hists, hs, holder, i, g);
    HoldingNew(gs, orig, cur, holder, i);
    holder' := holder[g := i];
  }

  /** The grouping loop's state after i members: the grouper's entries are tracked
      by holder, and the histograms hold what Holding says. */
  ghost predicate Progress(grouper: Grouper, hs: seq<Histo>, gs: seq<string>, orig: seq<seq<real>>,
                           holder: map<string, int>, i: nat)
    reads grouper, hs
  {
    Tracks(grouper.hists, hs, holder) && Holding(gs, orig, Contents(hs), holder, i)
  }

  /** grouper.Add of member i under its group g. */
  method Place(grouper: Grouper, hs: seq<Histo>, i: nat, g: string,
               ghost gs: seq<string>, ghost orig: seq<seq<real>>, ghost holder: map<string, int>)
    returns (ghost holder': map<string, int>)
    requires i < |hs| == |gs| && gs[i] == g
    requires forall a, b :: 0 <= a < b < |hs| ==> hs[a] != hs[b]
    requires Progress(grouper, hs, gs, orig, holder, i)
    modifies grouper, hs
    ensures Progress(grouper, hs, gs, orig, holder', i + 1)
  {
    if g in grouper.hists {
      AddToHolder(grouper, hs, i, g, gs, orig, holder);
      holder' := holder;
    } else {
      holder' := StartGroup(grouper, hs, i, g, gs, orig, holder);
    }
  }

  /** The result of the grouping: exactly the groups of the members have an entry,
      each held by the histogram of its first member, whose final contents final are
      the group's sum over the original contents orig; every other histogram keeps
      its original contents. */
  ghost predicate Grouped(gs: seq<string>, orig: seq<seq<real>>, final: seq<seq<real>>,
                          hists: map<string, Histo>, hs: seq<Histo>)
  {
    && |gs| == |orig| == |final| == |hs|
    && (forall g :: g in hists <==> g in gs)
    && (forall k :: 0 <= k < |gs| && !IsFirst(gs, gs[k], k) ==> final[k] == orig[k])
    && forall g :: g in hists ==>
         exists k :: && IsFirst(gs, g, k) && k < |hs| && hists[g] == hs[k]
                     && GroupSum(gs, orig, g) == Some(final[k])
  }

  /** The grouping of the script: the histogram of every name, in order, is added
      under the name's group. Each name has its own histogram object. */
  method GroupAll(names: seq<string>, hs: seq<Histo>, groups: map<string, string>)
    returns (grouper: Grouper)
    requires |hs| == |names|
    requires forall n :: n in names ==> n in groups
    requires forall i, j :: 0 <= i < j < |hs| ==> hs[i] != hs[j]
    modifies hs
    ensures fresh(grouper)
    ensures Grouped(GroupsOf(names, groups), old(Contents(hs)), Contents(hs), grouper.hists, hs)
  {
    ghost var gs := GroupsOf(names, groups);
    ghost var orig := Contents(hs);
    ghost var holder: map<string, int> := map[];
    grouper := new Grouper();
    for i := 0 to |names|
      invariant fresh(grouper)
      invariant Progress(grouper, hs, gs, orig, holder, i)
    {
      holder := Place(grouper, hs, i, groups[names[i]], gs, orig, holder);
    }
    HoldingDone(gs, orig, Contents(hs), holder, grouper.hists, hs);
  }

  /** After the last member: every group has a holder, its first member, holding the
      group's sum. */
  lemma HoldingDone(gs: seq<string>, orig: seq<seq<real>>, cur: seq<seq<real>>,
                    holder: map<string, int>, hists: map<string, Histo>, hs: seq<Histo>)
    requires |cur| == |hs|
    requires Tracks(hists, hs, holder)
    requires Holding(gs, orig, cur, holder, |gs|)
    ensures Grouped(gs, orig, cur, hists, hs)
  {
    assert gs[..|gs|] == gs && orig[..|gs|] == orig;
    forall g | g in hists
      ensures exists k :: && IsFirst(gs, g, k) && k < |hs| && hists[g] == hs[k]
                          && GroupSum(gs, orig, g) == Some(cur[holder[g]])
    {
      var k := holder[g];
      assert IsFirst(gs, g, k) && k < |hs| && hists[g] == hs[k];
    }
  }

  /** Python's dict((x, f(x)) for x in names): every name mapped to its lookup;
      the first lookup that raises, in order, ends the comprehension. */
  function Tabulate(names: seq<string>, f: string -> Result<string, IniError>): (r: Result<map<string, string>, IniError>)
    ensures r.Ok? <==> forall k :: 0 <= k < |names| ==> f(names[k]).Ok?
    ensures r.Ok? ==> r.value.Keys == set n | n in names
    ensures r.Ok? ==> forall n :: n in names ==> r.value[n] == f(n).value
    ensures r.Err? ==> exists k :: 0 <= k < |names| && f(names[k]) == Err(r.error) &&
                                   forall j :: 0 <= j < k ==> f(names[j]).Ok?
    decreases |names|
  {
    if |names| == 0 then Ok(map[])
    else
      var rest := Tabulate(names[1..], f);
      assert forall n :: n in names <==> n == names[0] || n in names[1..];
      match f(names[0])
      case Err(e) => Err(e)
      case Ok(v) =>
        if rest.Err? then
          var k :| 0 <= k < |names[1..]| && f(names[1..][k]) == Err(rest.error) &&
                   forall j :: 0 <= j < k ==> f(names[1..][j]).Ok?;
          assert f(names[k + 1]) == Err(rest.error);
          Err(rest.error)
        else Ok(rest.value[names[0] := v])
  }

  /** The groups of the event types: assign_group for every name. */
  function EventGroups(events: Ini, names: seq<string>): Result<map<string, string>, IniError>
  {
    Tabulate(names, n => AssignGroup(events, n))
  }

  /** Every name is assigned a group exactly when every name has a section in
      the event configuration; the group is plot_group or the name itself. */
  lemma EventGroupsDefined(events: Ini, names: seq<string>)
    ensures EventGroups(events, names).Ok? <==> forall n :: n in names ==> n in events
    ensures EventGroups(events, names).Ok? ==>
              forall n :: n in names ==>
                EventGroups(events, names).value[n] ==
                  if "plot_group" in events[n] then events[n]["plot_group"] else n
  {
    var r := EventGroups(events, names);
    if r.Ok? {
      forall n | n in names
        ensures n in events
      {
        var k :| 0 <= k < |names| && names[k] == n;
        assert AssignGroup(events, names[k]).Ok?;
      }
    } else {
      var k :| 0 <= k < |names| && AssignGroup(events, names[k]).Err?;
      assert names[k] !in events;
    }
  }

  /** The event labels: the tex_label option of every name's section. */
  function EventLabels(events: Ini, names: seq<string>): Result<map<string, string>, IniError>
  {
    Tabulate(names, n => Get(events, n, "tex_label"))
  }

  /** The labels exist exactly when every name has a tex_label option. */
  lemma EventLabelsDefined(events: Ini, names: seq<string>)
    ensures EventLabels(events, names).Ok? <==>
              forall n :: n in names ==> n in events && "tex_label" in events[n]
  {
    if EventLabels(events, names).Ok? {
      forall n | n in names
        ensures n in events && "tex_label" in events[n]
      {
        var k :| 0 <= k < |names| && names[k] == n;
        assert Get(events, names[k], "tex_label").Ok?;
      }
    } else {
      var k :| 0 <= k < |names| && Get(events, names[k], "tex_label").Err?;
      assert !(names[k] in events && "tex_label" in events[names[k]]);
    }
  }

  /** The label loop over the groups: a group whose plot-configuration section has
      tex_label takes it; one whose section lacks it keeps the label it has, or
      is labelled with its own name; one without a section is left as it is. */
  method UpdateLabels(labels: map<string, string>, plot: Ini, keys: seq<string>)
    returns (labels': map<string, string>)
    ensures forall g :: g in labels' <==> g in labels || (g in keys && g in plot)
    ensures forall g :: g in keys && g in plot && "tex_label" in plot[g] ==>
              labels'[g] == plot[g]["tex_label"]
    ensures forall g :: g in keys && g in plot && "tex_label" !in plot[g] ==>
              labels'[g] == if g in labels then labels[g] else g
    ensures forall g :: g in labels && !(g in keys && g in plot) ==> labels'[g] == labels[g]
  {
    labels' := labels;
    for i := 0 to |keys|
      invariant forall g :: g in labels' <==> g in labels || (g in keys[..i] && g in plot)
      invariant forall g :: g in keys[..i] && g in plot && "tex_label" in plot[g] ==>
                  labels'[g] == plot[g]["tex_label"]
      invariant forall g :: g in keys[..i] && g in plot && "tex_label" !in plot[g] ==>
                  labels'[g] == if g in labels then labels[g] else g
      invariant forall g :: g in labels && !(g in keys[..i] && g in plot) ==> labels'[g] == labels[g]
    {
      var gp := keys[i];
      assert forall g :: g in keys[..i + 1] <==> g in keys[..i] || g == gp;
      match Get(plot, gp, "tex_label")
      case Ok(tex) =>
        labels' := labels'[gp := tex];
      case Err(NoOption(_, _)) =>
        if gp !in labels' {
          labels' := labels'[gp := gp];
        }
      case Err(NoSection(_)) =>
    }
    assert keys[..|keys|] == keys;
  }

  /** The summary plot_order option split at commas. */
  function PlotOrder(plot: Ini): (r: Result<seq<string>, IniError>)
    ensures r.Ok? <==> "summary" in plot && "plot_order" in plot["summary"]
    ensures r.Ok? ==> Join(r.value, ",") == plot["summary"]["plot_order"]
  {
    match Get(plot, "summary", "plot_order")
    case Ok(text) => SplitJoinBack(text, ','); Ok(Split(text, ','))
    case Err(e) => Err(e)
  }

  /** Joining the pieces of a split restores the text. */
  lemma {:induction false} SplitJoinBack(s: string, sep: char)
    ensures Join(Split(s, sep), [sep]) == s
  {
    if s != [] {
      SplitJoinBack(s[1..], sep);
      var rest := Split(s[1..], sep);
      if s[0] != sep {
        if |rest| > 1 {
          assert ([s[0]] + rest[0]) + [sep] + Join(rest[1..], [sep]) == [s[0]] + (rest[0] + [sep] + Join(rest[1..], [sep]));
        }
        assert s == [s[0]] + s[1..];
      } else {
        assert s == [sep] + s[1..];
      }
    }
  }

  /** The names of the list that are keys, in the list's order; a name listed twice
      is kept twice. */
  function Present(names: seq<string>, keys: set<string>): (r: seq<string>)
    ensures |r| <= |names|
    ensures forall i :: 0 <= i < |r| ==> r[i] in keys
    decreases |names|
  {
    if |names| == 0 then []
    else (if names[0] in keys then [names[0]] else []) + Present(names[1..], keys)
  }

  /** The kept names are exactly the listed names that are keys. */
  lemma {:induction false} PresentMembers(names: seq<string>, keys: set<string>)
    ensures forall n :: n in Present(names, keys) <==> n in names && n in keys
    decreases |names|
  {
    if |names| > 0 {
      PresentMembers(names[1..], keys);
      assert forall n :: n in names <==> n == names[0] || n in names[1..] by {
        assert names == [names[0]] + names[1..];
      }
    }
  }

  lemma {:induction false} PresentAppend(a: seq<string>, b: seq<string>, keys: set<string>)
    ensures Present(a + b, keys) == Present(a, keys) + Present(b, keys)
    decreases |a|
  {
    if |a| > 0 {
      assert (a + b)[1..] == a[1..] + b;
      PresentAppend(a[1..], b, keys);
    } else {
      assert a + b == b;
    }
  }

  function Reverse<T>(s: seq<T>): (r: seq<T>)
    ensures |r| == |s|
    ensures forall i :: 0 <= i < |s| ==> r[i] == s[|s| - 1 - i]
  {
    seq(|s|, i requires 0 <= i < |s| => s[|s| - 1 - i])
  }

  /** Filtering the reversed list is reversing the filtered list: the legend lists
      its groups in the opposite order to the stack. */
  lemma {:induction false} PresentReverse(names: seq<string>, keys: set<string>)
    ensures Present(Reverse(names), keys) == Reverse(Present(names, keys))
    decreases |names|
  {
    if |names| > 0 {
      var x, rest := names[0], names[1..];
      assert Reverse(names) == Reverse(rest) + [x];
      PresentAppend(Reverse(rest), [x], keys);
      PresentReverse(rest, keys);
      var p := if x in keys then [x] else [];
      assert Present([x], keys) == p by {
        assert [x][1..] == [];
      }
      assert Reverse(p + Present(rest, keys)) == Reverse(Present(rest, keys)) + p;
    }
  }

  /** The histograms of a list of group names. */
  function Lookup(names: seq<string>, hists: map<string, Histo>): (r: seq<Histo>)
    requires forall i :: 0 <= i < |names| ==> names[i] in hists
    ensures |r| == |names|
    ensures forall i :: 0 <= i < |names| ==> r[i] == hists[names[i]]
  {
    seq(|names|, i requires 0 <= i < |names| => hists[names[i]])
  }

  /** The legend entries of a list of group names: histogram and label. */
  function Entries(names: seq<string>, hists: map<string, Histo>, labels: map<string, string>): (r: seq<(Histo, string)>)
    requires forall i :: 0 <= i < |names| ==> names[i] in hists && names[i] in labels
    ensures |r| == |names|
    ensures forall i :: 0 <= i < |names| ==> r[i] == (hists[names[i]], labels[names[i]])
  {
    seq(|names|, i requires 0 <= i < |names| => (hists[names[i]], labels[names[i]]))
  }

  /** stack: the groups of order that have histograms are stacked in order; the
      legend is filled walking order backwards, skipping a group without a
      histogram or without a label. */
  method Stack(order: seq<string>, hists: map<string, Histo>, labels: map<string, string>)
    returns (stack: seq<Histo>, legend: seq<(Histo, string)>)
    ensures stack == Lookup(Present(order, hists.Keys), hists)
    ensures legend == Entries(Present(Reverse(order), hists.Keys * labels.Keys), hists, labels)
  {
    stack := StackLayers(order, hists);
    legend := LegendEntries(order, hists, labels);
  }

  /** The first loop of stack: THStack::Add for every listed group with a histogram. */
  method StackLayers(order: seq<string>, hists: map<string, Histo>) returns (stack: seq<Histo>)
    ensures stack == Lookup(Present(order, hists.Keys), hists)
  {
    ghost var stacked: seq<string> := [];
    stack := [];
    for i := 0 to |order|
      invariant stacked == Present(order[..i], hists.Keys)
      invariant stack == Lookup(stacked, hists)
    {
      var name := order[i];
      PresentAppend(order[..i], [name], hists.Keys);
      assert order[..i + 1] == order[..i] + [name];
      assert Present([name], hists.Keys) == if name in hists then [name] else [] by {
        assert [name][1..] == [];
      }
      if name in hists {
        stack := stack + [hists[name]];
        stacked := stacked + [name];
      }
    }
    assert order[..|order|] == order;
  }

  /** The second loop of stack: TLegend::AddEntry for the listed groups from last
      to first, skipping a group without a histogram or a label. */
  method LegendEntries(order: seq<string>, hists: map<string, Histo>, labels: map<string, string>)
    returns (legend: seq<(Histo, string)>)
    ensures legend == Entries(Present(Reverse(order), hists.Keys * labels.Keys), hists, labels)
  {
    ghost var listed: seq<string> := [];
    legend := [];
    var i := |order|;
    while i > 0
      invariant 0 <= i <= |order|
      invariant listed == Present(Reverse(order[i..]), hists.Keys * labels.Keys)
      invariant legend == Entries(listed, hists, labels)
    {
      i := i - 1;
      var name := order[i];
      assert Reverse(order[i..]) == Reverse(order[i + 1..]) + [name];
      PresentAppend(Reverse(order[i + 1..]), [name], hists.Keys * labels.Keys);
      assert Present([name], hists.Keys * labels.Keys) == if name in hists && name in labels then [name] else [] by {
        assert [name][1..] == [];
      }
      if name in hists && name in labels {
        legend := legend + [(hists[name], labels[name])];
        listed := listed + [name];
      }
    }
    assert order[0..] == order;
  }

  /** When every group has a label, the legend lists exactly the stacked
      histograms, top of the stack first. */
  lemma LegendMirrorsStack(order: seq<string>, hists: map<string, Histo>, labels: map<string, string>)
    requires hists.Keys <= labels.Keys
    ensures |Present(Reverse(order), hists.Keys * labels.Keys)| == |Present(order, hists.Keys)|
    ensures forall i :: 0 <= i < |Present(order, hists.Keys)| ==>
              Entries(Present(Reverse(order), hists.Keys * labels.Keys), hists, labels)[i].0 ==
              Reverse(Lookup(Present(order, hists.Keys), hists))[i]
  {
    assert hists.Keys * labels.Keys == hists.Keys;
    PresentReverse(order, hists.Keys);
  }

  /** THStack's top histogram, GetStack()->Last(): the i-th layer is a copy of the
      i-th histogram with the layer below added; None for an empty stack. */
  function StackTotal(cs: seq<seq<real>>): (r: Option<seq<real>>)
    ensures r.Some? <==> |cs| > 0
    ensures r.Some? ==> |r.value| == |cs[|cs| - 1]|
    decreases |cs|
  {
    if |cs| == 0 then None
    else if |cs| == 1 then Some(cs[0])
    else Some(Added(cs[|cs| - 1], StackTotal(cs[..|cs| - 1]).value))
  }

  /** Bin j of every layer. */
  function Column(cs: seq<seq<real>>, j: nat): (r: seq<real>)
    requires forall k :: 0 <= k < |cs| ==> j < |cs[k]|
    ensures |r| == |cs|
    ensures forall k :: 0 <= k < |cs| ==> r[k] == cs[k][j]
  {
    seq(|cs|, k requires 0 <= k < |cs| => cs[k][j])
  }

  /** With a common binning, each bin of the top histogram is the sum of that bin
      over the stacked histograms. */
  lemma {:induction false} StackTotalIsBinwiseSum(cs: seq<seq<real>>, width: nat)
    requires |cs| > 0
    requires forall k :: 0 <= k < |cs| ==> |cs[k]| == width
    ensures |StackTotal(cs).value| == width
    ensures forall j :: 0 <= j < width ==> StackTotal(cs).value[j] == Binned.Sum(Column(cs, j))
    decreases |cs|
  {
    var n := |cs| - 1;
    if n == 0 {
      forall j | 0 <= j < width
        ensures StackTotal(cs).value[j] == Binned.Sum(Column(cs, j))
      {
        assert Column(cs, j)[..0] == [];
      }
    } else {
      StackTotalIsBinwiseSum(cs[..n], width);
      forall j | 0 <= j < width
        ensures StackTotal(cs).value[j] == Binned.Sum(Column(cs, j))
      {
        assert Column(cs, j)[..n] == Column(cs[..n], j);
      }
    }
  }

  /** One bin's term of the chi-square; a bin where the stack is empty raises
      ZeroDivisionError and is skipped. */
  function ChiTerm(s: real, d: real): real
  {
    if s == 0.0 then 0.0 else (s - d) * (s - d) / s
  }

  /** The chi-square over bins 1..n. */
  function ChiSum(s: seq<real>, d: seq<real>, n: nat): real
    requires n < |s| && |d| == |s|
  {
    if n == 0 then 0.0 else ChiSum(s, d, n - 1) + ChiTerm(s[n], d[n])
  }

  /** The chi-square loop of the script over bins 1..N of the stack's top
      histogram s against the data d (slot 0 and N + 1 are under- and overflow). */
  method ChiSquare(s: seq<real>, d: seq<real>) returns (chi: real)
    requires |s| >= 2 && |d| == |s|
    ensures chi == ChiSum(s, d, |s| - 2)
  {
    chi := 0.0;
    for i := 1 to |s| - 1
      invariant chi == ChiSum(s, d, i - 1)
    {
      if s[i] != 0.0 {
        chi := chi + (s[i] - d[i]) * (s[i] - d[i]) / s[i];
      }
    }
  }

  /** With non-negative stack contents every term, and so the chi-square, is non-negative. */
  lemma {:induction false} ChiNonNegative(s: seq<real>, d: seq<real>, n: nat)
    requires n < |s| && |d| == |s|
    requires forall i :: 1 <= i <= n ==> s[i] >= 0.0
    ensures ChiSum(s, d, n) >= 0.0
  {
    if n > 0 {
      ChiNonNegative(s, d, n - 1);
      if s[n] != 0.0 {
        var x := s[n] - d[n];
        assert x * x >= 0.0;
        assert x * x / s[n] >= 0.0;
      }
    }
  }

  /** Data equal to the stack gives chi-square 0. */
  lemma {:induction false} ChiZeroWhenMatching(s: seq<real>, n: nat)
    requires n < |s|
    ensures ChiSum(s, s, n) == 0.0
  {
    if n > 0 {
      ChiZeroWhenMatching(s, n - 1);
    }
  }

  /** The data in bins where the stack is empty do not enter the chi-square. */
  lemma {:induction false} ChiIgnoresEmptyBins(s: seq<real>, d: seq<real>, d': seq<real>, n: nat)
    requires n < |s| && |d| == |s| && |d'| == |s|
    requires forall i :: 1 <= i <= n && s[i] != 0.0 ==> d[i] == d'[i]
    ensures ChiSum(s, d, n) == ChiSum(s, d', n)
  {
    if n > 0 {
      ChiIgnoresEmptyBins(s, d, d', n - 1);
    }
  }

  /** The degrees of freedom reported: the number of scaled distributions (the
      distinct input names), whatever the number of groups. */
  function Ndf(names: seq<string>): nat
  {
    |set n | n in names|
  }

  /** Grouping never gives more groups than the reported degrees of freedom. */
  lemma GroupsWithinNdf(names: seq<string>, groups: map<string, string>)
    requires forall n :: n in names ==> n in groups
    ensures |set g | g in GroupsOf(names, groups)| <= Ndf(names)
  {
    var gs := GroupsOf(names, groups);
    var ns := set n | n in names;
    assert (set g | g in gs) == (set n | n in ns :: groups[n]) by {
      forall g | g in gs
        ensures g in (set n | n in ns :: groups[n])
      {
        var k :| 0 <= k < |gs| && gs[k] == g;
        assert names[k] in ns;
      }
    }
    ImageNoLarger(ns, groups);
  }

  /** The image of a set under a map is no larger than the set. */
  lemma {:induction false} ImageNoLarger(ns: set<string>, groups: map<string, string>)
    requires ns <= groups.Keys
    ensures |set n | n in ns :: groups[n]| <= |ns|
    decreases |ns|
  {
    if ns != {} {
      var x :| x in ns;
      var rest := ns - {x};
      ImageNoLarger(rest, groups);
      var image := set n | n in ns :: groups[n];
      var restImage := set n | n in rest :: groups[n];
      assert image == restImage + {groups[x]};
    }
  }
}
