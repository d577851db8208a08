/** Per-key projections of a map of records, as the configuration classes keep one
    map per setting. */
module Maps {

  /** The setting `f` of every record of `ps`, keyed as `ps` is. */
  function Project<P, V>(ps: map<string, P>, f: P -> V): map<string, V>
  {
    map n | n in ps :: f(ps[n])
  }

  /** The setting `f` of the records of `ps` that `keep` selects. */
  function ProjectWhere<P, V>(ps: map<string, P>, keep: P -> bool, f: P -> V): map<string, V>
  {
    map n | n in ps && keep(ps[n]) :: f(ps[n])
  }

  /** Setting key n adds n to the keys and no other. */
  lemma UpdateKeys<V>(m: map<string, V>, n: string, v: V)
    ensures m[n := v].Keys == m.Keys + {n}
  {
  }

  /** Projecting after adding a record adds its projection. */
  lemma ProjectAdd<P, V>(ps: map<string, P>, f: P -> V, n: string, p: P)
    ensures Project(ps[n := p], f) == Project(ps, f)[n := f(p)]
  {
  }

  /** Adding a fresh record changes a selective projection only when it is selected. */
  lemma ProjectWhereAdd<P, V>(ps: map<string, P>, keep: P -> bool, f: P -> V, n: string, p: P)
    requires n !in ps
    ensures keep(p) ==> ProjectWhere(ps[n := p], keep, f) == ProjectWhere(ps, keep, f)[n := f(p)]
    ensures !keep(p) ==> ProjectWhere(ps[n := p], keep, f) == ProjectWhere(ps, keep, f)
  {
  }

  /** The set of names of a sequence. */
  function Names(s: seq<string>): (r: set<string>)
    ensures forall x :: x in r <==> x in s
  {
    set x | x in s
  }

  lemma NamesExtend(s: seq<string>, i: int)
    requires 0 <= i < |s|
    ensures Names(s[..i + 1]) == Names(s[..i]) + {s[i]}
  {
    assert s[..i + 1] == s[..i] + [s[i]];
  }

  lemma NamesPrefix(s: seq<string>, j: int, n: int)
    requires 0 <= j < n <= |s|
    ensures s[j] in Names(s[..n])
  {
    assert s[..n][j] == s[j];
  }
}
