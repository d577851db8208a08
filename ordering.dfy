/** The ordering std::map uses for std::string keys (lexicographic by character code,
    a proper prefix first), and the ascending key sequence a std::map iteration visits. */
module Ordering {

  predicate Less(a: string, b: string)
    decreases |a|
  {
    if |a| == 0 then |b| > 0
    else if |b| == 0 then false
    else a[0] < b[0] || (a[0] == b[0] && Less(a[1..], b[1..]))
  }

  lemma {:induction false} LessIrreflexive(a: string)
    ensures !Less(a, a)
    decreases |a|
  {
    if |a| > 0 {
      LessIrreflexive(a[1..]);
    }
  }

  lemma {:induction false} LessAsymmetric(a: string, b: string)
    ensures Less(a, b) ==> !Less(b, a)
    decreases |a|
  {
    if |a| > 0 && |b| > 0 && a[0] == b[0] {
      LessAsymmetric(a[1..], b[1..]);
    }
  }

  lemma {:induction false} LessTransitive(a: string, b: string, c: string)
    requires Less(a, b) && Less(b, c)
    ensures Less(a, c)
    decreases |a|
  {
    if |a| > 0 && a[0] == b[0] && b[0] == c[0] {
      LessTransitive(a[1..], b[1..], c[1..]);
    }
  }

  lemma {:induction false} LessTotal(a: string, b: string)
    requires a != b
    ensures Less(a, b) || Less(b, a)
    decreases |a|
  {
    if |a| > 0 && |b| > 0 && a[0] == b[0] {
      assert a == [a[0]] + a[1..] && b == [b[0]] + b[1..];
      LessTotal(a[1..], b[1..]);
    }
  }

  predicate StrictlySorted(keys: seq<string>) {
    forall i, j :: 0 <= i < j < |keys| ==> Less(keys[i], keys[j])
  }

  predicate IsSmallest(m: string, s: set<string>) {
    m in s && forall x :: x in s && x != m ==> Less(m, x)
  }

  lemma {:induction false} SmallestExists(s: set<string>)
    requires s != {}
    ensures exists m :: IsSmallest(m, s)
    decreases |s|
  {
    var x :| x in s;
    if s == {x} {
      assert IsSmallest(x, s);
    } else {
      SmallestExists(s - {x});
      var m :| IsSmallest(m, s - {x});
      if Less(m, x) {
        assert IsSmallest(m, s);
      } else {
        LessTotal(m, x);
        forall y | y in s && y != x
          ensures Less(x, y)
        {
          if y != m {
            LessTransitive(x, m, y);
          }
        }
        assert IsSmallest(x, s);
      }
    }
  }

  lemma SmallestUnique(m: string, n: string, s: set<string>)
    requires IsSmallest(m, s) && IsSmallest(n, s)
    ensures m == n
  {
    if m != n {
      LessAsymmetric(m, n);
    }
  }

  lemma SmallestIsUnique(s: set<string>)
    ensures forall m, n :: IsSmallest(m, s) && IsSmallest(n, s) ==> m == n
  {
    forall m, n | IsSmallest(m, s) && IsSmallest(n, s)
      ensures m == n
    {
      SmallestUnique(m, n, s);
    }
  }

  /** The smallest key of a nonempty set: the first key a std::map iteration visits. */
  function Smallest(s: set<string>): (m: string)
    requires s != {}
    ensures IsSmallest(m, s)
  {
    SmallestExists(s);
    SmallestIsUnique(s);
    var m :| IsSmallest(m, s);
    m
  }

  /** The keys of a std::map in iteration order: every key once, ascending. */
  function SortedKeys(s: set<string>): (keys: seq<string>)
    ensures |keys| == |s|
    ensures forall k :: k in s <==> k in keys
    ensures StrictlySorted(keys)
    decreases |s|
  {
    if s == {} then []
    else
      var m := Smallest(s);
      var rest := SortedKeys(s - {m});
      assert forall i :: 0 <= i < |rest| ==> Less(m, rest[i]) by {
        forall i | 0 <= i < |rest|
          ensures Less(m, rest[i])
        {
          assert rest[i] in rest;
        }
      }
      [m] + rest
  }

  /** Strictly sorted sequences hold no key twice. */
  lemma SortedDistinct(keys: seq<string>, i: int, j: int)
    requires StrictlySorted(keys)
    requires 0 <= i < |keys| && 0 <= j < |keys| && i != j
    ensures keys[i] != keys[j]
  {
    if i < j {
      LessIrreflexive(keys[i]);
    } else {
      LessIrreflexive(keys[j]);
    }
  }
}
