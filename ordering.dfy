/** The order in which a std::map<std::string, ...> visits its keys:
    ascending lexicographic order of the byte strings. */
module Ordering {

  /** std::string's operator<: a proper prefix is smaller; otherwise the first
      differing byte decides. */
  predicate LexLess(a: string, b: string)
    decreases |a|
  {
    if |a| == 0 then |b| > 0
    else |b| > 0 && (a[0] < b[0] || (a[0] == b[0] && LexLess(a[1..], b[1..])))
  }

  lemma {:induction false} LexIrreflexive(a: string)
    ensures !LexLess(a, a)
    decreases |a|
  {
    if |a| > 0 {
      LexIrreflexive(a[1..]);
    }
  }

  lemma {:induction false} LexAsymmetric(a: string, b: string)
    ensures !(LexLess(a, b) && LexLess(b, a))
    decreases |a|
  {
    if |a| > 0 && |b| > 0 && a[0] == b[0] {
      LexAsymmetric(a[1..], b[1..]);
    }
  }

  lemma {:induction false} LexTransitive(a: string, b: string, c: string)
    requires LexLess(a, b) && LexLess(b, c)
    ensures LexLess(a, c)
    decreases |a|
  {
    if |a| > 0 && a[0] == b[0] && b[0] == c[0] {
      LexTransitive(a[1..], b[1..], c[1..]);
    }
  }

  lemma {:induction false} LexTotal(a: string, b: string)
    requires a != b
    ensures LexLess(a, b) || LexLess(b, a)
    decreases |a|
  {
    if |a| > 0 && |b| > 0 && a[0] == b[0] {
      assert a == [a[0]] + a[1..] && b == [b[0]] + b[1..];
      LexTotal(a[1..], b[1..]);
    }
  }

  /** `m` is the smallest key of `ks`. */
  predicate IsLeast(m: string, ks: set<string>)
  {
    m in ks && forall k :: k in ks && k != m ==> LexLess(m, k)
  }

  /** Every non-empty finite set of keys has a least key. */
  lemma {:induction false} LeastExists(ks: set<string>)
    requires ks != {}
    ensures exists m :: IsLeast(m, ks)
    decreases |ks|
  {
    var x :| x in ks;
    if ks == {x} {
      assert IsLeast(x, ks);
    } else {
      var rest := ks - {x};
      LeastExists(rest);
      var m :| IsLeast(m, rest);
      if LexLess(m, x) {
        forall k | k in ks && k != m
          ensures LexLess(m, k)
        {
          if k == x {
          } else {
            assert k in rest;
          }
        }
        assert IsLeast(m, ks);
      } else {
        LexTotal(m, x);
        forall k | k in ks && k != x
          ensures LexLess(x, k)
        {
          if k != m {
            assert k in rest;
            LexTransitive(x, m, k);
          }
        }
        assert IsLeast(x, ks);
      }
    }
  }

  /** The least key is unique. */
  lemma LeastUnique(m1: string, m2: string, ks: set<string>)
    requires IsLeast(m1, ks) && IsLeast(m2, ks)
    ensures m1 == m2
  {
    if m1 != m2 {
      LexAsymmetric(m1, m2);
    }
  }

  ghost function Least(ks: set<string>): (m: string)
    requires ks != {}
    ensures IsLeast(m, ks)
  {
    LeastExists(ks);
    var m :| IsLeast(m, ks);
    m
  }

  predicate StrictlyAscending(s: seq<string>)
  {
    forall i, j :: 0 <= i < j < |s| ==> LexLess(s[i], s[j])
  }

  /** Ascending neighbours make an ascending sequence. */
  lemma {:induction false} AscendingByNeighbours(s: seq<string>)
    requires forall i :: 0 <= i < |s| - 1 ==> LexLess(s[i], s[i + 1])
    ensures StrictlyAscending(s)
    decreases |s|
  {
    if |s| > 1 {
      AscendingByNeighbours(s[1..]);
      forall j | 1 <= j < |s|
        ensures LexLess(s[0], s[j])
      {
        if j > 1 {
          assert LexLess(s[1..][0], s[1..][j - 1]);
          LexTransitive(s[0], s[1], s[j]);
        }
      }
      forall i, j | 0 <= i < j < |s|
        ensures LexLess(s[i], s[j])
      {
        if i > 0 {
          assert LexLess(s[1..][i - 1], s[1..][j - 1]);
        }
      }
    }
  }

  /** The keys of `ks` in the order a std::map iterates them: least key first. */
  ghost function SortedKeys(ks: set<string>): seq<string>
    decreases |ks|
  {
    if ks == {} then []
    else
      var m := Least(ks);
      [m] + SortedKeys(ks - {m})
  }

  /** SortedKeys lists every key of `ks` exactly once, in ascending order. */
  lemma {:induction false} SortedKeysSpec(ks: set<string>)
    ensures StrictlyAscending(SortedKeys(ks))
    ensures |SortedKeys(ks)| == |ks|
    ensures forall k :: k in SortedKeys(ks) <==> k in ks
    decreases |ks|
  {
    if ks != {} {
      var m := Least(ks);
      var rest := SortedKeys(ks - {m});
      SortedKeysSpec(ks - {m});
      assert SortedKeys(ks) == [m] + rest;
      assert forall j :: 0 <= j < |rest| ==> rest[j] in ks - {m};
    }
  }

  /** SortedKeys lists exactly the keys of `ks`. */
  lemma SortedKeysMembers(ks: set<string>)
    ensures forall k :: k in SortedKeys(ks) <==> k in ks
  {
    SortedKeysSpec(ks);
  }

  /** There is only one ascending enumeration of a key set: any ascending
      sequence holding exactly the keys of `ks` is SortedKeys(ks). */
  lemma {:induction false} SortedKeysUnique(s: seq<string>, ks: set<string>)
    requires StrictlyAscending(s)
    requires forall k :: k in s <==> k in ks
    ensures s == SortedKeys(ks)
    decreases |s|
  {
    if s == [] {
      assert ks == {};
    } else {
      assert s[0] in ks;
      var m := Least(ks);
      assert IsLeast(s[0], ks) by {
        forall k | k in ks && k != s[0]
          ensures LexLess(s[0], k)
        {
          var j :| 0 <= j < |s| && s[j] == k;
          assert j != 0;
        }
      }
      LeastUnique(s[0], m, ks);
      forall k
        ensures k in s[1..] <==> k in ks - {m}
      {
        if k in s[1..] {
          var j :| 1 <= j < |s| && s[j] == k;
          LexIrreflexive(s[0]);
        }
        if k in ks - {m} {
          var j :| 0 <= j < |s| && s[j] == k;
          assert j != 0;
          assert s[1..][j - 1] == k;
        }
      }
      SortedKeysUnique(s[1..], ks - {m});
    }
  }

  /** The enumeration starts with the least key. */
  lemma SortedKeysStep(ks: set<string>, m: string)
    requires IsLeast(m, ks)
    ensures SortedKeys(ks) == [m] + SortedKeys(ks - {m})
  {
    LeastUnique(m, Least(ks), ks);
  }

  /** Walking a std::map from begin() to end(): repeatedly take the least key
      not yet visited. */
  method Ordered(ks: set<string>) returns (r: seq<string>)
    ensures r == SortedKeys(ks)
  {
    r := [];
    var rest := ks;
    while rest != {}
      invariant r + SortedKeys(rest) == SortedKeys(ks)
      decreases |rest|
    {
      LeastExists(rest);
      var m :| IsLeast(m, rest);
      SortedKeysStep(rest, m);
      assert r + SortedKeys(rest) == (r + [m]) + SortedKeys(rest - {m});
      r := r + [m];
      rest := rest - {m};
    }
    assert SortedKeys(rest) == [];
  }
}
