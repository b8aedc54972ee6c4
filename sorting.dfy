/**
 * The orders `Stats.sort` uses: Python's string order for 'standard name',
 * and the numeric order of a per-function value for the other keys.
 */
module Sorting {

  /** Python's `<=` on strings: lexicographic by character code. */
  predicate LexLe(a: string, b: string)
    decreases |a|
  {
    |a| == 0 || (|b| > 0 && (a[0] < b[0] || (a[0] == b[0] && LexLe(a[1..], b[1..]))))
  }

  lemma {:induction false} LexTotal(a: string, b: string)
    ensures LexLe(a, b) || LexLe(b, a)
    decreases |a|
  {
    if |a| > 0 && |b| > 0 && a[0] == b[0] {
      LexTotal(a[1..], b[1..]);
    }
  }

  lemma {:induction false} LexTransitive(a: string, b: string, c: string)
    requires LexLe(a, b) && LexLe(b, c)
    ensures LexLe(a, c)
    decreases |a|
  {
    if |a| > 0 && a[0] == b[0] && b[0] == c[0] {
      LexTransitive(a[1..], b[1..], c[1..]);
    }
  }

  lemma {:induction false} LexAntisymmetric(a: string, b: string)
    requires LexLe(a, b) && LexLe(b, a)
    ensures a == b
    decreases |a|
  {
    if |a| > 0 {
      LexAntisymmetric(a[1..], b[1..]);
      assert a == [a[0]] + a[1..] && b == [b[0]] + b[1..];
    }
  }

  /** `ks` lists every element of `s` exactly once. */
  ghost predicate Enumerates(ks: seq<string>, s: set<string>)
  {
    (forall i, j | 0 <= i < j < |ks| :: ks[i] != ks[j]) &&
    (forall x :: x in ks <==> x in s)
  }

  lemma {:induction false} EnumeratesLength(ks: seq<string>, s: set<string>)
    requires Enumerates(ks, s)
    ensures |ks| == |s|
    decreases |ks|
  {
    if ks != [] {
      var last := ks[|ks| - 1];
      var front := ks[..|ks| - 1];
      assert forall x :: x in front ==> x in ks && x != last;
      assert forall x :: x in s - {last} ==> x in front by {
        forall x | x in s - {last} ensures x in front {
          var i :| 0 <= i < |ks| && ks[i] == x;
          assert i != |ks| - 1;
          assert front[i] == x;
        }
      }
      EnumeratesLength(front, s - {last});
    }
  }

  ghost predicate LexSorted(ks: seq<string>)
  {
    forall i, j | 0 <= i < j < |ks| :: LexLe(ks[i], ks[j])
  }

  /** Every non-empty set of strings has a least element in Python's order. */
  lemma {:induction false} LexReflexive(a: string)
    ensures LexLe(a, a)
    decreases |a|
  {
    if |a| > 0 {
      LexReflexive(a[1..]);
    }
  }

  lemma {:induction false} LexLeastExists(s: set<string>)
    requires s != {}
    ensures exists m :: m in s && forall y | y in s :: LexLe(m, y)
    decreases |s|
  {
    var x :| x in s;
    if s == {x} {
      LexReflexive(x);
      assert forall y | y in s :: LexLe(x, y);
    } else {
      LexLeastExists(s - {x});
      var m :| m in s - {x} && forall y | y in s - {x} :: LexLe(m, y);
      var w := LexLeastOfTwo(s, x, m);
      assert w in s && forall y | y in s :: LexLe(w, y);
    }
  }

  /** The least of `s` is `x` or the least `m` of the rest, whichever is smaller. */
  lemma LexLeastOfTwo(s: set<string>, x: string, m: string) returns (w: string)
    requires x in s && m in s - {x}
    requires forall y | y in s - {x} :: LexLe(m, y)
    ensures w in s && forall y | y in s :: LexLe(w, y)
  {
    LexTotal(m, x);
    if LexLe(m, x) {
      w := m;
    } else {
      w := x;
      forall y | y in s
        ensures LexLe(x, y)
      {
        if y == x {
          LexReflexive(x);
        } else {
          LexTransitive(x, m, y);
        }
      }
    }
  }

  /** `sorted(names)`: the names in ascending lexicographic order. */
  method SortNames(names: set<string>) returns (ks: seq<string>)
    ensures Enumerates(ks, names)
    ensures LexSorted(ks)
  {
    ks := [];
    var rest := names;
    while rest != {}
      invariant rest <= names
      invariant forall x :: x in ks <==> x in names - rest
      invariant forall i, j | 0 <= i < j < |ks| :: ks[i] != ks[j]
      invariant LexSorted(ks)
      invariant forall i, y | 0 <= i < |ks| && y in rest :: LexLe(ks[i], y)
      decreases rest
    {
      LexLeastExists(rest);
      var m :| m in rest && forall y | y in rest :: LexLe(m, y);
      assert m !in ks;
      var ks' := ks + [m];
      forall i, j | 0 <= i < j < |ks'|
        ensures ks'[i] != ks'[j] && LexLe(ks'[i], ks'[j])
      {
        if j < |ks| {
          assert ks'[i] == ks[i] && ks'[j] == ks[j];
        } else {
          assert ks'[i] == ks[i] && ks'[j] == m;
        }
      }
      ks := ks';
      rest := rest - {m};
    }
  }

  /** `a` may come before `b`: by value, largest first when `descending`. */
  predicate Before(vals: map<string, real>, descending: bool, a: string, b: string)
    requires a in vals && b in vals
  {
    if descending then vals[a] >= vals[b] else vals[a] <= vals[b]
  }

  ghost predicate SortedByValue(ks: seq<string>, vals: map<string, real>, descending: bool)
    requires forall i | 0 <= i < |ks| :: ks[i] in vals
  {
    forall i, j | 0 <= i < j < |ks| :: Before(vals, descending, ks[i], ks[j])
  }

  lemma {:induction false} BestExists(vals: map<string, real>, descending: bool, s: set<string>)
    requires s != {} && s <= vals.Keys
    ensures exists m :: m in s && forall y | y in s :: Before(vals, descending, m, y)
    decreases |s|
  {
    var x :| x in s;
    if s == {x} {
      assert forall y | y in s :: y == x;
      assert Before(vals, descending, x, x);
    } else {
      BestExists(vals, descending, s - {x});
      var m :| m in s - {x} && forall y | y in s - {x} :: Before(vals, descending, m, y);
      if Before(vals, descending, m, x) {
        assert forall y | y in s :: Before(vals, descending, m, y);
      } else {
        forall y | y in s
          ensures Before(vals, descending, x, y)
        {
          if y != x {
            assert Before(vals, descending, m, y);
          }
        }
      }
    }
  }

  /**
   * `sorted(items, key=value, reverse=descending)` keeping only the names:
   * every key once, ordered by value.
   */
  method SortByValue(vals: map<string, real>, descending: bool) returns (ks: seq<string>)
    ensures Enumerates(ks, vals.Keys)
    ensures SortedByValue(ks, vals, descending)
  {
    ks := [];
    var rest := vals.Keys;
    while rest != {}
      invariant rest <= vals.Keys
      invariant forall x :: x in ks <==> x in vals.Keys - rest
      invariant forall i | 0 <= i < |ks| :: ks[i] in vals
      invariant forall i, j | 0 <= i < j < |ks| :: ks[i] != ks[j]
      invariant SortedByValue(ks, vals, descending)
      invariant forall i, y | 0 <= i < |ks| && y in rest :: Before(vals, descending, ks[i], y)
      decreases rest
    {
      BestExists(vals, descending, rest);
      var m :| m in rest && forall y | y in rest :: Before(vals, descending, m, y);
      assert m !in ks;
      ks := ks + [m];
      rest := rest - {m};
    }
  }
}
