/**
 * Python's `sorted()` of a collection of distinct strings, which the unit registry and
 * the planner payload use to list names in a reproducible order.
 */
module Sorting {

  /** Python's `a < b` on strings: lexicographic by code point, a proper prefix first. */
  predicate LexLess(a: string, b: string)
    decreases |a|
  {
    (a == [] && b != []) ||
    (a != [] && b != [] && (a[0] < b[0] || (a[0] == b[0] && LexLess(a[1..], b[1..]))))
  }

  lemma {:induction false} LexLessAsymmetric(a: string, b: string)
    ensures LexLess(a, b) ==> !LexLess(b, a)
    decreases |a|
  {
    if a != [] && b != [] && a[0] == b[0] {
      LexLessAsymmetric(a[1..], b[1..]);
    }
  }

  lemma {:induction false} LexLessTotal(a: string, b: string)
    ensures a == b || LexLess(a, b) || LexLess(b, a)
    decreases |a|
  {
    if a != [] && b != [] && a[0] == b[0] {
      LexLessTotal(a[1..], b[1..]);
      if a[1..] == b[1..] {
        assert a == [a[0]] + a[1..] && b == [b[0]] + b[1..];
      }
    }
  }

  lemma {:induction false} LexLessTransitive(a: string, b: string, c: string)
    requires LexLess(a, b) && LexLess(b, c)
    ensures LexLess(a, c)
    decreases |a|
  {
    if a != [] && a[0] == b[0] && b[0] == c[0] {
      LexLessTransitive(a[1..], b[1..], c[1..]);
    }
  }

  /** Every element of `s` is `m` or above it. */
  predicate IsLeast(m: string, s: set<string>)
  {
    m in s && forall x | x in s :: x == m || LexLess(m, x)
  }

  lemma {:induction false} LeastExists(s: set<string>)
    requires s != {}
    ensures exists m :: IsLeast(m, s)
    decreases |s|
  {
    var y :| y in s;
    if s != {y} {
      var rest := s - {y};
      LeastExists(rest);
      var m :| IsLeast(m, rest);
      LexLessTotal(m, y);
      if LexLess(m, y) {
        assert IsLeast(m, s);
      } else {
        forall x | x in s
          ensures x == y || LexLess(y, x)
        {
          if x != y && x != m {
            LexLessTransitive(y, m, x);
          }
        }
        assert IsLeast(y, s);
      }
    } else {
      assert IsLeast(y, s);
    }
  }

  lemma LeastUnique(s: set<string>)
    ensures forall m1, m2 | IsLeast(m1, s) && IsLeast(m2, s) :: m1 == m2
  {
    forall m1, m2 | IsLeast(m1, s) && IsLeast(m2, s)
      ensures m1 == m2
    {
      LexLessAsymmetric(m1, m2);
    }
  }

  /** The smallest string of a non-empty set. */
  function Least(s: set<string>): (m: string)
    requires s != {}
    ensures m in s
    ensures forall x | x in s && x != m :: LexLess(m, x)
  {
    LeastExists(s);
    LeastUnique(s);
    var m :| IsLeast(m, s);
    m
  }

  ghost predicate StrictlySorted(xs: seq<string>)
  {
    forall i, j | 0 <= i < j < |xs| :: LexLess(xs[i], xs[j])
  }

  /** Each string below the next: the whole sequence is strictly sorted. */
  lemma {:induction false} AdjacentSorted(xs: seq<string>)
    requires forall k | 0 <= k < |xs| - 1 :: LexLess(xs[k], xs[k + 1])
    ensures StrictlySorted(xs)
    decreases |xs|
  {
    if |xs| > 1 {
      AdjacentSorted(xs[1..]);
      assert forall k | 0 < k < |xs| :: xs[k] == xs[1..][k - 1];
      forall j | 1 < j < |xs|
        ensures LexLess(xs[0], xs[j])
      {
        LexLessTransitive(xs[0], xs[1], xs[j]);
      }
    }
  }

  /** `sorted(s)`: the elements of `s`, each once, in increasing order. */
  function SortedSet(s: set<string>): (xs: seq<string>)
    ensures |xs| == |s|
    ensures forall x :: x in xs <==> x in s
    ensures StrictlySorted(xs)
    decreases |s|
  {
    if s == {} then []
    else
      var m := Least(s);
      [m] + SortedSet(s - {m})
  }

  /** A strictly increasing listing of a set is the one `sorted` produces. */
  lemma {:induction false} SortedSetUnique(s: set<string>, xs: seq<string>)
    requires StrictlySorted(xs)
    requires forall x :: x in xs <==> x in s
    ensures xs == SortedSet(s)
    decreases |s|
  {
    if xs == [] {
      assert s == {};
    } else {
      var m := xs[0];
      LeastOfSorted(s, xs);
      var rest := xs[1..];
      TailListsRest(s, xs);
      SortedSetUnique(s - {m}, rest);
      assert SortedSet(s) == [m] + SortedSet(s - {m});
      assert xs == [m] + rest;
    }
  }

  /** The head of a strictly increasing listing is the set's least element. */
  lemma LeastOfSorted(s: set<string>, xs: seq<string>)
    requires xs != [] && StrictlySorted(xs)
    requires forall x :: x in xs <==> x in s
    ensures s != {} && Least(s) == xs[0]
  {
    var m := xs[0];
    assert m in s;
    assert IsLeast(m, s) by {
      forall x | x in s
        ensures x == m || LexLess(m, x)
      {
        var j :| 0 <= j < |xs| && xs[j] == x;
      }
    }
    LeastUnique(s);
  }

  /** The tail of a strictly increasing listing lists the rest of the set, still in order. */
  lemma TailListsRest(s: set<string>, xs: seq<string>)
    requires xs != [] && StrictlySorted(xs)
    requires forall x :: x in xs <==> x in s
    ensures StrictlySorted(xs[1..])
    ensures forall x :: x in xs[1..] <==> x in s - {xs[0]}
  {
    var m := xs[0];
    var rest := xs[1..];
    forall x | x in rest
      ensures x in s - {m}
    {
      var j :| 0 <= j < |rest| && rest[j] == x;
      assert xs[j + 1] == x;
      LexLessAsymmetric(m, x);
    }
    forall x | x in s - {m}
      ensures x in rest
    {
      var j :| 0 <= j < |xs| && xs[j] == x;
      assert rest[j - 1] == x;
    }
  }
}
