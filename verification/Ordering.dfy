/** The least element of a finite set of integers, and the order of its elements. */
module Ordering {

  lemma EmptyWithout(s: set<int>)
    ensures (forall x :: x !in s) ==> s == {}
  {
    if forall x :: x !in s {
      assert s == {};
    }
  }

  lemma SomeMissing(a: set<int>, b: set<int>)
    requires a <= b && a != b
    ensures exists x :: x in b - a
  {
    EmptyWithout(b - a);
    assert b == a + (b - a);
  }

  predicate IsLeast(m: int, s: set<int>) {
    m in s && forall k :: k in s ==> m <= k
  }

  lemma {:induction false} LeastExists(s: set<int>)
    requires s != {}
    ensures exists m :: IsLeast(m, s)
  {
    EmptyWithout(s);
    var x :| x in s;
    var rest := s - {x};
    if rest == {} {
      assert s == {x};
      assert IsLeast(x, s);
    } else {
      LeastExists(rest);
      var m :| IsLeast(m, rest);
      LeastOfBoth(s, x, m);
    }
  }

  lemma LeastOfBoth(s: set<int>, x: int, m: int)
    requires x in s && IsLeast(m, s - {x})
    ensures IsLeast(if x < m then x else m, s)
  {
    forall k | k in s ensures (if x < m then x else m) <= k {
      assert k == x || k in s - {x};
    }
  }

  function Least(s: set<int>): (m: int)
    requires s != {}
    ensures m in s && forall k :: k in s ==> m <= k
  {
    LeastExists(s);
    var m :| IsLeast(m, s);
    m
  }

  predicate Increasing(ids: seq<int>) {
    forall i, j :: 0 <= i < j < |ids| ==> ids[i] < ids[j]
  }

  /** A set has only one increasing listing. */
  lemma {:induction false} IncreasingUnique(a: seq<int>, b: seq<int>)
    requires Increasing(a) && Increasing(b)
    requires forall k :: k in a <==> k in b
    ensures a == b
  {
    assert a != [] ==> var x := a[0]; x in a && x in b;
    assert b != [] ==> var y := b[0]; y in b && y in a;
    if a != [] && b != [] {
      var x, y := a[0], b[0];
      assert x == y;
      forall k ensures k in a[1..] <==> k in b[1..] {
        assert k in a <==> k == x || k in a[1..];
        assert k in b <==> k == y || k in b[1..];
      }
      IncreasingUnique(a[1..], b[1..]);
      assert a == [x] + a[1..] && b == [y] + b[1..];
    }
  }
}
