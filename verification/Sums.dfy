/** Sums of balances over a list of distinct items, and of amounts over a set of transactions. */
module Sums {
  import opened Types

  predicate Distinct(items: seq<int>) {
    forall i, j :: 0 <= i < j < |items| ==> items[i] != items[j]
  }

  function Sum(items: seq<int>, bal: int -> int): int {
    if items == [] then 0 else (var i := items[0]; bal(i)) + Sum(items[1..], bal)
  }

  lemma {:induction false} SumEqual(items: seq<int>, f: int -> int, g: int -> int)
    requires forall i :: i in items ==> f(i) == g(i)
    ensures Sum(items, f) == Sum(items, g)
  {
    if items != [] {
      var i := items[0];
      assert i in items;
      SumEqual(items[1..], f, g);
    }
  }

  /** Changing one listed balance by `d` changes the sum by `d`. */
  lemma {:induction false} SumChange(items: seq<int>, f: int -> int, g: int -> int, k: int, d: int)
    requires Distinct(items) && k in items
    requires g(k) == f(k) + d
    requires forall i :: i in items && i != k ==> f(i) == g(i)
    ensures Sum(items, g) == Sum(items, f) + d
  {
    if items[0] == k {
      SumEqual(items[1..], f, g);
    } else {
      SumChange(items[1..], f, g, k, d);
    }
  }

  lemma {:induction false} SumConstant(items: seq<int>, f: int -> int, c: int)
    requires forall i :: i in items ==> f(i) == c
    ensures Sum(items, f) == c * |items|
  {
    if items != [] {
      var i := items[0];
      assert i in items;
      SumConstant(items[1..], f, c);
    }
  }

  /** When nothing is negative, no single balance exceeds the sum. */
  lemma {:induction false} SumBounds(items: seq<int>, f: int -> int, k: int)
    requires forall i :: i in items ==> f(i) >= 0
    ensures Sum(items, f) >= 0
    ensures k in items ==> f(k) <= Sum(items, f)
  {
    if items != [] {
      var i := items[0];
      assert i in items;
      SumBounds(items[1..], f, k);
    }
  }

  lemma {:induction false} SumAdd(items: seq<int>, f: int -> int, g: int -> int, h: int -> int)
    requires forall i :: i in items ==> h(i) == f(i) + g(i)
    ensures Sum(items, h) == Sum(items, f) + Sum(items, g)
  {
    if items != [] {
      var i := items[0];
      assert i in items;
      SumAdd(items[1..], f, g, h);
    }
  }

  ghost function Amounts(txns: set<Digest>): int {
    if txns == {} then 0
    else var t :| t in txns; t.amt + Amounts(txns - {t})
  }

  lemma {:induction false} AmountsRemove(txns: set<Digest>, t: Digest)
    requires t in txns
    ensures Amounts(txns) == t.amt + Amounts(txns - {t})
  {
    var u :| u in txns && Amounts(txns) == u.amt + Amounts(txns - {u});
    if u != t {
      AmountsRemove(txns - {u}, t);
      AmountsRemove(txns - {t}, u);
      assert txns - {u} - {t} == txns - {t} - {u};
    }
  }

  lemma {:induction false} AmountsSplit(a: set<Digest>, b: set<Digest>)
    requires a !! b
    ensures Amounts(a + b) == Amounts(a) + Amounts(b)
    decreases a
  {
    if a == {} {
      assert a + b == b;
    } else {
      var t :| t in a;
      AmountsRemove(a, t);
      AmountsRemove(a + b, t);
      assert a + b - {t} == (a - {t}) + b;
      AmountsSplit(a - {t}, b);
    }
  }

  /** The difference of two totals is the difference over what only one side has. */
  lemma AmountsDifference(a: set<Digest>, b: set<Digest>)
    ensures Amounts(a) - Amounts(b) == Amounts(a - b) - Amounts(b - a)
  {
    AmountsSplit(a - b, a * b);
    AmountsSplit(b - a, a * b);
    assert (a - b) + (a * b) == a && (b - a) + (a * b) == b;
  }

  /** The amount of the one transaction in `txns` that holds item `i`, if there is one. */
  ghost function Held(txns: set<Digest>, slot: Digest -> int, i: int): int {
    if exists t :: t in txns && slot(t) == i then
      var t :| t in txns && slot(t) == i; t.amt
    else 0
  }

  ghost predicate OneEach(txns: set<Digest>, slot: Digest -> int) {
    forall t, u :: t in txns && u in txns && slot(t) == slot(u) ==> t == u
  }

  lemma HeldWithout(txns: set<Digest>, slot: Digest -> int, t: Digest, i: int)
    requires t in txns && OneEach(txns, slot)
    ensures Held(txns, slot, i) == Held(txns - {t}, slot, i) + if i == slot(t) then t.amt else 0
  {
    var rest := txns - {t};
    if i == slot(t) {
      assert forall u :: u in rest ==> slot(u) != i;
    } else if exists u :: u in txns && slot(u) == i {
      var u :| u in txns && slot(u) == i;
      assert u in rest;
    }
  }

  /** When each transaction holds its own listed item, summing over items or transactions is one. */
  lemma {:induction false} SumHeld(items: seq<int>, txns: set<Digest>, slot: Digest -> int)
    requires Distinct(items)
    requires forall t :: t in txns ==> slot(t) in items
    requires OneEach(txns, slot)
    ensures Sum(items, i => Held(txns, slot, i)) == Amounts(txns)
  {
    var g := (i: int) => Held(txns, slot, i);
    if txns == {} {
      SumConstant(items, g, 0);
    } else {
      var t :| t in txns && Amounts(txns) == t.amt + Amounts(txns - {t});
      var f := (i: int) => Held(txns - {t}, slot, i);
      forall i ensures g(i) == f(i) + if i == slot(t) then t.amt else 0 {
        HeldWithout(txns, slot, t, i);
      }
      SumHeld(items, txns - {t}, slot);
      SumChange(items, f, g, slot(t), t.amt);
      SumEqual(items, f, i => Held(txns - {t}, slot, i));
    }
    SumEqual(items, g, i => Held(txns, slot, i));
  }
}
