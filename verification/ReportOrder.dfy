/** What the order of VIEW-CHANGE messages decides (pbft/viewchange.go:166-180).  The messages come out
    of a map, so a NEW-VIEW may be folded from any reordering of them. */
module ReportOrder {
  import opened Types
  import opened ViewChanges

  // ---------------------------------------------------------------- one message

  /** Of two reports for a number the second stays unless the first is of a later view. */
  function Newer(a: Option<PreparedEntry>, b: Option<PreparedEntry>): Option<PreparedEntry> {
    if b.None? || (a.Some? && a.value.view > b.value.view) then a else b
  }

  /** What a list of reports says about a number: the last report of the highest view. */
  function Says(es: seq<PreparedEntry>, s: int): Option<PreparedEntry> {
    if es == [] then None
    else
      var pe := es[|es| - 1];
      Newer(Says(es[..|es| - 1], s), if pe.seqNo == s then Some(pe) else None)
  }

  predicate Reports(vc: ViewChange, s: int) {
    exists pe :: pe in vc.prepared && pe.seqNo == s
  }

  lemma {:induction false} SaysWhatIsReported(es: seq<PreparedEntry>, s: int)
    ensures Says(es, s).Some? <==> exists pe :: pe in es && pe.seqNo == s
    ensures Says(es, s).Some? ==> Says(es, s).value in es && Says(es, s).value.seqNo == s
    ensures forall pe :: pe in es && pe.seqNo == s ==> pe.view <= Says(es, s).value.view
  {
    if es != [] {
      var front, pe := es[..|es| - 1], es[|es| - 1];
      SaysWhatIsReported(front, s);
      assert es == front + [pe];
      assert pe in es;
    }
  }

  function At(prepared: map<int, PreparedEntry>, s: int): Option<PreparedEntry> {
    if s in prepared then Some(prepared[s]) else None
  }

  lemma {:induction false} KeepAllAt(prepared: map<int, PreparedEntry>, stable: int, es: seq<PreparedEntry>, s: int)
    ensures At(KeepAll(prepared, stable, es), s)
      == if s <= stable then At(prepared, s) else Newer(At(prepared, s), Says(es, s))
    decreases |es|
  {
    if es != [] {
      KeepAllAt(prepared, stable, es[..|es| - 1], s);
    }
  }

  // ---------------------------------------------------------------- one order

  /** The `i`-th message counts for `s`: it reports it, and no stable number read by then covers it. */
  predicate Counts(order: seq<ViewChange>, i: int, s: int) {
    && 0 <= i < |order| && s > 0 && Reports(order[i], s)
    && forall j :: 0 <= j <= i ==> order[j].latestStable < s
  }

  function Word(order: seq<ViewChange>, i: int, s: int): (pe: PreparedEntry)
    requires Counts(order, i, s)
    ensures Says(order[i].prepared, s) == Some(pe)
  {
    SaysWhatIsReported(order[i].prepared, s);
    Says(order[i].prepared, s).value
  }

  /** The `i`-th message has the last word on `s` among those that count. */
  ghost predicate Settles(order: seq<ViewChange>, i: int, s: int) {
    && Counts(order, i, s)
    && forall j :: Counts(order, j, s) ==>
         Word(order, j, s).view <= Word(order, i, s).view && (j > i ==> Word(order, j, s).view < Word(order, i, s).view)
  }

  lemma {:induction false} FoldStable(order: seq<ViewChange>, s: int)
    ensures s > Fold(order).0 <==> s > 0 && forall j :: 0 <= j < |order| ==> order[j].latestStable < s
    decreases |order|
  {
    if order != [] {
      FoldStable(order[..|order| - 1], s);
    }
  }

  /** Folding in one order: a number is kept exactly when some message counts for it, and then with the
      entry of the message that settles it. */
  lemma {:induction false} FoldMeaning(order: seq<ViewChange>, s: int)
    ensures s in Fold(order).1 <==> exists i :: Counts(order, i, s)
    ensures s in Fold(order).1 ==>
      exists i :: Settles(order, i, s) && Says(order[i].prepared, s) == Some(Fold(order).1[s])
    decreases |order|
  {
    if order != [] {
      var n := |order| - 1;
      var front := order[..n];
      FoldMeaning(front, s);
      FoldStable(order, s);
      FoldStable(front, s);
      SaysWhatIsReported(order[n].prepared, s);
      KeepAllAt(Fold(front).1, Fold(order).0, order[n].prepared, s);
      FoldLast(order, s);
    }
  }

  lemma FoldLast(order: seq<ViewChange>, s: int)
    requires order != []
    requires var n := |order| - 1; var front := order[..n];
      && At(Fold(order).1, s) == (if Counts(order, n, s)
           then Newer(At(Fold(front).1, s), Says(order[n].prepared, s)) else At(Fold(front).1, s))
      && (s in Fold(front).1 <==> exists i :: Counts(front, i, s))
      && (s in Fold(front).1 ==> exists i :: Settles(front, i, s) && Says(front[i].prepared, s) == Some(Fold(front).1[s]))
    ensures s in Fold(order).1 <==> exists i :: Counts(order, i, s)
    ensures s in Fold(order).1 ==>
      exists i :: Settles(order, i, s) && Says(order[i].prepared, s) == Some(Fold(order).1[s])
  {
    var n := |order| - 1;
    var front := order[..n];
    forall i | 0 <= i < n ensures Counts(order, i, s) <==> Counts(front, i, s) {
      assert Counts(order, i, s) <==> Counts(order[..|order| - 1], i, s);
    }
    if s in Fold(front).1 {
      var i :| Settles(front, i, s) && Says(front[i].prepared, s) == Some(Fold(front).1[s]);
      assert Counts(order, i, s) && Word(order, i, s) == Word(front, i, s);
      if Counts(order, n, s) && Word(order, n, s).view >= Word(order, i, s).view {
        assert Settles(order, n, s);
      } else {
        assert Settles(order, i, s);
      }
    } else if Counts(order, n, s) {
      assert Settles(order, n, s);
    }
  }

  // ---------------------------------------------------------------- every order

  predicate Reorders(order: seq<ViewChange>, msgs: seq<ViewChange>) {
    multiset(order) == multiset(msgs)
  }

  lemma SameMessages(order: seq<ViewChange>, msgs: seq<ViewChange>)
    requires Reorders(order, msgs)
    ensures forall vc :: vc in order <==> vc in msgs
  {
    assert forall vc :: vc in order <==> vc in multiset(order);
    assert forall vc :: vc in msgs <==> vc in multiset(msgs);
  }

  lemma MovedFirst(msgs: seq<ViewChange>, vc: ViewChange) returns (order: seq<ViewChange>)
    requires vc in msgs
    ensures Reorders(order, msgs) && order != [] && order[0] == vc
  {
    var k :| 0 <= k < |msgs| && msgs[k] == vc;
    assert msgs == msgs[..k] + [vc] + msgs[k + 1..];
    order := [vc] + msgs[..k] + msgs[k + 1..];
  }

  lemma MovedLast(msgs: seq<ViewChange>, vc: ViewChange) returns (order: seq<ViewChange>)
    requires vc in msgs
    ensures Reorders(order, msgs) && order != [] && order[|order| - 1] == vc
  {
    var k :| 0 <= k < |msgs| && msgs[k] == vc;
    assert msgs == msgs[..k] + [vc] + msgs[k + 1..];
    order := msgs[..k] + msgs[k + 1..] + [vc];
  }

  ghost predicate KeptInSome(msgs: seq<ViewChange>, s: int) {
    exists order :: Reorders(order, msgs) && s in Fold(order).1
  }

  ghost predicate KeptInEvery(msgs: seq<ViewChange>, s: int) {
    forall order :: Reorders(order, msgs) ==> s in Fold(order).1
  }

  /** No message calls the number stable. */
  predicate Unstable(msgs: seq<ViewChange>, s: int) {
    s > 0 && forall vc :: vc in msgs ==> vc.latestStable < s
  }

  predicate Reported(msgs: seq<ViewChange>, s: int) {
    exists vc :: vc in msgs && Reports(vc, s)
  }

  predicate ReportedBelow(msgs: seq<ViewChange>, s: int) {
    s > 0 && exists vc :: vc in msgs && Reports(vc, s) && vc.latestStable < s
  }

  /** Some order keeps a number exactly when a message reports it beyond its own stable number; every
      order keeps it exactly when a message reports it and none calls it stable. */
  lemma KeptInOrders(msgs: seq<ViewChange>, s: int)
    ensures KeptInSome(msgs, s) <==> ReportedBelow(msgs, s)
    ensures KeptInEvery(msgs, s) <==> Reported(msgs, s) && Unstable(msgs, s)
  {
    if KeptInSome(msgs, s) {
      var order :| Reorders(order, msgs) && s in Fold(order).1;
      KeptIsReported(order, msgs, s);
    }
    if ReportedBelow(msgs, s) {
      var vc :| vc in msgs && Reports(vc, s) && vc.latestStable < s;
      var order := MovedFirst(msgs, vc);
      FoldMeaning(order, s);
      assert Counts(order, 0, s);
    }
    if KeptInEvery(msgs, s) {
      assert Reorders(msgs, msgs);
      KeptIsReported(msgs, msgs, s);
      forall vc | vc in msgs ensures vc.latestStable < s {
        var order := MovedFirst(msgs, vc);
        FoldMeaning(order, s);
      }
    }
    if Reported(msgs, s) && Unstable(msgs, s) {
      forall order | Reorders(order, msgs) ensures s in Fold(order).1 {
        AllCount(order, msgs, s);
      }
    }
  }

  lemma KeptIsReported(order: seq<ViewChange>, msgs: seq<ViewChange>, s: int)
    requires Reorders(order, msgs) && s in Fold(order).1
    ensures ReportedBelow(msgs, s) && Reported(msgs, s)
  {
    FoldMeaning(order, s);
    SameMessages(order, msgs);
    var i :| Counts(order, i, s);
    assert order[i] in msgs && Reports(order[i], s) && order[i].latestStable < s;
  }

  /** When no message calls the number stable, every message that reports it counts. */
  lemma AllCount(order: seq<ViewChange>, msgs: seq<ViewChange>, s: int)
    requires Reorders(order, msgs) && Unstable(msgs, s)
    ensures forall i :: 0 <= i < |order| && Reports(order[i], s) ==> Counts(order, i, s)
    ensures s in Fold(order).1 <==> Reported(msgs, s)
  {
    SameMessages(order, msgs);
    forall i | 0 <= i < |order| && Reports(order[i], s) ensures Counts(order, i, s) {
      assert forall j :: 0 <= j <= i ==> order[j] in msgs;
    }
    FoldMeaning(order, s);
    if Reported(msgs, s) {
      var vc :| vc in msgs && Reports(vc, s);
      var i :| 0 <= i < |order| && order[i] == vc;
      assert Counts(order, i, s);
    }
  }

  // ---------------------------------------------------------------- ties

  /** Nobody's word on the number is of a later view. */
  predicate Tops(msgs: seq<ViewChange>, vc: ViewChange, s: int) {
    && vc in msgs && Says(vc.prepared, s).Some?
    && forall x :: x in msgs && Says(x.prepared, s).Some? ==>
         Says(x.prepared, s).value.view <= Says(vc.prepared, s).value.view
  }

  ghost predicate TopsAgree(msgs: seq<ViewChange>, s: int) {
    forall x, y :: Tops(msgs, x, s) && Tops(msgs, y, s) ==> Says(x.prepared, s) == Says(y.prepared, s)
  }

  /** Every order takes over the same entry, or none, for the number. */
  ghost predicate Settled(msgs: seq<ViewChange>, s: int) {
    forall a, b :: Reorders(a, msgs) && Reorders(b, msgs) ==> At(Fold(a).1, s) == At(Fold(b).1, s)
  }

  lemma LastTopSettles(order: seq<ViewChange>, msgs: seq<ViewChange>, i: int, s: int)
    requires Reorders(order, msgs) && Unstable(msgs, s) && Settles(order, i, s)
    requires Tops(msgs, order[|order| - 1], s)
    ensures i == |order| - 1
  {
    var n := |order| - 1;
    SameMessages(order, msgs);
    AllCount(order, msgs, s);
    SaysWhatIsReported(order[n].prepared, s);
    assert Counts(order, n, s) && order[i] in msgs;
    assert Word(order, n, s).view >= Word(order, i, s).view;
  }

  lemma TopDecides(order: seq<ViewChange>, msgs: seq<ViewChange>, s: int)
    requires Reorders(order, msgs) && Unstable(msgs, s) && Reported(msgs, s)
    ensures exists vc :: Tops(msgs, vc, s) && At(Fold(order).1, s) == Says(vc.prepared, s)
    ensures var n := |order| - 1;
      n >= 0 && (Tops(msgs, order[n], s) ==> At(Fold(order).1, s) == Says(order[n].prepared, s))
  {
    AllCount(order, msgs, s);
    FoldMeaning(order, s);
    var i :| Settles(order, i, s) && Says(order[i].prepared, s) == Some(Fold(order).1[s]);
    assert Tops(msgs, order[i], s) by {
      SameMessages(order, msgs);
      AllCount(order, msgs, s);
      var top := Word(order, i, s);
      forall x | x in msgs && Says(x.prepared, s).Some? ensures Says(x.prepared, s).value.view <= top.view {
        var j :| 0 <= j < |order| && order[j] == x;
        SaysWhatIsReported(x.prepared, s);
        assert Reports(order[j], s) && Counts(order, j, s);
        assert Word(order, j, s).view <= top.view;
      }
    }
    if Tops(msgs, order[|order| - 1], s) {
      LastTopSettles(order, msgs, i, s);
    }
  }

  /** Where no message calls the number stable, the order decides nothing exactly when the words of the
      highest view are the same; otherwise each of them is taken over by some order, the one that reads
      it last. */
  lemma TiesFallToTheLast(msgs: seq<ViewChange>, s: int)
    requires Unstable(msgs, s)
    ensures Settled(msgs, s) <==> TopsAgree(msgs, s)
    ensures forall vc :: Tops(msgs, vc, s) ==>
      exists order :: Reorders(order, msgs) && At(Fold(order).1, s) == Says(vc.prepared, s)
  {
    forall vc | Tops(msgs, vc, s)
      ensures exists order :: Reorders(order, msgs) && At(Fold(order).1, s) == Says(vc.prepared, s)
    {
      SaysWhatIsReported(vc.prepared, s);
      assert Reports(vc, s);
      var order := MovedLast(msgs, vc);
      TopDecides(order, msgs, s);
    }
    if TopsAgree(msgs, s) {
      forall a, b | Reorders(a, msgs) && Reorders(b, msgs) ensures At(Fold(a).1, s) == At(Fold(b).1, s) {
        AllCount(a, msgs, s);
        AllCount(b, msgs, s);
        if Reported(msgs, s) {
          TopDecides(a, msgs, s);
          TopDecides(b, msgs, s);
        }
      }
    }
  }

  /** Exactly when the order of the messages decides nothing for a number: nobody reports it beyond its
      own stable number, or nobody calls it stable and the reports of the highest view agree. */
  lemma OrderMatters(msgs: seq<ViewChange>, s: int)
    ensures Settled(msgs, s) <==> !ReportedBelow(msgs, s) || (Unstable(msgs, s) && TopsAgree(msgs, s))
  {
    KeptInOrders(msgs, s);
    if Unstable(msgs, s) {
      TiesFallToTheLast(msgs, s);
    }
    if ReportedBelow(msgs, s) && !Unstable(msgs, s) {
      var a :| Reorders(a, msgs) && s in Fold(a).1;
      var b :| Reorders(b, msgs) && s !in Fold(b).1;
      assert At(Fold(a).1, s) != At(Fold(b).1, s);
    }
  }
}
