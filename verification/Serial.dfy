/** The serial meaning of a well-formed run: at every moment the balances are those of carrying out
    the decided transactions one after another, up to the tentative effects the WAL records. */
module Serial {
  import opened Types
  import opened Ledgers
  import opened Runs
  import Topo = Topology

  // ---------------------------------------------------------------- what the WAL of a cluster holds

  predicate CoordSide(top: Topo.Topology, c: int, t: Digest)
    requires top.Valid()
  {
    top.ClusterOf(t.x) == c && top.ClusterOf(t.y) != c
  }

  predicate PartSide(top: Topo.Topology, c: int, t: Digest)
    requires top.Valid()
  {
    top.ClusterOf(t.y) == c && top.ClusterOf(t.x) != c
  }

  /** The item a transaction holds in cluster `c`. */
  function Slot(top: Topo.Topology, c: int, t: Digest): int
    requires top.Valid()
  {
    if top.ClusterOf(t.x) == c then t.x else t.y
  }

  /** A WAL entry belongs to a prepared, undecided transaction, and its pre-image is exactly the
      present balance with the tentative effect taken back. */
  predicate EntryExact(top: Topo.Topology, l: Ledger, log: seq<Request>, c: int, t: Digest)
    requires top.Valid() && t in l.wal
  {
    && t.op == Intra && t.amt >= 0
    && !DecidedIn(log, t)
    && (CoordSide(top, c, t) || PartSide(top, c, t))
    && (CoordSide(top, c, t) ==>
          Tagged(t, CoordPrepare) in log && l.wal[t] == map[t.x := l.Bal(t.x) + t.amt] && l.Bal(t.x) >= 0)
    && (PartSide(top, c, t) ==>
          Tagged(t, PartPrepareCommit) in log && l.wal[t] == map[t.y := l.Bal(t.y) - t.amt])
  }

  ghost predicate WalExact(top: Topo.Topology, l: Ledger, log: seq<Request>, c: int)
    requires top.Valid()
  {
    && (forall t :: t in l.wal ==> EntryExact(top, l, log, c, t))
    && (forall t, u :: t in l.wal && u in l.wal && t != u ==> Slot(top, c, t) != Slot(top, c, u))
  }

  ghost predicate Covered(top: Topo.Topology, l: Ledger, c: int, i: int)
    requires top.Valid()
  {
    exists t :: t in l.wal && Slot(top, c, t) == i
  }

  lemma RetaggedTxn(r: Request)
    ensures Tagged(TxnOf(r), r.op) == r
    ensures TxnOf(r).op == Intra && TxnOf(r).x == r.x && TxnOf(r).y == r.y && TxnOf(r).amt == r.amt
    ensures forall t: Digest, op :: t.op == Intra ==> TxnOf(Tagged(t, op)) == t
  {
  }

  /** Money moves only on items that no WAL entry covers. */
  lemma MovesUncovered(top: Topo.Topology, l: Ledger, log: seq<Request>, c: int, r: Request, i: int)
    requires top.Valid() && WalExact(top, l, log, c) && P3Next(log, r)
    requires Moves(r.op) && i in Touched(r)
    ensures !Covered(top, l, c, i)
  {
    forall t | t in l.wal ensures Slot(top, c, t) != i {
      assert EntryExact(top, l, log, c, t);
    }
  }

  /** Entries whose item keeps its balance stay exact. */
  lemma EntryKept(top: Topo.Topology, l: Ledger, m: Ledger, log: seq<Request>, c: int, r: Request, t: Digest)
    requires top.Valid() && t in l.wal && EntryExact(top, l, log, c, t)
    requires t in m.wal && m.wal[t] == l.wal[t] && m.Bal(Slot(top, c, t)) == l.Bal(Slot(top, c, t))
    requires IsCommitPhaseOp(r.op) ==> TxnOf(r) != t
    ensures EntryExact(top, m, log + [r], c, t)
  {
    RetaggedTxn(r);
  }

  lemma WalKept(top: Topo.Topology, l: Ledger, m: Ledger, log: seq<Request>, c: int, r: Request)
    requires top.Valid() && WalExact(top, l, log, c)
    requires m.wal == if IsCommitPhaseOp(r.op) then l.wal - {TxnOf(r)} else l.wal
    requires forall t :: t in m.wal ==> m.Bal(Slot(top, c, t)) == l.Bal(Slot(top, c, t))
    ensures WalExact(top, m, log + [r], c)
  {
    forall t | t in m.wal ensures EntryExact(top, m, log + [r], c, t) {
      assert EntryExact(top, l, log, c, t);
      EntryKept(top, l, m, log, c, r, t);
    }
  }

  lemma WalAdded(top: Topo.Topology, l: Ledger, m: Ledger, log: seq<Request>, c: int, r: Request)
    requires top.Valid() && WalExact(top, l, log, c) && Routed(top, Event(c, r))
    requires Holds(r.op) && TxnOf(r) !in l.wal && !DecidedIn(log, TxnOf(r))
    requires !Covered(top, l, c, HeldItem(r))
    requires m.wal == l.wal[TxnOf(r) := map[HeldItem(r) := l.Bal(HeldItem(r))]]
    requires m.Bal(HeldItem(r)) == if r.op == CoordPrepare then l.Bal(r.x) - r.amt else l.Bal(r.y) + r.amt
    requires r.op == CoordPrepare ==> m.Bal(r.x) >= 0
    requires forall t :: t in l.wal ==> m.Bal(Slot(top, c, t)) == l.Bal(Slot(top, c, t))
    ensures WalExact(top, m, log + [r], c)
  {
    RetaggedTxn(r);
    assert EntryExact(top, m, log + [r], c, TxnOf(r));
    forall t | t in l.wal ensures EntryExact(top, m, log + [r], c, t) && Slot(top, c, t) != HeldItem(r) {
      assert EntryExact(top, l, log, c, t);
      EntryKept(top, l, m, log, c, r, t);
    }
  }

  lemma DecisionKeepsOthers(top: Topo.Topology, l: Ledger, log: seq<Request>, e: Event, u: Digest)
    requires top.Valid() && WalExact(top, l, log, e.c) && Routed(top, e) && IsCommitPhaseOp(e.req.op)
    requires u in l.wal && u != TxnOf(e.req)
    ensures Exec(l, e.req, 0).Bal(Slot(top, e.c, u)) == l.Bal(Slot(top, e.c, u))
  {
    var r := e.req;
    if r.op in {CoordCommit, PartCommit} {
      CommitEffect(l, r, 0);
    } else if TxnOf(r) in l.wal {
      assert
        && (forall i :: i in l.wal[TxnOf(r)] <==> i == Slot(top, e.c, TxnOf(r)))
        && (forall u :: u in l.wal && u != TxnOf(r) ==> Slot(top, e.c, u) != Slot(top, e.c, TxnOf(r))) by {
        assert EntryExact(top, l, log, e.c, TxnOf(r));
      }
      AbortEffect(l, r, 0);
    } else {
      NoEffect(l, r, 0);
    }
  }

  /** Preparing is the first thing a transaction does in a log. */
  lemma FreshPrepare(top: Topo.Topology, l: Ledger, log: seq<Request>, c: int, r: Request)
    requires top.Valid() && WalExact(top, l, log, c) && P3Next(log, r) && IsPrepare(r.op)
    ensures TxnOf(r) !in l.wal && !DecidedIn(log, TxnOf(r))
  {
    forall t | t in l.wal ensures t != TxnOf(r) {
      assert EntryExact(top, l, log, c, t);
    }
  }

  /** Which operations execute without touching the WAL. */
  predicate Idle(l: Ledger, r: Request) {
    || Normal(r.op) == Intra
    || r.op == PartPrepareAbort
    || (r.op == CoordPrepare && l.Bal(r.x) < r.amt)
  }

  lemma IdleKeepsWal(l: Ledger, r: Request)
    requires Idle(l, r)
    ensures Exec(l, r, 0).wal == l.wal
  {
  }

  lemma DecisionRemoves(l: Ledger, r: Request)
    requires IsCommitPhaseOp(r.op)
    ensures Exec(l, r, 0).wal == l.wal - {TxnOf(r)}
  {
  }

  /** Every operation that P3 admits keeps the WAL exact. */
  lemma WalStep(top: Topo.Topology, l: Ledger, log: seq<Request>, e: Event)
    requires top.Valid() && WalExact(top, l, log, e.c) && P3Next(log, e.req) && Routed(top, e)
    ensures WalExact(top, Exec(l, e.req, 0), log + [e.req], e.c)
  {
    var r, c := e.req, e.c;
    forall t | t in l.wal && (IsCommitPhaseOp(r.op) ==> t != TxnOf(r))
      ensures Exec(l, r, 0).Bal(Slot(top, c, t)) == l.Bal(Slot(top, c, t))
    {
      var r, i := e.req, Slot(top, e.c, t);
      assert EntryExact(top, l, log, e.c, t);
      if Moves(r.op) {
        ExecFrame(l, r, 0, i);
      } else if IsCommitPhaseOp(r.op) {
        DecisionKeepsOthers(top, l, log, e, t);
      }
    }
    if IsCommitPhaseOp(r.op) {
      DecisionRemoves(l, r);
      WalKept(top, l, Exec(l, r, 0), log, c, r);
    } else if Idle(l, r) {
      IdleKeepsWal(l, r);
      WalKept(top, l, Exec(l, r, 0), log, c, r);
    } else {
      FreshPrepare(top, l, log, c, r);
      MovesUncovered(top, l, log, c, r, HeldItem(r));
      if r.op == CoordPrepare {
        CoordPrepareEffect(l, r, 0);
      } else {
        PartPrepareEffect(l, r, 0);
      }
      WalAdded(top, l, Exec(l, r, 0), log, c, r);
    }
  }

  // ---------------------------------------------------------------- facts about a well-formed run

  /** The transactions whose coordinator has executed a commit. */
  function Commits(run: seq<Event>): set<Digest> {
    set e | e in run && e.req.op == CoordCommit :: TxnOf(e.req)
  }

  /** The order that two-phase commit imposes, read off the whole run. */
  lemma CausalNow(top: Topo.Topology, initial: int, run: seq<Event>, t: Digest)
    requires top.Valid() && t.op == Intra && WellFormed(top, initial, run)
    ensures t in Commits(run) <==> Happened(run, top.ClusterOf(t.x), t, CoordCommit)
    ensures Happened(run, top.ClusterOf(t.y), t, PartPrepareCommit) ==> Debited(top, initial, run, t)
    ensures t in Commits(run) ==> Happened(run, top.ClusterOf(t.y), t, PartPrepareCommit)
    ensures Happened(run, top.ClusterOf(t.y), t, PartCommit) ==> t in Commits(run)
    ensures Happened(run, top.ClusterOf(t.y), t, PartAbort) ==> Happened(run, top.ClusterOf(t.x), t, CoordAbort)
  {
    var cx, cy := top.ClusterOf(t.x), top.ClusterOf(t.y);
    CausalWitness(top, initial, run, cy, t, PartPrepareCommit);
    CausalWitness(top, initial, run, cx, t, CoordCommit);
    CausalWitness(top, initial, run, cy, t, PartCommit);
    CausalWitness(top, initial, run, cy, t, PartAbort);
    if t in Commits(run) {
      var e :| e in run && e.req.op == CoordCommit && TxnOf(e.req) == t;
      RetaggedTxn(e.req);
      assert Routed(top, e) && e == Event(cx, Tagged(t, CoordCommit));
    }
  }

  lemma CausalWitness(top: Topo.Topology, initial: int, run: seq<Event>, c: int, t: Digest, op: Op)
    requires top.Valid() && t.op == Intra && WellFormed(top, initial, run)
    ensures Happened(run, c, t, op) ==> match op
      case PartPrepareCommit => Debited(top, initial, run, t)
      case CoordCommit => t in Commits(run) && Happened(run, top.ClusterOf(t.y), t, PartPrepareCommit)
      case PartCommit => t in Commits(run) && Happened(run, top.ClusterOf(t.x), t, CoordCommit)
      case PartAbort => Happened(run, top.ClusterOf(t.x), t, CoordAbort)
      case _ => true
  {
    var e := Event(c, Tagged(t, op));
    RetaggedTxn(e.req);
    if e in run {
      var k :| 0 <= k < |run| && run[k] == e;
      assert CausalAt(top, initial, run, k);
      if op == PartPrepareCommit {
        DebitedLater(top, initial, run, k, t);
      } else if op == PartCommit {
        var f := Event(top.ClusterOf(t.x), Tagged(t, CoordCommit));
        assert f in run[..k] && f in run && TxnOf(f.req) == t;
      }
    }
  }

  lemma DebitedLater(top: Topo.Topology, initial: int, run: seq<Event>, k: int, t: Digest)
    requires top.Valid() && 0 <= k <= |run| && Debited(top, initial, run[..k], t)
    ensures Debited(top, initial, run, t)
  {
    var c := top.ClusterOf(t.x);
    var j :| 0 <= j < k && run[..k][j] == Event(c, Tagged(t, CoordPrepare))
      && LedgerOf(initial, run[..k][..j], c).Bal(t.x) >= t.amt;
    assert run[..k][..j] == run[..j] && run[j] == run[..k][j];
  }

  /** A log that satisfies P3 never decides a transaction both ways. */
  lemma OneKind(log: seq<Request>, t: Digest, a: Op, b: Op)
    requires P3(log) && t.op == Intra && IsCommitPhaseOp(a) && IsCommitPhaseOp(b)
    requires Tagged(t, a) in log && Tagged(t, b) in log
    ensures a == b
  {
    RetaggedTxn(Tagged(t, a));
    RetaggedTxn(Tagged(t, b));
    var i :| 0 <= i < |log| && log[i] == Tagged(t, a);
    var j :| 0 <= j < |log| && log[j] == Tagged(t, b);
    assert P3At(log, i) && P3At(log, j);
    if i < j {
      assert log[i] in log[..j];
    } else if j < i {
      assert log[j] in log[..i];
    }
  }

  /** A transaction that was debited, or credited, and is not yet decided there, still has its
      pre-image. */
  ghost predicate Pending(top: Topo.Topology, initial: int, run: seq<Event>, t: Digest)
    requires top.Valid()
  {
    var cx, cy := top.ClusterOf(t.x), top.ClusterOf(t.y);
    && (Debited(top, initial, run, t) && !DecidedIn(LogOf(run, cx), t) ==> t in LedgerOf(initial, run, cx).wal)
    && (Happened(run, cy, t, PartPrepareCommit) && !DecidedIn(LogOf(run, cy), t) ==>
          t in LedgerOf(initial, run, cy).wal)
  }

  /** Only a decision of its own takes a pre-image away. */
  lemma WalSurvives(l: Ledger, r: Request, t: Digest)
    requires t in l.wal && !(IsCommitPhaseOp(r.op) && TxnOf(r) == t)
    ensures t in Exec(l, r, 0).wal
  {
    if IsCommitPhaseOp(r.op) {
      DecisionRemoves(l, r);
    }
  }

  lemma PendingStep(top: Topo.Topology, initial: int, run: seq<Event>, e: Event, t: Digest)
    requires top.Valid() && Pending(top, initial, run, t) && t.op == Intra
    ensures Pending(top, initial, run + [e], t)
  {
    Append(initial, run, e);
    RetaggedTxn(e.req);
    var cx, cy := top.ClusterOf(t.x), top.ClusterOf(t.y);
    var all := run + [e];
    if Debited(top, initial, all, t) && !DecidedIn(LogOf(all, cx), t) {
      var c := top.ClusterOf(t.x);
      var k :| 0 <= k < |run + [e]| && (run + [e])[k] == Event(c, Tagged(t, CoordPrepare))
        && LedgerOf(initial, (run + [e])[..k], c).Bal(t.x) >= t.amt;
      if k < |run| {
        assert (run + [e])[..k] == run[..k] && run[k] == (run + [e])[k];
      } else {
        assert (run + [e])[..k] == run;
      }
      SideSurvives(initial, run, e, cx, t);
    }
    if Happened(all, cy, t, PartPrepareCommit) && !DecidedIn(LogOf(all, cy), t) {
      SideSurvives(initial, run, e, cy, t);
      if !Happened(run, cy, t, PartPrepareCommit) {
        assert e == Event(cy, Tagged(t, PartPrepareCommit));
      }
    }
  }

  lemma SideSurvives(initial: int, run: seq<Event>, e: Event, c: int, t: Digest)
    requires t.op == Intra && !DecidedIn(LogOf(run + [e], c), t)
    ensures !DecidedIn(LogOf(run, c), t)
    ensures t in LedgerOf(initial, run, c).wal ==> t in LedgerOf(initial, run + [e], c).wal
  {
    Append(initial, run, e);
    RetaggedTxn(e.req);
    if t in LedgerOf(initial, run, c).wal && e.c == c {
      assert e.req in LogOf(run + [e], c);
      WalSurvives(LedgerOf(initial, run, c), e.req, t);
    }
  }
}
