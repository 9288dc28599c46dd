/** Serial refinement: the balances of any well-formed run, and the verdict of every transaction in
    it, are those of carrying the decided transactions out one after another. */
module Refinement {
  import opened Types
  import opened Ledgers
  import opened Runs
  import opened Serial
  import Topo = Topology

  /** How far the balance under a WAL entry is away from the settled one: a debit not yet decided,
      or a credit whose transaction the coordinator has not committed. */
  function Tentative(top: Topo.Topology, c: int, t: Digest, commits: set<Digest>): int
    requires top.Valid()
  {
    if top.ClusterOf(t.x) == c then -t.amt else if t in commits then 0 else t.amt
  }

  /** The balance of item `i` against its settled value. */
  ghost predicate Balanced(top: Topo.Topology, l: Ledger, i: int, settled: int, commits: set<Digest>)
    requires top.Valid()
  {
    var c := top.ClusterOf(i);
    && (forall t :: t in l.wal && Slot(top, c, t) == i ==> l.Bal(i) == settled + Tentative(top, c, t, commits))
    && (!Covered(top, l, c, i) ==> l.Bal(i) == settled)
  }

  ghost predicate Refines(top: Topo.Topology, initial: int, run: seq<Event>)
    requires top.Valid()
  {
    && (forall i :: Balanced(top, LedgerOf(initial, run, top.ClusterOf(i)), i,
          Settled(initial, Order(initial, run), i), Commits(run)))
    && Justified(initial, Order(initial, run))
  }

  ghost predicate RunInv(top: Topo.Topology, initial: int, run: seq<Event>)
    requires top.Valid()
  {
    && (forall c :: WalExact(top, LedgerOf(initial, run, c), LogOf(run, c), c))
    && (forall t: Digest :: t.op == Intra ==> Pending(top, initial, run, t))
    && Refines(top, initial, run)
  }

  // ---------------------------------------------------------------- decisions

  lemma SettledSnoc(initial: int, ds: seq<Decision>, d: Decision, i: int)
    ensures Settled(initial, ds + [d], i) == (
      if d.verdict == Done && i == d.t.x then Settled(initial, ds, i) - d.t.amt
      else if d.verdict == Done && i == d.t.y then Settled(initial, ds, i) + d.t.amt
      else Settled(initial, ds, i))
  {
    assert Front(ds + [d]) == ds;
  }

  lemma JustifiedSnoc(initial: int, ds: seq<Decision>, d: Decision)
    requires Justified(initial, ds)
    requires d.verdict == Skipped <==> Settled(initial, ds, d.t.x) < d.t.amt
    ensures Justified(initial, ds + [d])
  {
    var all := ds + [d];
    forall k | 0 <= k < |all| ensures JustifiedAt(initial, all, k) {
      if k < |ds| {
        assert JustifiedAt(initial, ds, k);
        assert all[..k] == ds[..k] && all[k] == ds[k];
      } else {
        assert all[..k] == ds;
      }
    }
  }

  lemma JustifiedPrefix(initial: int, ds: seq<Decision>, d: Decision)
    requires Justified(initial, ds + [d])
    ensures Justified(initial, ds)
    ensures d.verdict == Skipped <==> Settled(initial, ds, d.t.x) < d.t.amt
  {
    var all := ds + [d];
    assert all[..|ds|] == ds && all[|ds|] == d && JustifiedAt(initial, all, |ds|);
    forall k | 0 <= k < |ds| ensures JustifiedAt(initial, ds, k) {
      assert all[..k] == ds[..k] && all[k] == ds[k];
      assert JustifiedAt(initial, all, k);
    }
  }

  lemma CommitsSnoc(run: seq<Event>, e: Event)
    ensures Commits(run + [e]) == Commits(run) + if e.req.op == CoordCommit then {TxnOf(e.req)} else {}
  {
    forall t ensures t in Commits(run + [e]) <==>
      t in Commits(run) || (e.req.op == CoordCommit && t == TxnOf(e.req))
    {
      if t in Commits(run) {
        var f :| f in run && f.req.op == CoordCommit && TxnOf(f.req) == t;
        assert f in run + [e];
      }
      assert e in run + [e];
    }
  }

  // ---------------------------------------------------------------- one item, one step

  /** Nothing about the item changed. */
  lemma ItemKept(top: Topo.Topology, l: Ledger, m: Ledger, i: int, settled: int, old_: set<Digest>, new_: set<Digest>)
    requires top.Valid() && Balanced(top, l, i, settled, old_)
    requires m.Bal(i) == l.Bal(i)
    requires var c := top.ClusterOf(i);
      forall t :: Slot(top, c, t) == i ==> (t in m.wal <==> t in l.wal) && (t in l.wal ==> (t in old_ <==> t in new_))
    ensures Balanced(top, m, i, settled, new_)
  {
    var c := top.ClusterOf(i);
    forall t | t in m.wal && Slot(top, c, t) == i
      ensures m.Bal(i) == settled + Tentative(top, c, t, new_)
    {
      assert t in l.wal;
    }
    if !Covered(top, m, c, i) {
      forall t | t in l.wal ensures Slot(top, c, t) != i {
        assert Slot(top, c, t) == i ==> t in m.wal;
      }
    }
  }

  /** An uncovered item whose balance and settled value move together. */
  lemma ItemMoved(top: Topo.Topology, l: Ledger, m: Ledger, i: int, s0: int, s1: int, commits: set<Digest>)
    requires top.Valid() && Balanced(top, l, i, s0, commits) && !Covered(top, l, top.ClusterOf(i), i)
    requires m.wal.Keys == l.wal.Keys && m.Bal(i) - l.Bal(i) == s1 - s0
    ensures Balanced(top, m, i, s1, commits)
  {
    assert !Covered(top, m, top.ClusterOf(i), i);
  }

  /** An uncovered item comes to be held by `t` with its tentative effect applied. */
  lemma ItemHeld(top: Topo.Topology, l: Ledger, m: Ledger, i: int, settled: int, commits: set<Digest>, t: Digest)
    requires top.Valid() && Balanced(top, l, i, settled, commits) && !Covered(top, l, top.ClusterOf(i), i)
    requires Slot(top, top.ClusterOf(i), t) == i && m.wal.Keys == l.wal.Keys + {t}
    requires m.Bal(i) == l.Bal(i) + Tentative(top, top.ClusterOf(i), t, commits)
    ensures Balanced(top, m, i, settled, commits)
  {
    var c := top.ClusterOf(i);
    assert t in m.wal;
    forall u | u in m.wal && Slot(top, c, u) == i ensures u == t {
      assert u in l.wal || u == t;
    }
  }

  // ---------------------------------------------------------------- every item, each operation

  /** How deciding a transaction moves the settled balance of an item. */
  function Delta(l: Ledger, r: Request, i: int): int {
    var done := match Normal(r.op)
      case Intra => l.Bal(r.x) >= r.amt
      case CoordCommit => TxnOf(r) in l.wal
      case _ => false;
    if !done then 0 else if i == r.x then -r.amt else if i == r.y then r.amt else 0
  }

  function MoreCommits(r: Request): set<Digest> {
    if r.op == CoordCommit then {TxnOf(r)} else {}
  }

  lemma KeepUnnamed(top: Topo.Topology, l: Ledger, log: seq<Request>, e: Event, i: int, settled: int, commits: set<Digest>)
    requires top.Valid() && WalExact(top, l, log, e.c) && top.ClusterOf(i) == e.c && Routed(top, e)
    requires Balanced(top, l, i, settled, commits) && i != e.req.x && i != e.req.y
    ensures Balanced(top, Exec(l, e.req, 0), i, settled, commits + MoreCommits(e.req))
  {
    var t := TxnOf(e.req);
    RetaggedTxn(e.req);
    if t in l.wal {
      assert EntryExact(top, l, log, e.c, t);
    }
    ExecFrame(l, e.req, 0, i);
    ItemKept(top, l, Exec(l, e.req, 0), i, settled, commits, commits + MoreCommits(e.req));
  }

  lemma MoveIntra(top: Topo.Topology, l: Ledger, log: seq<Request>, e: Event, i: int, settled: int, commits: set<Digest>)
    requires top.Valid() && WalExact(top, l, log, e.c) && P3Next(log, e.req) && Routed(top, e)
    requires Normal(e.req.op) == Intra && (i == e.req.x || i == e.req.y)
    requires Balanced(top, l, i, settled, commits)
    ensures Balanced(top, Exec(l, e.req, 0), i, settled + Delta(l, e.req, i), commits)
  {
    var r := e.req;
    MovesUncovered(top, l, log, e.c, r, i);
    IdleKeepsWal(l, r);
    if l.Bal(r.x) >= r.amt {
      IntraEffect(l, r, 0);
    } else {
      NoEffect(l, r, 0);
    }
    ItemMoved(top, l, Exec(l, r, 0), i, settled, settled + Delta(l, r, i), commits);
  }

  lemma HoldDebit(top: Topo.Topology, l: Ledger, log: seq<Request>, e: Event, settled: int, commits: set<Digest>)
    requires top.Valid() && WalExact(top, l, log, e.c) && P3Next(log, e.req) && Routed(top, e)
    requires e.req.op == CoordPrepare && Balanced(top, l, e.req.x, settled, commits)
    ensures Balanced(top, Exec(l, e.req, 0), e.req.x, settled, commits)
  {
    var r := e.req;
    MovesUncovered(top, l, log, e.c, r, r.x);
    if l.Bal(r.x) >= r.amt {
      CoordPrepareEffect(l, r, 0);
      ItemHeld(top, l, Exec(l, r, 0), r.x, settled, commits, TxnOf(r));
    } else {
      NoEffect(l, r, 0);
      ItemMoved(top, l, Exec(l, r, 0), r.x, settled, settled, commits);
    }
  }

  lemma HoldCredit(top: Topo.Topology, l: Ledger, log: seq<Request>, e: Event, settled: int, commits: set<Digest>)
    requires top.Valid() && WalExact(top, l, log, e.c) && P3Next(log, e.req) && Routed(top, e)
    requires e.req.op == PartPrepareCommit && TxnOf(e.req) !in commits
    requires Balanced(top, l, e.req.y, settled, commits)
    ensures Balanced(top, Exec(l, e.req, 0), e.req.y, settled, commits)
  {
    var r := e.req;
    MovesUncovered(top, l, log, e.c, r, r.y);
    FreshPrepare(top, l, log, e.c, r);
    PartPrepareEffect(l, r, 0);
    ItemHeld(top, l, Exec(l, r, 0), r.y, settled, commits, TxnOf(r));
  }

  /** A decision that finds its WAL entry leaves the item exactly settled: a commit keeps the
      tentative effect, an abort takes it back. */
  lemma Release(
      top: Topo.Topology, l: Ledger, log: seq<Request>, e: Event, i: int, s0: int, s1: int, c0: set<Digest>, c1: set<Digest>)
    requires top.Valid() && WalExact(top, l, log, e.c) && Routed(top, e)
    requires IsCommitPhaseOp(e.req.op) && TxnOf(e.req) in l.wal
    requires i == Slot(top, e.c, TxnOf(e.req)) && Balanced(top, l, i, s0, c0) && top.ClusterOf(i) == e.c
    requires var u := Tentative(top, e.c, TxnOf(e.req), c0);
      s1 == s0 + if e.req.op in {CoordCommit, PartCommit} then u else if e.req.op == PartAbort then u - e.req.amt else 0
    ensures Balanced(top, Exec(l, e.req, 0), i, s1, c1)
  {
    var r, t := e.req, TxnOf(e.req);
    RetaggedTxn(r);
    assert EntryExact(top, l, log, e.c, t);
    DecisionRemoves(l, r);
    if r.op in {CoordCommit, PartCommit} {
      CommitEffect(l, r, 0);
    } else {
      AbortEffect(l, r, 0);
    }
  }

  /** What the coordinator's decisions so far must say for an operation to be in order. */
  predicate InOrder(l: Ledger, r: Request, commits: set<Digest>) {
    var t := TxnOf(r);
    && (r.op == PartPrepareCommit ==> t !in commits)
    && (r.op == PartCommit && t in l.wal ==> t in commits)
    && (r.op == PartAbort && t in l.wal ==> t !in commits)
    && (r.op == CoordCommit && t !in l.wal ==> t in commits)
  }

  /** One item of the cluster that executes. */
  lemma NearItem(top: Topo.Topology, l: Ledger, log: seq<Request>, e: Event, i: int, settled: int, commits: set<Digest>)
    requires top.Valid() && WalExact(top, l, log, e.c) && P3Next(log, e.req) && Routed(top, e)
    requires top.ClusterOf(i) == e.c && InOrder(l, e.req, commits)
    requires Balanced(top, l, i, settled, commits)
    ensures Balanced(top, Exec(l, e.req, 0), i, settled + Delta(l, e.req, i), commits + MoreCommits(e.req))
  {
    var r, c1 := e.req, commits + MoreCommits(e.req);
    RetaggedTxn(r);
    assert r.op != CoordCommit || TxnOf(r) in commits ==> c1 == commits;
    if i != r.x && i != r.y {
      KeepUnnamed(top, l, log, e, i, settled, commits);
    } else {
      match Normal(r.op)
      case Intra => MoveIntra(top, l, log, e, i, settled, commits);
      case CoordPrepare => HoldDebit(top, l, log, e, settled, commits);
      case PartPrepareCommit => HoldCredit(top, l, log, e, settled, commits);
      case PartPrepareAbort => ItemKept(top, l, Exec(l, r, 0), i, settled, commits, commits);
      case _ =>
        if TxnOf(r) in l.wal {
          Release(top, l, log, e, i, settled, settled + Delta(l, r, i), commits, c1);
        } else {
          NoEffect(l, r, 0);
          ItemKept(top, l, Exec(l, r, 0), i, settled, commits, commits);
        }
    }
  }

  /** One item of another cluster: only a first commit concerns it, by settling its credit. */
  lemma FarItem(
      top: Topo.Topology, l: Ledger, far: Ledger, log: seq<Request>, e: Event, i: int, settled: int, commits: set<Digest>)
    requires top.Valid() && Routed(top, e) && top.ClusterOf(i) != e.c && InOrder(l, e.req, commits)
    requires WalExact(top, far, log, top.ClusterOf(i)) && Balanced(top, far, i, settled, commits)
    requires e.req.op == CoordCommit && TxnOf(e.req) in l.wal && i == e.req.y ==>
      TxnOf(e.req) in far.wal && TxnOf(e.req) !in commits
    ensures Balanced(top, far, i, settled + Delta(l, e.req, i), commits + MoreCommits(e.req))
  {
    var r, t, c1, p := e.req, TxnOf(e.req), commits + MoreCommits(e.req), top.ClusterOf(i);
    RetaggedTxn(r);
    if r.op == CoordCommit && t in l.wal && i == r.y {
      assert Slot(top, p, t) == i;
      forall u | u in far.wal && Slot(top, p, u) == i ensures u == t {}
    } else {
      ItemKept(top, far, far, i, settled, commits, c1);
    }
  }

  // ---------------------------------------------------------------- the order of decisions

  /** Coordinator decisions never stand in the participant's log. */
  lemma NoCoordOps(top: Topo.Topology, initial: int, run: seq<Event>, t: Digest)
    requires top.Valid() && WellFormed(top, initial, run) && top.ClusterOf(t.x) != top.ClusterOf(t.y)
    ensures var log := LogOf(run, top.ClusterOf(t.y));
      Tagged(t, CoordCommit) !in log && Tagged(t, CoordAbort) !in log
  {
    var p := top.ClusterOf(t.y);
    LogHas(run, p, Tagged(t, CoordCommit));
    LogHas(run, p, Tagged(t, CoordAbort));
    assert !Routed(top, Event(p, Tagged(t, CoordCommit)));
    assert !Routed(top, Event(p, Tagged(t, CoordAbort)));
  }

  /** Premises on the run make every operation come in order. */
  lemma OrderKept(top: Topo.Topology, initial: int, run: seq<Event>, e: Event)
    requires top.Valid() && WellFormed(top, initial, run) && Pending(top, initial, run, TxnOf(e.req))
    requires Routed(top, e) && P3Next(LogOf(run, e.c), e.req) && CausalNext(top, initial, run, e)
    ensures InOrder(LedgerOf(initial, run, e.c), e.req, Commits(run))
  {
    var t := TxnOf(e.req);
    RetaggedTxn(e.req);
    CausalNow(top, initial, run, t);
    if e.req.op == PartPrepareCommit {
      LogHas(run, e.c, e.req);
    } else if e.req.op == PartAbort {
      var c := top.ClusterOf(t.x);
      CausalNow(top, initial, run, t);
      LogHas(run, c, Tagged(t, CoordAbort));
      LogHas(run, c, Tagged(t, CoordCommit));
      if Tagged(t, CoordCommit) in LogOf(run, c) {
        assert P3(LogOf(run, c));
        OneKind(LogOf(run, c), t, CoordAbort, CoordCommit);
      }
    } else if e.req.op == CoordCommit && t !in LedgerOf(initial, run, e.c).wal {
      var t, log := TxnOf(e.req), LogOf(run, e.c);
      RetaggedTxn(e.req);
      CausalNow(top, initial, run, t);
      var q :| q in log && IsCommitPhaseOp(q.op) && TxnOf(q) == t;
      RetaggedTxn(q);
      LogHas(run, e.c, q);
    }
  }

  // ---------------------------------------------------------------- the theorem

  /** At the first coordinator commit the participant still holds the credit tentatively. */
  lemma FirstCommit(top: Topo.Topology, initial: int, run: seq<Event>, e: Event)
    requires top.Valid() && WellFormed(top, initial, run) && Pending(top, initial, run, TxnOf(e.req))
    requires WalExact(top, LedgerOf(initial, run, e.c), LogOf(run, e.c), e.c)
    requires Routed(top, e) && CausalNext(top, initial, run, e)
    requires e.req.op == CoordCommit && TxnOf(e.req) in LedgerOf(initial, run, e.c).wal
    ensures TxnOf(e.req) in LedgerOf(initial, run, top.ClusterOf(e.req.y)).wal
    ensures TxnOf(e.req) !in Commits(run)
  {
    var t, c, p := TxnOf(e.req), e.c, top.ClusterOf(e.req.y);
    RetaggedTxn(e.req);
    assert EntryExact(top, LedgerOf(initial, run, c), LogOf(run, c), c, t);
    CausalNow(top, initial, run, t);
    LogHas(run, c, Tagged(t, CoordCommit));
    LogHas(run, c, Tagged(t, CoordAbort));
    LogHas(run, p, Tagged(t, PartCommit));
    LogHas(run, p, Tagged(t, PartAbort));
    NoCoordOps(top, initial, run, t);
  }

  lemma SettledDelta(initial: int, run: seq<Event>, e: Event, i: int)
    ensures var l := LedgerOf(initial, run, e.c);
      Settled(initial, Order(initial, run) + Decides(l, e.req), i)
      == Settled(initial, Order(initial, run), i) + Delta(l, e.req, i)
  {
    var ds, more := Order(initial, run), Decides(LedgerOf(initial, run, e.c), e.req);
    if more == [] {
      assert ds + more == ds;
    } else {
      SettledSnoc(initial, ds, more[0], i);
    }
  }

  lemma ItemStep(top: Topo.Topology, initial: int, run: seq<Event>, e: Event, i: int)
    requires top.Valid() && RunInv(top, initial, run) && WellFormed(top, initial, run)
    requires Routed(top, e) && P3Next(LogOf(run, e.c), e.req) && CausalNext(top, initial, run, e)
    ensures var c, all := top.ClusterOf(i), run + [e];
      Balanced(top, LedgerOf(initial, all, c), i, Settled(initial, Order(initial, all), i), Commits(all))
  {
    var l, c := LedgerOf(initial, run, e.c), top.ClusterOf(i);
    var s := Settled(initial, Order(initial, run), i);
    Append(initial, run, e);
    CommitsSnoc(run, e);
    SettledDelta(initial, run, e, i);
    RetaggedTxn(e.req);
    assert Pending(top, initial, run, TxnOf(e.req));
    OrderKept(top, initial, run, e);
    assert WalExact(top, l, LogOf(run, e.c), e.c) && WalExact(top, LedgerOf(initial, run, c), LogOf(run, c), c);
    if c == e.c {
      NearItem(top, l, LogOf(run, c), e, i, s, Commits(run));
    } else {
      if e.req.op == CoordCommit && TxnOf(e.req) in l.wal && i == e.req.y {
        FirstCommit(top, initial, run, e);
      }
      FarItem(top, l, LedgerOf(initial, run, c), LogOf(run, c), e, i, s, Commits(run));
    }
  }

  /** A verdict is justified by the settled balance, because the present one is exact or held. */
  lemma JustifiedStep(top: Topo.Topology, l: Ledger, log: seq<Request>, e: Event, settled: int, commits: set<Digest>)
    requires top.Valid() && WalExact(top, l, log, e.c) && P3Next(log, e.req) && Routed(top, e)
    requires Balanced(top, l, e.req.x, settled, commits) && Decides(l, e.req) != []
    ensures var d := Decides(l, e.req)[0];
      |Decides(l, e.req)| == 1 && d.t.x == e.req.x && (d.verdict == Skipped <==> settled < d.t.amt)
  {
    var r := e.req;
    RetaggedTxn(r);
    if IsCommitPhaseOp(r.op) {
      assert EntryExact(top, l, log, e.c, TxnOf(r));
      assert Slot(top, e.c, TxnOf(r)) == r.x;
    } else {
      MovesUncovered(top, l, log, e.c, r, r.x);
    }
  }

  lemma JustStep(top: Topo.Topology, initial: int, run: seq<Event>, e: Event)
    requires top.Valid() && RunInv(top, initial, run)
    requires Routed(top, e) && P3Next(LogOf(run, e.c), e.req)
    ensures Justified(initial, Order(initial, run + [e]))
  {
    var l, ds, log := LedgerOf(initial, run, e.c), Order(initial, run), LogOf(run, e.c);
    Append(initial, run, e);
    assert WalExact(top, l, log, e.c);
    if Decides(l, e.req) == [] {
      assert ds + [] == ds;
    } else {
      JustifiedStep(top, l, log, e, Settled(initial, ds, e.req.x), Commits(run));
      JustifiedSnoc(initial, ds, Decides(l, e.req)[0]);
    }
  }

  lemma StepInv(top: Topo.Topology, initial: int, run: seq<Event>, e: Event)
    requires top.Valid() && RunInv(top, initial, run) && WellFormed(top, initial, run + [e])
    ensures RunInv(top, initial, run + [e])
  {
    Peel(top, initial, run, e);
    Append(initial, run, e);
    forall c ensures WalExact(top, LedgerOf(initial, run + [e], c), LogOf(run + [e], c), c) {
      assert WalExact(top, LedgerOf(initial, run, c), LogOf(run, c), c);
      if c == e.c {
        WalStep(top, LedgerOf(initial, run, c), LogOf(run, c), e);
      } else {
        assert LogOf(run, c) + [] == LogOf(run, c);
      }
    }
    forall t: Digest | t.op == Intra ensures Pending(top, initial, run + [e], t) {
      assert Pending(top, initial, run, t);
      PendingStep(top, initial, run, e, t);
    }
    forall i ensures var c, all := top.ClusterOf(i), run + [e];
      Balanced(top, LedgerOf(initial, all, c), i, Settled(initial, Order(initial, all), i), Commits(all))
    {
      ItemStep(top, initial, run, e, i);
    }
    JustStep(top, initial, run, e);
  }

  /** In every well-formed run each balance is the settled one plus the one tentative effect its WAL
      records, and each verdict is the one the serial execution reaches. */
  lemma {:induction false} SerialRefinement(top: Topo.Topology, initial: int, run: seq<Event>)
    requires top.Valid() && WellFormed(top, initial, run)
    ensures RunInv(top, initial, run)
  {
    if run == [] {
      forall i ensures Balanced(top, Fresh(initial), i, initial, {}) {}
    } else {
      assert run == Front(run) + [Last(run)];
      Peel(top, initial, Front(run), Last(run));
      SerialRefinement(top, initial, Front(run));
      StepInv(top, initial, Front(run), Last(run));
    }
  }
}
