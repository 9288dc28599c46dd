/** Two-phase locking by a stable primary (pbft/engine.go:302-370, 865-1005, 1198-1260): locks belong
    to unfinished operations, so what was checked when an operation was proposed still holds when it
    is executed, and nothing runs on an item between a prepare and its decision. */
module Proposer {
  import opened Types
  import opened Ledgers
  import opened Pbft
  import opened Micro
  import opened Agreement
  import opened Replication
  import opened Paths
  import Trace = Runs

  // ---------------------------------------------------------------- operations and their items

  predicate Live(slot: Slot) { slot.prePrepare && !slot.discarded && !slot.executed }

  /** The two halves of a cross-shard transaction are run by the clusters that own its endpoints,
      which differ. */
  predicate Sided(cfg: Config, req: Request)
    requires cfg.Valid()
  {
    match Normal(req.op)
    case CoordPrepare => cfg.top.ClusterOf(req.x) == cfg.cluster != cfg.top.ClusterOf(req.y)
    case CoordCommit => cfg.top.ClusterOf(req.x) == cfg.cluster != cfg.top.ClusterOf(req.y)
    case CoordAbort => cfg.top.ClusterOf(req.x) == cfg.cluster != cfg.top.ClusterOf(req.y)
    case PartPrepareCommit => cfg.top.ClusterOf(req.y) == cfg.cluster != cfg.top.ClusterOf(req.x)
    case PartPrepareAbort => cfg.top.ClusterOf(req.y) == cfg.cluster != cfg.top.ClusterOf(req.x)
    case PartCommit => cfg.top.ClusterOf(req.y) == cfg.cluster != cfg.top.ClusterOf(req.x)
    case PartAbort => cfg.top.ClusterOf(req.y) == cfg.cluster != cfg.top.ClusterOf(req.x)
    case _ => true
  }

  /** The endpoint of a cross-shard transaction that this cluster owns. */
  function ItemOf(cfg: Config, t: Digest): int
    requires cfg.Valid()
  {
    if cfg.top.ClusterOf(t.x) == cfg.cluster then t.x else t.y
  }

  function ItemSet(req: Request): set<int> { set i | i in LockItems(req) }

  /** What a prepare did to the balance of the item it holds. */
  function Taken(req: Request): int {
    if req.op == CoordPrepare then req.amt else -req.amt
  }

  // ---------------------------------------------------------------- the invariant

  predicate Fit(cfg: Config, slot: Slot)
    requires cfg.Valid()
  {
    && (slot.prePrepare || slot.discarded)
    && (slot.prePrepare ==> slot.req.op != Unset && Sided(cfg, slot.req))
    && (slot.prePrepare && slot.req.op == Intra ==> slot.req.x != slot.req.y)
  }

  predicate Prepared(slot: Slot, l: Ledger) {
    slot.executed && !slot.discarded && slot.prePrepare && Trace.Holds(slot.req.op) && TxnOf(slot.req) in l.wal
  }

  /** A lock is held by an operation that waits for execution or by a prepared transaction. */
  predicate Owned(log: map<int, Slot>, l: Ledger, i: int) {
    i in l.locks ==>
      var s := l.locks[i];
      s in log && i in LockItems(log[s].req) && (Live(log[s]) || Prepared(log[s], l))
  }

  /** An operation that waits for execution holds all its locks. */
  predicate Holding(l: Ledger, s: int, slot: Slot) {
    Live(slot) ==> forall i :: i in LockItems(slot.req) ==> i in l.locks && l.locks[i] == s
  }

  /** A WAL entry belongs to an executed prepare that still holds its item, and its pre-image is the
      present balance with the tentative effect taken back. */
  predicate Entry(cfg: Config, log: map<int, Slot>, l: Ledger, t: Digest)
    requires cfg.Valid()
  {
    t in l.wal ==>
      var i := ItemOf(cfg, t);
      && i in l.locks && l.locks[i] in log
      && Prepared(log[l.locks[i]], l) && TxnOf(log[l.locks[i]].req) == t
      && l.wal[t] == map[i := l.Bal(i) + Taken(log[l.locks[i]].req)]
  }

  predicate Deciding(slot: Slot, t: Digest) {
    Live(slot) && IsCommitPhaseOp(slot.req.op) && TxnOf(slot.req) == t
  }

  predicate Due(l: Ledger, slot: Slot) {
    Live(slot) && IsCommitPhaseOp(slot.req.op) ==> TxnOf(slot.req) in l.wal
  }

  predicate Able(l: Ledger, slot: Slot) {
    Live(slot) && slot.req.op in {Intra, CoordPrepare} ==> l.Bal(slot.req.x) >= slot.req.amt
  }

  predicate SlotOk(cfg: Config, l: Ledger, s: int, slot: Slot)
    requires cfg.Valid()
  {
    Fit(cfg, slot) && Holding(l, s, slot) && Due(l, slot) && Able(l, slot)
  }

  ghost predicate Exclusive(cfg: Config, log: map<int, Slot>, l: Ledger)
    requires cfg.Valid()
  {
    && (forall s :: s in log ==> SlotOk(cfg, l, s, log[s]))
    && (forall i :: Owned(log, l, i))
    && (forall t :: Entry(cfg, log, l, t))
    && (forall s, u, t :: s in log && u in log && Deciding(log[s], t) && Deciding(log[u], t) ==> s == u)
  }

  /** What the invariant says about two unfinished operations: they share no item. */
  lemma NoSharedItem(cfg: Config, log: map<int, Slot>, l: Ledger, s: int, u: int)
    requires cfg.Valid() && Exclusive(cfg, log, l)
    requires s in log && u in log && s != u && Live(log[s])
    requires Live(log[u]) || Prepared(log[u], l)
    ensures ItemSet(log[s].req) !! ItemSet(log[u].req)
  {
    assert SlotOk(cfg, l, s, log[s]) && SlotOk(cfg, l, u, log[u]);
    if Prepared(log[u], l) {
      HeldIsItem(cfg, log[u].req);
      assert Entry(cfg, log, l, TxnOf(log[u].req));
      assert !Live(log[l.locks[Trace.HeldItem(log[u].req)]]);
    }
    forall i | i in ItemSet(log[s].req) ensures i !in ItemSet(log[u].req) {
      assert l.locks[i] == s;
    }
  }

  lemma HeldIsItem(cfg: Config, req: Request)
    requires cfg.Valid() && Sided(cfg, req) && Trace.Holds(req.op)
    ensures ItemOf(cfg, TxnOf(req)) == Trace.HeldItem(req) && LockItems(req) == [Trace.HeldItem(req)]
    ensures ItemSet(req) == {Trace.HeldItem(req)}
  {
  }

  // ---------------------------------------------------------------- bookkeeping on a slot

  predicate Alike(a: Slot, b: Slot) {
    a.req == b.req && a.prePrepare == b.prePrepare && a.discarded == b.discarded && a.executed == b.executed
  }

  lemma Rewrite(cfg: Config, log: map<int, Slot>, l: Ledger, s: int, slot: Slot)
    requires cfg.Valid() && Exclusive(cfg, log, l) && s in log && Alike(log[s], slot)
    ensures Exclusive(cfg, log[s := slot], l)
  {
    var log2 := log[s := slot];
    forall u | u in log2 ensures SlotOk(cfg, l, u, log2[u]) {
      assert SlotOk(cfg, l, u, log[u]);
    }
    forall i ensures Owned(log2, l, i) {
      assert Owned(log, l, i);
    }
    forall t ensures Entry(cfg, log2, l, t) {
      assert Entry(cfg, log, l, t);
    }
    forall a, b, t | a in log2 && b in log2 && Deciding(log2[a], t) && Deciding(log2[b], t) ensures a == b {
      assert Deciding(log[a], t) && Deciding(log[b], t);
    }
  }

  // ---------------------------------------------------------------- proposing

  lemma {:induction false} AcquireAllTakes(l: Ledger, items: seq<int>, s: int)
    requires AcquireAll(l, items, s).1
    ensures var m := AcquireAll(l, items, s).0;
      && m == l.(locks := m.locks)
      && (forall i, j :: 0 <= i < j < |items| ==> items[i] != items[j])
      && (forall i :: i in items ==> i !in l.locks)
      && (forall k :: k in m.locks <==> k in l.locks || k in items)
      && (forall k :: k in m.locks ==> m.locks[k] == if k in items then s else l.locks[k])
    decreases |items|
  {
    if items != [] {
      var l1 := l.Acquire(items[0], s);
      AcquireAllTakes(l1, items[1..], s);
      assert items == [items[0]] + items[1..];
      assert items[0] in l1.locks;
    }
  }

  /** A new operation on unlocked items. */
  lemma OfferLocking(cfg: Config, log: map<int, Slot>, l: Ledger, s: int, slot: Slot, m: Ledger)
    requires cfg.Valid() && Exclusive(cfg, log, l) && (s in log ==> log[s].discarded)
    requires Live(slot) && Fit(cfg, slot) && Able(l, slot) && !IsCommitPhaseOp(slot.req.op)
    requires AcquireAll(l, LockItems(slot.req), s) == (m, true)
    ensures Exclusive(cfg, log[s := slot], m)
  {
    AcquireAllTakes(l, LockItems(slot.req), s);
    var log2 := log[s := slot];
    forall i ensures m.Bal(i) == l.Bal(i) {}
    forall u | u in log2 ensures SlotOk(cfg, m, u, log2[u]) {
      assert u != s ==> SlotOk(cfg, l, u, log[u]);
    }
    forall i ensures Owned(log2, m, i) {
      assert Owned(log, l, i);
    }
    forall t ensures Entry(cfg, log2, m, t) {
      assert Entry(cfg, log, l, t);
    }
    forall a, b, t | a in log2 && b in log2 && Deciding(log2[a], t) && Deciding(log2[b], t) ensures a == b {
      assert Deciding(log[a], t) && Deciding(log[b], t);
    }
  }

  /** A decision for a prepared transaction that has no other one under way. */
  lemma OfferDecision(cfg: Config, log: map<int, Slot>, l: Ledger, s: int, slot: Slot)
    requires cfg.Valid() && Exclusive(cfg, log, l) && (s in log ==> log[s].discarded)
    requires Live(slot) && Fit(cfg, slot) && IsCommitPhaseOp(slot.req.op) && TxnOf(slot.req) in l.wal
    requires forall u :: u in log ==> !Deciding(log[u], TxnOf(slot.req))
    ensures Exclusive(cfg, log[s := slot], l)
  {
    var log2 := log[s := slot];
    forall u | u in log2 ensures SlotOk(cfg, l, u, log2[u]) {
      assert u != s ==> SlotOk(cfg, l, u, log[u]);
    }
    forall i ensures Owned(log2, l, i) {
      assert Owned(log, l, i);
    }
    forall t ensures Entry(cfg, log2, l, t) {
      assert Entry(cfg, log, l, t);
    }
    forall a, b, t | a in log2 && b in log2 && Deciding(log2[a], t) && Deciding(log2[b], t) ensures a == b {
      assert a != s ==> Deciding(log[a], t);
      assert b != s ==> Deciding(log[b], t);
    }
  }

  // ---------------------------------------------------------------- finishing

  /** An operation gives its locks back and changes no balance but those of its items. */
  lemma Finish(cfg: Config, log: map<int, Slot>, l: Ledger, s: int, slot: Slot, m: Ledger)
    requires cfg.Valid() && Exclusive(cfg, log, l) && s in log && Live(log[s])
    requires Fit(cfg, slot) && slot.req == log[s].req && !Live(slot) && !Prepared(slot, m)
    requires m.locks == l.locks - ItemSet(slot.req) && m.wal == l.wal
    requires forall i :: i !in ItemSet(slot.req) ==> m.Bal(i) == l.Bal(i)
    ensures Exclusive(cfg, log[s := slot], m)
  {
    var log2, gone := log[s := slot], ItemSet(slot.req);
    assert SlotOk(cfg, l, s, log[s]);
    forall i | i in l.locks ensures i in gone <==> l.locks[i] == s {
      assert Owned(log, l, i);
    }
    forall u | u in log2 ensures SlotOk(cfg, m, u, log2[u]) {
      assert SlotOk(cfg, l, u, log[u]);
      if u != s && Live(log[u]) && log[u].req.op in {Intra, CoordPrepare} {
        assert log[u].req.x in LockItems(log[u].req);
      }
    }
    forall i ensures Owned(log2, m, i) {
      assert Owned(log, l, i);
    }
    forall t ensures Entry(cfg, log2, m, t) {
      assert Entry(cfg, log, l, t);
    }
    forall a, b, t | a in log2 && b in log2 && Deciding(log2[a], t) && Deciding(log2[b], t) ensures a == b {
      assert Deciding(log[a], t) && Deciding(log[b], t);
    }
  }

  /** A prepare keeps its lock and records its pre-image. */
  lemma Prepare(cfg: Config, log: map<int, Slot>, l: Ledger, s: int, slot: Slot, m: Ledger)
    requires cfg.Valid() && Exclusive(cfg, log, l) && s in log && Live(log[s]) && Trace.Holds(log[s].req.op)
    requires slot.req == log[s].req && slot.executed && slot.prePrepare && !slot.discarded
    requires m.locks == l.locks
    requires var i, t := Trace.HeldItem(slot.req), TxnOf(slot.req);
      && m.wal == l.wal[t := map[i := l.Bal(i)]]
      && (forall j :: m.Bal(j) == if j == i then l.Bal(i) - Taken(slot.req) else l.Bal(j))
    ensures Exclusive(cfg, log[s := slot], m)
  {
    var log2, i, t := log[s := slot], Trace.HeldItem(slot.req), TxnOf(slot.req);
    assert SlotOk(cfg, l, s, log[s]);
    HeldIsItem(cfg, slot.req);
    assert l.locks[i] == s;
    forall u | u in log2 ensures SlotOk(cfg, m, u, log2[u]) {
      assert SlotOk(cfg, l, u, log[u]);
      if u != s && Live(log[u]) && log[u].req.op in {Intra, CoordPrepare} {
        assert log[u].req.x in LockItems(log[u].req);
      }
    }
    forall j ensures Owned(log2, m, j) {
      assert Owned(log, l, j);
    }
    forall u ensures Entry(cfg, log2, m, u) {
      assert Entry(cfg, log, l, u);
    }
    forall a, b, u | a in log2 && b in log2 && Deciding(log2[a], u) && Deciding(log2[b], u) ensures a == b {
      assert Deciding(log[a], u) && Deciding(log[b], u);
    }
  }

  /** What an unfinished operation needs is not touched by the end of another one's transaction. */
  lemma DecideSlots(cfg: Config, log: map<int, Slot>, l: Ledger, s: int, m: Ledger, u: int)
    requires cfg.Valid() && Exclusive(cfg, log, l) && s in log && Live(log[s]) && IsCommitPhaseOp(log[s].req.op)
    requires u in log && u != s
    requires var t := TxnOf(log[s].req);
      var i := ItemOf(cfg, t);
      && m.wal == l.wal - {t} && m.locks == l.locks - {i}
      && (forall j :: j != i ==> m.Bal(j) == l.Bal(j))
    ensures SlotOk(cfg, m, u, log[u])
  {
    var t := TxnOf(log[s].req);
    assert SlotOk(cfg, l, s, log[s]) && SlotOk(cfg, l, u, log[u]) && Entry(cfg, log, l, t);
    assert Live(log[u]) ==> !Deciding(log[u], t) by {
      assert Deciding(log[s], t);
    }
    if Live(log[u]) && log[u].req.op in {Intra, CoordPrepare} {
      assert log[u].req.x in LockItems(log[u].req);
    }
  }

  /** A decision ends a prepared transaction: its entry and its lock go. */
  lemma Decide(cfg: Config, log: map<int, Slot>, l: Ledger, s: int, slot: Slot, m: Ledger)
    requires cfg.Valid() && Exclusive(cfg, log, l) && s in log && Live(log[s]) && IsCommitPhaseOp(log[s].req.op)
    requires slot.req == log[s].req && slot.executed && slot.prePrepare && !slot.discarded
    requires var t := TxnOf(slot.req);
      var i := ItemOf(cfg, t);
      && m.wal == l.wal - {t} && m.locks == l.locks - {i}
      && (forall j :: j != i ==> m.Bal(j) == l.Bal(j))
    ensures Exclusive(cfg, log[s := slot], m)
  {
    var log2, t := log[s := slot], TxnOf(slot.req);
    var i := ItemOf(cfg, t);
    assert SlotOk(cfg, l, s, log[s]) && Entry(cfg, log, l, t);
    forall u | u in log2 ensures SlotOk(cfg, m, u, log2[u]) {
      if u != s {
        DecideSlots(cfg, log, l, s, m, u);
      }
    }
    forall j ensures Owned(log2, m, j) {
      assert Owned(log, l, j);
      if j in m.locks && Prepared(log[l.locks[j]], l) {
        HeldIsItem(cfg, log[l.locks[j]].req);
      }
    }
    forall u ensures Entry(cfg, log2, m, u) {
      assert Entry(cfg, log, l, u);
    }
    forall a, b, u | a in log2 && b in log2 && Deciding(log2[a], u) && Deciding(log2[b], u) ensures a == b {
      assert Deciding(log[a], u) && Deciding(log[b], u);
    }
  }

  // ---------------------------------------------------------------- executing

  lemma ExecutePrepare(cfg: Config, log: map<int, Slot>, l: Ledger, s: int, view: int)
    requires cfg.Valid() && Exclusive(cfg, log, l) && s in log && Live(log[s]) && Trace.Holds(log[s].req.op)
    ensures Exclusive(cfg, log[s := log[s].(executed := true)], Exec(l, log[s].req, view))
    ensures TxnOf(log[s].req) in Exec(l, log[s].req, view).wal
  {
    var req := log[s].req;
    assert SlotOk(cfg, l, s, log[s]);
    assert SlotOk(cfg, l, s, log[s]);
    HeldIsItem(cfg, log[s].req);
    forall t | t in l.wal ensures t != TxnOf(log[s].req) {
      assert Entry(cfg, log, l, t);
      assert !Live(log[l.locks[ItemOf(cfg, t)]]);
    }
    if req.op == CoordPrepare {
      CoordPrepareEffect(l, req, view);
    } else {
      PartPrepareEffect(l, req, view);
    }
    Prepare(cfg, log, l, s, log[s].(executed := true), Exec(l, req, view));
  }

  lemma ExecuteExclusive(cfg: Config, log: map<int, Slot>, l: Ledger, s: int, view: int)
    requires cfg.Valid() && Exclusive(cfg, log, l) && s in log && Live(log[s])
    ensures Exclusive(cfg, log[s := log[s].(executed := true)], Exec(l, log[s].req, view))
  {
    if Trace.Holds(log[s].req.op) {
      ExecutePrepare(cfg, log, l, s, view);
    } else if IsCommitPhaseOp(log[s].req.op) {
      var req := log[s].req;
      assert SlotOk(cfg, l, s, log[s]) && Entry(cfg, log, l, TxnOf(req));
      if req.op in {CoordCommit, PartCommit} {
        CommitEffect(l, req, view);
      } else {
        AbortEffect(l, req, view);
      }
      Decide(cfg, log, l, s, log[s].(executed := true), Exec(l, req, view));
    } else {
      var req, m := log[s].req, Exec(l, log[s].req, view);
      assert SlotOk(cfg, l, s, log[s]);
      if req.op != Intra {
        assert l.locks - ItemSet(req) == l.locks;
      }
      Finish(cfg, log, l, s, log[s].(executed := true), m);
    }
  }

  // ---------------------------------------------------------------- what the executed log satisfies

  /** Between a prepare and the first decision of its transaction nothing moves money on its item. */
  predicate Exclusion(done: seq<Request>, req: Request) {
    Moves(req.op) ==>
      forall q :: q in done && Trace.Holds(q.op) && Trace.HeldItem(q) in Touched(req) ==> Trace.DecidedIn(done, TxnOf(q))
  }

  /** The balance that an operation debits covers it, and what a decision decides is prepared. */
  predicate Covers(l: Ledger, req: Request) {
    && (req.op in {Intra, CoordPrepare} ==> l.Bal(req.x) >= req.amt)
    && (IsCommitPhaseOp(req.op) ==> TxnOf(req) in l.wal)
  }

  ghost predicate Excluding(log: seq<Request>) {
    forall k :: 0 <= k < |log| ==> ExcludesAt(log, k)
  }

  predicate ExcludesAt(log: seq<Request>, k: nat)
    requires k < |log|
  {
    Exclusion(log[..k], log[k])
  }

  ghost predicate Covering(initial: int, log: seq<Request>, view: int) {
    forall k :: 0 <= k < |log| ==> CoversAt(initial, log, view, k)
  }

  predicate CoversAt(initial: int, log: seq<Request>, view: int, k: nat)
    requires k < |log|
  {
    Covers(ExecAll(Fresh(initial), log[..k], view), log[k])
  }

  predicate Recorded(cfg: Config, l: Ledger, done: seq<Request>)
    requires cfg.Valid()
  {
    && (forall q :: q in done ==> Sided(cfg, q) && (q.op == Intra ==> q.x != q.y))
    && (forall q :: q in done && Trace.Holds(q.op) && !Trace.DecidedIn(done, TxnOf(q)) ==> TxnOf(q) in l.wal)
  }

  ghost predicate History(r: Replica)
    requires r.cfg.Valid()
  {
    var log := Requests(r.executed);
    Recorded(r.cfg, r.ledger, log) && Excluding(log) && Covering(r.ledger.initial, log, r.view)
  }

  lemma ExecuteExcludes(cfg: Config, log: map<int, Slot>, l: Ledger, s: int, done: seq<Request>)
    requires cfg.Valid() && Exclusive(cfg, log, l) && s in log && Live(log[s]) && Recorded(cfg, l, done)
    ensures Exclusion(done, log[s].req) && Covers(l, log[s].req)
  {
    var req := log[s].req;
    assert SlotOk(cfg, l, s, log[s]);
    assert Moves(req.op) ==> Touched(req) == ItemSet(req);
    forall q | q in done && Trace.Holds(q.op) && !Trace.DecidedIn(done, TxnOf(q))
      ensures Trace.HeldItem(q) !in ItemSet(req)
    {
      HeldIsItem(cfg, q);
      assert Entry(cfg, log, l, TxnOf(q));
      assert !Live(log[l.locks[Trace.HeldItem(q)]]);
    }
  }

  lemma RecordMore(cfg: Config, l: Ledger, done: seq<Request>, req: Request, m: Ledger)
    requires cfg.Valid() && Recorded(cfg, l, done) && Sided(cfg, req) && (req.op == Intra ==> req.x != req.y)
    requires Trace.Holds(req.op) ==> TxnOf(req) in m.wal
    requires forall t :: t in l.wal && !(IsCommitPhaseOp(req.op) && t == TxnOf(req)) ==> t in m.wal
    ensures Recorded(cfg, m, done + [req])
  {
    var more := done + [req];
    assert Tagged(TxnOf(req), req.op) == req;
    forall q | q in more && Trace.Holds(q.op) && !Trace.DecidedIn(more, TxnOf(q)) ensures TxnOf(q) in m.wal {
      assert req in more;
      if q in done {
        assert !Trace.DecidedIn(done, TxnOf(q));
      }
    }
  }

  lemma SnocHistory(initial: int, log: seq<Request>, req: Request, view: int)
    requires Excluding(log) && Covering(initial, log, view)
    requires Exclusion(log, req) && Covers(ExecAll(Fresh(initial), log, view), req)
    ensures Excluding(log + [req]) && Covering(initial, log + [req], view)
  {
    var more := log + [req];
    forall k | 0 <= k < |more| ensures ExcludesAt(more, k) && CoversAt(initial, more, view, k) {
      if k < |log| {
        assert more[..k] == log[..k] && more[k] == log[k];
        assert ExcludesAt(log, k) && CoversAt(initial, log, view, k);
      } else {
        assert more[..k] == log && more[k] == req;
      }
    }
  }

  lemma WalAfter(l: Ledger, req: Request, view: int, t: Digest)
    requires t in l.wal && !(IsCommitPhaseOp(req.op) && t == TxnOf(req))
    ensures t in Exec(l, req, view).wal
  {
  }

  lemma ExecuteHistory(r: Replica)
    requires r.cfg.Valid() && Exclusive(r.cfg, r.log, r.ledger) && Replays(r) && History(r) && CanExecute(r)
    ensures History(ExecuteNext(r))
  {
    var q, s := ExecuteNext(r), r.execSeq;
    var req, done := r.log[s].req, Requests(r.executed);
    assert SlotOk(r.cfg, r.ledger, s, r.log[s]);
    assert Requests(q.executed) == done + [req];
    ExecuteExcludes(r.cfg, r.log, r.ledger, s, done);
    ExecKeepsInitial(r.ledger, req, r.view);
    var replay := ExecAll(Fresh(r.ledger.initial), done, r.view);
    assert replay.Core().Bal(req.x) == replay.Bal(req.x) && r.ledger.Core().Bal(req.x) == r.ledger.Bal(req.x);
    assert replay.Core().wal == replay.wal && r.ledger.Core().wal == r.ledger.wal;
    SnocHistory(r.ledger.initial, done, req, r.view);
    forall t | t in r.ledger.wal && !(IsCommitPhaseOp(req.op) && t == TxnOf(req)) ensures t in q.ledger.wal {
      WalAfter(r.ledger, req, r.view, t);
    }
    if Trace.Holds(req.op) {
      ExecutePrepare(r.cfg, r.log, r.ledger, s, r.view);
    }
    RecordMore(r.cfg, r.ledger, done, req, q.ledger);
  }

  // ---------------------------------------------------------------- every step of the primary

  ghost predicate Disciplined(r: Replica)
    requires r.cfg.Valid()
  {
    LeadInv(r) && Exclusive(r.cfg, r.log, r.ledger) && Replays(r) && InOrder(r) && History(r)
  }

  predicate Still(c: Change) { Calm(c) || c.Note? }

  lemma CalmExclusive(r: Replica, c: Change)
    requires r.cfg.Valid() && Exclusive(r.cfg, r.log, r.ledger) && Enabled(r, c) && Still(c)
    ensures Exclusive(r.cfg, Apply(r, c).log, Apply(r, c).ledger)
  {
    var q := Apply(r, c);
    match c
    case Execute =>
      assert SlotOk(r.cfg, r.ledger, r.execSeq, r.log[r.execSeq]);
      ExecuteExclusive(r.cfg, r.log, r.ledger, r.execSeq, r.view);
    case Vote(s, _, _) => Rewrite(r.cfg, r.log, r.ledger, s, q.log[s]);
    case CommitVote(s, _, _) => Rewrite(r.cfg, r.log, r.ledger, s, q.log[s]);
    case CertifyPrepare(s, _) => Rewrite(r.cfg, r.log, r.ledger, s, q.log[s]);
    case CertifyCommit(s, _) => Rewrite(r.cfg, r.log, r.ledger, s, q.log[s]);
    case _ =>
  }

  lemma CalmDisciplined(r: Replica, c: Change)
    requires r.cfg.Valid() && r.IsPrimary() && Disciplined(r) && Enabled(r, c) && Still(c)
    ensures Disciplined(Apply(r, c)) && Apply(r, c).ledger.initial == r.ledger.initial
  {
    LeadChanges(r, c);
    CalmExclusive(r, c);
    ChangeReplays(r, c);
    if c.Execute? {
      ExecuteHistory(r);
    }
  }

  lemma {:induction false} CalmRuns(r: Replica, cs: seq<Change>, q: Replica)
    requires r.cfg.Valid() && r.IsPrimary() && Disciplined(r) && Runs(r, cs, q) && forall c :: c in cs ==> Still(c)
    ensures q.cfg == r.cfg && q.view == r.view && Disciplined(q) && q.ledger.initial == r.ledger.initial
    decreases |cs|
  {
    if cs != [] {
      ApplyKeepsConfig(r, cs[0]);
      assert cs[0] in cs;
      CalmDisciplined(r, cs[0]);
      CalmRuns(Apply(r, cs[0]), cs[1..], q);
    }
  }

  // ---------------------------------------------------------------- proposing under the discipline

  /** What two-phase commit owes the primary, of an operation that the primary would propose: it is for
      this cluster, and a decision is for a prepared transaction that has no other decision under way.
      What the primary refuses, such as a repeated commit, may come at any time. */
  predicate Proper(r: Replica, req: Request)
    requires r.cfg.Valid()
  {
    ValidateForStart(r, req) && CanOffer(r, req) ==>
      && Sided(r.cfg, req)
      && (IsCommitPhaseOp(req.op) ==>
            && TxnOf(req) in r.ledger.wal
            && forall u :: u in r.log ==> !Deciding(r.log[u], TxnOf(req)))
  }

  lemma OfferExclusive(r: Replica, req: Request)
    requires r.cfg.Valid() && LeadInv(r) && Exclusive(r.cfg, r.log, r.ledger)
    requires Enabled(r, Offer(req)) && Proper(r, req)
    ensures var q := Apply(r, Offer(req));
      Exclusive(r.cfg, q.log, q.ledger) && Live(q.log[r.nextSeq]) && q.log[r.nextSeq].req == req
  {
    var s := r.nextSeq;
    var slot := Proposed(SlotAt(r, s), DigestOf(req), req);
    assert s in r.log ==> LeadSlot(r.log[s], true);
    if IsCommitPhaseOp(req.op) {
      OfferDecision(r.cfg, r.log, r.ledger, s, slot);
    } else {
      AcquireAllTakes(r.ledger, LockItems(req), s);
      assert req.op == Intra ==> LockItems(req)[0] == req.x && LockItems(req)[1] == req.y;
      OfferLocking(r.cfg, r.log, r.ledger, s, slot, OfferLedger(r, req));
    }
  }

  /** A transfer from an item to itself cannot take its second lock, so it is never proposed. */
  lemma SelfTransferNeverOffered(r: Replica, req: Request)
    requires req.op == Intra && req.x == req.y
    ensures !CanOffer(r, req)
  {
    var items := LockItems(req);
    assert items[0] == items[1];
    if CanOffer(r, req) {
      AcquireAllTakes(r.ledger, items, r.nextSeq);
    }
  }

  /** Locks that are already held are not taken again. */
  lemma {:induction false} EnsureHeld(l: Ledger, items: seq<int>, s: int)
    requires forall i :: i in items ==> i in l.locks && l.locks[i] == s
    ensures EnsureAll(l, items, s) == (l, true)
    decreases |items|
  {
    if items != [] {
      assert items[0] in items;
      EnsureHeld(l, items[1..], s);
    }
  }

  lemma OfferDisciplined(r: Replica, req: Request)
    requires r.cfg.Valid() && r.IsPrimary() && Disciplined(r)
    requires Enabled(r, Offer(req)) && Proper(r, req)
    ensures var q := Apply(r, Offer(req));
      Disciplined(q) && Live(q.log[r.nextSeq]) && q.ledger.initial == r.ledger.initial
  {
    LeadChanges(r, Offer(req));
    OfferExclusive(r, req);
    ChangeReplays(r, Offer(req));
    if !IsCommitPhaseOp(req.op) {
      AcquireAllTakes(r.ledger, LockItems(req), r.nextSeq);
    }
  }

  lemma StartDisciplined(r: Replica, req0: Request)
    requires r.cfg.Valid() && r.IsPrimary() && Disciplined(r) && Proper(r, req0.(op := Normal(req0.op)))
    ensures var q := StartConsensus(r, req0);
      q.cfg == r.cfg && q.view == r.view && Disciplined(q) && q.ledger.initial == r.ledger.initial
  {
    var cs := StartConsensusRuns(r, req0);
    StartingDisciplined(r, req0.(op := Normal(req0.op)), cs, StartConsensus(r, req0));
  }

  lemma StartingDisciplined(r: Replica, req: Request, cs: seq<Change>, q: Replica)
    requires r.cfg.Valid() && r.IsPrimary() && Disciplined(r) && Proper(r, req)
    requires Runs(r, cs, q) && Starting(r.nextSeq, req, cs)
    ensures q.cfg == r.cfg && q.view == r.view && Disciplined(q) && q.ledger.initial == r.ledger.initial
  {
    if OnlyNotes(req, cs) {
      CalmRuns(r, cs, q);
    } else {
      var r1 := Apply(r, cs[0]);
      ApplyKeepsConfig(r, cs[0]);
      if cs[0] == Offer(req) {
        OfferDisciplined(r, req);
        if cs[1..] != [] && cs[1..][0] == LockSlot(r.nextSeq) {
          assert SlotOk(r1.cfg, r1.ledger, r.nextSeq, r1.log[r.nextSeq]);
          EnsureHeld(r1.ledger, LockItems(r1.log[r.nextSeq].req), r.nextSeq);
          assert Apply(r1, cs[1..][0]) == r1;
          CalmRuns(r1, cs[1..][1..], q);
        } else {
          assert forall c :: c in cs[1..] ==> c == cs[1..][0] || c in cs[1..][1..];
          CalmRuns(r1, cs[1..], q);
        }
      } else {
        LeadChanges(r, Burn);
        ChangeReplays(r, Burn);
        CalmRuns(r1, cs[1..], q);
      }
    }
  }

  // ---------------------------------------------------------------- giving a proposal up

  lemma DiscardExclusive(r: Replica, s: int)
    requires r.cfg.Valid() && Exclusive(r.cfg, r.log, r.ledger) && Enabled(r, Discard(s)) && !r.log[s].discarded
    ensures var q := Apply(r, Discard(s));
      && Exclusive(r.cfg, q.log, q.ledger)
      && (forall i :: i in LockItems(r.log[s].req) ==> i !in q.ledger.locks)
  {
    assert SlotOk(r.cfg, r.ledger, s, r.log[s]);
    Finish(r.cfg, r.log, r.ledger, s, Discarded(r.log[s]), Apply(r, Discard(s)).ledger);
  }

  /** Discarding a slot that is already discarded, and whose items nobody locked since, does nothing. */
  lemma DiscardAgain(r: Replica, s: int)
    requires r.cfg.Valid() && Enabled(r, Discard(s)) && r.log[s] == Discarded(r.log[s])
    requires forall i :: i in LockItems(r.log[s].req) ==> i !in r.ledger.locks
    ensures Apply(r, Discard(s)) == r
  {
    assert r.log[s := r.log[s]] == r.log;
    assert r.ledger.locks - (set i | i in LockItems(r.log[s].req)) == r.ledger.locks;
  }

  function Retract(r: Replica, s: int, req: Request): Replica {
    RolledBack(DropCrossPrepare(SkipIfStuck(r, s), req), s).Send(DiscardMsg(s, r.view))
  }

  /** Everything but the cursors, the calls and the announcement stays. */
  predicate Withdrawn(r: Replica, q: Replica, s: int) {
    && q.cfg == r.cfg && q.view == r.view && q.log == r.log && q.ledger == r.ledger
    && q.executed == r.executed && q.execSeq >= r.execSeq && q.sent == r.sent + {DiscardMsg(s, r.view)}
    && q.nextSeq == (if r.nextSeq == s + 1 then s else r.nextSeq)
  }

  lemma RetractWithdraws(r: Replica, s: int, req: Request)
    ensures Withdrawn(r, Retract(r, s, req), s)
  {
  }

  lemma WithdrawnLeads(r: Replica, q: Replica, s: int)
    requires LeadInv(r) && s in r.log && r.log[s].discarded && Withdrawn(r, q, s)
    ensures LeadInv(q)
  {
    forall t | t in q.log ensures LeadSlot(q.log[t], t >= q.nextSeq) && Published(q.sent, q.log[t]) {
      assert LeadSlot(r.log[t], t >= r.nextSeq) && Published(r.sent, r.log[t]);
    }
    forall i | 0 <= i < |q.executed| ensures LeadDid(q.log, q.executed[i]) {
      assert LeadDid(r.log, r.executed[i]);
    }
  }

  lemma Retracted(r: Replica, s: int, req: Request)
    requires r.cfg.Valid() && r.IsPrimary() && Disciplined(r) && s in r.log && r.log[s].discarded
    ensures var q := Retract(r, s, req);
      Disciplined(q) && q.log == r.log && q.ledger == r.ledger && q.cfg == r.cfg && q.view == r.view
  {
    RetractWithdraws(r, s, req);
    WithdrawnLeads(r, Retract(r, s, req), s);
    assert InOrder(Retract(r, s, req)) && History(Retract(r, s, req));
  }

  /** A reclaim discards the slot, withdraws it, and lets execution go on. */
  lemma ReclaimSteps(r: Replica, s: int) returns (r1: Replica, r2: Replica)
    requires r.cfg.Valid() && r.IsPrimary() && Disciplined(r) && s in r.log && !r.log[s].discarded
    requires CanReclaim(r, s)
    ensures r1 == Apply(r, Discard(s)) && r2 == Retract(r1, s, r.log[s].req)
    ensures r2.cfg == r.cfg && r2.view == r.view && s in r2.log && r2.log[s].discarded && Disciplined(r2)
    ensures r2.ledger.initial == r.ledger.initial
    ensures Reclaim(r, s, r.log[s].req) == TryExecute(SkipIfStuck(r2, s))
  {
    var req, c := r.log[s].req, Discard(s);
    r1 := Apply(r, c);
    LeadChanges(r, c);
    ChangeReplays(r, c);
    DiscardExclusive(r, s);
    RetractWithdraws(r1, s, req);
    Retracted(r1, s, req);
    r2 := Retract(r1, s, req);
    DiscardAgain(r2, s);
    assert OnDiscard(r2, s, r.view) == TryExecute(SkipIfStuck(r2, s));
  }

  lemma ResumeRuns(r: Replica, s: int) returns (cs: seq<Change>)
    requires r.cfg.Valid() && s in r.log && r.log[s].discarded
    ensures Runs(r, cs, TryExecute(SkipIfStuck(r, s))) && AllCalm(cs)
  {
    var a := SkipIfStuckRuns(r, s);
    var b := TryExecuteRuns(SkipIfStuck(r, s));
    Then(r, a, SkipIfStuck(r, s), b, TryExecute(SkipIfStuck(r, s)));
    cs := a + b;
  }

  /** Execution neither takes locks nor brings a discarded slot back. */
  lemma {:induction false} ResumeFrees(r: Replica, s: int)
    requires s in r.log && r.log[s].discarded
    ensures var q := TryExecute(r);
      && q.sent == r.sent && q.nextSeq == r.nextSeq && s in q.log && q.log[s].discarded
      && forall i :: i in q.ledger.locks ==> i in r.ledger.locks
    decreases |Ahead(r)|
  {
    if CanSkip(r) {
      var q := r.(execSeq := r.execSeq + 1);
      assert Ahead(q) == Ahead(r) - {r.execSeq} && r.execSeq in Ahead(r);
      ResumeFrees(q, s);
    } else if CanExecute(r) {
      assert Ahead(ExecuteNext(r)) == Ahead(r) - {r.execSeq} && r.execSeq in Ahead(r);
      LocksAfter(r.ledger, r.log[r.execSeq].req, r.view);
      ResumeFrees(ExecuteNext(r), s);
    }
  }

  /** Giving up a proposal in use discards it exactly when it has neither executed nor been certified and
      too few members voted for it; then the discard is announced and its items are free again. */
  lemma GiveUpLaw(r: Replica, s: int)
    requires r.cfg.Valid() && r.IsPrimary() && Disciplined(r) && s in r.log && !r.log[s].discarded
    ensures var q, slot := Reclaim(r, s, r.log[s].req), r.log[s];
      && s in q.log
      && (q.log[s].discarded <==>
            !slot.executed && slot.prepareCert == None && |slot.prepares| < r.cfg.Quorum())
      && (q.log[s].discarded ==>
            DiscardMsg(s, r.view) in q.sent && forall i :: i in LockItems(slot.req) ==> i !in q.ledger.locks)
      && q.nextSeq == (if q.log[s].discarded && r.nextSeq == s + 1 then s else r.nextSeq)
  {
    assert LeadSlot(r.log[s], s >= r.nextSeq);
    if CanReclaim(r, s) {
      var r1, r2 := ReclaimSteps(r, s);
      DiscardExclusive(r, s);
      RetractWithdraws(r1, s, r.log[s].req);
      ResumeFrees(SkipIfStuck(r2, s), s);
    }
  }

  /** At any replica: an announced discard of the view takes a known slot out exactly when it has neither
      executed nor a commit certificate, and frees its items. */
  lemma DiscardLaw(r: Replica, s: int, view: int)
    requires s in r.log && !r.log[s].discarded
    ensures var q, slot := OnDiscard(r, s, view), r.log[s];
      var taken := view == r.view && !slot.executed && slot.commitCert == None;
      && (taken ==> s in q.log && q.log[s].discarded && forall i :: i in LockItems(slot.req) ==> i !in q.ledger.locks)
      && (!taken ==> q == r)
  {
    if view == r.view && !r.log[s].executed && r.log[s].commitCert == None {
      var m := r.Put(s, Discarded(r.log[s])).(ledger := ReleaseAll(r.ledger, LockItems(r.log[s].req)));
      ResumeFrees(SkipIfStuck(m, s), s);
    }
  }

  // ---------------------------------------------------------------- whole runs of the primary

  ghost predicate Warranted(r: Replica, a: Action)
    requires r.cfg.Valid()
  {
    match a
    case Start(req) => Proper(r, req.(op := Normal(req.op)))
    case GiveUp(s) => s in r.log && !r.log[s].discarded
    case Deliver(_, _) => false
    case _ => true
  }

  ghost predicate LedStep(x: Replica, a: Action, y: Replica) {
    x.cfg.Valid() && Warranted(x, a) && y == Lead(x, a)
  }

  /** The last state is reached from the first by actions that are warranted. */
  ghost predicate Led(first: Replica, acts: seq<Action>, last: Replica) {
    Path(LedStep, first, acts, last)
  }

  lemma LeadDisciplined(r: Replica, a: Action)
    requires r.cfg.Valid() && r.IsPrimary() && Disciplined(r) && Warranted(r, a)
    ensures var q := Lead(r, a);
      q.cfg == r.cfg && q.view == r.view && Disciplined(q) && q.ledger.initial == r.ledger.initial
  {
    match a {
      case Start(req) => StartDisciplined(r, req);
      case TakePrepare(from, s, v, d, sig) =>
        var cs := OnPrepareRuns(r, from, s, v, d, sig);
        CalmRuns(r, cs, Lead(r, a));
      case TakeCommit(from, s, v, d, sig) =>
        var cs := OnCommitRuns(r, from, s, v, d, sig);
        CalmRuns(r, cs, Lead(r, a));
      case GiveUp(s) =>
        if CanReclaim(r, s) {
          var _, r2 := ReclaimSteps(r, s);
          var cs := ResumeRuns(r2, s);
          CalmRuns(r2, cs, TryExecute(SkipIfStuck(r2, s)));
        }
    }
  }

  lemma {:induction false} LedDisciplined(r: Replica, acts: seq<Action>, q: Replica)
    requires r.cfg.Valid() && r.IsPrimary() && Disciplined(r) && Led(r, acts, q)
    ensures q.cfg == r.cfg && q.view == r.view && Disciplined(q) && q.ledger.initial == r.ledger.initial
    decreases |acts|
  {
    if acts != [] {
      var _ := PathFirst(LedStep, r, acts, q);
      LeadDisciplined(r, acts[0]);
      LedDisciplined(Lead(r, acts[0]), acts[1..], q);
    }
  }

  /** Proposer exclusivity, in every run of a stable primary, with proposals given up and numbers
      reused: each held lock belongs to exactly one unfinished operation, every WAL entry's item is
      locked and its pre-image is the balance with the tentative effect taken back, and unfinished
      operations share no item. */
  lemma ProposerExclusivity(cfg: Config, initial: int, acts: seq<Action>, q: Replica)
    requires cfg.Valid() && cfg.top.PrimaryOf(cfg.cluster, 0) == cfg.self && Led(Boot(cfg, initial), acts, q)
    ensures forall i :: i in q.ledger.locks ==>
      var s := q.ledger.locks[i];
      s in q.log && i in LockItems(q.log[s].req) && (Live(q.log[s]) || Prepared(q.log[s], q.ledger))
    ensures forall i, s :: s in q.log && Live(q.log[s]) && i in LockItems(q.log[s].req) ==>
      i in q.ledger.locks && q.ledger.locks[i] == s
    ensures forall t :: t in q.ledger.wal ==> Entry(cfg, q.log, q.ledger, t)
    ensures forall s, u :: s in q.log && u in q.log && s != u && Live(q.log[s]) && Live(q.log[u]) ==>
      ItemSet(q.log[s].req) !! ItemSet(q.log[u].req)
  {
    LedDisciplined(Boot(cfg, initial), acts, q);
    forall i | i in q.ledger.locks
      ensures var s := q.ledger.locks[i];
        s in q.log && i in LockItems(q.log[s].req) && (Live(q.log[s]) || Prepared(q.log[s], q.ledger))
    {
      assert Owned(q.log, q.ledger, i);
    }
    forall i, s | s in q.log && Live(q.log[s]) && i in LockItems(q.log[s].req)
      ensures i in q.ledger.locks && q.ledger.locks[i] == s
    {
      assert SlotOk(cfg, q.ledger, s, q.log[s]);
    }
    forall s, u | s in q.log && u in q.log && s != u && Live(q.log[s]) && Live(q.log[u])
      ensures ItemSet(q.log[s].req) !! ItemSet(q.log[u].req)
    {
      NoSharedItem(cfg, q.log, q.ledger, s, u);
    }
  }

  /** The same runs, read off the executed log: the balance that was checked when an operation was
      proposed still covers it when it executes, so the failure branches are not reached; no transfer
      has equal endpoints; and the exclusion clause of premise P3 holds. */
  lemma StableSufficiency(cfg: Config, initial: int, acts: seq<Action>, q: Replica)
    requires cfg.Valid() && cfg.top.PrimaryOf(cfg.cluster, 0) == cfg.self && Led(Boot(cfg, initial), acts, q)
    ensures var log := Requests(q.executed);
      && (forall k :: 0 <= k < |log| ==>
            Exclusion(log[..k], log[k]) && Covers(ExecAll(Fresh(initial), log[..k], 0), log[k]))
      && (forall k :: 0 <= k < |log| && log[k].op == Intra ==> log[k].x != log[k].y)
  {
    LedDisciplined(Boot(cfg, initial), acts, q);
    var log := Requests(q.executed);
    assert Recorded(cfg, q.ledger, log) && Excluding(log) && Covering(initial, log, 0);
    assert forall k :: 0 <= k < |log| ==> log[k] in log;
    forall k | 0 <= k < |log|
      ensures Exclusion(log[..k], log[k]) && Covers(ExecAll(Fresh(initial), log[..k], 0), log[k])
    {
      assert ExcludesAt(log, k) && CoversAt(initial, log, 0, k);
    }
  }

  // ---------------------------------------------------------------- premise P3

  /** A prepare is the first thing that its transaction does in the log. */
  predicate FirstPrepare(log: seq<Request>, req: Request) {
    Trace.IsPrepare(req.op) ==> !Trace.PreparedIn(log, TxnOf(req)) && !Trace.DecidedIn(log, TxnOf(req))
  }

  predicate PreparesOnce(log: seq<Request>) {
    forall k :: 0 <= k < |log| ==> PreparesAt(log, k)
  }

  predicate PreparesAt(log: seq<Request>, k: nat)
    requires k < |log|
  {
    FirstPrepare(log[..k], log[k])
  }

  lemma WalGrows(l: Ledger, req: Request, view: int, t: Digest)
    requires t !in l.wal && t in Exec(l, req, view).wal
    ensures Trace.Holds(req.op) && TxnOf(req) == t
  {
  }

  lemma DecisionDeletes(l: Ledger, req: Request, view: int)
    requires IsCommitPhaseOp(req.op)
    ensures TxnOf(req) !in Exec(l, req, view).wal
  {
  }

  /** A decided transaction has no WAL entry any more. */
  lemma {:induction false} DecidedIsClosed(initial: int, log: seq<Request>, view: int, t: Digest)
    requires PreparesOnce(log) && Trace.DecidedIn(log, t) && t.op == Intra
    ensures t !in ExecAll(Fresh(initial), log, view).wal
  {
    var n := |log| - 1;
    var req, before := log[n], log[..n];
    assert log == before + [req];
    assert TxnOf(req) != t ==> Trace.DecidedIn(before, t) by {
      assert forall op :: TxnOf(Tagged(t, op)) == t;
    }
    assert PreparesAt(log, n);
    forall k | 0 <= k < n ensures PreparesAt(before, k) {
      assert before[..k] == log[..k] && before[k] == log[k];
      assert PreparesAt(log, k);
    }
    var l := ExecAll(Fresh(initial), before, view);
    if Trace.DecidedIn(before, t) {
      DecidedIsClosed(initial, before, view, t);
      if t in Exec(l, req, view).wal {
        WalGrows(l, req, view, t);
      }
    } else {
      DecisionDeletes(l, req, view);
    }
  }

  /** Of a log with the exclusion clause, whose decisions are all for prepared transactions, premise P3
      asks no more than that nothing is prepared again. */
  lemma P3IsPreparingOnce(initial: int, log: seq<Request>, view: int)
    requires Excluding(log) && Covering(initial, log, view)
    ensures Trace.P3(log) <==> PreparesOnce(log)
  {
    if Trace.P3(log) {
      forall k | 0 <= k < |log| ensures PreparesAt(log, k) {
        assert Trace.P3At(log, k);
      }
    }
    if PreparesOnce(log) {
      forall k | 0 <= k < |log| ensures Trace.P3At(log, k) {
        P3Step(initial, log, view, k);
      }
    }
  }

  lemma P3Step(initial: int, log: seq<Request>, view: int, k: nat)
    requires k < |log| && PreparesOnce(log) && ExcludesAt(log, k) && CoversAt(initial, log, view, k)
    ensures Trace.P3At(log, k)
  {
    assert PreparesAt(log, k);
    var done, req := log[..k], log[k];
    forall j | 0 <= j < k ensures PreparesAt(done, j) {
      assert done[..j] == log[..j] && done[j] == log[j];
      assert PreparesAt(log, j);
    }
    if IsCommitPhaseOp(req.op) && Trace.DecidedIn(done, TxnOf(req)) {
      DecidedIsClosed(initial, done, view, TxnOf(req));
    }
    forall q | q in done && IsCommitPhaseOp(q.op) && TxnOf(q) == TxnOf(req) ensures Trace.DecidedIn(done, TxnOf(req)) {
      assert Tagged(TxnOf(q), q.op) == q;
    }
  }

  /** The executed log of a stable primary satisfies premise P3 exactly when no transaction is prepared
      again after it was prepared or decided. */
  lemma PrimaryLogIsP3(cfg: Config, initial: int, acts: seq<Action>, q: Replica)
    requires cfg.Valid() && cfg.top.PrimaryOf(cfg.cluster, 0) == cfg.self && Led(Boot(cfg, initial), acts, q)
    ensures Trace.P3(Requests(q.executed)) <==> PreparesOnce(Requests(q.executed))
  {
    LedDisciplined(Boot(cfg, initial), acts, q);
    P3IsPreparingOnce(initial, Requests(q.executed), 0);
  }

  // ---------------------------------------------------------------- decisions without an entry

  /** Locks are released without asking who owns them.  In a disciplined state, executing a decision
      for `req` leaves every other operation its locks and every WAL entry its own exactly when the
      transaction has a WAL entry or its item is free. */
  lemma DecisionSafety(cfg: Config, log: map<int, Slot>, l: Ledger, req: Request, view: int)
    requires cfg.Valid() && Exclusive(cfg, log, l) && Sided(cfg, req) && IsCommitPhaseOp(req.op)
    ensures LocksIntact(cfg, log, Exec(l, req, view))
      <==> TxnOf(req) in l.wal || ItemOf(cfg, TxnOf(req)) !in l.locks
  {
    assert
      && (var m := Exec(l, req, view); m.wal == l.wal - {TxnOf(req)} && m.locks == l.locks - {ItemOf(cfg, TxnOf(req))}) by {
      assert ItemOf(cfg, TxnOf(req)) == if req.op in {CoordCommit, CoordAbort} then req.x else req.y;
      match req.op
      case CoordCommit =>
      case CoordAbort =>
      case PartCommit =>
      case PartAbort =>
    }
    var m, t := Exec(l, req, view), TxnOf(req);
    var i := ItemOf(cfg, t);
    if t in l.wal {
      assert Entry(cfg, log, l, t);
      forall s | s in log ensures Holding(m, s, log[s]) {
        assert SlotOk(cfg, l, s, log[s]);
      }
      forall u | u in m.wal ensures ItemOf(cfg, u) in m.locks {
        assert Entry(cfg, log, l, u);
      }
    } else if i !in l.locks {
      assert m.wal == l.wal && m.locks == l.locks;
      forall s | s in log ensures Holding(m, s, log[s]) {
        assert SlotOk(cfg, l, s, log[s]);
      }
      forall u | u in m.wal ensures ItemOf(cfg, u) in m.locks {
        assert Entry(cfg, log, l, u);
      }
    } else {
      ForeignDecisionUnsafe(cfg, log, l, t, m);
    }
  }

  ghost predicate LocksIntact(cfg: Config, log: map<int, Slot>, m: Ledger)
    requires cfg.Valid()
  {
    (forall s :: s in log ==> Holding(m, s, log[s])) && (forall t :: t in m.wal ==> ItemOf(cfg, t) in m.locks)
  }

  lemma ForeignDecisionUnsafe(cfg: Config, log: map<int, Slot>, l: Ledger, t: Digest, m: Ledger)
    requires cfg.Valid() && Exclusive(cfg, log, l) && t !in l.wal && ItemOf(cfg, t) in l.locks
    requires m.wal == l.wal - {t} && m.locks == l.locks - {ItemOf(cfg, t)}
    ensures !LocksIntact(cfg, log, m)
  {
    var i := ItemOf(cfg, t);
    assert Owned(log, l, i);
    var s := l.locks[i];
    assert SlotOk(cfg, l, s, log[s]);
    if Live(log[s]) {
      assert !Holding(m, s, log[s]);
    } else {
      HeldIsItem(cfg, log[s].req);
      assert TxnOf(log[s].req) in m.wal && ItemOf(cfg, TxnOf(log[s].req)) == i;
    }
  }

}
