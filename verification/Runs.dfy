/** Runs of the whole bank: an interleaving of the clusters' logs, the premises put on it, and the
    order in which its transactions are decided. */
module Runs {
  import opened Types
  import opened Ledgers
  import Topo = Topology

  /** Cluster `c` executes `req`. */
  datatype Event = Event(c: int, req: Request)

  function Front<T>(s: seq<T>): seq<T>
    requires s != []
  {
    s[..|s| - 1]
  }

  function Last<T>(s: seq<T>): T
    requires s != []
  {
    s[|s| - 1]
  }

  /** The log of one cluster. */
  function LogOf(run: seq<Event>, c: int): seq<Request> {
    if run == [] then []
    else LogOf(Front(run), c) + if Last(run).c == c then [Last(run).req] else []
  }

  /** The ledger of one cluster after a run. */
  function LedgerOf(initial: int, run: seq<Event>, c: int): Ledger {
    if run == [] then Fresh(initial)
    else
      var before := LedgerOf(initial, Front(run), c);
      if Last(run).c == c then Exec(before, Last(run).req, 0) else before
  }

  // ---------------------------------------------------------------- the decision order

  /** Done moved the money, Undone was prepared and then rolled back, Skipped was never covered. */
  datatype Verdict = Done | Skipped | Undone

  datatype Decision = Decision(t: Digest, verdict: Verdict)

  /** What executing `req` on its cluster's ledger decides about its transaction. */
  function Decides(l: Ledger, req: Request): seq<Decision> {
    var t := TxnOf(req);
    match Normal(req.op)
    case Intra => [Decision(t, if l.Bal(req.x) < req.amt then Skipped else Done)]
    case CoordPrepare => if l.Bal(req.x) < req.amt then [Decision(t, Skipped)] else []
    case CoordCommit => if t in l.wal then [Decision(t, Done)] else []
    case CoordAbort => if t in l.wal then [Decision(t, Undone)] else []
    case _ => []
  }

  function Order(initial: int, run: seq<Event>): seq<Decision> {
    if run == [] then []
    else
      var e := Last(run);
      Order(initial, Front(run)) + Decides(LedgerOf(initial, Front(run), e.c), e.req)
  }

  /** The balance of an item when the decided transactions are carried out one after another. */
  function Settled(initial: int, ds: seq<Decision>, item: int): int {
    if ds == [] then initial
    else
      var before := Settled(initial, Front(ds), item);
      var d := Last(ds);
      if d.verdict != Done then before
      else if item == d.t.x then before - d.t.amt
      else if item == d.t.y then before + d.t.amt
      else before
  }

  /** Carried out one after another, every transaction meets the balance its verdict needs. */
  predicate Justified(initial: int, ds: seq<Decision>) {
    forall k :: 0 <= k < |ds| ==> JustifiedAt(initial, ds, k)
  }

  predicate JustifiedAt(initial: int, ds: seq<Decision>, k: nat)
    requires k < |ds|
  {
    ds[k].verdict == Skipped <==> Settled(initial, ds[..k], ds[k].t.x) < ds[k].t.amt
  }

  // ---------------------------------------------------------------- premises on a run

  predicate IsPrepare(op: Op) { op in {CoordPrepare, PartPrepareCommit, PartPrepareAbort} }

  predicate Holds(op: Op) { op in {CoordPrepare, PartPrepareCommit} }

  /** The item that a prepare operation holds until its transaction is decided. */
  function HeldItem(req: Request): int {
    if req.op == CoordPrepare then req.x else req.y
  }

  predicate DecidedIn(log: seq<Request>, t: Digest) {
    || Tagged(t, CoordCommit) in log
    || Tagged(t, CoordAbort) in log
    || Tagged(t, PartCommit) in log
    || Tagged(t, PartAbort) in log
  }

  predicate PreparedIn(log: seq<Request>, t: Digest) {
    || Tagged(t, CoordPrepare) in log
    || Tagged(t, PartPrepareCommit) in log
    || Tagged(t, PartPrepareAbort) in log
  }

  /** Premise P3 for one more entry: a prepare is the first thing a transaction does in the log,
      its decisions are all of one kind, and nothing moves money on an item that a prepared and
      still undecided transaction holds. */
  predicate P3Next(log: seq<Request>, req: Request) {
    && (IsPrepare(req.op) ==> !PreparedIn(log, TxnOf(req)) && !DecidedIn(log, TxnOf(req)))
    && (IsCommitPhaseOp(req.op) ==>
          forall q :: q in log && IsCommitPhaseOp(q.op) && TxnOf(q) == TxnOf(req) ==> q.op == req.op)
    && (Moves(req.op) ==>
          forall q :: q in log && Holds(q.op) && HeldItem(q) in Touched(req) ==> DecidedIn(log, TxnOf(q)))
  }

  predicate P3(log: seq<Request>) {
    forall k :: 0 <= k < |log| ==> P3At(log, k)
  }

  predicate P3At(log: seq<Request>, k: nat)
    requires k < |log|
  {
    P3Next(log[..k], log[k])
  }

  /** Operations reach the cluster that owns the item they change, and intra-shard transfers have
      two different endpoints. */
  predicate Routed(top: Topo.Topology, e: Event)
    requires top.Valid()
  {
    var r := e.req;
    && r.amt >= 0
    && match Normal(r.op)
       case Intra => top.ClusterOf(r.x) == e.c && top.ClusterOf(r.y) == e.c && r.x != r.y
       case CoordPrepare => top.ClusterOf(r.x) == e.c && top.ClusterOf(r.y) != e.c
       case CoordCommit => top.ClusterOf(r.x) == e.c && top.ClusterOf(r.y) != e.c
       case CoordAbort => top.ClusterOf(r.x) == e.c && top.ClusterOf(r.y) != e.c
       case PartPrepareCommit => top.ClusterOf(r.y) == e.c && top.ClusterOf(r.x) != e.c
       case PartPrepareAbort => top.ClusterOf(r.y) == e.c && top.ClusterOf(r.x) != e.c
       case PartCommit => top.ClusterOf(r.y) == e.c && top.ClusterOf(r.x) != e.c
       case PartAbort => top.ClusterOf(r.y) == e.c && top.ClusterOf(r.x) != e.c
       case _ => false
  }

  /** The coordinator's debit for `t` went through. */
  predicate Debited(top: Topo.Topology, initial: int, run: seq<Event>, t: Digest)
    requires top.Valid()
  {
    var c := top.ClusterOf(t.x);
    exists k :: 0 <= k < |run| && run[k] == Event(c, Tagged(t, CoordPrepare))
      && LedgerOf(initial, run[..k], c).Bal(t.x) >= t.amt
  }

  predicate Happened(run: seq<Event>, c: int, t: Digest, op: Op) {
    Event(c, Tagged(t, op)) in run
  }

  /** Two-phase commit's order: a participant credits only after the debit, the coordinator commits
      only after the credit, and a participant finalises only as the coordinator has. */
  predicate CausalNext(top: Topo.Topology, initial: int, run: seq<Event>, e: Event)
    requires top.Valid()
  {
    var t := TxnOf(e.req);
    && (e.req.op == PartPrepareCommit ==> Debited(top, initial, run, t))
    && (e.req.op == CoordCommit ==> Happened(run, top.ClusterOf(t.y), t, PartPrepareCommit))
    && (e.req.op == PartCommit ==> Happened(run, top.ClusterOf(t.x), t, CoordCommit))
    && (e.req.op == PartAbort ==> Happened(run, top.ClusterOf(t.x), t, CoordAbort))
  }

  predicate Causal(top: Topo.Topology, initial: int, run: seq<Event>)
    requires top.Valid()
  {
    forall k :: 0 <= k < |run| ==> CausalAt(top, initial, run, k)
  }

  predicate CausalAt(top: Topo.Topology, initial: int, run: seq<Event>, k: nat)
    requires top.Valid() && k < |run|
  {
    CausalNext(top, initial, run[..k], run[k])
  }

  ghost predicate WellFormed(top: Topo.Topology, initial: int, run: seq<Event>)
    requires top.Valid()
  {
    && (forall e :: e in run ==> Routed(top, e))
    && (forall c :: P3(LogOf(run, c)))
    && Causal(top, initial, run)
  }

  // ---------------------------------------------------------------- appending one event

  /** A well-formed run ends with an event that its predecessors allow. */
  lemma Peel(top: Topo.Topology, initial: int, run: seq<Event>, e: Event)
    requires top.Valid() && WellFormed(top, initial, run + [e])
    ensures WellFormed(top, initial, run)
    ensures Routed(top, e) && P3Next(LogOf(run, e.c), e.req) && CausalNext(top, initial, run, e)
  {
    var all := run + [e];
    assert Front(all) == run && Last(all) == e;
    assert all[|run|] == e && all[..|run|] == run;
    assert e in all;
    forall c ensures P3(LogOf(run, c)) {
      var log, longer := LogOf(run, c), LogOf(all, c);
      assert P3(longer);
      forall k | 0 <= k < |log| ensures P3At(log, k) {
        assert longer[..k] == log[..k] && longer[k] == log[k];
        assert P3At(longer, k);
      }
    }
    var log, longer := LogOf(run, e.c), LogOf(all, e.c);
    assert longer == log + [e.req];
    assert P3(longer) && P3At(longer, |log|) && longer[..|log|] == log && longer[|log|] == e.req;
    assert CausalAt(top, initial, all, |run|);
    forall k | 0 <= k < |run| ensures CausalAt(top, initial, run, k) {
      assert all[..k] == run[..k] && all[k] == run[k];
      assert CausalAt(top, initial, all, k);
    }
  }

  lemma Append(initial: int, run: seq<Event>, e: Event)
    ensures forall c :: LogOf(run + [e], c) == LogOf(run, c) + if c == e.c then [e.req] else []
    ensures forall c ::
      LedgerOf(initial, run + [e], c) == (
        if c == e.c then Exec(LedgerOf(initial, run, c), e.req, 0) else LedgerOf(initial, run, c))
    ensures Order(initial, run + [e]) == Order(initial, run) + Decides(LedgerOf(initial, run, e.c), e.req)
  {
    assert Front(run + [e]) == run && Last(run + [e]) == e;
  }

  /** The ledger of a cluster depends on its own log alone. */
  lemma {:induction false} LedgerFromLog(initial: int, run: seq<Event>, c: int)
    ensures LedgerOf(initial, run, c) == ExecAll(Fresh(initial), LogOf(run, c), 0)
  {
    if run != [] {
      LedgerFromLog(initial, Front(run), c);
      var log, r := LogOf(Front(run), c), Last(run).req;
      if Last(run).c == c {
        assert (log + [r])[..|log|] == log;
      } else {
        assert log + [] == log;
      }
    }
  }

  lemma {:induction false} LogHas(run: seq<Event>, c: int, r: Request)
    ensures r in LogOf(run, c) <==> Event(c, r) in run
  {
    if run != [] {
      LogHas(Front(run), c, r);
      assert run == Front(run) + [Last(run)];
    }
  }
}
