/** The whole bank when two-phase commit keeps its side at every primary: of premise P3 no more is left
    to assume than that no participant prepare is repeated. */
module Composition {
  import opened Types
  import opened Ledgers
  import opened Runs
  import opened Pbft
  import opened TwoPC
  import opened TwoPhase
  import opened Paths
  import Bank
  import CrossSlot
  import Proposer
  import Refinement
  import Replication

  /** A step of the bank that is orderly at the node that takes it. */
  ghost predicate OrderlyStep(x: World, a: Step, y: World) {
    x.Configured() && Possible(x, a) && CrossSlot.Orderly(x.nodes[a.c], a.act) && y == StepTo(x, a)
  }

  /** A decision that the primary would propose, if it is one, finds no other decision of its transaction
      waiting for execution; and an abort, which is proposed without looking, finds the WAL entry. */
  predicate Undisputed(r: Replica, req: Request) {
    IsCommitPhaseOp(req.op) && ValidateForStart(r, req) && CanOffer(r, req) ==>
      && (req.op == CoordAbort || req.op == PartAbort ==> TxnOf(req) in r.ledger.wal)
      && forall u :: u in r.log ==> !Proposer.Deciding(r.log[u], TxnOf(req))
  }

  /** Which steps of the bank are orderly: all but giving up what was given up already, and proposing a
      disputed decision - an abort that is re-driven after a commit (coordinator.go:275-283), a repeated
      abort or one that was never prepared, or a decision repeated before the first has executed. */
  lemma OrderlyIff(w: World, s: Step)
    requires WorldInv(w) && Possible(w, s)
    ensures var n := w.nodes[s.c];
      CrossSlot.Orderly(n, s.act) <==>
        match s.act
        case Work(a) => a.GiveUp? ==> !n.r.log[a.seqNo].discarded
        case Next(i) => Undisputed(n.r, n.ingress[i].(op := Normal(n.ingress[i].op)))
        case _ => true
  {
    var n := w.nodes[s.c];
    assert w.Placed(s.c, n) && NodeInv(w.top, w.trace, s.c, n);
    if s.act.Next? {
      assert n.ingress[s.act.i] in n.ingress;
      assert Sanctioned(w.top, w.trace, s.c, n.ingress[s.act.i]);
    }
  }

  ghost predicate OrderlyRun(first: World, steps: seq<Step>, last: World) {
    Path(OrderlyStep, first, steps, last)
  }

  lemma {:induction false} OrderlyReaches(w: World, steps: seq<Step>, v: World)
    requires OrderlyRun(w, steps, v)
    ensures Reaches(w, steps, v)
    decreases |steps|
  {
    if steps == [] {
      NoStep(WorldStepTo, w, steps);
    } else {
      var u := PathFirst(OrderlyStep, w, steps, v);
      OrderlyReaches(u, steps[1..], v);
      PathCons(WorldStepTo, w, steps, u, v);
    }
  }

  /** Every primary keeps the invariant of its own run. */
  ghost predicate NodesOk(w: World) {
    w.Configured() && forall c :: 1 <= c <= w.top.numClusters ==> CrossSlot.NodeOk(w.nodes[c])
  }

  lemma {:induction false} NodesAlways(w: World, steps: seq<Step>, v: World)
    requires NodesOk(w) && WorldInv(w) && OrderlyRun(w, steps, v)
    ensures NodesOk(v) && WorldInv(v) && v.top == w.top
    decreases |steps|
  {
    if steps != [] {
      var u := PathFirst(OrderlyStep, w, steps, v);
      WorldStep(w, steps[0]);
      CrossSlot.ActOk(w.nodes[steps[0].c], steps[0].act);
      NodesAlways(u, steps[1..], v);
    }
  }

  /** No participant prepares a transaction that it prepared or decided before. */
  ghost predicate CreditsOnce(w: World) {
    forall c :: c in w.nodes && 1 <= c <= w.top.numClusters ==>
      CrossSlot.PartPreparesOnce(Replication.Requests(w.nodes[c].r.executed))
  }

  /** In every orderly run of the bank the primaries' logs satisfy premise P3, and the trace is
      well-formed, exactly when no participant prepare is repeated. */
  lemma BankIsWellFormed(w: World, steps: seq<Step>, v: World)
    requires Initial(w) && OrderlyRun(w, steps, v)
    ensures Reaches(w, steps, v) && v.Configured()
    ensures LogsWellFormed(v) <==> CreditsOnce(v)
    ensures WellFormed(v.top, v.top.initialBalance, v.trace) <==> CreditsOnce(v)
  {
    OrderlyReaches(w, steps, v);
    InitialInv(w);
    NodesAlways(w, steps, v);
    forall c | 1 <= c <= v.top.numClusters
      ensures var log := Replication.Requests(v.nodes[c].r.executed); P3(log) <==> CrossSlot.PartPreparesOnce(log)
    {
      CrossSlot.OkLogIsP3(v.nodes[c]);
    }
    if LogsWellFormed(v) {
      RunsAreWellFormed(w, steps, v);
    }
    if WellFormed(v.top, v.top.initialBalance, v.trace) {
      CommitOrder(w, steps, v);
      forall c | c in v.nodes && 1 <= c <= v.top.numClusters ensures P3(Replication.Requests(v.nodes[c].r.executed)) {
        assert P3(LogOf(v.trace, c));
      }
    }
  }

  /** The primary that owns the item holds this balance for it. */
  predicate Owns(v: World, i: int, bal: int) {
    v.top.Valid() && v.top.ClusterOf(i) in v.nodes && NodeBal(v, i) == bal
  }

  /** The serial meaning of an orderly run, without P3: while no participant prepare is repeated, the
      balances that the primaries hold are the serial ones up to the tentative effects of open entries,
      and once nothing is open they are the serial ones and the money is what it was. */
  lemma OrderlyBank(w: World, steps: seq<Step>, v: World, items: seq<int>)
    requires Initial(w) && OrderlyRun(w, steps, v) && CreditsOnce(v)
    requires Bank.Lists(items, v.trace) && w.top.initialBalance >= 0
    ensures v.Configured() && Refinement.RunInv(v.top, v.top.initialBalance, v.trace)
    ensures forall i :: Owns(v, i, Bank.BankBal(v.top, v.top.initialBalance, v.trace, i))
    ensures NothingOpen(v) ==>
      forall i :: Owns(v, i, Settled(v.top.initialBalance, Order(v.top.initialBalance, v.trace), i))
    ensures NothingOpen(v) ==>
      Bank.Total(v.top, v.top.initialBalance, v.trace, items) == v.top.initialBalance * |items|
  {
    BankIsWellFormed(w, steps, v);
    PrimariesRefineSerial(w, steps, v, 0);
    forall i ensures Owns(v, i, Bank.BankBal(v.top, v.top.initialBalance, v.trace, i)) {
      PrimariesRefineSerial(w, steps, v, i);
    }
    SettledBank(w, steps, v, items);
  }

  /** Nor do two clusters finalise a transaction differently in such a run. */
  lemma OrderlyNeverDiffer(w: World, steps: seq<Step>, v: World, t: Digest)
    requires Initial(w) && OrderlyRun(w, steps, v) && CreditsOnce(v) && t.op == Intra
    ensures v.top.Valid()
    ensures var cx, cy := v.top.ClusterOf(t.x), v.top.ClusterOf(t.y);
      && (Happened(v.trace, cy, t, PartCommit) ==> !Happened(v.trace, cx, t, CoordAbort))
      && (Happened(v.trace, cy, t, PartAbort) ==> !Happened(v.trace, cx, t, CoordCommit))
      && !(Happened(v.trace, cy, t, PartCommit) && Happened(v.trace, cy, t, PartAbort))
  {
    BankIsWellFormed(w, steps, v);
    NeverDiffer(w, steps, v, t);
  }
}
