/** Atomicity of two-phase commit over whole runs: the trace of a bank of clusters obeys the order
    that the coordinator and the participant impose, so every result about well-formed runs holds of
    it (twopc/coordinator.go:246-311, twopc/participant.go:105-128, 176-186). */
module TwoPhase {
  import opened Types
  import opened Ledgers
  import opened Runs
  import opened Pbft
  import opened TwoPC
  import opened Paths
  import Agreement
  import Certificates
  import Micro
  import Proposer
  import Replication
  import Serial
  import Refinement
  import Bank
  import Topo = Topology

  /** `trace` records, over all clusters, what was executed; no handler reads it. */
  datatype World = World(top: Topo.Topology, nodes: map<int, Node>, trace: seq<Event>) {
    ghost predicate Configured() {
      && top.Valid()
      && forall c :: 1 <= c <= top.numClusters ==> c in nodes && Placed(c, nodes[c])
    }

    predicate Placed(c: int, n: Node) {
      && n.Valid() && n.r.cfg.top == top && n.r.cfg.cluster == c && n.r.view == 0 && n.r.IsPrimary()
    }
  }

  datatype Step = At(c: int, act: NodeStep)

  /** Clients leave the operation unset, move no negative amounts and send an intra-shard request to
      the cluster that owns it; letters are delivered to the cluster they were sent to. */
  ghost predicate Possible(w: World, s: Step)
    requires w.Configured()
  {
    && 1 <= s.c <= w.top.numClusters && Doable(w.nodes[s.c], s.act)
    && match s.act
       case ClientIntra(req) =>
         req.op == Unset && req.amt >= 0 && w.top.ClusterOf(req.x) == s.c && w.top.ClusterOf(req.y) == s.c
       case ClientCross(req) => req.op == Unset && req.amt >= 0
       case Prepare(m) => w.top.ClusterOf(m.req.y) == s.c && m in w.nodes[w.top.ClusterOf(m.req.x)].outbox
       case Reply(m) => w.top.ClusterOf(m.req.x) == s.c && m in w.nodes[w.top.ClusterOf(m.req.y)].outbox
       case Decide(m) => w.top.ClusterOf(m.req.y) == s.c && m in w.nodes[w.top.ClusterOf(m.req.x)].outbox
       case _ => true
  }

  ghost function After(w: World, s: Step): Node
    requires w.Configured() && Possible(w, s)
  {
    Act(w.nodes[s.c], s.act)
  }

  /** The events of newly executed entries. */
  function Events(c: int, es: seq<Executed>): seq<Event> {
    seq(|es|, i requires 0 <= i < |es| => Event(c, es[i].req))
  }

  function NewEvents(c: int, old_: seq<Executed>, new_: seq<Executed>): seq<Event> {
    if |old_| <= |new_| then Events(c, new_[|old_|..]) else []
  }

  ghost function StepTo(w: World, s: Step): World
    requires w.Configured() && Possible(w, s)
  {
    var n := After(w, s);
    w.(nodes := w.nodes[s.c := n],
       trace := w.trace + NewEvents(s.c, w.nodes[s.c].r.executed, n.r.executed))
  }

  // ---------------------------------------------------------------- what justifies an operation

  /** The request came to the cluster that owns it, and two-phase commit allows it now. */
  predicate Sanctioned(top: Topo.Topology, trace: seq<Event>, c: int, req: Request)
    requires top.Valid()
  {
    && req.amt >= 0 && AtHome(top, c, req)
    && CausalNext(top, top.initialBalance, trace, Event(c, req))
  }

  predicate AtHome(top: Topo.Topology, c: int, r: Request)
    requires top.Valid()
  {
    match Normal(r.op)
    case Intra => top.ClusterOf(r.x) == c && top.ClusterOf(r.y) == c
    case CoordPrepare => top.ClusterOf(r.x) == c && top.ClusterOf(r.y) != c
    case CoordCommit => top.ClusterOf(r.x) == c && top.ClusterOf(r.y) != c
    case CoordAbort => top.ClusterOf(r.x) == c && top.ClusterOf(r.y) != c
    case PartPrepareCommit => top.ClusterOf(r.y) == c && top.ClusterOf(r.x) != c
    case PartPrepareAbort => top.ClusterOf(r.y) == c && top.ClusterOf(r.x) != c
    case PartCommit => top.ClusterOf(r.y) == c && top.ClusterOf(r.x) != c
    case PartAbort => top.ClusterOf(r.y) == c && top.ClusterOf(r.x) != c
    case _ => false
  }

  predicate SlotSanctioned(top: Topo.Topology, trace: seq<Event>, c: int, slot: Slot)
    requires top.Valid()
  {
    slot.prePrepare ==> Sanctioned(top, trace, c, slot.req) && (slot.req.op == Intra ==> slot.req.x != slot.req.y)
  }

  predicate FromX(top: Topo.Topology, c: int, req: Request)
    requires top.Valid()
  {
    req.amt >= 0 && top.ClusterOf(req.x) == c && top.ClusterOf(req.y) != c
  }

  predicate FromY(top: Topo.Topology, c: int, req: Request)
    requires top.Valid()
  {
    req.amt >= 0 && top.ClusterOf(req.y) == c && top.ClusterOf(req.x) != c
  }

  function FinalOp(outcome: Outcome): Op { if outcome == Commit then CoordCommit else CoordAbort }

  /** What a hook reports has happened. */
  predicate HookOk(top: Topo.Topology, trace: seq<Event>, c: int, h: Hook)
    requires top.Valid()
  {
    match h
    case CoordPrepared(req, _, _) =>
      FromX(top, c, req) && Debited(top, top.initialBalance, trace, TxnOf(req))
    case PartPrepared(req, _, _, outcome) =>
      FromY(top, c, req) && (outcome == Commit ==> Happened(trace, c, TxnOf(req), PartPrepareCommit))
    case CoordFinal(req, _, _, outcome) =>
      FromX(top, c, req) && Happened(trace, c, TxnOf(req), FinalOp(outcome))
    case _ => true
  }

  /** What a letter says is true.  A repeated reply says nothing: it carries the coordinator's own
      certificate, which the coordinator does not accept from the participant. */
  predicate LetterOk(top: Topo.Topology, trace: seq<Event>, c: int, m: Letter)
    requires top.Valid()
  {
    match m
    case PrepareLetter(req, cert) =>
      req.op == Unset && FromX(top, c, req) && Debited(top, top.initialBalance, trace, TxnOf(req))
    case ReplyLetter(req, outcome, cert) =>
      && req.op == Unset && FromY(top, c, req)
      && (outcome == Commit && Certificates.VerifyClusterCert(top, c, cert, CommitSig, top.Quorum()) ==>
            Happened(trace, c, TxnOf(req), PartPrepareCommit))
    case DecisionLetter(req, outcome, cert) =>
      req.op == Unset && FromX(top, c, req) && Happened(trace, c, TxnOf(req), FinalOp(outcome))
  }

  // ---------------------------------------------------------------- the invariant

  ghost predicate EngineInv(top: Topo.Topology, trace: seq<Event>, c: int, r: Replica)
    requires top.Valid()
  {
    && Agreement.LeadInv(r) && Replication.Replays(r) && Replication.InOrder(r)
    && r.ledger.initial == top.initialBalance
    && LogOf(trace, c) == Replication.Requests(r.executed)
    && (forall s :: s in r.log ==> SlotSanctioned(top, trace, c, r.log[s]))
    && (forall h :: h in r.hooks ==> HookOk(top, trace, c, h))
  }

  ghost predicate NodeInv(top: Topo.Topology, trace: seq<Event>, c: int, n: Node)
    requires top.Valid()
  {
    EngineInv(top, trace, c, n.r) && MailInv(top, trace, c, n)
  }

  ghost predicate MailInv(top: Topo.Topology, trace: seq<Event>, c: int, n: Node)
    requires top.Valid()
  {
    && (forall req :: req in n.ingress ==> Sanctioned(top, trace, c, req))
    && (forall m :: m in n.outbox ==> LetterOk(top, trace, c, m))
    && (forall req :: req in n.watched ==> FromX(top, c, req))
    && n.expired <= n.watched
  }

  /** Every event so far was allowed when it happened. */
  ghost predicate Ordered(top: Topo.Topology, trace: seq<Event>)
    requires top.Valid()
  {
    (forall e :: e in trace ==> Routed(top, e)) && Causal(top, top.initialBalance, trace)
  }

  ghost predicate WorldInv(w: World) {
    && w.Configured() && Ordered(w.top, w.trace)
    && forall c :: 1 <= c <= w.top.numClusters ==> NodeInv(w.top, w.trace, c, w.nodes[c])
  }

  // ---------------------------------------------------------------- the past stays

  lemma PastStays(top: Topo.Topology, trace: seq<Event>, more: seq<Event>, t: Digest)
    requires top.Valid()
    ensures forall c, op :: Happened(trace, c, t, op) ==> Happened(trace + more, c, t, op)
    ensures Debited(top, top.initialBalance, trace, t) ==> Debited(top, top.initialBalance, trace + more, t)
  {
    assert (trace + more)[..|trace|] == trace;
    if Debited(top, top.initialBalance, trace, t) {
      Serial.DebitedLater(top, top.initialBalance, trace + more, |trace|, t);
    }
  }

  lemma SanctionStays(top: Topo.Topology, trace: seq<Event>, more: seq<Event>, c: int, req: Request)
    requires top.Valid() && Sanctioned(top, trace, c, req)
    ensures Sanctioned(top, trace + more, c, req)
  {
    PastStays(top, trace, more, TxnOf(req));
  }

  lemma HookStays(top: Topo.Topology, trace: seq<Event>, more: seq<Event>, c: int, h: Hook)
    requires top.Valid() && HookOk(top, trace, c, h)
    ensures HookOk(top, trace + more, c, h)
  {
    match h
    case CoordPrepared(req, _, _) => PastStays(top, trace, more, TxnOf(req));
    case PartPrepared(req, _, _, _) => PastStays(top, trace, more, TxnOf(req));
    case CoordFinal(req, _, _, _) => PastStays(top, trace, more, TxnOf(req));
    case _ =>
  }

  lemma LetterStays(top: Topo.Topology, trace: seq<Event>, more: seq<Event>, c: int, m: Letter)
    requires top.Valid() && LetterOk(top, trace, c, m)
    ensures LetterOk(top, trace + more, c, m)
  {
    PastStays(top, trace, more, TxnOf(m.req));
  }

  lemma {:induction false} LogOfOthers(trace: seq<Event>, more: seq<Event>, c: int)
    requires forall e :: e in more ==> e.c != c
    ensures LogOf(trace + more, c) == LogOf(trace, c)
    decreases |more|
  {
    if more == [] {
      assert trace + more == trace;
    } else {
      LogOfOthers(trace, Front(more), c);
      assert Front(trace + more) == trace + Front(more) && Last(trace + more) == Last(more);
      assert Last(more) in more;
    }
  }

  /** What other clusters do does not disturb a node. */
  lemma NodeStays(top: Topo.Topology, trace: seq<Event>, more: seq<Event>, c: int, n: Node)
    requires top.Valid() && NodeInv(top, trace, c, n) && forall e :: e in more ==> e.c != c
    ensures NodeInv(top, trace + more, c, n)
  {
    LogOfOthers(trace, more, c);
    forall s | s in n.r.log ensures SlotSanctioned(top, trace + more, c, n.r.log[s]) {
      assert SlotSanctioned(top, trace, c, n.r.log[s]);
      if n.r.log[s].prePrepare {
        SanctionStays(top, trace, more, c, n.r.log[s].req);
      }
    }
    forall h | h in n.r.hooks ensures HookOk(top, trace + more, c, h) {
      HookStays(top, trace, more, c, h);
    }
    forall req | req in n.ingress ensures Sanctioned(top, trace + more, c, req) {
      SanctionStays(top, trace, more, c, req);
    }
    forall m | m in n.outbox ensures LetterOk(top, trace + more, c, m) {
      LetterStays(top, trace, more, c, m);
    }
  }

  // ---------------------------------------------------------------- executing one operation

  lemma OrderedNext(top: Topo.Topology, trace: seq<Event>, e: Event)
    requires top.Valid() && Ordered(top, trace) && Routed(top, e)
    requires CausalNext(top, top.initialBalance, trace, e)
    ensures Ordered(top, trace + [e])
  {
    var all := trace + [e];
    forall k | 0 <= k < |all| ensures CausalAt(top, top.initialBalance, all, k) {
      if k < |trace| {
        assert CausalAt(top, top.initialBalance, trace, k);
        assert all[..k] == trace[..k] && all[k] == trace[k];
      } else {
        assert all[..k] == trace;
      }
    }
  }

  /** The ledger that the trace gives a cluster is the one its primary has, but for the locks. */
  lemma LedgerOfNode(top: Topo.Topology, trace: seq<Event>, c: int, r: Replica)
    requires top.Valid() && EngineInv(top, trace, c, r) && r.view == 0
    ensures LedgerOf(top.initialBalance, trace, c).Core() == r.ledger.Core()
    ensures forall i :: LedgerOf(top.initialBalance, trace, c).Bal(i) == r.ledger.Bal(i)
  {
    LedgerFromLog(top.initialBalance, trace, c);
    var l := LedgerOf(top.initialBalance, trace, c);
    assert forall i :: l.Bal(i) == l.Core().Bal(i) && r.ledger.Bal(i) == r.ledger.Core().Bal(i);
  }

  /** The hooks that an execution calls report what the trace now holds. */
  lemma HooksOfOk(top: Topo.Topology, trace: seq<Event>, c: int, l: Ledger, req: Request, s: int, cert: Certificate)
    requires top.Valid() && Sanctioned(top, trace, c, req)
    requires LedgerOf(top.initialBalance, trace, c).Bal(req.x) == l.Bal(req.x)
    ensures forall h :: h in HooksOf(l, req, s, cert) ==> HookOk(top, trace + [Event(c, req)], c, h)
  {
    if req.op != Unset {
      assert Tagged(TxnOf(req), req.op) == req;
      assert Event(c, req) in trace + [Event(c, req)];
    }
    if req.op == CoordPrepare && l.Bal(req.x) >= req.amt {
      var all := trace + [Event(c, req)];
      assert Tagged(TxnOf(req), CoordPrepare) == req;
      assert all[..|trace|] == trace && all[|trace|] == Event(c, req);
    }
    match Normal(req.op)
    case Intra =>
    case CoordPrepare =>
    case PartPrepareCommit =>
    case PartPrepareAbort =>
    case CoordCommit =>
    case CoordAbort =>
    case PartCommit =>
    case PartAbort =>
    case _ =>
  }

  lemma ExecuteLogged(trace: seq<Event>, c: int, r: Replica)
    requires CanExecute(r) && LogOf(trace, c) == Replication.Requests(r.executed)
    ensures LogOf(trace + [Event(c, r.log[r.execSeq].req)], c) == Replication.Requests(ExecuteNext(r).executed)
  {
    var req := r.log[r.execSeq].req;
    Append(0, trace, Event(c, req));
    assert Replication.Requests(ExecuteNext(r).executed) == Replication.Requests(r.executed) + [req];
  }

  lemma NextIsSanctioned(top: Topo.Topology, trace: seq<Event>, c: int, r: Replica)
    requires top.Valid() && EngineInv(top, trace, c, r) && CanExecute(r)
    ensures var req := r.log[r.execSeq].req;
      Sanctioned(top, trace, c, req) && Routed(top, Event(c, req))
  {
    var slot := r.log[r.execSeq];
    assert Agreement.LeadSlot(slot, r.execSeq >= r.nextSeq) && SlotSanctioned(top, trace, c, slot);
  }

  lemma ExecuteTraced(top: Topo.Topology, trace: seq<Event>, c: int, r: Replica)
    requires top.Valid() && EngineInv(top, trace, c, r) && Ordered(top, trace)
    requires r.cfg.Valid() && r.view == 0 && CanExecute(r)
    ensures var all := trace + [Event(c, r.log[r.execSeq].req)];
      EngineInv(top, all, c, ExecuteNext(r)) && Ordered(top, all)
  {
    var req := r.log[r.execSeq].req;
    NextIsSanctioned(top, trace, c, r);
    OrderedNext(top, trace, Event(c, req));
    Agreement.LeadExecutes(r);
    Replication.ChangeReplays(r, Micro.Execute);
    ExecuteLogged(trace, c, r);
    var slot := r.log[r.execSeq];
    LedgerOfNode(top, trace, c, r);
    HooksOfOk(top, trace, c, r.ledger, slot.req, r.execSeq, slot.commitCert.value);
    forall h | h in r.hooks ensures HookOk(top, trace + [Event(c, slot.req)], c, h) {
      HookStays(top, trace, [Event(c, slot.req)], c, h);
    }
    forall s | s in r.log ensures SlotSanctioned(top, trace + [Event(c, req)], c, r.log[s]) {
      if r.log[s].prePrepare {
        SanctionStays(top, trace, [Event(c, req)], c, r.log[s].req);
      }
    }
    assert SlotSanctioned(top, trace + [Event(c, req)], c, r.log[r.execSeq]);
  }

  // ---------------------------------------------------------------- every change of an engine

  lemma QuietTraced(top: Topo.Topology, trace: seq<Event>, c: int, r: Replica, ch: Micro.Change)
    requires top.Valid() && EngineInv(top, trace, c, r) && r.cfg.Valid() && r.IsPrimary()
    requires Micro.Enabled(r, ch) && Agreement.Leading(ch) && !ch.Execute?
    requires ch.Offer? ==> Sanctioned(top, trace, c, ch.req)
    ensures EngineInv(top, trace, c, Micro.Apply(r, ch)) && Micro.Apply(r, ch).executed == r.executed
    ensures r.hooks <= Micro.Apply(r, ch).hooks
  {
    Agreement.LeadChanges(r, ch);
    Replication.ChangeReplays(r, ch);
    if ch.Offer? {
      var q := Propose(r, ch.req, OfferLedger(r, ch.req));
      if ch.req.op == Intra && ch.req.x == ch.req.y {
        Proposer.SelfTransferNeverOffered(r, ch.req);
      }
      assert q.log[r.nextSeq].req == ch.req;
      forall s | s in q.log ensures SlotSanctioned(top, trace, c, q.log[s]) {
        assert s != r.nextSeq ==> q.log[s] == r.log[s];
      }
    } else {
      KeptSlots(top, trace, c, r, ch);
    }
    NewHooks(top, trace, c, r, ch);
  }

  lemma KeptSlots(top: Topo.Topology, trace: seq<Event>, c: int, r: Replica, ch: Micro.Change)
    requires top.Valid() && r.cfg.Valid() && Micro.Enabled(r, ch) && Agreement.Leading(ch) && !ch.Execute? && !ch.Offer?
    requires forall s :: s in r.log ==> SlotSanctioned(top, trace, c, r.log[s])
    ensures forall s :: s in Micro.Apply(r, ch).log ==> SlotSanctioned(top, trace, c, Micro.Apply(r, ch).log[s])
  {
    var q := Micro.Apply(r, ch);
    forall s | s in q.log ensures s in r.log && SlotSanctioned(top, trace, c, q.log[s]) {
      assert s in r.log && (q.log[s].prePrepare ==> r.log[s].prePrepare && q.log[s].req == r.log[s].req);
      assert SlotSanctioned(top, trace, c, r.log[s]);
    }
  }

  lemma NewHooks(top: Topo.Topology, trace: seq<Event>, c: int, r: Replica, ch: Micro.Change)
    requires top.Valid() && r.cfg.Valid() && Micro.Enabled(r, ch) && Agreement.Leading(ch) && !ch.Execute?
    requires forall h :: h in r.hooks ==> HookOk(top, trace, c, h)
    ensures forall h :: h in Micro.Apply(r, ch).hooks ==> HookOk(top, trace, c, h)
    ensures r.hooks <= Micro.Apply(r, ch).hooks && Micro.Apply(r, ch).executed == r.executed
    ensures Micro.Apply(r, ch).ledger.initial == r.ledger.initial
  {
    match ch
    case Offer(req) => Replication.LocksOnly(r.ledger, LockItems(req), r.nextSeq);
    case LockSlot(s) => Replication.LocksOnly(r.ledger, LockItems(r.log[s].req), s);
    case _ =>
  }

  lemma JoinEvents(trace: seq<Event>, c: int, a: seq<Executed>, b: seq<Executed>, d: seq<Executed>)
    requires a <= b <= d
    ensures trace + NewEvents(c, a, b) + NewEvents(c, b, d) == trace + NewEvents(c, a, d)
  {
    assert NewEvents(c, a, d) == NewEvents(c, a, b) + NewEvents(c, b, d);
  }

  /** The replica's change is recorded in the trace. */
  ghost predicate Recorded(top: Topo.Topology, trace: seq<Event>, c: int, r: Replica, q: Replica)
    requires top.Valid()
  {
    var all := trace + NewEvents(c, r.executed, q.executed);
    && EngineInv(top, all, c, q) && Ordered(top, all)
    && r.executed <= q.executed && r.hooks <= q.hooks && q.cfg == r.cfg && q.view == r.view
  }

  lemma NothingRecorded(top: Topo.Topology, trace: seq<Event>, c: int, r: Replica, q: Replica)
    requires top.Valid() && EngineInv(top, trace, c, q) && Ordered(top, trace)
    requires q.executed == r.executed && r.hooks <= q.hooks && q.cfg == r.cfg && q.view == r.view
    ensures Recorded(top, trace, c, r, q)
  {
    assert trace + NewEvents(c, r.executed, q.executed) == trace;
  }

  /** One change of an engine, as it is recorded in the trace. */
  lemma ChangeTraced(top: Topo.Topology, trace: seq<Event>, c: int, r: Replica, ch: Micro.Change)
    requires top.Valid() && EngineInv(top, trace, c, r) && Ordered(top, trace)
    requires r.cfg.Valid() && r.view == 0 && r.IsPrimary()
    requires Micro.Enabled(r, ch) && Agreement.Leading(ch)
    requires ch.Offer? ==> Sanctioned(top, trace, c, ch.req)
    ensures Recorded(top, trace, c, r, Micro.Apply(r, ch))
  {
    if ch.Execute? {
      ExecuteTraced(top, trace, c, r);
      assert NewEvents(c, r.executed, ExecuteNext(r).executed) == [Event(c, r.log[r.execSeq].req)];
    } else {
      Micro.ApplyKeepsConfig(r, ch);
      QuietTraced(top, trace, c, r, ch);
      NothingRecorded(top, trace, c, r, Micro.Apply(r, ch));
    }
  }

  /** What an engine executes is appended to the trace, event by event. */
  lemma {:induction false} RunTraced(
    top: Topo.Topology, trace: seq<Event>, c: int, r: Replica, cs: seq<Micro.Change>, q: Replica)
    requires top.Valid() && EngineInv(top, trace, c, r) && Ordered(top, trace)
    requires r.cfg.Valid() && r.view == 0 && r.IsPrimary() && Micro.Runs(r, cs, q)
    requires forall ch :: ch in cs ==> Agreement.Leading(ch)
    requires forall ch :: ch in cs && ch.Offer? ==> Sanctioned(top, trace, c, ch.req)
    ensures r.executed <= q.executed && r.hooks <= q.hooks
    ensures var all := trace + NewEvents(c, r.executed, q.executed);
      EngineInv(top, all, c, q) && Ordered(top, all)
    ensures q.cfg == r.cfg && q.view == r.view
    decreases |cs|
  {
    if cs == [] {
      assert trace + NewEvents(c, r.executed, q.executed) == trace;
    } else {
      assert cs[0] in cs;
      var r1 := Micro.Apply(r, cs[0]);
      var more := NewEvents(c, r.executed, r1.executed);
      ChangeTraced(top, trace, c, r, cs[0]);
      forall x | x in cs[1..] && x.Offer? ensures Sanctioned(top, trace + more, c, x.req) {
        SanctionStays(top, trace, more, c, x.req);
      }
      RunTraced(top, trace + more, c, r1, cs[1..], q);
      JoinEvents(trace, c, r.executed, r1.executed, q.executed);
    }
  }

  // ---------------------------------------------------------------- every step of a node

  lemma {:induction false} FireAllOk(top: Topo.Topology, trace: seq<Event>, c: int, n: Node, hs: seq<Hook>)
    requires top.Valid() && MailInv(top, trace, c, n) && forall h :: h in hs ==> HookOk(top, trace, c, h)
    ensures MailInv(top, trace, c, FireAll(n, hs)) && FireAll(n, hs).r == n.r
    decreases |hs|
  {
    if hs != [] {
      assert hs[0] in hs;
      FireAllOk(top, trace, c, Fire(n, hs[0]), hs[1..]);
    }
  }

  /** A node's step, as it is recorded in the trace. */
  ghost predicate StepOk(top: Topo.Topology, trace: seq<Event>, c: int, n: Node, q: Node)
    requires top.Valid()
  {
    var all := trace + NewEvents(c, n.r.executed, q.r.executed);
    NodeInv(top, all, c, q) && Ordered(top, all) && q.r.cfg == n.r.cfg && q.r.view == n.r.view
  }

  /** The hooks that an engine calls leave the letters in order. */
  lemma AfterEngineOk(top: Topo.Topology, trace: seq<Event>, c: int, n: Node, q: Replica)
    requires top.Valid() && MailInv(top, trace, c, n) && n.r.hooks <= q.hooks
    requires q.cfg == n.r.cfg && forall h :: h in q.hooks ==> HookOk(top, trace, c, h)
    ensures MailInv(top, trace, c, AfterEngine(n, q)) && AfterEngine(n, q).r == q
  {
    var m, hs := n.(r := q), q.hooks[|n.r.hooks|..];
    assert MailInv(top, trace, c, m);
    forall h | h in hs ensures HookOk(top, trace, c, h) {
      assert h in q.hooks;
    }
    FireAllOk(top, trace, c, m, hs);
  }

  lemma EngineStepOk(top: Topo.Topology, trace: seq<Event>, c: int, n: Node, a: Agreement.Action)
    requires top.Valid() && NodeInv(top, trace, c, n) && Ordered(top, trace)
    requires n.Valid() && n.r.view == 0 && n.r.IsPrimary()
    requires !a.Deliver? && (a.GiveUp? ==> a.seqNo in n.r.log)
    requires a.Start? ==> Sanctioned(top, trace, c, a.req)
    ensures StepOk(top, trace, c, n, EngineStep(n, a))
  {
    var q := Agreement.Lead(n.r, a);
    var cs := Agreement.LeadIsChanges(n.r, a);
    RunTraced(top, trace, c, n.r, cs, q);
    var more := NewEvents(c, n.r.executed, q.executed);
    forall req | req in n.ingress ensures Sanctioned(top, trace + more, c, req) {
      SanctionStays(top, trace, more, c, req);
    }
    forall m | m in n.outbox ensures LetterOk(top, trace + more, c, m) {
      LetterStays(top, trace, more, c, m);
    }
    AfterEngineOk(top, trace + more, c, n, q);
  }

  /** A step that only queues, posts or notes. */
  lemma QueueStepOk(top: Topo.Topology, trace: seq<Event>, c: int, n: Node, q: Node)
    requires top.Valid() && NodeInv(top, trace, c, n) && Ordered(top, trace)
    requires q.r == n.r && MailInv(top, trace, c, q)
    ensures StepOk(top, trace, c, n, q)
  {
    assert trace + NewEvents(c, n.r.executed, q.r.executed) == trace;
  }

  lemma EnqueueOk(top: Topo.Topology, trace: seq<Event>, c: int, n: Node, req: Request)
    requires top.Valid() && MailInv(top, trace, c, n) && Sanctioned(top, trace, c, req)
    ensures MailInv(top, trace, c, n.Enqueue(req))
  {
  }

  lemma PostOk(top: Topo.Topology, trace: seq<Event>, c: int, n: Node, m: Letter)
    requires top.Valid() && MailInv(top, trace, c, n) && LetterOk(top, trace, c, m)
    ensures MailInv(top, trace, c, n.Post(m))
  {
  }

  lemma SameTxn(req: Request, op: Op)
    ensures TxnOf(req.(op := op)) == TxnOf(req) && TxnOf(ClientReq(req)) == TxnOf(req)
  {
  }

  lemma ClientStepOk(top: Topo.Topology, trace: seq<Event>, c: int, n: Node, req: Request)
    requires top.Valid() && NodeInv(top, trace, c, n) && Ordered(top, trace)
    requires n.Valid() && n.r.cfg.top == top && n.r.cfg.cluster == c && req.op == Unset && req.amt >= 0
    ensures StepOk(top, trace, c, n, HandleClientRequest(n, req))
  {
    var q, prep := HandleClientRequest(n, req), req.(op := CoordPrepare);
    if q == n.(crossBusy := true).Enqueue(prep) {
      assert top.SameCluster(req.x, req.y) || top.ClusterOf(req.x) != c || Sanctioned(top, trace, c, prep);
      assert q != n ==> Sanctioned(top, trace, c, prep);
      QueueStepOk(top, trace, c, n, q);
    } else if q == n {
      QueueStepOk(top, trace, c, n, q);
    } else {
      RejectStepOk(top, trace, c, n, req);
    }
  }

  lemma RejectStepOk(top: Topo.Topology, trace: seq<Event>, c: int, n: Node, req: Request)
    requires top.Valid() && NodeInv(top, trace, c, n) && Ordered(top, trace)
    ensures StepOk(top, trace, c, n, n.(r := n.r.Call(Rejected(req))))
  {
    assert trace + NewEvents(c, n.r.executed, n.r.executed) == trace;
    var r := n.r.Call(Rejected(req));
    assert forall h :: h in r.hooks ==> h in n.r.hooks || h == Rejected(req);
    assert EngineInv(top, trace, c, r);
  }

  lemma PrepareMailOk(top: Topo.Topology, trace: seq<Event>, c: int, n: Node, m: Letter)
    requires top.Valid() && MailInv(top, trace, c, n)
    requires n.Valid() && n.r.cfg.top == top && m.PrepareLetter? && top.ClusterOf(m.req.y) == c
    requires LetterOk(top, trace, top.ClusterOf(m.req.x), m)
    ensures MailInv(top, trace, c, HandlePrepare(n, m)) && HandlePrepare(n, m).r == n.r
  {
    var x := top.ClusterOf(m.req.x);
    if Certificates.VerifyClusterCert(top, x, m.cert, CommitSig, top.Quorum()) {
      if Certificates.VerifyClusterCert(top, c, m.cert, CommitSig, top.Quorum()) {
        Certificates.OneCluster(top, x, c, m.cert, CommitSig);
      }
      PostOk(top, trace, c, n, ReplyLetter(ClientReq(m.req), Commit, m.cert));
      PostOk(top, trace, c, n, ReplyLetter(ClientReq(m.req), Abort, m.cert));
      SameTxn(m.req, PartPrepareCommit);
      EnqueueOk(top, trace, c, n, m.req.(op := PartPrepareCommit));
      EnqueueOk(top, trace, c, n, m.req.(op := PartPrepareAbort));
    }
  }

  lemma ReplyMailOk(top: Topo.Topology, trace: seq<Event>, c: int, n: Node, m: Letter)
    requires top.Valid() && MailInv(top, trace, c, n)
    requires n.Valid() && n.r.cfg.top == top && m.ReplyLetter? && top.ClusterOf(m.req.x) == c
    requires LetterOk(top, trace, top.ClusterOf(m.req.y), m)
    ensures MailInv(top, trace, c, HandleParticipantReply(n, m)) && HandleParticipantReply(n, m).r == n.r
  {
    var y := top.ClusterOf(m.req.y);
    if Certificates.VerifyClusterCert(top, y, m.cert, CommitSig, top.Quorum()) {
      var n1 := n.(collected := n.collected + [m]);
      var n2 := n1.(commitStarted := n1.commitStarted + {TxnOf(m.req)});
      SameTxn(m.req, CoordCommit);
      EnqueueOk(top, trace, c, n1, m.req.(op := CoordAbort));
      EnqueueOk(top, trace, c, n2, m.req.(op := CoordAbort));
      if m.outcome == Commit {
        EnqueueOk(top, trace, c, n2, m.req.(op := CoordCommit));
      }
    }
  }

  lemma DecideMailOk(top: Topo.Topology, trace: seq<Event>, c: int, n: Node, m: Letter)
    requires top.Valid() && MailInv(top, trace, c, n)
    requires n.Valid() && n.r.cfg.top == top && m.DecisionLetter? && top.ClusterOf(m.req.y) == c
    requires LetterOk(top, trace, top.ClusterOf(m.req.x), m)
    ensures MailInv(top, trace, c, HandleCommit(n, m)) && HandleCommit(n, m).r == n.r
  {
    SameTxn(m.req, PartCommit);
    SameTxn(m.req, PartAbort);
    if m.outcome == Commit {
      EnqueueOk(top, trace, c, n, m.req.(op := PartCommit));
    } else {
      EnqueueOk(top, trace, c, n, m.req.(op := PartAbort));
    }
  }

  lemma TimerMailOk(top: Topo.Topology, trace: seq<Event>, c: int, n: Node, req: Request)
    requires top.Valid() && MailInv(top, trace, c, n)
    ensures MailInv(top, trace, c, Expire(n, req)) && Expire(n, req).r == n.r
    ensures MailInv(top, trace, c, RetryAbort(n, req)) && RetryAbort(n, req).r == n.r
  {
    if req in n.expired {
      EnqueueOk(top, trace, c, n, req.(op := CoordAbort));
    }
  }

  lemma MailStepOk(w: World, s: Step)
    requires WorldInv(w) && Possible(w, s) && !s.act.Work? && !s.act.Next? && !s.act.ClientCross?
    ensures StepOk(w.top, w.trace, s.c, w.nodes[s.c], After(w, s))
  {
    var top, trace, c, n := w.top, w.trace, s.c, w.nodes[s.c];
    assert NodeInv(top, trace, c, n);
    if s.act.Prepare? || s.act.Reply? || s.act.Decide? {
      var m := s.act.letter;
      var c := if s.act.Reply? then w.top.ClusterOf(m.req.y) else w.top.ClusterOf(m.req.x);
      assert NodeInv(w.top, w.trace, c, w.nodes[c]);
    }
    match s.act {
      case ClientIntra(req) => EnqueueOk(top, trace, c, n, req);
      case Prepare(m) => PrepareMailOk(top, trace, c, n, m);
      case Reply(m) => ReplyMailOk(top, trace, c, n, m);
      case Decide(m) => DecideMailOk(top, trace, c, n, m);
      case TimeOut(req) => TimerMailOk(top, trace, c, n, req);
      case Retry(req) => TimerMailOk(top, trace, c, n, req);
    }
    QueueStepOk(top, trace, c, n, After(w, s));
  }

  lemma DequeueStepOk(top: Topo.Topology, trace: seq<Event>, c: int, n: Node, i: nat)
    requires top.Valid() && NodeInv(top, trace, c, n) && Ordered(top, trace)
    requires n.Valid() && n.r.view == 0 && n.r.IsPrimary() && i < |n.ingress|
    ensures StepOk(top, trace, c, n, Dequeue(n, i))
  {
    var m := n.(ingress := Without(n.ingress, i));
    assert n.ingress[i] in n.ingress;
    assert NodeInv(top, trace, c, m);
    EngineStepOk(top, trace, c, m, Agreement.Start(n.ingress[i]));
  }

  // ---------------------------------------------------------------- whole runs

  lemma NodeStepOk(w: World, s: Step)
    requires WorldInv(w) && Possible(w, s)
    ensures StepOk(w.top, w.trace, s.c, w.nodes[s.c], After(w, s))
  {
    var c, n := s.c, w.nodes[s.c];
    assert NodeInv(w.top, w.trace, c, n);
    match s.act
    case ClientCross(req) => ClientStepOk(w.top, w.trace, c, n, req);
    case Work(a) => EngineStepOk(w.top, w.trace, c, n, a);
    case Next(i) => DequeueStepOk(w.top, w.trace, c, n, i);
    case _ => MailStepOk(w, s);
  }

  lemma WorldStep(w: World, s: Step)
    requires WorldInv(w) && Possible(w, s)
    ensures WorldInv(StepTo(w, s))
  {
    var v := StepTo(w, s);
    NodeStepOk(w, s);
    var more := NewEvents(s.c, w.nodes[s.c].r.executed, After(w, s).r.executed);
    forall c | 1 <= c <= w.top.numClusters
      ensures c in v.nodes && v.Placed(c, v.nodes[c]) && NodeInv(v.top, v.trace, c, v.nodes[c])
    {
      if c != s.c {
        NodeStays(w.top, w.trace, more, c, w.nodes[c]);
      }
    }
  }

  ghost predicate WorldStepTo(x: World, a: Step, y: World) {
    x.Configured() && Possible(x, a) && y == StepTo(x, a)
  }

  /** The last world is reached from the first by the steps. */
  ghost predicate Reaches(first: World, steps: seq<Step>, last: World) {
    Path(WorldStepTo, first, steps, last)
  }

  ghost predicate Initial(w: World) {
    && w.Configured() && w.trace == []
    && forall c :: 1 <= c <= w.top.numClusters ==> w.nodes[c] == BootNode(w.nodes[c].r.cfg)
  }

  lemma {:induction false} WorldAlways(w: World, steps: seq<Step>, v: World)
    requires WorldInv(w) && Reaches(w, steps, v)
    ensures WorldInv(v) && v.top == w.top
    decreases |steps|
  {
    if steps != [] {
      var _ := PathFirst(WorldStepTo, w, steps, v);
      WorldStep(w, steps[0]);
      WorldAlways(StepTo(w, steps[0]), steps[1..], v);
    }
  }

  lemma InitialInv(w: World)
    requires Initial(w)
    ensures WorldInv(w)
  {
    forall c | 1 <= c <= w.top.numClusters ensures NodeInv(w.top, w.trace, c, w.nodes[c]) {
      assert w.nodes[c] == BootNode(w.nodes[c].r.cfg);
      assert Replication.Requests(w.nodes[c].r.executed) == [];
    }
  }

  // ---------------------------------------------------------------- atomic commitment

  /** In every run of the bank - letters lost, repeated and reordered, proposals given up, timeouts at
      any moment - a participant credits only what the coordinator debited before, the coordinator
      commits only after the participant credited, and the participant finalises only as the
      coordinator has; the trace holds exactly what each primary executed. */
  lemma CommitOrder(w: World, steps: seq<Step>, v: World)
    requires Initial(w) && Reaches(w, steps, v)
    ensures v.top.Valid() && v.top == w.top
    ensures Causal(v.top, v.top.initialBalance, v.trace) && forall e :: e in v.trace ==> Routed(v.top, e)
    ensures forall c :: 1 <= c <= v.top.numClusters ==>
      c in v.nodes && LogOf(v.trace, c) == Replication.Requests(v.nodes[c].r.executed)
  {
    InitialInv(w);
    WorldAlways(w, steps, v);
    forall c | 1 <= c <= v.top.numClusters
      ensures c in v.nodes && LogOf(v.trace, c) == Replication.Requests(v.nodes[c].r.executed)
    {
      assert NodeInv(v.top, v.trace, c, v.nodes[c]);
    }
  }

  /** Premise P3 for the primaries' logs. */
  ghost predicate LogsWellFormed(w: World) {
    forall c :: c in w.nodes && 1 <= c <= w.top.numClusters ==> P3(Replication.Requests(w.nodes[c].r.executed))
  }

  lemma {:induction false} NoOtherCluster(top: Topo.Topology, trace: seq<Event>, c: int)
    requires top.Valid() && (forall e :: e in trace ==> Routed(top, e)) && !(1 <= c <= top.numClusters)
    ensures LogOf(trace, c) == []
  {
    if trace != [] {
      assert Last(trace) in trace;
      NoOtherCluster(top, Front(trace), c);
    }
  }

  /** Under P3 the trace of every run is well-formed, so everything proved of well-formed runs - serial
      refinement, conservation, the balance range, agreement with the simulator - holds of it. */
  lemma RunsAreWellFormed(w: World, steps: seq<Step>, v: World)
    requires Initial(w) && Reaches(w, steps, v) && LogsWellFormed(v)
    ensures v.top.Valid() && WellFormed(v.top, v.top.initialBalance, v.trace)
  {
    CommitOrder(w, steps, v);
    forall c ensures P3(LogOf(v.trace, c)) {
      if 1 <= c <= v.top.numClusters {
        assert c in v.nodes;
      } else {
        NoOtherCluster(v.top, v.trace, c);
      }
    }
  }

  function NodeBal(w: World, i: int): int
    requires w.top.Valid() && w.top.ClusterOf(i) in w.nodes
  {
    w.nodes[w.top.ClusterOf(i)].r.ledger.Bal(i)
  }

  /** The primaries hold the balances that the trace gives the bank. */
  lemma SameBalances(v: World, i: int)
    requires WorldInv(v)
    ensures v.top.ClusterOf(i) in v.nodes
    ensures NodeBal(v, i) == Bank.BankBal(v.top, v.top.initialBalance, v.trace, i)
  {
    var c := v.top.ClusterOf(i);
    assert NodeInv(v.top, v.trace, c, v.nodes[c]);
    LedgerOfNode(v.top, v.trace, c, v.nodes[c].r);
  }

  ghost predicate NothingOpen(w: World)
    requires w.Configured()
  {
    forall c :: 1 <= c <= w.top.numClusters ==> w.nodes[c].r.ledger.wal == map[]
  }

  lemma Quiet(v: World)
    requires WorldInv(v) && NothingOpen(v)
    ensures Bank.Quiescent(v.top.initialBalance, v.trace)
  {
    forall c ensures LedgerOf(v.top.initialBalance, v.trace, c).wal == map[] {
      if 1 <= c <= v.top.numClusters {
        assert NodeInv(v.top, v.trace, c, v.nodes[c]);
        LedgerOfNode(v.top, v.trace, c, v.nodes[c].r);
        assert LedgerOf(v.top.initialBalance, v.trace, c).Core().wal == map[];
      } else {
        NoOtherCluster(v.top, v.trace, c);
        LedgerFromLog(v.top.initialBalance, v.trace, c);
      }
    }
  }

  /** Under P3 the balances that the primaries hold differ from those of the decided transactions,
      carried out one after another, only by the tentative effects of open ones. */
  lemma PrimariesRefineSerial(w: World, steps: seq<Step>, v: World, i: int)
    requires Initial(w) && Reaches(w, steps, v) && LogsWellFormed(v)
    ensures v.Configured() && Refinement.RunInv(v.top, v.top.initialBalance, v.trace)
    ensures v.top.ClusterOf(i) in v.nodes
    ensures NodeBal(v, i) == Bank.BankBal(v.top, v.top.initialBalance, v.trace, i)
  {
    RunsAreWellFormed(w, steps, v);
    Refinement.SerialRefinement(v.top, v.top.initialBalance, v.trace);
    InitialInv(w);
    WorldAlways(w, steps, v);
    SameBalances(v, i);
  }

  /** Once no primary has a WAL entry left, the balances are exactly the serial ones, and the bank holds
      the money it started with. */
  lemma SettledBank(w: World, steps: seq<Step>, v: World, items: seq<int>)
    requires Initial(w) && Reaches(w, steps, v) && LogsWellFormed(v)
    requires Bank.Lists(items, v.trace) && w.top.initialBalance >= 0
    ensures v.Configured()
    ensures NothingOpen(v) ==> forall i ::
      && v.top.ClusterOf(i) in v.nodes
      && NodeBal(v, i) == Settled(v.top.initialBalance, Order(v.top.initialBalance, v.trace), i)
    ensures NothingOpen(v) ==>
      Bank.Total(v.top, v.top.initialBalance, v.trace, items) == v.top.initialBalance * |items|
  {
    RunsAreWellFormed(w, steps, v);
    InitialInv(w);
    WorldAlways(w, steps, v);
    if NothingOpen(v) {
      Quiet(v);
      Bank.QuiescentBank(v.top, v.top.initialBalance, v.trace, items);
      forall i ensures v.top.ClusterOf(i) in v.nodes
        && NodeBal(v, i) == Settled(v.top.initialBalance, Order(v.top.initialBalance, v.trace), i)
      {
        SameBalances(v, i);
      }
    }
  }

  /** Under P3 the two clusters never finalise a transaction differently: what the participant
      finalised the coordinator had decided, and the coordinator never decides the other way. */
  lemma NeverDiffer(w: World, steps: seq<Step>, v: World, t: Digest)
    requires Initial(w) && Reaches(w, steps, v) && LogsWellFormed(v) && t.op == Intra
    ensures v.top.Valid()
    ensures var cx, cy := v.top.ClusterOf(t.x), v.top.ClusterOf(t.y);
      && (Happened(v.trace, cy, t, PartCommit) ==>
            Happened(v.trace, cx, t, CoordCommit) && !Happened(v.trace, cx, t, CoordAbort))
      && (Happened(v.trace, cy, t, PartAbort) ==>
            Happened(v.trace, cx, t, CoordAbort) && !Happened(v.trace, cx, t, CoordCommit))
      && !(Happened(v.trace, cy, t, PartCommit) && Happened(v.trace, cy, t, PartAbort))
  {
    RunsAreWellFormed(w, steps, v);
    Serial.CausalNow(v.top, v.top.initialBalance, v.trace, t);
    var cx := v.top.ClusterOf(t.x);
    LogHas(v.trace, cx, Tagged(t, CoordCommit));
    LogHas(v.trace, cx, Tagged(t, CoordAbort));
    if Happened(v.trace, cx, t, CoordCommit) && Happened(v.trace, cx, t, CoordAbort) {
      Serial.OneKind(LogOf(v.trace, cx), t, CoordCommit, CoordAbort);
    }
  }

  /** P3 is not the coordinator's doing: an accepted reply that is delivered twice queues a second
      decision, of the other kind, exactly when it says commit. */
  lemma RepeatedReply(n: Node, m: Letter)
    requires n.Valid() && n.r.IsPrimary() && m.ReplyLetter? && m.req.op == Unset
    requires var top := n.r.cfg.top;
      Certificates.VerifyClusterCert(top, top.ClusterOf(m.req.y), m.cert, CommitSig, top.Quorum())
    requires TxnOf(m.req) !in n.commitStarted
    ensures var twice := HandleParticipantReply(HandleParticipantReply(n, m), m).ingress;
      && twice[..|n.ingress| + 1] == n.ingress + [m.req.(op := FinalOp(m.outcome))]
      && (twice == n.ingress + [m.req.(op := CoordCommit), m.req.(op := CoordAbort)] <==> m.outcome == Commit)
  {
    var once := HandleParticipantReply(n, m);
    assert once.ingress == n.ingress + [m.req.(op := FinalOp(m.outcome))];
    var twice := HandleParticipantReply(once, m);
    if m.outcome == Commit {
      assert twice.ingress == once.ingress + [m.req.(op := CoordAbort)];
    }
  }
}
