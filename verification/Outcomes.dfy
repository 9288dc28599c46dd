/** What the bank can always do: from any world whose two primaries have nothing under way, a covered
    cross-shard transfer between free items can be carried through, and it can be called off
    (twopc/coordinator.go:73-156, 246-311, twopc/participant.go:58-146). */
module Outcomes {
  import opened Types
  import opened Ledgers
  import opened Runs
  import opened Pbft
  import opened TwoPC
  import opened TwoPhase
  import opened Voting
  import opened Paths
  import Agreement
  import Certificates
  import Quorums
  import Topo = Topology

  // ---------------------------------------------------------------- one round at one node

  /** Only node `c` has moved. */
  ghost predicate Turn(w: World, v: World, c: int) {
    v.top == w.top && v.Configured() && c in v.nodes && v.nodes == w.nodes[c := v.nodes[c]]
  }

  lemma TurnThen(w: World, u: World, v: World, c: int)
    requires Turn(w, u, c) && Turn(u, v, c)
    ensures Turn(w, v, c)
  {
    assert w.nodes[c := u.nodes[c]][c := v.nodes[c]] == w.nodes[c := v.nodes[c]];
  }

  lemma StaysPlaced(w: World, s: Step)
    requires w.Configured() && Possible(w, s)
    requires var n := w.nodes[s.c]; After(w, s).r.cfg == n.r.cfg && After(w, s).r.view == n.r.view
    ensures Turn(w, StepTo(w, s), s.c)
  {
  }

  /** The round is over, and its hooks were called. */
  predicate Served(n: Node, q: Node, s: int, req: Request) {
    && Finished(n.r, q.r, s, req)
    && q == FireAll(n.(r := q.r), HooksOf(n.r.ledger, req, s, q.r.log[s].commitCert.value))
  }

  lemma FireAllKeepsEngine(n: Node, hs: seq<Hook>)
    ensures FireAll(n, hs).r == n.r
    decreases |hs|
  {
    if hs != [] {
      FireAllKeepsEngine(Fire(n, hs[0]), hs[1..]);
    }
  }

  lemma AfterStill(n: Node, r: Replica, s: int)
    requires Still(n.r, r, s)
    ensures AfterEngine(n, r) == n.(r := r)
  {
    assert r.hooks[|n.r.hooks|..] == [];
  }

  lemma AfterDone(n: Node, r: Replica, s: int, req: Request)
    requires Finished(n.r, r, s, req)
    ensures Served(n, AfterEngine(n, r), s, req)
  {
    var hs := HooksOf(n.r.ledger, req, s, r.log[s].commitCert.value);
    assert r.hooks[|n.r.hooks|..] == hs;
    FireAllKeepsEngine(n.(r := r), hs);
  }

  /** One more vote: the node waits on, or the round is over and the trace has its event. */
  lemma VoteStep(w: World, c: int, act: Agreement.Action, s: int, req: Request)
    requires w.Configured() && 1 <= c <= w.top.numClusters && (act.TakePrepare? || act.TakeCommit?)
    requires var r := w.nodes[c].r; Still(r, Agreement.Lead(r, act), s) || Finished(r, Agreement.Lead(r, act), s, req)
    ensures var v, r := StepTo(w, At(c, Work(act))), Agreement.Lead(w.nodes[c].r, act);
      && WorldStepTo(w, At(c, Work(act)), v) && Turn(w, v, c)
      && (Still(w.nodes[c].r, r, s) ==> v.nodes[c] == w.nodes[c].(r := r) && v.trace == w.trace)
      && (Finished(w.nodes[c].r, r, s, req) ==>
            Served(w.nodes[c], v.nodes[c], s, req) && v.trace == w.trace + [Event(c, req)])
  {
    var n, r := w.nodes[c], Agreement.Lead(w.nodes[c].r, act);
    assert Possible(w, At(c, Work(act)));
    if Still(n.r, r, s) {
      AfterStill(n, r, s);
      assert NewEvents(c, n.r.executed, r.executed) == [];
    } else {
      AfterDone(n, r, s, req);
      assert NewEvents(c, n.r.executed, r.executed) == [Event(c, req)];
    }
    StaysPlaced(w, At(c, Work(act)));
  }

  lemma AbsentMember(r: Replica, votes: set<int>) returns (from: int)
    requires r.cfg.Valid() && |votes| < r.cfg.Quorum()
    ensures r.cfg.top.Member(from, r.cfg.cluster) && from !in votes
  {
    var members := Quorums.Members(r.cfg.top, r.cfg.cluster);
    Topo.FaultBound(r.cfg.top);
    if members <= votes {
      Quorums.SubsetCount(members, votes);
    }
    from :| from in members && from !in votes;
  }

  /** Nothing was waiting for the slot, so a served node is served from before as well. */
  lemma ServedLater(n: Node, m: Node, q: Node, s: int, req: Request)
    requires Still(n.r, m.r, s) && m == n.(r := m.r) && Served(m, q, s, req)
    ensures Served(n, q, s, req)
  {
    StillThen(n.r, m.r, q.r, s, req);
  }

  lemma {:induction false} CommitRound(w: World, c: int, s: int, req: Request) returns (steps: seq<Step>, v: World)
    requires w.Configured() && 1 <= c <= w.top.numClusters && Committing(w.nodes[c].r, s, req)
    ensures Reaches(w, steps, v) && Turn(w, v, c) && v.trace == w.trace + [Event(c, req)]
    ensures Served(w.nodes[c], v.nodes[c], s, req)
    decreases w.nodes[c].r.cfg.Quorum() - |w.nodes[c].r.log[s].commits|
  {
    var r, d := w.nodes[c].r, DigestOf(req);
    var from := AbsentMember(r, r.log[s].commits.Keys);
    var act := Agreement.TakeCommit(from, s, r.view, d, Signature(from, CommitSig, s, r.view, d));
    CommitVoted(r, s, req, from);
    VoteStep(w, c, act, s, req);
    var u := StepTo(w, At(c, Work(act)));
    if Finished(r, CommitCast(r, s, req, from), s, req) {
      steps, v := [At(c, Work(act))], u;
      OneStep(WorldStepTo, w, At(c, Work(act)), u);
    } else {
      var rest;
      assert |u.nodes[c].r.log[s].commits| == |r.log[s].commits| + 1;
      rest, v := CommitRound(u, c, s, req);
      steps := [At(c, Work(act))] + rest;
      assert steps[1..] == rest;
      PathCons(WorldStepTo, w, steps, u, v);
      TurnThen(w, u, v, c);
      ServedLater(w.nodes[c], u.nodes[c], v.nodes[c], s, req);
    }
  }

  lemma {:induction false} PrepareRound(w: World, c: int, s: int, req: Request) returns (steps: seq<Step>, v: World)
    requires w.Configured() && 1 <= c <= w.top.numClusters && Preparing(w.nodes[c].r, s, req)
    ensures Reaches(w, steps, v) && Turn(w, v, c) && v.trace == w.trace + [Event(c, req)]
    ensures Served(w.nodes[c], v.nodes[c], s, req)
    decreases w.nodes[c].r.cfg.Quorum() - |w.nodes[c].r.log[s].prepares|
  {
    var r, d := w.nodes[c].r, DigestOf(req);
    var from := AbsentMember(r, r.log[s].prepares.Keys);
    var act := Agreement.TakePrepare(from, s, r.view, d, Signature(from, PrepareSig, s, r.view, d));
    PrepareVoted(r, s, req, from);
    VoteStep(w, c, act, s, req);
    var u := StepTo(w, At(c, Work(act)));
    if Finished(r, PrepareCast(r, s, req, from), s, req) {
      steps, v := [At(c, Work(act))], u;
      OneStep(WorldStepTo, w, At(c, Work(act)), u);
    } else {
      var rest;
      if Committing(u.nodes[c].r, s, req) {
        rest, v := CommitRound(u, c, s, req);
      } else {
        assert |u.nodes[c].r.log[s].prepares| == |r.log[s].prepares| + 1;
        rest, v := PrepareRound(u, c, s, req);
      }
      steps := [At(c, Work(act))] + rest;
      assert steps[1..] == rest;
      PathCons(WorldStepTo, w, steps, u, v);
      TurnThen(w, u, v, c);
      ServedLater(w.nodes[c], u.nodes[c], v.nodes[c], s, req);
    }
  }

  /** The node with its only queued request taken out and proposed. */
  function Proposing(n: Node, req: Request): Node {
    n.(ingress := [], r := Offered(n.r, req))
  }

  /** The only queued request, with its operation made explicit. */
  predicate Waits(n: Node, req: Request) {
    && |n.ingress| == 1 && n.ingress[0].(op := Normal(n.ingress[0].op)) == req
    && Idle(n.r) && Startable(n.r, req)
  }

  lemma DequeueOnly(n: Node, req: Request)
    requires n.Valid() && Waits(n, req)
    ensures var m, q, s := Proposing(n, req), Dequeue(n, 0), n.r.nextSeq;
      || (q == m.(r := q.r) && Still(m.r, q.r, s) && (Preparing(q.r, s, req) || Committing(q.r, s, req)))
      || Served(m, q, s, req)
  {
    var m, s, r := n.(ingress := []), n.r.nextSeq, StartConsensus(n.r, req);
    assert Without(n.ingress, 0) == [] && StartConsensus(n.r, n.ingress[0]) == r;
    Started(n.r, req);
    var b := Proposing(n, req);
    assert b.r.hooks == n.r.hooks && AfterEngine(m, r) == AfterEngine(b, r) by {
      assert m.(r := r) == b.(r := r);
    }
    if Still(b.r, r, s) {
      AfterStill(b, r, s);
    } else {
      AfterDone(b, r, s, req);
    }
  }

  /** The world after the queued request was taken. */
  lemma TakeStep(w: World, c: int, req: Request)
    requires w.Configured() && 1 <= c <= w.top.numClusters && Waits(w.nodes[c], req)
    ensures Possible(w, At(c, Next(0)))
    ensures var n, v := w.nodes[c], StepTo(w, At(c, Next(0)));
      var s := n.r.nextSeq;
      && WorldStepTo(w, At(c, Next(0)), v) && Turn(w, v, c) && v.nodes[c] == Dequeue(n, 0)
      && (Still(Proposing(n, req).r, v.nodes[c].r, s) ==> v.trace == w.trace)
      && (Served(Proposing(n, req), v.nodes[c], s, req) ==> v.trace == w.trace + [Event(c, req)])
  {
    var n := w.nodes[c];
    var q, m := Dequeue(n, 0), Proposing(n, req);
    DequeueOnly(n, req);
    assert m.r.executed == n.r.executed && m.r.cfg == n.r.cfg && m.r.view == n.r.view;
    StaysPlaced(w, At(c, Next(0)));
    if Still(m.r, q.r, n.r.nextSeq) {
      assert NewEvents(c, n.r.executed, q.r.executed) == [];
    } else {
      assert NewEvents(c, n.r.executed, q.r.executed) == [Event(c, req)];
    }
  }

  /** A queued request that the primary would propose can be brought to execution. */
  lemma Serve(w: World, c: int, req: Request) returns (steps: seq<Step>, v: World)
    requires w.Configured() && 1 <= c <= w.top.numClusters && Waits(w.nodes[c], req)
    ensures Reaches(w, steps, v) && Turn(w, v, c) && v.trace == w.trace + [Event(c, req)]
    ensures Served(Proposing(w.nodes[c], req), v.nodes[c], w.nodes[c].r.nextSeq, req)
  {
    var m, s, act := Proposing(w.nodes[c], req), w.nodes[c].r.nextSeq, At(c, Next(0));
    DequeueOnly(w.nodes[c], req);
    TakeStep(w, c, req);
    var u := StepTo(w, act);
    if Served(m, u.nodes[c], s, req) {
      steps, v := [act], u;
      OneStep(WorldStepTo, w, act, u);
    } else {
      var rest;
      if Preparing(u.nodes[c].r, s, req) {
        rest, v := PrepareRound(u, c, s, req);
      } else {
        rest, v := CommitRound(u, c, s, req);
      }
      steps := [act] + rest;
      assert steps[1..] == rest;
      PathCons(WorldStepTo, w, steps, u, v);
      TurnThen(w, u, v, c);
      ServedLater(m, u.nodes[c], v.nodes[c], s, req);
    }
  }

  // ---------------------------------------------------------------- what a round does to its node

  /** What the transfer does to the balance of an item. */
  function Moved(req: Request, outcome: Outcome, i: int): int {
    if outcome == Abort then 0 else if i == req.x then -req.amt else if i == req.y then req.amt else 0
  }

  /** The node can take a request, and no queued one is in the way. */
  predicate Free(n: Node) {
    Idle(n.r) && n.ingress == [] && n.r.cfg.HonestLive() >= n.r.cfg.Quorum()
  }

  lemma ServedIsFree(n: Node, q: Node, req: Request)
    requires Waits(n, req) && n.r.cfg.HonestLive() >= n.r.cfg.Quorum()
    requires Served(Proposing(n, req), q, n.r.nextSeq, req)
    ensures Idle(q.r) && q.r.cfg == n.r.cfg && q.r.view == n.r.view
    ensures q.r.ledger == Exec(OfferLedger(n.r, req), req, n.r.view)
  {
  }

  /** The certificate of the round. */
  function CertOf(q: Node, s: int): Certificate
    requires s in q.r.log && q.r.log[s].commitCert.Some?
  {
    q.r.log[s].commitCert.value
  }

  predicate Vouched(n: Node, cert: Certificate)
    requires n.Valid()
  {
    Certificates.VerifyClusterCert(n.r.cfg.top, n.r.cfg.cluster, cert, CommitSig, n.r.cfg.top.Quorum())
  }

  lemma FireOne(n: Node, h: Hook)
    ensures FireAll(n, [h]) == Fire(n, h)
  {
    assert [h][1..] == [];
  }

  lemma FireTwo(n: Node, g: Hook, h: Hook)
    ensures FireAll(n, [g, h]) == Fire(Fire(n, g), h)
  {
    assert [g, h][1..] == [h];
    FireOne(Fire(n, g), h);
  }

  lemma OneLock(l: Ledger, item: int, s: int)
    requires item !in l.locks
    ensures AcquireAll(l, [item], s) == (l.(locks := l.locks[item := s]), true)
  {
    assert [item][1..] == [];
  }

  /** The item is locked, and its balance has changed by `delta`, which the WAL entry takes back. */
  ghost predicate Held(l: Ledger, m: Ledger, t: Digest, item: int, delta: int) {
    && item in m.locks && m.locks - {item} == l.locks && m.wal == l.wal[t := map[item := l.Bal(item)]]
    && m.clientTS == l.clientTS
    && forall i :: m.Bal(i) == l.Bal(i) + if i == item then delta else 0
  }

  /** The coordinator of a debited transaction. */
  ghost predicate HoldsDebit(n: Node, q: Node, req: Request, cert: Certificate) {
    && Free(q) && q.r.cfg == n.r.cfg && q.r.view == n.r.view && !q.crossBusy
    && q.commitStarted == n.commitStarted && q.collected == n.collected
    && req.(op := CoordPrepare) in q.watched && PrepareLetter(req, cert) in q.outbox && Vouched(q, cert)
    && Held(n.r.ledger, q.r.ledger, TxnOf(req), req.x, -req.amt)
  }

  lemma ServedDebit(n: Node, q: Node, req: Request)
    requires req.op == Unset && req.x !in n.r.ledger.locks && n.r.ledger.Bal(req.x) >= req.amt
    requires var prep := req.(op := CoordPrepare);
      && Waits(n, prep) && n.r.cfg.HonestLive() >= n.r.cfg.Quorum()
      && Served(Proposing(n, prep), q, n.r.nextSeq, prep)
    ensures HoldsDebit(n, q, req, CertOf(q, n.r.nextSeq))
  {
    var prep, s, l := req.(op := CoordPrepare), n.r.nextSeq, n.r.ledger;
    ServedIsFree(n, q, prep);
    OneLock(l, req.x, s);
    CoordPrepareEffect(OfferLedger(n.r, prep), prep, n.r.view);
    FireOne(Proposing(n, prep).(r := q.r), CoordPrepared(prep, s, CertOf(q, s)));
    assert l.locks[req.x := s] - {req.x} == l.locks;
  }

  /** The participant of a credited transaction. */
  ghost predicate HoldsCredit(n: Node, q: Node, req: Request, cert: Certificate) {
    && Free(q) && q.r.cfg == n.r.cfg && q.r.view == n.r.view
    && ReplyLetter(req, Commit, cert) in q.outbox && Vouched(q, cert)
    && FirstRecord(q.r.ledger.entries, req, Commit)
    && Held(n.r.ledger, q.r.ledger, TxnOf(req), req.y, req.amt)
  }

  lemma NewRecord(l: Ledger, req: Request, view: int, o: Outcome)
    requires req.op == (if o == Commit then PartPrepareCommit else PartPrepareAbort) && NoRecord(l.entries, req)
    ensures FirstRecord(Exec(l, req, view).entries, ClientReq(req), o)
    ensures o == Abort ==> Exec(l, req, view) == l.(entries := Exec(l, req, view).entries)
  {
    var es := Exec(l, req, view).entries;
    assert Records(es[|l.entries|], ClientReq(req)) && es[|l.entries|].outcome == o;
    forall j | 0 <= j < |l.entries| ensures !Records(es[j], ClientReq(req)) {
      assert es[j] == l.entries[j] && l.entries[j] in l.entries;
    }
  }

  lemma ServedCredit(n: Node, q: Node, req: Request)
    requires req.op == Unset && req.y !in n.r.ledger.locks && TxnOf(req) !in n.r.ledger.wal
    requires NoRecord(n.r.ledger.entries, req)
    requires var prep := req.(op := PartPrepareCommit);
      && Waits(n, prep) && n.r.cfg.HonestLive() >= n.r.cfg.Quorum()
      && Served(Proposing(n, prep), q, n.r.nextSeq, prep)
    ensures HoldsCredit(n, q, req, CertOf(q, n.r.nextSeq))
  {
    var prep, s, l := req.(op := PartPrepareCommit), n.r.nextSeq, n.r.ledger;
    ServedIsFree(n, q, prep);
    OneLock(l, req.y, s);
    PartPrepareEffect(OfferLedger(n.r, prep), prep, n.r.view);
    NewRecord(OfferLedger(n.r, prep), prep, n.r.view, Commit);
    FireOne(Proposing(n, prep).(r := q.r), PartPrepared(prep, s, CertOf(q, s), Commit));
    assert l.locks[req.y := s] - {req.y} == l.locks;
  }

  /** The node is as it was before the transaction, but that the item has changed by `delta`. */
  ghost predicate Closed(n: Node, q: Node, item: int, delta: int) {
    && Free(q) && q.r.cfg == n.r.cfg && q.r.view == n.r.view
    && q.r.ledger.locks == n.r.ledger.locks && q.r.ledger.wal == n.r.ledger.wal
    && forall i :: q.r.ledger.Bal(i) == n.r.ledger.Bal(i) + if i == item then delta else 0
  }

  function DecidedOp(outcome: Outcome): Op { if outcome == Commit then PartCommit else PartAbort }

  /** Executing the decision of an open transaction. */
  lemma DecisionCloses(l: Ledger, m: Ledger, req: Request, view: int, item: int, delta: int)
    requires req.op in {CoordCommit, CoordAbort, PartCommit, PartAbort}
    requires item == (if req.op == CoordCommit || req.op == CoordAbort then req.x else req.y)
    requires TxnOf(req) !in l.wal && Held(l, m, TxnOf(req), item, delta)
    ensures var k := Exec(m, req, view);
      && k.wal == l.wal && k.locks == l.locks
      && forall i :: k.Bal(i) ==
           l.Bal(i) + if i == item && (req.op == CoordCommit || req.op == PartCommit) then delta else 0
  {
    if req.op == CoordCommit || req.op == PartCommit {
      CommitEffect(m, req, view);
    } else {
      AbortEffect(m, req, view);
    }
    assert l.wal[TxnOf(req) := map[item := l.Bal(item)]] - {TxnOf(req)} == l.wal;
  }

  lemma ServedLetter(u: Node, q: Node, req: Request, outcome: Outcome)
    requires var fin := req.(op := FinalOp(outcome));
      Waits(u, fin) && Served(Proposing(u, fin), q, u.r.nextSeq, fin)
    requires req.op == Unset
    ensures q.ingress == []
    ensures DecisionLetter(req, outcome, CertOf(q, u.r.nextSeq)) in q.outbox && Vouched(q, CertOf(q, u.r.nextSeq))
  {
    var fin, s := req.(op := FinalOp(outcome)), u.r.nextSeq;
    FireTwo(Proposing(u, fin).(r := q.r), Replied(fin, s, outcome), CoordFinal(fin, s, CertOf(q, s), outcome));
  }

  lemma ServedFinal(n: Node, u: Node, q: Node, req: Request, outcome: Outcome)
    requires req.op == Unset && TxnOf(req) !in n.r.ledger.wal
    requires Held(n.r.ledger, u.r.ledger, TxnOf(req), req.x, -req.amt)
    requires u.r.cfg == n.r.cfg && u.r.view == n.r.view && u.r.cfg.HonestLive() >= u.r.cfg.Quorum()
    requires var fin := req.(op := FinalOp(outcome));
      Waits(u, fin) && Served(Proposing(u, fin), q, u.r.nextSeq, fin)
    ensures Closed(n, q, req.x, if outcome == Commit then -req.amt else 0) && q.r.ledger.TS(req.client) == req.ts
    ensures DecisionLetter(req, outcome, CertOf(q, u.r.nextSeq)) in q.outbox && Vouched(q, CertOf(q, u.r.nextSeq))
  {
    var fin := req.(op := FinalOp(outcome));
    ServedIsFree(u, q, fin);
    ServedLetter(u, q, req, outcome);
    DecisionCloses(n.r.ledger, u.r.ledger, fin, u.r.view, req.x, -req.amt);
  }

  lemma ServedDecided(n: Node, u: Node, q: Node, req: Request, outcome: Outcome)
    requires req.op == Unset && TxnOf(req) !in n.r.ledger.wal
    requires Held(n.r.ledger, u.r.ledger, TxnOf(req), req.y, req.amt)
    requires u.r.cfg == n.r.cfg && u.r.view == n.r.view && u.r.cfg.HonestLive() >= u.r.cfg.Quorum()
    requires var fin := req.(op := DecidedOp(outcome));
      Waits(u, fin) && Served(Proposing(u, fin), q, u.r.nextSeq, fin)
    ensures Closed(n, q, req.y, if outcome == Commit then req.amt else 0)
  {
    var fin, s := req.(op := DecidedOp(outcome)), u.r.nextSeq;
    ServedIsFree(u, q, fin);
    DecisionCloses(n.r.ledger, u.r.ledger, fin, u.r.view, req.y, req.amt);
    FireOne(Proposing(u, fin).(r := q.r), PartFinal(fin, s, CertOf(q, s), outcome));
  }

  // ---------------------------------------------------------------- one phase of the transaction

  /** A message is handled, and the request that it queues is served. */
  lemma HandleAndServe(w: World, c: int, act: NodeStep, req: Request) returns (steps: seq<Step>, v: World)
    requires w.Configured() && Possible(w, At(c, act))
    requires After(w, At(c, act)).r == w.nodes[c].r && Waits(After(w, At(c, act)), req)
    ensures Reaches(w, steps, v) && Turn(w, v, c) && v.trace == w.trace + [Event(c, req)]
    ensures Served(Proposing(After(w, At(c, act)), req), v.nodes[c], w.nodes[c].r.nextSeq, req)
  {
    var u, rest := StepTo(w, At(c, act)), [];
    StaysPlaced(w, At(c, act));
    assert u.trace == w.trace;
    rest, v := Serve(u, c, req);
    steps := [At(c, act)] + rest;
    assert steps[1..] == rest;
    PathCons(WorldStepTo, w, steps, u, v);
    TurnThen(w, u, v, c);
  }

  /** The coordinator's side of a world that can take the transaction. */
  predicate CoordReady(n: Node, req: Request)
    requires n.Valid()
  {
    && Free(n) && !n.crossBusy && TxnOf(req) !in n.commitStarted && !HasReply(n, req)
    && n.r.ledger.TS(req.client) < req.ts && req.x !in n.r.ledger.locks && TxnOf(req) !in n.r.ledger.wal
    && n.r.ledger.Bal(req.x) >= req.amt
  }

  /** The participant's side. */
  predicate PartReady(n: Node, req: Request) {
    Free(n) && req.y !in n.r.ledger.locks && TxnOf(req) !in n.r.ledger.wal && NoRecord(n.r.ledger.entries, req)
  }

  ghost predicate Ready(w: World, req: Request) {
    && w.Configured() && req.op == Unset && req.amt >= 0
    && var cx, cy := w.top.ClusterOf(req.x), w.top.ClusterOf(req.y);
       cx != cy && CoordReady(w.nodes[cx], req) && PartReady(w.nodes[cy], req)
  }

  lemma DebitPhase(w: World, req: Request) returns (steps: seq<Step>, v: World, cert: Certificate)
    requires w.Configured() && req.op == Unset && req.amt >= 0 && w.top.ClusterOf(req.x) != w.top.ClusterOf(req.y)
    requires CoordReady(w.nodes[w.top.ClusterOf(req.x)], req)
    ensures var c := w.top.ClusterOf(req.x);
      && Reaches(w, steps, v) && Turn(w, v, c) && v.trace == w.trace + [Event(c, req.(op := CoordPrepare))]
      && HoldsDebit(w.nodes[c], v.nodes[c], req, cert)
  {
    var c, prep := w.top.ClusterOf(req.x), req.(op := CoordPrepare);
    var n := w.nodes[c];
    assert w.Placed(c, n);
    var m := HandleClientRequest(n, req);
    assert m == n.(crossBusy := true).Enqueue(prep);
    OneLock(n.r.ledger, req.x, n.r.nextSeq);
    assert n.ingress + [prep] == [prep];
    steps, v := HandleAndServe(w, c, ClientCross(req), prep);
    cert := CertOf(v.nodes[c], n.r.nextSeq);
    ServedDebit(m, v.nodes[c], req);
  }

  lemma CreditPhase(w: World, req: Request, sent: Certificate) returns (steps: seq<Step>, v: World, cert: Certificate)
    requires w.Configured() && req.op == Unset && w.top.ClusterOf(req.x) != w.top.ClusterOf(req.y)
    requires PartReady(w.nodes[w.top.ClusterOf(req.y)], req)
    requires var n := w.nodes[w.top.ClusterOf(req.x)]; PrepareLetter(req, sent) in n.outbox && Vouched(n, sent)
    ensures var c := w.top.ClusterOf(req.y);
      && Reaches(w, steps, v) && Turn(w, v, c) && v.trace == w.trace + [Event(c, req.(op := PartPrepareCommit))]
      && HoldsCredit(w.nodes[c], v.nodes[c], req, cert)
  {
    var c, m, prep := w.top.ClusterOf(req.y), PrepareLetter(req, sent), req.(op := PartPrepareCommit);
    var n := w.nodes[c];
    assert w.Placed(c, n) && w.Placed(w.top.ClusterOf(req.x), w.nodes[w.top.ClusterOf(req.x)]);
    ScanMeaning(n.r.ledger.entries, req);
    OneLock(n.r.ledger, req.y, n.r.nextSeq);
    assert n.ingress + [prep] == [prep];
    steps, v := HandleAndServe(w, c, Prepare(m), prep);
    cert := CertOf(v.nodes[c], n.r.nextSeq);
    ServedCredit(n.Enqueue(prep), v.nodes[c], req);
  }

  /** The coordinator takes the participant's vote and follows it. */
  lemma ReplyPhase(n: Node, w: World, req: Request, outcome: Outcome, sent: Certificate, vote: Certificate)
    returns (steps: seq<Step>, v: World, cert: Certificate)
    requires w.Configured() && req.op == Unset && w.top.ClusterOf(req.x) != w.top.ClusterOf(req.y)
    requires TxnOf(req) !in n.commitStarted && TxnOf(req) !in n.r.ledger.wal
    requires HoldsDebit(n, w.nodes[w.top.ClusterOf(req.x)], req, sent)
    requires var p := w.nodes[w.top.ClusterOf(req.y)]; ReplyLetter(req, outcome, vote) in p.outbox && Vouched(p, vote)
    ensures var c := w.top.ClusterOf(req.x);
      && Reaches(w, steps, v) && Turn(w, v, c) && v.trace == w.trace + [Event(c, req.(op := FinalOp(outcome)))]
      && Closed(n, v.nodes[c], req.x, if outcome == Commit then -req.amt else 0)
      && v.nodes[c].r.ledger.TS(req.client) == req.ts
      && DecisionLetter(req, outcome, cert) in v.nodes[c].outbox && Vouched(v.nodes[c], cert)
  {
    var c, m, fin := w.top.ClusterOf(req.x), ReplyLetter(req, outcome, vote), req.(op := FinalOp(outcome));
    var u := w.nodes[c];
    assert w.Placed(c, u) && w.Placed(w.top.ClusterOf(req.y), w.nodes[w.top.ClusterOf(req.y)]);
    assert u.ingress + [fin] == [fin];
    steps, v := HandleAndServe(w, c, Reply(m), fin);
    cert := CertOf(v.nodes[c], u.r.nextSeq);
    ServedFinal(n, HandleParticipantReply(u, m), v.nodes[c], req, outcome);
  }

  /** The watch runs out before any reply, and the coordinator aborts. */
  lemma AbortPhase(n: Node, w: World, req: Request, sent: Certificate)
    returns (steps: seq<Step>, v: World, cert: Certificate)
    requires w.Configured() && req.op == Unset && w.top.ClusterOf(req.x) != w.top.ClusterOf(req.y)
    requires TxnOf(req) !in n.commitStarted && TxnOf(req) !in n.r.ledger.wal && !HasReply(n, req)
    requires HoldsDebit(n, w.nodes[w.top.ClusterOf(req.x)], req, sent)
    ensures var c := w.top.ClusterOf(req.x);
      && Reaches(w, steps, v) && Turn(w, v, c) && v.trace == w.trace + [Event(c, req.(op := CoordAbort))]
      && Closed(n, v.nodes[c], req.x, 0)
      && DecisionLetter(req, Abort, cert) in v.nodes[c].outbox && Vouched(v.nodes[c], cert)
  {
    var c, prep, fin := w.top.ClusterOf(req.x), req.(op := CoordPrepare), req.(op := CoordAbort);
    var x, s1 := w.nodes[c], At(c, TimeOut(prep));
    assert w.Placed(c, x) && !HasReply(x, prep);
    StaysPlaced(w, s1);
    var u := StepTo(w, s1);
    assert u.trace == w.trace;
    var y := u.nodes[c];
    assert y == x.(commitStarted := x.commitStarted + {TxnOf(req)}, expired := x.expired + {prep});
    assert y.ingress + [fin] == [fin] && prep.(op := CoordAbort) == fin;
    var rest;
    rest, v := HandleAndServe(u, c, Retry(prep), fin);
    steps := [s1] + rest;
    assert steps[1..] == rest;
    PathCons(WorldStepTo, w, steps, u, v);
    TurnThen(w, u, v, c);
    cert := CertOf(v.nodes[c], y.r.nextSeq);
    ServedFinal(n, y.Enqueue(fin), v.nodes[c], req, Abort);
  }

  /** The participant follows the decision. */
  lemma FinishPhase(n: Node, w: World, req: Request, outcome: Outcome, vote: Certificate, sent: Certificate)
    returns (steps: seq<Step>, v: World)
    requires w.Configured() && req.op == Unset && w.top.ClusterOf(req.x) != w.top.ClusterOf(req.y)
    requires TxnOf(req) !in n.r.ledger.wal && HoldsCredit(n, w.nodes[w.top.ClusterOf(req.y)], req, vote)
    requires var p := w.nodes[w.top.ClusterOf(req.x)];
      DecisionLetter(req, outcome, sent) in p.outbox && Vouched(p, sent)
    ensures var c := w.top.ClusterOf(req.y);
      && Reaches(w, steps, v) && Turn(w, v, c) && v.trace == w.trace + [Event(c, req.(op := DecidedOp(outcome)))]
      && Closed(n, v.nodes[c], req.y, if outcome == Commit then req.amt else 0)
  {
    var c, m, fin := w.top.ClusterOf(req.y), DecisionLetter(req, outcome, sent), req.(op := DecidedOp(outcome));
    var u := w.nodes[c];
    assert w.Placed(c, u) && w.Placed(w.top.ClusterOf(req.x), w.nodes[w.top.ClusterOf(req.x)]);
    ScanMeaning(u.r.ledger.entries, req);
    assert u.ingress + [fin] == [fin];
    steps, v := HandleAndServe(w, c, Decide(m), fin);
    ServedDecided(n, u.Enqueue(fin), v.nodes[c], req, outcome);
  }

  // ---------------------------------------------------------------- whole transactions

  /** What the transaction executes, in this order. */
  function FourSteps(cx: int, cy: int, req: Request, outcome: Outcome): seq<Event> {
    [Event(cx, req.(op := CoordPrepare)), Event(cy, req.(op := PartPrepareCommit)),
     Event(cx, req.(op := FinalOp(outcome))), Event(cy, req.(op := DecidedOp(outcome)))]
  }

  /** Both clusters have finished the transaction with this outcome, and nothing else has changed. */
  ghost predicate Settles(w: World, v: World, req: Request, outcome: Outcome)
    requires w.Configured()
  {
    var cx, cy := w.top.ClusterOf(req.x), w.top.ClusterOf(req.y);
    && v.Configured() && v.top == w.top && cx in v.nodes && cy in v.nodes
    && v.nodes == w.nodes[cx := v.nodes[cx]][cy := v.nodes[cy]]
    && v.trace == w.trace + FourSteps(cx, cy, req, outcome)
    && Closed(w.nodes[cx], v.nodes[cx], req.x, if outcome == Commit then -req.amt else 0)
    && Closed(w.nodes[cy], v.nodes[cy], req.y, if outcome == Commit then req.amt else 0)
  }

  /** The prepare phase. */
  lemma BothPrepare(w: World, req: Request)
    returns (steps: seq<Step>, v: World, sent: Certificate, vote: Certificate)
    requires Ready(w, req)
    ensures var cx, cy := w.top.ClusterOf(req.x), w.top.ClusterOf(req.y);
      && Reaches(w, steps, v) && v.Configured() && v.top == w.top && cx in v.nodes && cy in v.nodes
      && v.nodes == w.nodes[cx := v.nodes[cx]][cy := v.nodes[cy]]
      && v.trace == w.trace + [Event(cx, req.(op := CoordPrepare)), Event(cy, req.(op := PartPrepareCommit))]
      && HoldsDebit(w.nodes[cx], v.nodes[cx], req, sent) && HoldsCredit(w.nodes[cy], v.nodes[cy], req, vote)
  {
    var u, s1, s2;
    s1, u, sent := DebitPhase(w, req);
    s2, v, vote := CreditPhase(u, req, sent);
    steps := s1 + s2;
    PathJoin(WorldStepTo, w, s1, u, s2, v);
  }

  /** The coordinator decides: for a commit once the participant's vote arrives, for an abort when its
      patience ends first. */
  lemma DecidePhase(n: Node, w: World, req: Request, outcome: Outcome, sent: Certificate, vote: Certificate)
    returns (steps: seq<Step>, v: World, cert: Certificate)
    requires w.Configured() && req.op == Unset && w.top.ClusterOf(req.x) != w.top.ClusterOf(req.y)
    requires TxnOf(req) !in n.commitStarted && TxnOf(req) !in n.r.ledger.wal && !HasReply(n, req)
    requires HoldsDebit(n, w.nodes[w.top.ClusterOf(req.x)], req, sent)
    requires var p := w.nodes[w.top.ClusterOf(req.y)]; ReplyLetter(req, Commit, vote) in p.outbox && Vouched(p, vote)
    ensures var c := w.top.ClusterOf(req.x);
      && Reaches(w, steps, v) && Turn(w, v, c) && v.trace == w.trace + [Event(c, req.(op := FinalOp(outcome)))]
      && Closed(n, v.nodes[c], req.x, if outcome == Commit then -req.amt else 0)
      && DecisionLetter(req, outcome, cert) in v.nodes[c].outbox && Vouched(v.nodes[c], cert)
  {
    if outcome == Commit {
      steps, v, cert := ReplyPhase(n, w, req, Commit, sent, vote);
    } else {
      steps, v, cert := AbortPhase(n, w, req, sent);
    }
  }

  /** Either outcome can be reached. */
  lemma CanSettle(w: World, req: Request, outcome: Outcome) returns (steps: seq<Step>, v: World)
    requires Ready(w, req)
    ensures Reaches(w, steps, v) && Settles(w, v, req, outcome)
  {
    var s1, u, sent, vote := BothPrepare(w, req);
    var s2, x, cert := DecidePhase(w.nodes[w.top.ClusterOf(req.x)], u, req, outcome, sent, vote);
    var s3;
    s3, v := FinishPhase(w.nodes[w.top.ClusterOf(req.y)], x, req, outcome, vote, cert);
    steps := s1 + s2 + s3;
    PathJoin(WorldStepTo, w, s1, u, s2, x);
    PathJoin(WorldStepTo, w, s1 + s2, x, s3, v);
  }

  /** A new bank takes any covered transfer of a positive timestamp. */
  lemma NewBankIsReady(w: World, req: Request)
    requires Initial(w) && req.op == Unset && 0 <= req.amt <= w.top.initialBalance && req.ts > 0
    requires w.top.ClusterOf(req.x) != w.top.ClusterOf(req.y)
    requires forall c :: 1 <= c <= w.top.numClusters ==> w.nodes[c].r.cfg.HonestLive() >= w.top.Quorum()
    ensures Ready(w, req)
  {
    var cx, cy := w.top.ClusterOf(req.x), w.top.ClusterOf(req.y);
    assert w.nodes[cx] == BootNode(w.nodes[cx].r.cfg) && w.nodes[cy] == BootNode(w.nodes[cy].r.cfg);
  }

  /** The progress of two-phase commit: in a new bank with enough live members, every covered transfer
      between two clusters has a run that commits it and one that aborts it.  After either, the operations
      executed are exactly its four, no entry is open and no lock is held, and the balances are those of
      the transfer, or the initial ones. */
  lemma EveryTransferCanEnd(w: World, req: Request, outcome: Outcome) returns (steps: seq<Step>, v: World)
    requires Initial(w) && req.op == Unset && 0 <= req.amt <= w.top.initialBalance && req.ts > 0
    requires w.top.ClusterOf(req.x) != w.top.ClusterOf(req.y)
    requires forall c :: 1 <= c <= w.top.numClusters ==> w.nodes[c].r.cfg.HonestLive() >= w.top.Quorum()
    ensures Reaches(w, steps, v) && v.Configured() && v.top == w.top && NothingOpen(v)
    ensures v.trace == FourSteps(w.top.ClusterOf(req.x), w.top.ClusterOf(req.y), req, outcome)
    ensures forall c :: 1 <= c <= v.top.numClusters ==> v.nodes[c].r.ledger.locks == map[] && v.nodes[c].ingress == []
    ensures forall i :: NodeBal(v, i) == v.top.initialBalance + Moved(req, outcome, i)
  {
    NewBankIsReady(w, req);
    steps, v := CanSettle(w, req, outcome);
    forall c | 1 <= c <= v.top.numClusters
      ensures var n := v.nodes[c]; n.r.ledger.wal == map[] && n.r.ledger.locks == map[] && n.ingress == []
    {
      SettledNode(w, v, req, outcome, c, 0);
    }
    forall i ensures NodeBal(v, i) == v.top.initialBalance + Moved(req, outcome, i) {
      SettledNode(w, v, req, outcome, v.top.ClusterOf(i), i);
    }
  }

  lemma SettledNode(w: World, v: World, req: Request, outcome: Outcome, c: int, i: int)
    requires Initial(w) && Settles(w, v, req, outcome) && 1 <= c <= w.top.numClusters
    requires w.top.ClusterOf(req.x) != w.top.ClusterOf(req.y)
    ensures var n := v.nodes[c];
      && n.r.ledger.wal == map[] && n.r.ledger.locks == map[] && n.ingress == []
      && (w.top.ClusterOf(i) == c ==> n.r.ledger.Bal(i) == w.top.initialBalance + Moved(req, outcome, i))
  {
    assert w.nodes[c] == BootNode(w.nodes[c].r.cfg);
  }

  // ---------------------------------------------------------------- a transfer that is voted down

  /** The participant has recorded its abort vote and sent it, and has changed nothing else. */
  ghost predicate VotedDown(n: Node, q: Node, req: Request, cert: Certificate) {
    && Closed(n, q, req.y, 0) && ReplyLetter(req, Abort, cert) in q.outbox && Vouched(q, cert)
    && FirstRecord(q.r.ledger.entries, req, Abort)
  }

  lemma ServedDown(n: Node, q: Node, req: Request)
    requires req.op == Unset && NoRecord(n.r.ledger.entries, req)
    requires var down := req.(op := PartPrepareAbort);
      && Waits(n, down) && n.r.cfg.HonestLive() >= n.r.cfg.Quorum()
      && Served(Proposing(n, down), q, n.r.nextSeq, down)
    ensures VotedDown(n, q, req, CertOf(q, n.r.nextSeq))
  {
    var down, s := req.(op := PartPrepareAbort), n.r.nextSeq;
    ServedIsFree(n, q, down);
    assert OfferLedger(n.r, down) == n.r.ledger;
    NewRecord(n.r.ledger, down, n.r.view, Abort);
    FireOne(Proposing(n, down).(r := q.r), PartPrepared(down, s, CertOf(q, s), Abort));
  }

  lemma DownPhase(w: World, req: Request, sent: Certificate) returns (steps: seq<Step>, v: World, cert: Certificate)
    requires w.Configured() && req.op == Unset && w.top.ClusterOf(req.x) != w.top.ClusterOf(req.y)
    requires var n := w.nodes[w.top.ClusterOf(req.y)];
      Free(n) && req.y in n.r.ledger.locks && TxnOf(req) !in n.r.ledger.wal && NoRecord(n.r.ledger.entries, req)
    requires var n := w.nodes[w.top.ClusterOf(req.x)]; PrepareLetter(req, sent) in n.outbox && Vouched(n, sent)
    ensures var c := w.top.ClusterOf(req.y);
      && Reaches(w, steps, v) && Turn(w, v, c) && v.trace == w.trace + [Event(c, req.(op := PartPrepareAbort))]
      && VotedDown(w.nodes[c], v.nodes[c], req, cert)
  {
    var c, m, down := w.top.ClusterOf(req.y), PrepareLetter(req, sent), req.(op := PartPrepareAbort);
    var n := w.nodes[c];
    assert w.Placed(c, n) && w.Placed(w.top.ClusterOf(req.x), w.nodes[w.top.ClusterOf(req.x)]);
    ScanMeaning(n.r.ledger.entries, req);
    assert n.ingress + [down] == [down];
    steps, v := HandleAndServe(w, c, Prepare(m), down);
    cert := CertOf(v.nodes[c], n.r.nextSeq);
    ServedDown(n.Enqueue(down), v.nodes[c], req);
  }

  /** From every world with an idle coordinator and an idle participant whose item is locked, the transfer
      can be voted down: the participant votes to abort, the coordinator takes its debit back, and both are
      left with the balances, entries and locks that they had; the decision letter finds nothing to undo. */
  lemma CanBeVotedDown(w: World, req: Request) returns (steps: seq<Step>, v: World, cert: Certificate)
    requires w.Configured() && req.op == Unset && req.amt >= 0 && w.top.ClusterOf(req.x) != w.top.ClusterOf(req.y)
    requires CoordReady(w.nodes[w.top.ClusterOf(req.x)], req)
    requires var n := w.nodes[w.top.ClusterOf(req.y)];
      Free(n) && req.y in n.r.ledger.locks && TxnOf(req) !in n.r.ledger.wal && NoRecord(n.r.ledger.entries, req)
    ensures var cx, cy := w.top.ClusterOf(req.x), w.top.ClusterOf(req.y);
      && Reaches(w, steps, v) && v.Configured() && v.top == w.top
      && v.trace == w.trace + [Event(cx, req.(op := CoordPrepare)), Event(cy, req.(op := PartPrepareAbort)),
                               Event(cx, req.(op := CoordAbort))]
      && Closed(w.nodes[cx], v.nodes[cx], req.x, 0) && Closed(w.nodes[cy], v.nodes[cy], req.y, 0)
      && DecisionLetter(req, Abort, cert) in v.nodes[cx].outbox
      && HandleCommit(v.nodes[cy], DecisionLetter(req, Abort, cert)) == v.nodes[cy]
  {
    var cx, cy := w.top.ClusterOf(req.x), w.top.ClusterOf(req.y);
    var s1, u1, sent := DebitPhase(w, req);
    var s2, u2, vote := DownPhase(u1, req, sent);
    var s3;
    s3, v, cert := ReplyPhase(w.nodes[cx], u2, req, Abort, sent, vote);
    steps := s1 + s2 + s3;
    PathJoin(WorldStepTo, w, s1, u1, s2, u2);
    PathJoin(WorldStepTo, w, s1 + s2, u2, s3, v);
    ScanMeaning(v.nodes[cy].r.ledger.entries, req);
  }

  // ---------------------------------------------------------------- a transfer that is executed twice

  /** An intra-shard transfer of the client, on items that the cross-shard one leaves alone. */
  predicate Aside(n: Node, req: Request, cross: Request) {
    && req.op == Unset && req.amt >= 0 && req.x != req.y && req.x != cross.x && req.y != cross.x
    && req.x !in n.r.ledger.locks && req.y !in n.r.ledger.locks
    && n.r.ledger.TS(req.client) < req.ts && n.r.ledger.Bal(req.x) >= req.amt
  }

  /** All but the ledger is as before. */
  predicate SameDesk(n: Node, q: Node) {
    && Free(q) && q.r.cfg == n.r.cfg && q.r.view == n.r.view && q == n.(r := q.r)
    && q.r.ledger.locks == n.r.ledger.locks && q.r.ledger.wal == n.r.ledger.wal
  }

  lemma ServedIntra(n: Node, u: Node, q: Node, req: Request, cross: Request)
    requires Free(n) && Aside(n, req, cross) && u == n.Enqueue(req)
    requires var tx := req.(op := Intra); Waits(u, tx) && Served(Proposing(u, tx), q, u.r.nextSeq, tx)
    ensures SameDesk(n, q) && q.r.ledger.TS(req.client) == req.ts
    ensures forall i :: q.r.ledger.Bal(i) == n.r.ledger.Bal(i) + Moved(req, Commit, i)
  {
    var tx, s, l := req.(op := Intra), u.r.nextSeq, u.r.ledger;
    ServedIsFree(u, q, tx);
    BothLocks(l, tx, s);
    IntraEffect(OfferLedger(u.r, tx), tx, u.r.view);
    LocksAfter(OfferLedger(u.r, tx), tx, u.r.view);
    FireOne(Proposing(u, tx).(r := q.r), Replied(tx, s, Commit));
    assert l.locks[tx.x := s][tx.y := s] - {tx.x, tx.y} == l.locks;
  }

  lemma BothLocks(l: Ledger, req: Request, s: int)
    requires req.op == Intra && req.x != req.y && req.x !in l.locks && req.y !in l.locks
    ensures AcquireAll(l, LockItems(req), s) == (l.(locks := l.locks[req.x := s][req.y := s]), true)
  {
    OneLock(l.Acquire(req.x, s), req.y, s);
    assert LockItems(req)[1..] == [req.y];
  }

  lemma IntraPhase(w: World, c: int, req: Request, cross: Request) returns (steps: seq<Step>, v: World)
    requires w.Configured() && 1 <= c <= w.top.numClusters && Free(w.nodes[c]) && Aside(w.nodes[c], req, cross)
    requires w.top.ClusterOf(req.x) == c && w.top.ClusterOf(req.y) == c
    ensures Reaches(w, steps, v) && Turn(w, v, c) && v.trace == w.trace + [Event(c, req.(op := Intra))]
    ensures SameDesk(w.nodes[c], v.nodes[c]) && v.nodes[c].r.ledger.TS(req.client) == req.ts
    ensures forall i :: v.nodes[c].r.ledger.Bal(i) == w.nodes[c].r.ledger.Bal(i) + Moved(req, Commit, i)
  {
    var n, tx := w.nodes[c], req.(op := Intra);
    assert w.Placed(c, n);
    BothLocks(n.r.ledger, tx, n.r.nextSeq);
    steps, v := HandleAndServe(w, c, ClientIntra(req), tx);
    ServedIntra(n, n.Enqueue(req), v.nodes[c], req, cross);
  }

  /** The node as it would be without the prepared transaction. */
  function Unprepared(n: Node, req: Request): Node {
    var l := n.r.ledger;
    n.(r := n.r.(ledger := l.(
      locks := l.locks - {req.x}, wal := l.wal - {TxnOf(req)},
      balances := l.balances[req.x := l.Bal(req.x) + req.amt])))
  }

  lemma StillDebited(n: Node, u: Node, q: Node, req: Request, cross: Request, sent: Certificate)
    requires TxnOf(cross) !in n.r.ledger.wal && HoldsDebit(n, u, cross, sent) && SameDesk(u, q)
    requires req.x != cross.x && req.y != cross.x
    requires forall i :: q.r.ledger.Bal(i) == u.r.ledger.Bal(i) + Moved(req, Commit, i)
    ensures var b := Unprepared(q, cross);
      && q.r.ledger.clientTS == b.r.ledger.clientTS && HoldsDebit(b, q, cross, sent)
      && b.r.ledger.locks == n.r.ledger.locks && b.r.ledger.wal == n.r.ledger.wal
      && b.r.ledger.Bal(req.x) == q.r.ledger.Bal(req.x) && b.commitStarted == n.commitStarted
  {
    var b := Unprepared(q, cross);
    assert n.r.ledger.wal[TxnOf(cross) := map[cross.x := n.r.ledger.Bal(cross.x)]] - {TxnOf(cross)} == n.r.ledger.wal;
    assert b.r.ledger.Bal(cross.x) == n.r.ledger.Bal(cross.x);
  }

  /** The older cross-shard transfer is prepared, the newer intra-shard one executed. */
  lemma NewerFirst(w: World, cross: Request, req: Request)
    returns (steps: seq<Step>, v: World, sent: Certificate, vote: Certificate)
    requires Ready(w, cross)
    requires var c := w.top.ClusterOf(cross.x);
      && w.top.ClusterOf(req.x) == c && w.top.ClusterOf(req.y) == c && Aside(w.nodes[c], req, cross)
    ensures var cx, cy := w.top.ClusterOf(cross.x), w.top.ClusterOf(cross.y);
      && Reaches(w, steps, v) && v.Configured() && v.top == w.top
      && v.trace == w.trace + [Event(cx, cross.(op := CoordPrepare)), Event(cx, req.(op := Intra)),
                               Event(cy, cross.(op := PartPrepareCommit))]
      && ReplyLetter(cross, Commit, vote) in v.nodes[cy].outbox && Vouched(v.nodes[cy], vote)
      && var b := Unprepared(v.nodes[cx], cross);
         && HoldsDebit(b, v.nodes[cx], cross, sent) && b.commitStarted == w.nodes[cx].commitStarted
         && b.r.ledger.locks == w.nodes[cx].r.ledger.locks && b.r.ledger.wal == w.nodes[cx].r.ledger.wal
         && b.r.ledger.Bal(req.x) == w.nodes[cx].r.ledger.Bal(req.x) - req.amt
  {
    var cx := w.top.ClusterOf(cross.x);
    var s1, u1, s2, u2, s3;
    s1, u1, sent := DebitPhase(w, cross);
    s2, u2 := IntraPhase(u1, cx, req, cross);
    StillDebited(w.nodes[cx], u1.nodes[cx], u2.nodes[cx], req, cross, sent);
    s3, v, vote := CreditPhase(u2, cross, sent);
    steps := s1 + s2 + s3;
    PathJoin(WorldStepTo, w, s1, u1, s2, u2);
    PathJoin(WorldStepTo, w, s1 + s2, u2, s3, v);
  }

  /** The exception of the replay law does occur: while an older cross-shard transfer of the client is
      prepared, a newer intra-shard one executes; the commit of the older sets the timestamp back, and the
      newer one, sent again, executes again. */
  lemma TransferRepeats(w: World, cross: Request, req: Request) returns (steps: seq<Step>, v: World)
    requires Ready(w, cross) && req.client == cross.client && cross.ts < req.ts
    requires var c := w.top.ClusterOf(cross.x);
      && w.top.ClusterOf(req.x) == c && w.top.ClusterOf(req.y) == c
      && Aside(w.nodes[c], req, cross) && w.nodes[c].r.ledger.Bal(req.x) >= req.amt + req.amt
    ensures var cx, cy := w.top.ClusterOf(cross.x), w.top.ClusterOf(cross.y);
      && Reaches(w, steps, v)
      && v.trace == w.trace +
           [Event(cx, cross.(op := CoordPrepare)), Event(cx, req.(op := Intra)),
            Event(cy, cross.(op := PartPrepareCommit)), Event(cx, cross.(op := CoordCommit)),
            Event(cx, req.(op := Intra))]
  {
    var cx := w.top.ClusterOf(cross.x);
    var s1, u, sent, vote := NewerFirst(w, cross, req);
    var s2, x, _ := ReplyPhase(Unprepared(u.nodes[cx], cross), u, cross, Commit, sent, vote);
    var s3;
    s3, v := IntraPhase(x, cx, req, cross);
    steps := s1 + s2 + s3;
    PathJoin(WorldStepTo, w, s1, u, s2, x);
    PathJoin(WorldStepTo, w, s1 + s2, x, s3, v);
  }
}
