/** What moves a cluster on (pbft/engine.go:302-585, 1094-1140, pbft/viewchange.go:255-285): when a primary
    proposes, when a backup votes, and that from every caught-up cluster a request that they all would take
    is voted for, certified twice and executed by all of them, on nothing but their own votes. */
module Progress {
  import opened Types
  import opened Ledgers
  import opened Pbft
  import opened Micro
  import opened Agreement
  import opened Ordering
  import opened Voting
  import opened Paths
  import CrossSlot
  import Proposer
  import Timestamps
  import Quorums
  import Topo = Topology

  // ---------------------------------------------------------------- real votes

  /** A collected vote is one that another replica of the cluster has sent. */
  ghost predicate Voted(c: Cluster, a: Action) {
    match a
    case TakePrepare(from, s, v, d, sig) =>
      from in c.replicas && from != c.primary && PrepareMsg(from, s, v, d, sig) in c.replicas[from].sent
    case TakeCommit(from, s, v, d, sig) =>
      from in c.replicas && from != c.primary && CommitMsg(from, s, v, d, sig) in c.replicas[from].sent
    case _ => true
  }

  ghost predicate HonestStep(x: Cluster, a: Action, y: Cluster) {
    LeadStep(x, a, y) && Voted(x, a)
  }

  ghost predicate HonestRun(first: Cluster, acts: seq<Action>, last: Cluster) {
    Path(HonestStep, first, acts, last)
  }

  lemma HonestCons(c: Cluster, a: Action, d: Cluster, acts: seq<Action>, e: Cluster)
    requires HonestStep(c, a, d) && HonestRun(d, acts, e)
    ensures HonestRun(c, [a] + acts, e)
  {
    assert ([a] + acts)[1..] == acts;
    PathCons(HonestStep, c, [a] + acts, d, e);
  }

  lemma {:induction false} HonestLeads(c: Cluster, acts: seq<Action>, d: Cluster)
    requires HonestRun(c, acts, d)
    ensures Leads(c, acts, d)
    decreases |acts|
  {
    if acts == [] {
      NoStep(LeadStep, c, acts);
    } else {
      var e := PathFirst(HonestStep, c, acts, d);
      HonestLeads(e, acts[1..], d);
      PathCons(LeadStep, c, acts, e, d);
    }
  }

  // ---------------------------------------------------------------- what a primary proposes

  predicate NoneLive(r: Replica, req: Request) {
    forall s :: s in r.log && Proposer.Live(r.log[s]) ==> TxnOf(r.log[s].req) != TxnOf(req)
  }

  /** What must hold of the primary's state for each operation, and of the members alive. */
  predicate Due(r: Replica, req: Request) {
    var l := r.ledger;
    && (IsCommitPhaseOp(req.op) || r.cfg.HonestLive() >= r.cfg.Quorum())
    && match req.op
       case Intra =>
         l.TS(req.client) < req.ts && NoneLive(r, req) && l.Bal(req.x) >= req.amt
         && req.x != req.y && req.x !in l.locks && req.y !in l.locks
       case CoordPrepare => NoneLive(r, req) && l.Bal(req.x) >= req.amt && req.x !in l.locks
       case PartPrepareCommit => req.y !in l.locks
       case PartPrepareAbort => true
       case CoordCommit => req.x in l.locks && TxnOf(req) in l.wal
       case CoordAbort => req.x in l.locks
       case PartCommit => req.y in l.locks && TxnOf(req) in l.wal
       case PartAbort => req.y in l.locks
       case _ => false
  }

  lemma StartableIff(r: Replica, req: Request)
    requires r.cfg.Valid() && req.op != Unset
    ensures Startable(r, req) <==> Due(r, req)
  {
    assert TxnInFlight(r, req) <==> !NoneLive(r, req);
    if req.op == Intra {
      Timestamps.TransferLocks(r, req);
    } else if req.op == CoordPrepare || req.op == PartPrepareCommit {
      var l, i := r.ledger, LockItems(req)[0];
      assert LockItems(req) == [i] && [i][1..] == [];
      assert AcquireAll(l, [i], r.nextSeq).1 <==> i !in l.locks;
      assert CanAcquire(l, req) <==> i !in l.locks;
    }
  }

  /** No change but an offer announces a proposal, and none takes a message back. */
  lemma {:induction false} QuietSends(r: Replica, cs: seq<Change>, q: Replica)
    requires r.cfg.Valid() && Runs(r, cs, q) && AllQuiet(cs)
    ensures forall m: Msg :: m.PrePrepareMsg? ==> (m in q.sent <==> m in r.sent)
    decreases |cs|
  {
    if cs != [] {
      ApplyKeepsConfig(r, cs[0]);
      assert cs[0] in cs;
      QuietSends(Apply(r, cs[0]), cs[1..], q);
    }
  }

  /** A primary proposes a request, under its next number, exactly when it is due and no fault switch holds
      the proposal back; and a refused request is answered exactly when it is a debit that the balance does
      not cover and enough members are alive. */
  lemma ProposesIff(r: Replica, req0: Request)
    requires r.cfg.Valid() && r.IsPrimary()
    requires var req := req0.(op := Normal(req0.op)); PrePrepareMsg(r.nextSeq, r.view, DigestOf(req), req) !in r.sent
    ensures var q, req := StartConsensus(r, req0), req0.(op := Normal(req0.op));
      && (PrePrepareMsg(r.nextSeq, r.view, DigestOf(req), req) in q.sent <==> Due(r, req) && !r.cfg.byzantineLeader)
      && (!Due(r, req) ==>
            (Rejected(req) in CrossSlot.NewHooksOf(r, q) <==>
              && r.cfg.HonestLive() >= r.cfg.Quorum() && req.op in {Intra, CoordPrepare}
              && r.ledger.Bal(req.x) < req.amt))
  {
    var q, req := StartConsensus(r, req0), req0.(op := Normal(req0.op));
    StartableIff(r, req);
    if Startable(r, req) {
      var cs := OfferRuns(r, req);
      ApplyKeepsConfig(r, cs[0]);
      QuietSends(Apply(r, Offer(req)), cs[1..], q);
    } else {
      RefusalIs(r, req0);
    }
  }

  // ---------------------------------------------------------------- a backup in one round

  /** What a backup checks of a proposal before it votes. */
  predicate Votable(r: Replica, s: int, req: Request)
    requires r.cfg.Valid()
  {
    !r.cfg.byzantineBackup && OpMatchesCluster(r.cfg, req) && Checked(r, s, req)
  }

  /** Timestamp, balance and locks. */
  predicate Checked(r: Replica, s: int, req: Request) {
    && ValidateRequest(r.ledger, req, s)
    && (if IsCommitPhaseOp(req.op) then LocksHeldForCommitOp(r.ledger, req)
        else EnsureAll(r.ledger, LockItems(req), s).1)
  }

  function VoteLedger(l: Ledger, s: int, req: Request): Ledger {
    if IsCommitPhaseOp(req.op) then l else EnsureAll(l, LockItems(req), s).0
  }

  function PrepareVote(r: Replica, s: int, req: Request): Msg {
    PrepareMsg(r.cfg.self, s, r.view, DigestOf(req), Signature(r.cfg.self, PrepareSig, s, r.view, DigestOf(req)))
  }

  function CommitVote(r: Replica, s: int, req: Request): Msg {
    CommitMsg(r.cfg.self, s, r.view, DigestOf(req), Signature(r.cfg.self, CommitSig, s, r.view, DigestOf(req)))
  }

  /** Free, or held under this very number. */
  predicate FreeFor(l: Ledger, item: int, s: int) { item in l.locks ==> l.locks[item] == s }

  /** What must hold of the state for each operation: a transfer needs a newer timestamp, balance and both
      items, a debit balance and its item, a credit its item, and a decision an item that is locked. */
  predicate Fits(l: Ledger, s: int, req: Request) {
    match req.op
    case Intra => l.TS(req.client) < req.ts && l.Bal(req.x) >= req.amt && FreeFor(l, req.x, s) && FreeFor(l, req.y, s)
    case Unset => l.TS(req.client) < req.ts && l.Bal(req.x) >= req.amt && FreeFor(l, req.x, s) && FreeFor(l, req.y, s)
    case CoordPrepare => l.Bal(req.x) >= req.amt && FreeFor(l, req.x, s)
    case PartPrepareCommit => FreeFor(l, req.y, s)
    case CoordCommit => req.x in l.locks
    case CoordAbort => req.x in l.locks
    case PartCommit => req.y in l.locks
    case PartAbort => req.y in l.locks
    case _ => true
  }

  /** Transfers stay within some cluster, the coordinator's operations start in this one, and the
      participant's end in it. */
  predicate Concerns(cfg: Config, req: Request)
    requires cfg.Valid()
  {
    var cx, cy := cfg.top.ClusterOf(req.x), cfg.top.ClusterOf(req.y);
    if Normal(req.op) == Intra then cx == cy
    else if req.op in {CoordPrepare, CoordCommit, CoordAbort} then cx == cfg.cluster
    else req.op in {PartPrepareCommit, PartPrepareAbort, PartCommit, PartAbort} && cy == cfg.cluster
  }

  lemma {:induction false} EnsureAllIff(l: Ledger, items: seq<int>, s: int)
    ensures EnsureAll(l, items, s).1 <==> forall i :: i in items ==> FreeFor(l, i, s)
    decreases |items|
  {
    if items != [] {
      var l1 := l.Acquire(items[0], s);
      assert items == [items[0]] + items[1..];
      EnsureAllIff(l1, items[1..], s);
      if FreeFor(l, items[0], s) {
        assert forall i :: FreeFor(l1, i, s) <==> FreeFor(l, i, s);
      } else {
        assert items[0] in items;
      }
    }
  }

  lemma CheckedIff(r: Replica, s: int, req: Request)
    ensures Checked(r, s, req) <==> Fits(r.ledger, s, req)
  {
    var items := LockItems(req);
    EnsureAllIff(r.ledger, items, s);
    assert req.op in {Intra, Unset} ==> items[0] == req.x && items[1] == req.y;
    assert req.op == CoordPrepare ==> items[0] == req.x;
    assert req.op == PartPrepareCommit ==> items[0] == req.y;
  }

  /** A proposal is stored exactly when it concerns the cluster, it is of the replica's view, its number is
      free and no earlier one is missing; and a backup that never voted for it votes for it exactly when it
      moreover fits the state. */
  lemma BackupVotesIff(r: Replica, s: int, view: int, req: Request)
    requires r.cfg.Valid() && !r.IsPrimary() && PrepareVote(r, s, req) !in r.sent
    ensures var q := OnPrePrepare(r, s, view, DigestOf(req), req);
      var open := view == r.view && Concerns(r.cfg, req) && GapClear(r, s)
                  && (s in r.log ==> !r.log[s].prePrepare || r.log[s].discarded);
      && (if open then Matches(q, s, DigestOf(req)) && q.log[s].req == req && !q.log[s].discarded else q == r)
      && (PrepareVote(r, s, req) in q.sent <==> open && !r.cfg.byzantineBackup && Fits(r.ledger, s, req))
  {
    CheckedIff(r, s, req);
    ConcernsIff(r.cfg, req);
  }

  lemma ConcernsIff(cfg: Config, req: Request)
    requires cfg.Valid()
    ensures Concerns(cfg, req) <==> OpMatchesCluster(cfg, req)
  {
  }

  /** A proposal of the new view's primary, at a backup: one within a cluster that leaves no gap always ends
      up in its slot, and unless the slot held its digest before, it is voted for exactly when it fits the
      state.  What crosses clusters is never taken over. */
  lemma AdoptionVotesIff(r: Replica, s: int, req: Request)
    requires r.cfg.Valid() && !r.IsPrimary() && PrepareVote(r, s, req) !in r.sent
    ensures var q := AcceptNewView(r, PrePrepareMsg(s, r.view, DigestOf(req), req));
      var fits := r.cfg.top.ClusterOf(req.x) == r.cfg.top.ClusterOf(req.y) && GapClear(r, s);
      && (fits ==> Matches(q, s, DigestOf(req)))
      && (fits && !Matches(r, s, DigestOf(req)) ==> q.log[s].req == req)
      && (!fits ==> q == r)
      && (PrepareVote(r, s, req) in q.sent <==>
            fits && !Matches(r, s, DigestOf(req)) && !r.cfg.byzantineBackup && Fits(r.ledger, s, req))
  {
    CheckedIff(r, s, req);
  }

  /** The new view's primary itself votes for a transfer that it takes over exactly when its slot held
      another digest, timestamp and balance pass, and the items are different and free. */
  lemma AdoptionAtPrimary(r: Replica, s: int, req: Request)
    requires r.cfg.Valid() && r.IsPrimary() && req.op == Intra
    requires Signature(r.cfg.self, PrepareSig, s, r.view, DigestOf(req)) !in r.signed
    ensures var q, l := AcceptNewView(r, PrePrepareMsg(s, r.view, DigestOf(req), req)), r.ledger;
      Signature(r.cfg.self, PrepareSig, s, r.view, DigestOf(req)) in q.signed <==>
        && r.cfg.top.ClusterOf(req.x) == r.cfg.top.ClusterOf(req.y) && GapClear(r, s)
        && !Matches(r, s, DigestOf(req)) && l.TS(req.client) < req.ts && l.Bal(req.x) >= req.amt
        && req.x != req.y && req.x !in l.locks && req.y !in l.locks
  {
    var d, m := DigestOf(req), PrePrepareMsg(s, r.view, DigestOf(req), req);
    if r.cfg.top.SameCluster(req.x, req.y) && GapClear(r, s) && !Matches(r, s, d) {
      var b := r.Put(s, SlotAt(r, s).(digest := Some(d), req := req, prePrepare := true));
      PrimaryAdopts(b, s, req);
    }
  }

  lemma PrimaryAdopts(b: Replica, s: int, req: Request)
    requires b.cfg.Valid() && b.IsPrimary() && req.op == Intra
    requires Signature(b.cfg.self, PrepareSig, s, b.view, DigestOf(req)) !in b.signed
    ensures var q, l := Adopted(b, PrePrepareMsg(s, b.view, DigestOf(req), req)), b.ledger;
      Signature(b.cfg.self, PrepareSig, s, b.view, DigestOf(req)) in q.signed <==>
        && l.TS(req.client) < req.ts && l.Bal(req.x) >= req.amt
        && req.x != req.y && req.x !in l.locks && req.y !in l.locks
  {
    var d, l, items := DigestOf(req), b.ledger, LockItems(req);
    Timestamps.TransferLocks(b.(nextSeq := s), req);
    if CanAcquire(l, req) && AcquireAll(l, items, s).1 {
      var m := b.(ledger := AcquireAll(l, items, s).0);
      Proposer.AcquireAllTakes(l, items, s);
      Proposer.EnsureHeld(m.ledger, items, s);
      assert ValidateRequest(m.ledger, req, s) <==> l.TS(req.client) < req.ts && l.Bal(req.x) >= req.amt;
      var sig := Signature(b.cfg.self, PrepareSig, s, b.view, d);
      var cs := OnPrepareRuns(m.Sign(sig), b.cfg.self, s, b.view, d, sig);
      Quorums.SignedStay(m.Sign(sig), cs, OnPrepare(m.Sign(sig), b.cfg.self, s, b.view, d, sig));
    }
  }

  /** The backup `r` of the round that began with it as `r0`: it has voted to prepare from stage 1 on, to
      commit from stage 2 on, and it has executed the request at stage 3. */
  predicate At(r0: Replica, r: Replica, s: int, req: Request, k: nat)
    requires r0.cfg.Valid()
  {
    if k == 0 then r == r0 && Votable(r, s, req) && r.execSeq == s && forall t :: t in r.log ==> t < s
    else
      && r.cfg == r0.cfg && r.view == r0.view && s in r.log && r.log == r0.log[s := r.log[s]]
      && (forall t :: t in r0.log ==> t < s)
      && r.log[s].prePrepare && !r.log[s].discarded && r.log[s].digest == Some(DigestOf(req)) && r.log[s].req == req
      && (k <= 2 ==> PrepareVote(r, s, req) in r.sent) && (k == 2 ==> CommitVote(r, s, req) in r.sent)
      && if k <= 2
         then !r.log[s].executed && r.execSeq == s && r.executed == r0.executed
              && r.ledger == VoteLedger(r0.ledger, s, req)
         else r.execSeq == s + 1 && r.executed == r0.executed + [Executed(s, req)]
              && r.ledger == Exec(VoteLedger(r0.ledger, s, req), req, r.view)
  }

  /** The message of the primary that takes a backup to stage `k`. */
  predicate Moves(cfg: Config, view: int, s: int, req: Request, m: Msg, k: nat) {
    match m
    case PrePrepareMsg(t, v, d, q) => k == 1 && t == s && v == view && d == DigestOf(req) && q == req
    case PrepareCertMsg(cert) => k == 2 && CertFor(cfg, view, s, req, cert, PrepareSig)
    case CommitCertMsg(cert) => k == 3 && CertFor(cfg, view, s, req, cert, CommitSig)
    case _ => false
  }

  predicate CertFor(cfg: Config, view: int, s: int, req: Request, cert: Certificate, phase: SigPhase) {
    VerifyCert(cfg, cert, phase) && cert.seqNo == s && cert.view == view && cert.digest == DigestOf(req)
  }

  lemma AdvanceVote(r: Replica, s: int, req: Request)
    requires r.cfg.Valid() && !r.IsPrimary() && At(r, r, s, req, 0)
    ensures At(r, OnPrePrepare(r, s, r.view, DigestOf(req), req), s, req, 1)
  {
    assert GapClear(r, s);
  }

  lemma AdvanceCommit(r0: Replica, r: Replica, s: int, req: Request, cert: Certificate)
    requires r0.cfg.Valid() && !r0.IsPrimary() && At(r0, r, s, req, 1)
    requires CertFor(r.cfg, r.view, s, req, cert, PrepareSig)
    ensures At(r0, OnPrepareCert(r, cert), s, req, 2)
  {
    var q := OnPrepareCert(r, cert);
    assert q.log == r.log[s := q.log[s]];
  }

  lemma AdvanceExecute(r0: Replica, r: Replica, s: int, req: Request, cert: Certificate)
    requires r0.cfg.Valid() && !r0.IsPrimary() && At(r0, r, s, req, 2)
    requires CertFor(r.cfg, r.view, s, req, cert, CommitSig)
    ensures At(r0, OnCommitCert(r, cert), s, req, 3)
  {
    var m := r.Put(s, r.log[s].(commitCert := Some(cert)));
    assert m.log == r0.log[s := m.log[s]];
    ExecuteOpen(m, s, req, cert);
    assert ExecuteNext(m).log == r0.log[s := ExecuteNext(m).log[s]];
  }

  lemma Advance(r0: Replica, r: Replica, s: int, req: Request, m: Msg, k: nat)
    requires r0.cfg.Valid() && !r0.IsPrimary() && 1 <= k <= 3 && At(r0, r, s, req, k - 1)
    requires Moves(r.cfg, r.view, s, req, m, k) && Broadcast(m)
    ensures At(r0, Handle(r, m), s, req, k)
  {
    match m
    case PrePrepareMsg(_, _, _, _) => AdvanceVote(r, s, req);
    case PrepareCertMsg(cert) => AdvanceCommit(r0, r, s, req, cert);
    case CommitCertMsg(cert) => AdvanceExecute(r0, r, s, req, cert);
  }

  // ---------------------------------------------------------------- the cluster in one round

  /** Every backup is at stage `k` of the round that began with the cluster as `c`. */
  ghost predicate Reached(c: Cluster, d: Cluster, s: int, req: Request, k: nat) {
    SameCast(c, d) && forall id :: id in c.replicas && id != c.primary ==> At(c.replicas[id], d.replicas[id], s, req, k)
  }

  ghost predicate SameCast(c: Cluster, d: Cluster) {
    && c.Configured() && d.Configured() && d.primary == c.primary && d.replicas.Keys == c.replicas.Keys
    && forall id :: id in c.replicas ==>
         d.replicas[id].cfg == c.replicas[id].cfg && d.replicas[id].view == c.replicas[id].view
  }

  /** The backups in `left` have still to get the message that takes them to stage `k`. */
  ghost predicate Spreading(c: Cluster, d: Cluster, s: int, req: Request, m: Msg, k: nat, left: set<int>) {
    && 1 <= k <= 3 && SameCast(c, d) && m in d.Net() && Broadcast(m)
    && left <= c.replicas.Keys - {c.primary}
    && Moves(d.replicas[d.primary].cfg, d.replicas[d.primary].view, s, req, m, k)
    && forall id :: id in c.replicas && id != c.primary ==>
         At(c.replicas[id], d.replicas[id], s, req, if id in left then k - 1 else k)
  }

  lemma SameMoves(a: Config, b: Config, view: int, s: int, req: Request, m: Msg, k: nat)
    requires Moves(a, view, s, req, m, k) && a.top == b.top
    ensures Moves(b, view, s, req, m, k)
  {
  }

  lemma DeliverOne(c: Cluster, d: Cluster, s: int, req: Request, m: Msg, k: nat, left: set<int>, id: int)
    requires Spreading(c, d, s, req, m, k, left) && id in left
    ensures Allowed(d, Deliver(id, m))
    ensures var e := Do(d, Deliver(id, m));
      && HonestStep(d, Deliver(id, m), e) && Spreading(c, e, s, req, m, k, left - {id})
      && e.replicas[e.primary] == d.replicas[d.primary]
  {
    var e, r := Do(d, Deliver(id, m)), d.replicas[id];
    SameMoves(d.replicas[d.primary].cfg, r.cfg, r.view, s, req, m, k);
    Advance(c.replicas[id], r, s, req, m, k);
    assert e.replicas[id].cfg == r.cfg && e.replicas[id].view == r.view;
  }

  /** The message reaches every backup. */
  lemma {:induction false} Spread(c: Cluster, d: Cluster, s: int, req: Request, m: Msg, k: nat, left: set<int>)
    returns (acts: seq<Action>, e: Cluster)
    requires Spreading(c, d, s, req, m, k, left)
    ensures HonestRun(d, acts, e) && Reached(c, e, s, req, k) && e.replicas[c.primary] == d.replicas[c.primary]
    decreases |left|
  {
    if left == {} {
      acts, e := [], d;
      NoStep(HonestStep, d, acts);
    } else {
      EmptyWithout(left);
      var id :| id in left;
      DeliverOne(c, d, s, req, m, k, left, id);
      var f := Do(d, Deliver(id, m));
      var rest;
      rest, e := Spread(c, f, s, req, m, k, left - {id});
      acts := [Deliver(id, m)] + rest;
      HonestCons(d, Deliver(id, m), f, rest, e);
    }
  }

  /** A step of the primary leaves the backups alone. */
  lemma LeaderStep(c: Cluster, d: Cluster, s: int, req: Request, k: nat, a: Action)
    requires Reached(c, d, s, req, k) && Voted(d, a) && !a.Deliver? && !a.GiveUp?
    requires var p := d.replicas[d.primary]; Lead(p, a).cfg == p.cfg && Lead(p, a).view == p.view
    ensures var e := Do(d, a);
      HonestStep(d, a, e) && Reached(c, e, s, req, k) && e.replicas[c.primary] == Lead(d.replicas[c.primary], a)
  {
  }

  /** A member other than the primary whose vote is missing. */
  lemma AbsentBackup(c: Cluster, votes: set<int>) returns (from: int)
    requires c.Configured()
    requires var p := c.replicas[c.primary];
      && c.replicas.Keys == Quorums.Members(p.cfg.top, p.cfg.cluster)
      && |votes| < p.cfg.Quorum() && p.cfg.self in votes
    ensures from in c.replicas && from != c.primary && from !in votes
    ensures c.replicas[c.primary].cfg.top.Member(from, c.replicas[c.primary].cfg.cluster)
  {
    var p := c.replicas[c.primary];
    var members := Quorums.Members(p.cfg.top, p.cfg.cluster);
    Topo.FaultBound(p.cfg.top);
    if members <= votes {
      Quorums.SubsetCount(members, votes);
    }
    from :| from in members && from !in votes;
  }

  ghost predicate Complete(c: Cluster) {
    c.Configured() && var p := c.replicas[c.primary]; c.replicas.Keys == Quorums.Members(p.cfg.top, p.cfg.cluster)
  }

  /** The commit phase of the round at the primary that offered it as `b`, with so many votes. */
  predicate CommitPhase(b: Replica, p: Replica, s: int, req: Request, votes: nat) {
    Committing(p, s, req) && Still(b, p, s) && p.cfg.self in p.log[s].commits && |p.log[s].commits| == votes
  }

  lemma CommitVoteStep(b: Replica, p: Replica, s: int, req: Request, votes: nat, from: int)
    requires CommitPhase(b, p, s, req, votes)
    requires p.cfg.top.Member(from, p.cfg.cluster) && from !in p.log[s].commits
    ensures var q := CommitCast(p, s, req, from);
      (CommitPhase(b, q, s, req, votes + 1) || Finished(b, q, s, req)) && q.cfg == p.cfg && q.view == p.view
  {
    CommitVoted(p, s, req, from);
    StillThen(b, p, CommitCast(p, s, req, from), s, req);
  }

  lemma CollectCommit(c: Cluster, d: Cluster, b: Replica, s: int, req: Request, votes: nat)
    returns (a: Action, e: Cluster)
    requires Complete(c) && Reached(c, d, s, req, 2) && CommitPhase(b, d.replicas[c.primary], s, req, votes)
    ensures HonestStep(d, a, e) && Reached(c, e, s, req, 2)
    ensures var q := e.replicas[c.primary]; CommitPhase(b, q, s, req, votes + 1) || Finished(b, q, s, req)
  {
    var p := d.replicas[c.primary];
    var from := AbsentBackup(d, p.log[s].commits.Keys);
    a := TakeCommit(from, s, p.view, DigestOf(req), Signature(from, CommitSig, s, p.view, DigestOf(req)));
    assert At(c.replicas[from], d.replicas[from], s, req, 2);
    CommitVoteStep(b, p, s, req, votes, from);
    assert Lead(p, a) == CommitCast(p, s, req, from);
    LeaderStep(c, d, s, req, 2, a);
    e := Do(d, a);
  }

  /** Votes are collected until the request is executed at the primary. */
  lemma {:induction false} CollectCommits(c: Cluster, d: Cluster, b: Replica, s: int, req: Request, votes: nat)
    returns (acts: seq<Action>, e: Cluster)
    requires Complete(c) && Reached(c, d, s, req, 2) && CommitPhase(b, d.replicas[c.primary], s, req, votes)
    ensures HonestRun(d, acts, e) && Reached(c, e, s, req, 2) && Finished(b, e.replicas[c.primary], s, req)
    decreases c.replicas[c.primary].cfg.Quorum() - votes
  {
    var a, f := CollectCommit(c, d, b, s, req, votes);
    var rest := [];
    if Finished(b, f.replicas[c.primary], s, req) {
      e := f;
      NoStep(HonestStep, f, rest);
    } else {
      rest, e := CollectCommits(c, f, b, s, req, votes + 1);
    }
    acts := [a] + rest;
    HonestCons(d, a, f, rest, e);
  }

  /** The prepare phase, likewise. */
  predicate PreparePhase(b: Replica, p: Replica, s: int, req: Request, votes: nat) {
    Preparing(p, s, req) && Still(b, p, s) && p.cfg.self in p.log[s].prepares && |p.log[s].prepares| == votes
  }

  lemma PrepareVoteStep(b: Replica, p: Replica, s: int, req: Request, votes: nat, from: int)
    requires PreparePhase(b, p, s, req, votes)
    requires p.cfg.top.Member(from, p.cfg.cluster) && from !in p.log[s].prepares
    ensures var q := PrepareCast(p, s, req, from);
      (PreparePhase(b, q, s, req, votes + 1) || Onward(b, q, s, req)) && q.cfg == p.cfg && q.view == p.view
  {
    PrepareVoted(p, s, req, from);
    StillThen(b, p, PrepareCast(p, s, req, from), s, req);
  }

  lemma CollectPrepare(c: Cluster, d: Cluster, b: Replica, s: int, req: Request, votes: nat)
    returns (a: Action, e: Cluster)
    requires Complete(c) && Reached(c, d, s, req, 1) && PreparePhase(b, d.replicas[c.primary], s, req, votes)
    ensures HonestStep(d, a, e) && Reached(c, e, s, req, 1)
    ensures var q := e.replicas[c.primary]; PreparePhase(b, q, s, req, votes + 1) || Onward(b, q, s, req)
  {
    var p := d.replicas[c.primary];
    var from := AbsentBackup(d, p.log[s].prepares.Keys);
    a := TakePrepare(from, s, p.view, DigestOf(req), Signature(from, PrepareSig, s, p.view, DigestOf(req)));
    assert At(c.replicas[from], d.replicas[from], s, req, 1);
    PrepareVoteStep(b, p, s, req, votes, from);
    assert Lead(p, a) == PrepareCast(p, s, req, from);
    LeaderStep(c, d, s, req, 1, a);
    e := Do(d, a);
  }

  lemma {:induction false} CollectPrepares(c: Cluster, d: Cluster, b: Replica, s: int, req: Request, votes: nat)
    returns (acts: seq<Action>, e: Cluster)
    requires Complete(c) && Reached(c, d, s, req, 1) && PreparePhase(b, d.replicas[c.primary], s, req, votes)
    ensures HonestRun(d, acts, e) && Reached(c, e, s, req, 1) && Onward(b, e.replicas[c.primary], s, req)
    decreases c.replicas[c.primary].cfg.Quorum() - votes
  {
    var a, f := CollectPrepare(c, d, b, s, req, votes);
    var rest := [];
    if Onward(b, f.replicas[c.primary], s, req) {
      e := f;
      NoStep(HonestStep, f, rest);
    } else {
      rest, e := CollectPrepares(c, f, b, s, req, votes + 1);
    }
    acts := [a] + rest;
    HonestCons(d, a, f, rest, e);
  }

  // ---------------------------------------------------------------- the whole round

  /** All replicas are there and have caught up; the primary would propose the request, and every backup
      would vote for it. */
  ghost predicate CaughtUp(c: Cluster, req: Request) {
    && Complete(c)
    && var p := c.replicas[c.primary];
       && Idle(p) && Startable(p, req) && !p.cfg.byzantineLeader
       && forall id :: id in c.replicas && id != c.primary ==> At(c.replicas[id], c.replicas[id], p.nextSeq, req, 0)
  }

  function Backups(c: Cluster): set<int> { c.replicas.Keys - {c.primary} }

  lemma OpenRound(c: Cluster, req: Request) returns (d: Cluster)
    requires CaughtUp(c, req)
    ensures HonestStep(c, Start(req), d) && Reached(c, d, c.replicas[c.primary].nextSeq, req, 0)
    ensures var p, q, b := c.replicas[c.primary], d.replicas[c.primary], Offered(c.replicas[c.primary], req);
      && PrePrepareMsg(p.nextSeq, p.view, DigestOf(req), req) in q.sent
      && (PreparePhase(b, q, p.nextSeq, req, 1) || Onward(b, q, p.nextSeq, req))
  {
    var p := c.replicas[c.primary];
    Started(p, req);
    OpenPhase(Offered(p, req), StartConsensus(p, req), p.nextSeq, req);
    assert Lead(p, Start(req)) == StartConsensus(p, req);
    LeaderStep(c, c, p.nextSeq, req, 0, Start(req));
    d := Do(c, Start(req));
  }

  lemma OpenPhase(b: Replica, q: Replica, s: int, req: Request)
    requires (Preparing(q, s, req) && Still(b, q, s) && q.log[s].prepares.Keys == {b.cfg.self}) || Onward(b, q, s, req)
    ensures q.cfg == b.cfg && q.view == b.view && b.sent <= q.sent
    ensures PreparePhase(b, q, s, req, 1) || Onward(b, q, s, req)
  {
  }

  lemma ProposalSpreads(c: Cluster, d: Cluster, s: int, req: Request)
    requires Reached(c, d, s, req, 0)
    requires var q := d.replicas[c.primary]; PrePrepareMsg(s, q.view, DigestOf(req), req) in q.sent
    ensures Spreading(c, d, s, req, PrePrepareMsg(s, d.replicas[c.primary].view, DigestOf(req), req), 1, Backups(c))
  {
  }

  /** What is missing of a quorum is collected. */
  lemma PrepareRest(c: Cluster, d: Cluster, b: Replica, s: int, req: Request, votes: nat)
    returns (acts: seq<Action>, e: Cluster)
    requires Complete(c) && Reached(c, d, s, req, 1)
    requires var q := d.replicas[c.primary]; PreparePhase(b, q, s, req, votes) || Onward(b, q, s, req)
    ensures HonestRun(d, acts, e) && Reached(c, e, s, req, 1) && Onward(b, e.replicas[c.primary], s, req)
  {
    if Onward(b, d.replicas[c.primary], s, req) {
      acts, e := [], d;
      NoStep(HonestStep, d, acts);
    } else {
      acts, e := CollectPrepares(c, d, b, s, req, votes);
    }
  }

  lemma CommitRest(c: Cluster, d: Cluster, b: Replica, s: int, req: Request) returns (acts: seq<Action>, e: Cluster)
    requires Complete(c) && Reached(c, d, s, req, 2) && Onward(b, d.replicas[c.primary], s, req)
    ensures HonestRun(d, acts, e) && Reached(c, e, s, req, 2) && Finished(b, e.replicas[c.primary], s, req)
  {
    if Finished(b, d.replicas[c.primary], s, req) {
      acts, e := [], d;
      NoStep(HonestStep, d, acts);
    } else {
      acts, e := CollectCommits(c, d, b, s, req, |d.replicas[c.primary].log[s].commits|);
    }
  }

  /** The proposal reaches every backup, and their votes to prepare are collected. */
  lemma PrepareAll(c: Cluster, req: Request) returns (acts: seq<Action>, e: Cluster)
    requires CaughtUp(c, req)
    ensures var p := c.replicas[c.primary];
      && HonestRun(c, acts, e) && Reached(c, e, p.nextSeq, req, 1)
      && Onward(Offered(p, req), e.replicas[c.primary], p.nextSeq, req)
  {
    var p := c.replicas[c.primary];
    var s := p.nextSeq;
    var d := OpenRound(c, req);
    ProposalSpreads(c, d, s, req);
    var a1, f := Spread(c, d, s, req, PrePrepareMsg(s, p.view, DigestOf(req), req), 1, Backups(c));
    var a2;
    a2, e := PrepareRest(c, f, Offered(p, req), s, req, 1);
    PathJoin(HonestStep, d, a1, f, a2, e);
    acts := [Start(req)] + (a1 + a2);
    HonestCons(c, Start(req), d, a1 + a2, e);
  }

  lemma CertifiedSpreads(c: Cluster, d: Cluster, b: Replica, s: int, req: Request)
    requires Reached(c, d, s, req, 1) && Onward(b, d.replicas[c.primary], s, req)
    ensures var q := d.replicas[c.primary];
      && s in q.log && q.log[s].prepareCert.Some?
      && Spreading(c, d, s, req, PrepareCertMsg(q.log[s].prepareCert.value), 2, Backups(c))
  {
  }

  /** The prepare certificate reaches every backup, and their votes to commit are collected. */
  lemma CommitAll(c: Cluster, d: Cluster, b: Replica, s: int, req: Request) returns (acts: seq<Action>, e: Cluster)
    requires Complete(c) && Reached(c, d, s, req, 1) && Onward(b, d.replicas[c.primary], s, req)
    ensures HonestRun(d, acts, e) && Reached(c, e, s, req, 2) && Finished(b, e.replicas[c.primary], s, req)
  {
    CertifiedSpreads(c, d, b, s, req);
    var cert := d.replicas[c.primary].log[s].prepareCert.value;
    var a1, f := Spread(c, d, s, req, PrepareCertMsg(cert), 2, Backups(c));
    var a2;
    a2, e := CommitRest(c, f, b, s, req);
    acts := a1 + a2;
    PathJoin(HonestStep, d, a1, f, a2, e);
  }

  /** The commit certificate reaches every backup. */
  lemma ExecuteAll(c: Cluster, d: Cluster, b: Replica, s: int, req: Request) returns (acts: seq<Action>, e: Cluster)
    requires Reached(c, d, s, req, 2) && Finished(b, d.replicas[c.primary], s, req)
    ensures HonestRun(d, acts, e) && Reached(c, e, s, req, 3) && Finished(b, e.replicas[c.primary], s, req)
  {
    var cert := d.replicas[c.primary].log[s].commitCert.value;
    acts, e := Spread(c, d, s, req, CommitCertMsg(cert), 3, Backups(c));
  }

  lemma WholeRound(c: Cluster, req: Request) returns (acts: seq<Action>, d: Cluster)
    requires CaughtUp(c, req)
    ensures var p := c.replicas[c.primary];
      && HonestRun(c, acts, d) && Reached(c, d, p.nextSeq, req, 3)
      && Finished(Offered(p, req), d.replicas[c.primary], p.nextSeq, req)
  {
    var p := c.replicas[c.primary];
    var a1, e := PrepareAll(c, req);
    var a2, f := CommitAll(c, e, Offered(p, req), p.nextSeq, req);
    var a3;
    a3, d := ExecuteAll(c, f, Offered(p, req), p.nextSeq, req);
    acts := a1 + a2 + a3;
    PathJoin(HonestStep, c, a1, e, a2, f);
    PathJoin(HonestStep, c, a1 + a2, f, a3, d);
  }

  /** The replica executed the request, holding its locks, and nothing else. */
  predicate Carried(r0: Replica, r: Replica, s: int, req: Request, locked: Ledger) {
    r.executed == r0.executed + [Executed(s, req)] && r.execSeq == s + 1 && r.ledger == Exec(locked, req, r0.view)
  }

  lemma CarriedByBackup(r0: Replica, r: Replica, s: int, req: Request)
    requires r0.cfg.Valid() && At(r0, r, s, req, 3)
    ensures Carried(r0, r, s, req, VoteLedger(r0.ledger, s, req))
  {
  }

  /** The progress of agreement: from every caught-up cluster of honest members there is a run, on the
      replicas' own votes, after which every replica has executed the request under the next number. */
  lemma EveryReplicaExecutes(c: Cluster, req: Request) returns (acts: seq<Action>, d: Cluster)
    requires CaughtUp(c, req)
    ensures HonestRun(c, acts, d) && Leads(c, acts, d) && SameCast(c, d)
    ensures var p := c.replicas[c.primary];
      && Carried(p, d.replicas[c.primary], p.nextSeq, req, OfferLedger(p, req))
      && forall id :: id in d.replicas && id != c.primary ==>
           var r0 := c.replicas[id]; Carried(r0, d.replicas[id], p.nextSeq, req, VoteLedger(r0.ledger, p.nextSeq, req))
  {
    acts, d := WholeRound(c, req);
    HonestLeads(c, acts, d);
    var s := c.replicas[c.primary].nextSeq;
    forall id | id in d.replicas && id != c.primary
      ensures var r0 := c.replicas[id]; Carried(r0, d.replicas[id], s, req, VoteLedger(r0.ledger, s, req))
    {
      CarriedByBackup(c.replicas[id], d.replicas[id], s, req);
    }
  }

  // ---------------------------------------------------------------- a transfer in a new cluster

  lemma TransferEnsured(l: Ledger, req: Request, s: int)
    requires req.op == Intra && req.x != req.y && req.x !in l.locks && req.y !in l.locks
    ensures EnsureAll(l, LockItems(req), s) == (l.(locks := l.locks[req.x := s][req.y := s]), true)
    ensures AcquireAll(l, LockItems(req), s) == (l.(locks := l.locks[req.x := s][req.y := s]), true)
  {
    var items, l1 := LockItems(req), l.Acquire(req.x, s);
    var l2 := l1.Acquire(req.y, s);
    assert items == [req.x, req.y] && items[1..] == [req.y] && [req.y][1..] == [];
    assert EnsureAll(l1, [req.y], s) == EnsureAll(l2, [], s) && AcquireAll(l1, [req.y], s) == AcquireAll(l2, [], s);
  }

  /** A new member, as it was booted, would take the transfer. */
  predicate NewMember(r: Replica, initial: int) {
    && r == Boot(r.cfg, initial) && r.cfg.Valid()
    && !r.cfg.byzantineLeader && !r.cfg.byzantineBackup && r.cfg.HonestLive() >= r.cfg.Quorum()
  }

  predicate FirstTransfer(top: Topo.Topology, req: Request)
    requires top.Valid()
  {
    req.op == Intra && req.ts > 0 && req.x != req.y && top.SameCluster(req.x, req.y) && req.amt <= top.initialBalance
  }

  lemma NewMemberTakes(r: Replica, req: Request)
    requires NewMember(r, r.cfg.top.initialBalance) && FirstTransfer(r.cfg.top, req)
    ensures r.IsPrimary() ==> Idle(r) && Startable(r, req)
    ensures At(r, r, 1, req, 0)
    ensures VoteLedger(r.ledger, 1, req) == OfferLedger(r, req) == r.ledger.(locks := map[req.x := 1][req.y := 1])
  {
    TransferEnsured(r.ledger, req, 1);
  }

  lemma NewMemberTook(r0: Replica, r: Replica, req: Request)
    requires NewMember(r0, r0.cfg.top.initialBalance) && FirstTransfer(r0.cfg.top, req)
    requires Carried(r0, r, 1, req, r0.ledger.(locks := map[req.x := 1][req.y := 1]))
    ensures Took(r, req, r0.cfg.top.initialBalance)
  {
    IntraEffect(r0.ledger.(locks := map[req.x := 1][req.y := 1]), req, r0.view);
  }

  /** The replica holds what the one transfer makes of a new bank. */
  ghost predicate Took(r: Replica, req: Request, initial: int) {
    && r.executed == [Executed(1, req)] && r.ledger.locks == map[] && r.ledger.TS(req.client) == req.ts
    && forall i :: r.ledger.Bal(i) ==
         if i == req.x then initial - req.amt else if i == req.y then initial + req.amt else initial
  }

  /** The same for the first transfer of a new cluster whose members are all honest and alive: between
      different items of one cluster, and covered, it can be carried out on every replica. */
  lemma NewClusterServes(c: Cluster, req: Request) returns (acts: seq<Action>, d: Cluster)
    requires Start0(c) && Complete(c) && FirstTransfer(c.replicas[c.primary].cfg.top, req)
    requires forall id :: id in c.replicas ==> NewMember(c.replicas[id], c.replicas[id].cfg.top.initialBalance)
    ensures HonestRun(c, acts, d) && Leads(c, acts, d) && d.Configured() && d.replicas.Keys == c.replicas.Keys
    ensures forall id :: id in d.replicas ==> Took(d.replicas[id], req, d.replicas[id].cfg.top.initialBalance)
  {
    forall id | id in c.replicas
      ensures At(c.replicas[id], c.replicas[id], 1, req, 0)
      ensures c.replicas[id].IsPrimary() ==> Idle(c.replicas[id]) && Startable(c.replicas[id], req)
    {
      NewMemberTakes(c.replicas[id], req);
    }
    acts, d := EveryReplicaExecutes(c, req);
    forall id | id in d.replicas ensures Took(d.replicas[id], req, d.replicas[id].cfg.top.initialBalance) {
      NewMemberTakes(c.replicas[id], req);
      NewMemberTook(c.replicas[id], d.replicas[id], req);
    }
  }
}
