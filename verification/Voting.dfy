/** One round of agreement at a primary that has nothing else under way (pbft/engine.go:302-424, 463-620):
    what becomes of a request as the votes of the members come in. */
module Voting {
  import opened Types
  import opened Ledgers
  import opened Pbft
  import opened Micro
  import opened Certificates
  import CrossSlot
  import Quorums
  import Topo = Topology

  /** Everything that was proposed is executed or given up, and the next number is free. */
  predicate Idle(r: Replica) {
    && r.cfg.Valid() && r.IsPrimary() && r.execSeq == r.nextSeq
    && forall s :: s in r.log ==> s < r.nextSeq && (r.log[s].executed || r.log[s].discarded)
  }

  /** The request that the primary would propose now. */
  predicate Startable(r: Replica, req: Request)
    requires r.cfg.Valid()
  {
    && req.op != Unset && (IsCommitPhaseOp(req.op) || r.cfg.HonestLive() >= r.cfg.Quorum())
    && ValidateForStart(r, req) && CanOffer(r, req)
  }

  predicate MembersOnly(cfg: Config, votes: map<int, Signature>) {
    forall id :: id in votes ==> cfg.top.Member(id, cfg.cluster)
  }

  /** The slot of the round, which waits for execution. */
  predicate Open(r: Replica, s: int, req: Request) {
    && r.cfg.Valid() && r.IsPrimary() && r.execSeq == s && s in r.log && (forall t :: t in r.log ==> t <= s)
    && var slot := r.log[s];
       && slot.prePrepare && !slot.discarded && !slot.executed && slot.req == req
       && slot.digest == Some(DigestOf(req)) && slot.commitCert == None
       && SlotVotesOk(r.cfg, r.view, s, slot) && MembersOnly(r.cfg, slot.commits)
  }

  predicate Preparing(r: Replica, s: int, req: Request) {
    Open(r, s, req) && r.log[s].prepareCert == None && r.log[s].commits == map[]
      && |r.log[s].prepares| < r.cfg.Quorum()
  }

  predicate Committing(r: Replica, s: int, req: Request) {
    Open(r, s, req) && |r.log[s].commits| < r.cfg.Quorum() && HasPrepareCert(r, s, req)
  }

  predicate HasPrepareCert(r: Replica, s: int, req: Request) {
    && s in r.log && r.log[s].prepareCert.Some?
    && var cert := r.log[s].prepareCert.value;
       && PrepareCertMsg(cert) in r.sent && VerifyCert(r.cfg, cert, PrepareSig)
       && cert.seqNo == s && cert.view == r.view && cert.digest == DigestOf(req)
  }

  /** Only the slot, the signatures and the messages of the round have changed. */
  predicate Rest(r: Replica, q: Replica, s: int) {
    && q.cfg == r.cfg && q.view == r.view && q.nextSeq == r.nextSeq && r.sent <= q.sent
    && s in q.log && q.log == r.log[s := q.log[s]]
  }

  predicate Still(r: Replica, q: Replica, s: int) {
    && Rest(r, q, s) && q.execSeq == r.execSeq && q.ledger == r.ledger
    && q.executed == r.executed && q.hooks == r.hooks
  }

  /** The request is executed under a certificate that every cluster accepts as this cluster's. */
  predicate Finished(r: Replica, q: Replica, s: int, req: Request) {
    && Rest(r, q, s) && q.execSeq == s + 1 && q.log[s].executed && q.log[s].commitCert.Some?
    && HasPrepareCert(q, s, req)
    && q.ledger == Exec(r.ledger, req, r.view) && q.executed == r.executed + [Executed(s, req)]
    && var cert := q.log[s].commitCert.value;
       && CommitCertMsg(cert) in q.sent && q.hooks == r.hooks + HooksOf(r.ledger, req, s, cert)
       && VerifyClusterCert(r.cfg.top, r.cfg.cluster, cert, CommitSig, r.cfg.Quorum())
       && VerifyCert(r.cfg, cert, CommitSig)
       && cert.seqNo == s && cert.view == r.view && cert.digest == DigestOf(req)
  }

  // ---------------------------------------------------------------- commit votes

  lemma ExecuteOpen(r: Replica, s: int, req: Request, cert: Certificate)
    requires r.execSeq == s && s in r.log && (forall t :: t in r.log ==> t <= s)
    requires r.log[s].req == req && !r.log[s].discarded && !r.log[s].executed && r.log[s].commitCert == Some(cert)
    ensures TryExecute(r) == ExecuteNext(r) && CanExecute(r)
  {
    var q := ExecuteNext(r);
    assert s + 1 !in q.log;
    assert TryExecute(q) == q;
  }

  lemma MemberSigned(cfg: Config, cert: Certificate, votes: map<int, Signature>)
    requires cfg.Valid() && Lists(cert.sigs, votes) && MembersOnly(cfg, votes) && VerifyCert(cfg, cert, CommitSig)
    ensures VerifyClusterCert(cfg.top, cfg.cluster, cert, CommitSig, cfg.Quorum())
  {
    forall id | id in Signers(cert) ensures cfg.top.Member(id, cfg.cluster) {
      var i :| 0 <= i < |cert.sigs| && cert.sigs[i].server == id;
      assert cert.sigs[i] in cert.sigs;
    }
    ClusterCheckIsMembership(cfg, cfg.cluster, cert, CommitSig);
  }

  /** The slot with the certificate of its commit votes. */
  function CertifiedSlot(r: Replica, s: int, cert: Certificate): Replica
    requires s in r.log
  {
    r.Put(s, r.log[s].(commitCert := Some(cert))).Send(CommitCertMsg(cert))
  }

  lemma CommitReadyIs(r: Replica, s: int, req: Request, cert: Certificate)
    requires Open(r, s, req) && BuildCert(r, s, r.log[s], r.log[s].commits) == Some(cert)
    requires VerifyCert(r.cfg, cert, CommitSig)
    ensures var m := CertifiedSlot(r, s, cert); CanExecute(m) && CommitReady(r, s, r.log[s]) == ExecuteNext(m)
  {
    var m := CertifiedSlot(r, s, cert);
    assert m.log[s := m.log[s]] == m.log;
    ExecuteOpen(m, s, req, cert);
  }

  /** A quorum of commit votes is certified, and the request is executed. */
  lemma Certified(r: Replica, s: int, req: Request)
    requires Open(r, s, req) && HasPrepareCert(r, s, req) && |r.log[s].commits| >= r.cfg.Quorum()
    ensures Finished(r, CommitReady(r, s, r.log[s]), s, req)
  {
    BuiltVerifies(r, s, r.log[s], r.log[s].commits, CommitSig);
    var cert := BuildCert(r, s, r.log[s], r.log[s].commits).value;
    MemberSigned(r.cfg, cert, r.log[s].commits);
    CommitReadyIs(r, s, req, cert);
    ExecuteDone(r, s, req, cert);
  }

  lemma ExecuteDone(r: Replica, s: int, req: Request, cert: Certificate)
    requires Open(r, s, req) && HasPrepareCert(r, s, req) && CanExecute(CertifiedSlot(r, s, cert))
    requires VerifyClusterCert(r.cfg.top, r.cfg.cluster, cert, CommitSig, r.cfg.Quorum())
    requires VerifyCert(r.cfg, cert, CommitSig)
    requires cert.seqNo == s && cert.view == r.view && cert.digest == DigestOf(req)
    ensures Finished(r, ExecuteNext(CertifiedSlot(r, s, cert)), s, req)
  {
    var m := CertifiedSlot(r, s, cert);
    var q := ExecuteNext(m);
    assert q.log == r.log[s := q.log[s]];
  }

  lemma StillThen(r: Replica, m: Replica, q: Replica, s: int, req: Request)
    requires Still(r, m, s)
    ensures Still(m, q, s) ==> Still(r, q, s)
    ensures Finished(m, q, s, req) ==> Finished(r, q, s, req)
  {
    if s in q.log {
      assert m.log[s := q.log[s]] == r.log[s := q.log[s]];
    }
  }

  function CommitCast(r: Replica, s: int, req: Request, from: int): Replica
    requires r.cfg.Valid()
  {
    OnCommit(r, from, s, r.view, DigestOf(req), Signature(from, CommitSig, s, r.view, DigestOf(req)))
  }

  function CommitNoted(r: Replica, s: int, req: Request, from: int): Replica
    requires s in r.log
  {
    r.Put(s, r.log[s].(commits := r.log[s].commits[from := Signature(from, CommitSig, s, r.view, DigestOf(req))]))
  }

  /** A slot with one more commit vote of a member. */
  predicate MoreCommits(cfg: Config, old_: Slot, new_: Slot, from: int) {
    && new_ == old_.(commits := new_.commits) && new_.commits.Keys == old_.commits.Keys + {from}
    && MembersOnly(cfg, new_.commits)
  }

  lemma CommitNotedSlot(cfg: Config, view: int, s: int, slot: Slot, from: int, sig: Signature)
    requires cfg.Valid() && SlotVotesOk(cfg, view, s, slot) && MembersOnly(cfg, slot.commits) && slot.prePrepare
    requires slot.digest.Some? && sig == Signature(from, CommitSig, s, view, slot.digest.value)
    requires cfg.top.Member(from, cfg.cluster)
    ensures var more := slot.(commits := slot.commits[from := sig]);
      SlotVotesOk(cfg, view, s, more) && MoreCommits(cfg, slot, more, from)
  {
    Topo.MemberRange(cfg.top, from, cfg.cluster);
  }

  lemma CommitNotedOpen(r: Replica, s: int, req: Request, from: int)
    requires Committing(r, s, req) && r.cfg.top.Member(from, r.cfg.cluster)
    ensures var m := CommitNoted(r, s, req, from);
      && Open(m, s, req) && HasPrepareCert(m, s, req) && Still(r, m, s)
      && m.log[s].commits.Keys == r.log[s].commits.Keys + {from}
  {
    var m, sig := CommitNoted(r, s, req, from), Signature(from, CommitSig, s, r.view, DigestOf(req));
    CommitNotedSlot(r.cfg, r.view, s, r.log[s], from, sig);
    assert m.log[s] == r.log[s].(commits := r.log[s].commits[from := sig]);
  }

  lemma CommitCastIs(r: Replica, s: int, req: Request, from: int)
    requires Committing(r, s, req) && r.cfg.top.Member(from, r.cfg.cluster) && from !in r.log[s].commits
    ensures var m := CommitNoted(r, s, req, from);
      CommitCast(r, s, req, from) == if |m.log[s].commits| >= r.cfg.Quorum() then CommitReady(m, s, m.log[s]) else m
  {
    var m := CommitNoted(r, s, req, from);
    Topo.MemberRange(r.cfg.top, from, r.cfg.cluster);
    assert CommitCast(r, s, req, from) ==
      if |m.log[s].commits| >= r.cfg.Quorum() then CommitReady(r, s, m.log[s]) else m;
    SameReady(r, m, s);
  }

  /** A member's commit vote is counted; the one that completes a quorum lets the request execute. */
  lemma CommitVoted(r: Replica, s: int, req: Request, from: int)
    requires Committing(r, s, req) && r.cfg.top.Member(from, r.cfg.cluster) && from !in r.log[s].commits
    ensures var q := CommitCast(r, s, req, from);
      || (Committing(q, s, req) && Still(r, q, s) && q.log[s].commits.Keys == r.log[s].commits.Keys + {from})
      || Finished(r, q, s, req)
  {
    var m := CommitNoted(r, s, req, from);
    CommitNotedOpen(r, s, req, from);
    CommitCastIs(r, s, req, from);
    if |m.log[s].commits| >= r.cfg.Quorum() {
      Certified(m, s, req);
    }
    StillThen(r, m, CommitCast(r, s, req, from), s, req);
  }

  // ---------------------------------------------------------------- prepare votes

  function PrepareCast(r: Replica, s: int, req: Request, from: int): Replica
    requires r.cfg.Valid()
  {
    OnPrepare(r, from, s, r.view, DigestOf(req), Signature(from, PrepareSig, s, r.view, DigestOf(req)))
  }

  function PrepareNoted(r: Replica, s: int, req: Request, from: int): Replica
    requires s in r.log
  {
    r.Put(s, r.log[s].(prepares := r.log[s].prepares[from := Signature(from, PrepareSig, s, r.view, DigestOf(req))]))
  }

  lemma PrepareNotedSlot(cfg: Config, view: int, s: int, slot: Slot, from: int, sig: Signature)
    requires cfg.Valid() && SlotVotesOk(cfg, view, s, slot) && slot.prePrepare
    requires slot.digest.Some? && sig == Signature(from, PrepareSig, s, view, slot.digest.value)
    requires cfg.top.Member(from, cfg.cluster)
    ensures SlotVotesOk(cfg, view, s, slot.(prepares := slot.prepares[from := sig]))
  {
    Topo.MemberRange(cfg.top, from, cfg.cluster);
  }

  lemma PrepareNotedOpen(r: Replica, s: int, req: Request, from: int)
    requires Preparing(r, s, req) && r.cfg.top.Member(from, r.cfg.cluster)
    ensures var m := PrepareNoted(r, s, req, from);
      && Open(m, s, req) && Still(r, m, s) && m.log[s].prepareCert == None && m.log[s].commits == map[]
      && m.log[s].prepares.Keys == r.log[s].prepares.Keys + {from}
  {
    var m, sig := PrepareNoted(r, s, req, from), Signature(from, PrepareSig, s, r.view, DigestOf(req));
    PrepareNotedSlot(r.cfg, r.view, s, r.log[s], from, sig);
    assert m.log[s] == r.log[s].(prepares := r.log[s].prepares[from := sig]);
  }

  lemma PrepareCastIs(r: Replica, s: int, req: Request, from: int)
    requires Preparing(r, s, req) && r.cfg.top.Member(from, r.cfg.cluster) && from !in r.log[s].prepares
    ensures var m := PrepareNoted(r, s, req, from);
      PrepareCast(r, s, req, from) == if |m.log[s].prepares| >= r.cfg.Quorum() then PrepareReady(m, s, m.log[s]) else m
  {
    var m := PrepareNoted(r, s, req, from);
    Topo.MemberRange(r.cfg.top, from, r.cfg.cluster);
    assert PrepareCast(r, s, req, from) ==
      if |m.log[s].prepares| >= r.cfg.Quorum() then PrepareReady(r, s, m.log[s]) else m;
    SameReady(r, m, s);
  }

  /** The round goes on, or it is over. */
  predicate Onward(r: Replica, q: Replica, s: int, req: Request) {
    (Committing(q, s, req) && Still(r, q, s) && q.cfg.self in q.log[s].commits) || Finished(r, q, s, req)
  }

  lemma StillOnward(r: Replica, m: Replica, q: Replica, s: int, req: Request)
    requires Still(r, m, s) && Onward(m, q, s, req)
    ensures Onward(r, q, s, req)
  {
    StillThen(r, m, q, s, req);
  }

  /** The slot with the certificate of its prepare votes; the primary signs the commit at once. */
  function PreparedSlot(r: Replica, s: int, req: Request, cert: Certificate): Replica
    requires s in r.log
  {
    r.Put(s, r.log[s].(prepareCert := Some(cert))).Send(PrepareCertMsg(cert))
     .Sign(Signature(r.cfg.self, CommitSig, s, r.view, DigestOf(req)))
  }

  lemma PrepareReadyIs(r: Replica, s: int, req: Request, cert: Certificate)
    requires Open(r, s, req) && BuildCert(r, s, r.log[s], r.log[s].prepares) == Some(cert)
    requires VerifyCert(r.cfg, cert, PrepareSig)
    ensures PrepareReady(r, s, r.log[s]) == CommitCast(PreparedSlot(r, s, req, cert), s, req, r.cfg.self)
  {
    var m := r.Put(s, r.log[s].(prepareCert := Some(cert))).Send(PrepareCertMsg(cert));
    assert m.log[s := m.log[s]] == m.log;
  }

  lemma PreparedIsOpen(r: Replica, s: int, req: Request, cert: Certificate)
    requires Open(r, s, req) && r.log[s].commits == map[] && VerifyCert(r.cfg, cert, PrepareSig)
    requires cert.seqNo == s && cert.view == r.view && cert.digest == DigestOf(req)
    ensures var m := PreparedSlot(r, s, req, cert); Committing(m, s, req) && Still(r, m, s) && m.log[s].commits == map[]
  {
    assert |r.log[s].commits| < r.cfg.Quorum() by {
      Topo.FaultBound(r.cfg.top);
    }
  }

  /** A quorum of prepare votes is certified, and the primary casts its own commit vote. */
  lemma Prepared(r: Replica, s: int, req: Request)
    requires Open(r, s, req) && r.log[s].prepareCert == None && r.log[s].commits == map[]
    requires |r.log[s].prepares| >= r.cfg.Quorum()
    ensures Onward(r, PrepareReady(r, s, r.log[s]), s, req)
  {
    BuiltVerifies(r, s, r.log[s], r.log[s].prepares, PrepareSig);
    var cert := BuildCert(r, s, r.log[s], r.log[s].prepares).value;
    PrepareReadyIs(r, s, req, cert);
    var m := PreparedSlot(r, s, req, cert);
    PreparedIsOpen(r, s, req, cert);
    CommitVoted(m, s, req, r.cfg.self);
    var q := PrepareReady(r, s, r.log[s]);
    assert Onward(m, q, s, req);
    StillOnward(r, m, q, s, req);
  }

  /** A member's prepare vote is counted; the one that completes a quorum starts the commit phase. */
  lemma PrepareVoted(r: Replica, s: int, req: Request, from: int)
    requires Preparing(r, s, req) && r.cfg.top.Member(from, r.cfg.cluster) && from !in r.log[s].prepares
    ensures var q := PrepareCast(r, s, req, from);
      || (Preparing(q, s, req) && Still(r, q, s) && q.log[s].prepares.Keys == r.log[s].prepares.Keys + {from})
      || Onward(r, q, s, req)
  {
    var m := PrepareNoted(r, s, req, from);
    PrepareNotedOpen(r, s, req, from);
    PrepareCastIs(r, s, req, from);
    if |m.log[s].prepares| >= r.cfg.Quorum() {
      Prepared(m, s, req);
      StillOnward(r, m, PrepareCast(r, s, req, from), s, req);
    }
  }

  // ---------------------------------------------------------------- the start of a round

  /** What the primary proposes, before any vote. */
  function Offered(r: Replica, req: Request): Replica { Propose(r, req, OfferLedger(r, req)) }

  function OwnVote(r: Replica, req: Request): Signature {
    Signature(r.cfg.self, PrepareSig, r.nextSeq, r.view, DigestOf(req))
  }

  lemma OfferedOpen(r: Replica, req: Request)
    requires Idle(r) && Startable(r, req)
    ensures Preparing(Offered(r, req), r.nextSeq, req) && Offered(r, req).log[r.nextSeq].prepares == map[]
    ensures Preparing(Offered(r, req).Sign(OwnVote(r, req)), r.nextSeq, req)
  {
    assert SlotAt(r, r.nextSeq) == EmptySlot;
  }

  lemma StartIs(r: Replica, req: Request)
    requires Idle(r) && Startable(r, req)
    ensures StartConsensus(r, req) ==
      PrepareCast(Offered(r, req).Sign(OwnVote(r, req)), r.nextSeq, req, r.cfg.self)
  {
    Quorums.OfferedPasses(r, Quorums.Proposal(r.nextSeq, DigestOf(req), req));
    assert Offered(r, req) == Quorums.Offered(r, Quorums.Proposal(r.nextSeq, DigestOf(req), req));
  }

  /** A request that the primary does not propose: what it says about it. */
  lemma RefusalIs(r: Replica, req0: Request)
    requires r.cfg.Valid() && r.IsPrimary() && !Startable(r, req0.(op := Normal(req0.op)))
    ensures var q, req := StartConsensus(r, req0), req0.(op := Normal(req0.op));
      && q.sent == r.sent
      && CrossSlot.NewHooksOf(r, q) ==
           (if (IsCommitPhaseOp(req.op) || r.cfg.HonestLive() >= r.cfg.Quorum()) && Insufficient(r.ledger, req)
            then [Rejected(req)] else []) + if req.op == CoordPrepare then [Dropped(req)] else []
  {
    var q, req := StartConsensus(r, req0), req0.(op := Normal(req0.op));
    var a := if (IsCommitPhaseOp(req.op) || r.cfg.HonestLive() >= r.cfg.Quorum()) && Insufficient(r.ledger, req)
             then [Rejected(req)] else [];
    var b := if req.op == CoordPrepare then [Dropped(req)] else [];
    if !ValidateForStart(r, req) || (!IsCommitPhaseOp(req.op) && r.cfg.HonestLive() < r.cfg.Quorum()) {
      assert q.hooks == r.hooks + a + b == r.hooks + (a + b);
    } else {
      assert q == Burned(r, req) && a == [];
      assert q.hooks == r.hooks + b;
    }
  }

  /** A request that the primary would propose opens a round, with the primary's own prepare vote. */
  lemma Started(r: Replica, req: Request)
    requires Idle(r) && Startable(r, req)
    ensures var b, q, s := Offered(r, req), StartConsensus(r, req), r.nextSeq;
      || (Preparing(q, s, req) && Still(b, q, s) && q.log[s].prepares.Keys == {r.cfg.self})
      || Onward(b, q, s, req)
  {
    var s := r.nextSeq;
    var b := Offered(r, req);
    var m := b.Sign(OwnVote(r, req));
    OfferedOpen(r, req);
    StartIs(r, req);
    PrepareVoted(m, s, req, r.cfg.self);
    var q := StartConsensus(r, req);
    assert Still(b, m, s);
    StillThen(b, m, q, s, req);
  }
}
