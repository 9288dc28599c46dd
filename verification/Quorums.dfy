/** How many signers may sign two digests before two certificates can disagree
    (config/topology.go:90-97, pbft/engine.go:384-387, 463-480, 1073-1092).

    Every correct member follows the engine under arbitrary messages, nothing is discarded, and a
    primary offers only under numbers that nobody claimed before it; the last is what the engine should
    check and does not. */
module Quorums {
  import opened Types
  import opened Ledgers
  import opened Ordering
  import opened Pbft
  import opened Micro
  import opened Certificates
  import opened Paths
  import Proposer
  import Topo = Topology

  // ---------------------------------------------------------------- counting

  function Between(lo: int, hi: int): (ids: set<int>)
    requires lo <= hi
    ensures forall id :: id in ids <==> lo < id <= hi
    ensures |ids| == hi - lo
    decreases hi - lo
  {
    if lo == hi then {} else Between(lo, hi - 1) + {hi}
  }

  function Members(top: Topo.Topology, cluster: int): (ids: set<int>)
    requires top.Valid()
    ensures forall id :: id in ids <==> top.Member(id, cluster)
    ensures 1 <= cluster <= top.numClusters ==> |ids| == top.clusterSize
  {
    var lo := Topo.Times(cluster - 1, top.clusterSize);
    assert cluster >= 1 ==> Topo.Times(cluster, top.clusterSize) == lo + top.clusterSize;
    if 1 <= cluster <= top.numClusters then Between(lo, lo + top.clusterSize) else {}
  }

  lemma Overlap(a: set<int>, b: set<int>, all: set<int>)
    requires a <= all && b <= all
    ensures |a * b| >= |a| + |b| - |all|
  {
    assert |a + b| == |a| + |b| - |a * b|;
    SubsetCount(a + b, all);
  }

  lemma {:induction false} SubsetCount(a: set<int>, b: set<int>)
    requires a <= b
    ensures |a| <= |b|
    decreases |a|
  {
    if a != {} {
      EmptyWithout(a);
      var x :| x in a;
      SubsetCount(a - {x}, b - {x});
    }
  }

  // ---------------------------------------------------------------- certificates that disagree

  function Signatures(cert: Certificate): set<Signature> {
    set e | e in cert.sigs :: e.sig
  }

  predicate SignedTwo(made: set<Signature>, id: int, view: int, s: int) {
    exists a, b :: a in made && b in made && a.signer == id && b.signer == id
      && a.seqNo == s && b.seqNo == s && a.view == view && b.view == view && a.digest != b.digest
  }

  /** The members that signed two digests for one number of one view, in whichever phase. */
  function Equivocators(made: set<Signature>, members: set<int>, view: int, s: int): set<int> {
    set id | id in members && SignedTwo(made, id, view, s)
  }

  /** `4f+1-n` members may sign twice. */
  function Tolerance(top: Topo.Topology): int {
    4 * top.F() + 1 - top.clusterSize
  }

  /** Any two valid certificates of one cluster for one number of one view, prepare or commit, have
      the same digest as long as at most `4f+1-n` members signed two digests. */
  lemma CertificatesAgree(
    cfg: Config, made: set<Signature>, a: Certificate, pa: SigPhase, b: Certificate, pb: SigPhase)
    requires cfg.Valid() && VerifyCert(cfg, a, pa) && VerifyCert(cfg, b, pb)
    requires Signers(a) <= Members(cfg.top, cfg.cluster) && Signers(b) <= Members(cfg.top, cfg.cluster)
    requires Signatures(a) <= made && Signatures(b) <= made
    requires a.seqNo == b.seqNo && a.view == b.view
    requires |Equivocators(made, Members(cfg.top, cfg.cluster), a.view, a.seqNo)| <= Tolerance(cfg.top)
    ensures a.digest == b.digest
  {
    var members := Members(cfg.top, cfg.cluster);
    var twice := Equivocators(made, members, a.view, a.seqNo);
    AcceptedHasQuorum(cfg, a, pa);
    AcceptedHasQuorum(cfg, b, pb);
    Overlap(Signers(a), Signers(b), members);
    if a.digest != b.digest {
      forall id | id in Signers(a) * Signers(b) ensures id in twice {
        AcceptedHasQuorum(cfg, a, pa);
        AcceptedHasQuorum(cfg, b, pb);
        var sa := Signature(id, pa, a.seqNo, a.view, a.digest);
        var sb := Signature(id, pb, b.seqNo, b.view, b.digest);
        assert sa in Signatures(a) by { assert SigEntry(id, sa).sig == sa; }
        assert sb in Signatures(b) by { assert SigEntry(id, sb).sig == sb; }
        assert sa in made && sb in made;
      }
      SubsetCount(Signers(a) * Signers(b), twice);
      assert false;
    }
  }

  function Block(lo: int, len: nat, phase: SigPhase, s: int, view: int, d: Digest): (es: seq<SigEntry>)
    ensures |es| == len
    ensures forall i :: 0 <= i < len ==> es[i] == SigEntry(lo + i + 1, Signature(lo + i + 1, phase, s, view, d))
  {
    seq(len, i => SigEntry(lo + i + 1, Signature(lo + i + 1, phase, s, view, d)))
  }

  lemma BlockSigners(lo: int, len: nat, phase: SigPhase, s: int, view: int, d: Digest, made: set<Signature>)
    requires made == Signatures(Certificate(s, view, d, Block(lo, len, phase, s, view, d)))
    ensures forall sig :: sig in made <==>
      lo < sig.signer <= lo + len && sig == Signature(sig.signer, phase, s, view, d)
  {
    var es := Block(lo, len, phase, s, view, d);
    forall sig: Signature | lo < sig.signer <= lo + len && sig == Signature(sig.signer, phase, s, view, d) ensures sig in made {
      assert es[sig.signer - lo - 1].sig == sig;
      assert es[sig.signer - lo - 1] in es;
    }
  }

  lemma BlockAccepted(top: Topo.Topology, cluster: int, skip: nat, phase: SigPhase, s: int, view: int, d: Digest)
    requires top.Valid() && 1 <= cluster <= top.numClusters && skip + top.Quorum() <= top.clusterSize
    ensures var lo := Topo.Times(cluster - 1, top.clusterSize) + skip;
      VerifyClusterCert(top, cluster,
        Certificate(s, view, d, Block(lo, top.Quorum(), phase, s, view, d)), phase, top.Quorum())
  {
    assert Topo.Times(cluster, top.clusterSize) == Topo.Times(cluster - 1, top.clusterSize) + top.clusterSize;
  }

  /** The bound is tight: in every topology, with one more member signing twice - none at all when
      the bound is below zero - two accepted certificates disagree. */
  lemma ToleranceIsTight(top: Topo.Topology, cluster: int, s: int, view: int, phase: SigPhase, d: Digest, e: Digest)
    returns (a: Certificate, b: Certificate)
    requires top.Valid() && 1 <= cluster <= top.numClusters && d != e
    ensures VerifyClusterCert(top, cluster, a, phase, top.Quorum())
    ensures VerifyClusterCert(top, cluster, b, phase, top.Quorum())
    ensures a.seqNo == b.seqNo == s && a.view == b.view == view && a.digest == d && b.digest == e
    ensures |Equivocators(Signatures(a) + Signatures(b), Members(top, cluster), view, s)|
      == if Tolerance(top) < 0 then 0 else Tolerance(top) + 1
  {
    Topo.FaultBound(top);
    var q, n := top.Quorum(), top.clusterSize;
    var lo := Topo.Times(cluster - 1, n);
    a := Certificate(s, view, d, Block(lo, q, phase, s, view, d));
    b := Certificate(s, view, e, Block(lo + (n - q), q, phase, s, view, e));
    BlockAccepted(top, cluster, 0, phase, s, view, d);
    BlockAccepted(top, cluster, n - q, phase, s, view, e);
    BlockSigners(lo, q, phase, s, view, d, Signatures(a));
    BlockSigners(lo + (n - q), q, phase, s, view, e, Signatures(b));
    assert
      && |Equivocators(Signatures(a) + Signatures(b), Members(top, cluster), view, s)|
         == if Tolerance(top) < 0 then 0 else Tolerance(top) + 1 by {
      var lo, q, n := Topo.Times(cluster - 1, top.clusterSize), top.Quorum(), top.clusterSize;
      var twice := Equivocators(Signatures(a) + Signatures(b), Members(top, cluster), view, s);
      BlockOverlap(top, cluster, s, view, phase, d, e, Signatures(a), Signatures(b));
      if n - q <= q {
        assert twice == Between(lo + (n - q), lo + q);
      } else {
        EmptyWithout(twice);
      }
    }
  }

  lemma BlockOverlap(top: Topo.Topology, cluster: int, s: int, view: int, phase: SigPhase, d: Digest, e: Digest,
                     a: set<Signature>, b: set<Signature>)
    requires top.Valid() && 1 <= cluster <= top.numClusters && d != e
    requires var lo, q, n := Topo.Times(cluster - 1, top.clusterSize), top.Quorum(), top.clusterSize;
      && (forall sig :: sig in a <==> lo < sig.signer <= lo + q && sig == Signature(sig.signer, phase, s, view, d))
      && (forall sig :: sig in b <==>
            lo + (n - q) < sig.signer <= lo + (n - q) + q && sig == Signature(sig.signer, phase, s, view, e))
    ensures var lo, q, n := Topo.Times(cluster - 1, top.clusterSize), top.Quorum(), top.clusterSize;
      forall id :: id in Equivocators(a + b, Members(top, cluster), view, s) <==> lo + (n - q) < id <= lo + q
  {
    Topo.FaultBound(top);
    var lo, q, n := Topo.Times(cluster - 1, top.clusterSize), top.Quorum(), top.clusterSize;
    assert Topo.Times(cluster, n) == lo + n;
    forall id | lo + (n - q) < id <= lo + q ensures SignedTwo(a + b, id, view, s) {
      var x, y := Signature(id, phase, s, view, d), Signature(id, phase, s, view, e);
      assert x in a + b && y in a + b;
    }
  }

  /** The tolerance is the full fault bound only at n = 3f+1, and at twelve servers it is one;
      quorums of n-f always share at least f+1 members. */
  lemma ToleranceMeaning(top: Topo.Topology, a: set<int>, b: set<int>, all: set<int>)
    requires top.Valid()
    ensures Tolerance(top) == top.F() <==> top.clusterSize == 3 * top.F() + 1
    ensures Tolerance(top) <= top.F()
    ensures top.clusterSize == 12 ==> Tolerance(top) == 1 && top.F() == 3
    ensures |all| == top.clusterSize && a <= all && b <= all
      && |a| >= top.CollectorQuorum() && |b| >= top.CollectorQuorum()
      ==> |a * b| >= top.F() + 1
  {
    Topo.FaultBound(top);
    if a <= all && b <= all {
      Overlap(a, b, all);
    }
  }

  // ---------------------------------------------------------------- a correct member signs one digest

  datatype Input = Propose(req: Request) | Receive(msg: Msg)

  datatype Proposal = Proposal(seqNo: int, digest: Digest, req: Request)

  /** The proposal that an input makes a replica accept: its own under its next number, or one that it
      is sent for a number that holds none. */
  function Accepts(r: Replica, input: Input): Option<Proposal>
    requires r.cfg.Valid()
  {
    match input
    case Propose(req0) =>
      var req := req0.(op := Normal(req0.op));
      if !IsCommitPhaseOp(req.op) && r.cfg.HonestLive() < r.cfg.Quorum() then None
      else if ValidateForStart(r, req) && CanOffer(r, req) then Some(Proposal(r.nextSeq, DigestOf(req), req))
      else None
    case Receive(PrePrepareMsg(s, v, d, req)) =>
      if v == r.view && OpMatchesCluster(r.cfg, req) && GapClear(r, s)
         && !(s in r.log && r.log[s].prePrepare && !r.log[s].discarded)
      then Some(Proposal(s, d, req)) else None
    case _ => None
  }

  predicate Carries(log: map<int, Slot>, p: Proposal) {
    p.seqNo in log && log[p.seqNo].digest == Some(p.digest) && log[p.seqNo].req == p.req
  }

  /** No discards; and only the view's primary proposes, under a number that holds nothing yet, or this
      very proposal.  The engine does not look: a number that it was sent a PRE-PREPARE for is taken. */
  predicate Admissible(r: Replica, input: Input)
    requires r.cfg.Valid()
  {
    match input
    case Propose(_) => r.IsPrimary() && (Accepts(r, input).Some? ==> Unclaimed(r.log, Accepts(r, input).value))
    case Receive(m) => !m.DiscardMsg?
  }

  predicate Unclaimed(log: map<int, Slot>, p: Proposal) {
    p.seqNo in log ==> Carries(log, p)
  }

  function Take(r: Replica, input: Input): Replica
    requires r.cfg.Valid()
  {
    match input
    case Propose(req) => StartConsensus(r, req)
    case Receive(PrePrepareMsg(s, v, d, req)) => OnPrePrepare(r, s, v, d, req)
    case Receive(PrepareMsg(from, s, v, d, sig)) => OnPrepare(r, from, s, v, d, sig)
    case Receive(PrepareCertMsg(cert)) => OnPrepareCert(r, cert)
    case Receive(CommitMsg(from, s, v, d, sig)) => OnCommit(r, from, s, v, d, sig)
    case Receive(CommitCertMsg(cert)) => OnCommitCert(r, cert)
    case Receive(DiscardMsg(s, v)) => OnDiscard(r, s, v)
  }

  predicate PinnedSlot(cfg: Config, view: int, s: int, slot: Slot) {
    && !slot.discarded && slot.prePrepare && SlotVotesOk(cfg, view, s, slot)
    && (slot.executed ==> slot.commitCert.Some?)
    && (slot.commitCert.Some? ==>
          var cert := slot.commitCert.value;
          VerifyCert(cfg, cert, CommitSig) && cert.seqNo == s && cert.view == view && slot.digest == Some(cert.digest))
  }

  /** Every slot keeps the digest it was first given, and every signature is for that digest. */
  predicate Honest(r: Replica)
    requires r.cfg.Valid()
  {
    && (forall s :: s in r.log ==> PinnedSlot(r.cfg, r.view, s, r.log[s]))
    && (forall sig :: sig in r.signed ==>
          sig.signer == r.cfg.self && sig.view == r.view && Matches(r, sig.seqNo, sig.digest))
    && (forall i :: 0 <= i < |r.executed| ==> Did(r, r.executed[i]))
  }

  predicate Did(r: Replica, e: Executed) {
    e.seqNo in r.log && r.log[e.seqNo].executed && r.log[e.seqNo].req == e.req
  }

  predicate Ordinary(c: Change) {
    Quiet(c) || c.StorePrepare? || c.StoreCommit? || c.Accept?
  }

  predicate SameProposal(old_: Slot, new_: Slot) {
    && new_.digest == old_.digest && new_.req == old_.req && (old_.executed ==> new_.executed)
    && (old_.prePrepare && !old_.discarded ==> new_.prePrepare && !new_.discarded)
  }

  /** Rewriting a slot without touching its digest, or starting a fresh one. */
  lemma HonestPut(r: Replica, q: Replica, s: int)
    requires r.cfg.Valid() && Honest(r) && q.cfg == r.cfg && q.view == r.view
    requires s in q.log && q.log == r.log[s := q.log[s]]
    requires s in r.log ==> SameProposal(r.log[s], q.log[s])
    requires PinnedSlot(q.cfg, q.view, s, q.log[s])
    requires q.signed == r.signed && q.executed == r.executed
    ensures Honest(q)
  {
    forall sig | sig in q.signed ensures Matches(q, sig.seqNo, sig.digest) {
      assert Matches(r, sig.seqNo, sig.digest);
    }
    forall i | 0 <= i < |q.executed| ensures Did(q, q.executed[i]) {
      assert Did(r, r.executed[i]);
    }
  }

  lemma PinnedWith(cfg: Config, view: int, s: int, slot: Slot, cert: Certificate)
    requires PinnedSlot(cfg, view, s, slot)
    requires VerifyCert(cfg, cert, CommitSig) && cert.seqNo == s && cert.view == view
    requires slot.digest == Some(cert.digest)
    ensures PinnedSlot(cfg, view, s, slot.(commitCert := Some(cert)))
  {
  }

  lemma HonestCertifies(r: Replica, c: Change)
    requires r.cfg.Valid() && Honest(r) && Enabled(r, c) && (c.CertifyPrepare? || c.CertifyCommit?)
    ensures Honest(Apply(r, c))
  {
    var slot := r.log[c.s];
    if c.CertifyCommit? {
      BuiltVerifies(r, c.s, slot, slot.commits, CommitSig);
      PinnedWith(r.cfg, r.view, c.s, slot, c.cert);
    }
    HonestPut(r, Apply(r, c), c.s);
  }

  lemma HonestVotes(r: Replica, c: Change)
    requires r.cfg.Valid() && Honest(r) && Enabled(r, c) && (c.Vote? || c.CommitVote?)
    ensures Honest(Apply(r, c))
  {
    assert PinnedSlot(r.cfg, r.view, c.s, r.log[c.s]);
    HonestPut(r, Apply(r, c), c.s);
  }

  lemma HonestStores(r: Replica, c: Change)
    requires r.cfg.Valid() && Honest(r) && Enabled(r, c) && (c.StorePrepare? || c.StoreCommit?)
    ensures Honest(Apply(r, c))
  {
    assert PinnedSlot(r.cfg, r.view, c.cert.seqNo, r.log[c.cert.seqNo]);
    HonestPut(r, Apply(r, c), c.cert.seqNo);
  }

  /** The remaining changes rewrite no slot. */
  lemma HonestRests(r: Replica, c: Change)
    requires r.cfg.Valid() && Honest(r) && Enabled(r, c)
    requires c.Endorse? || c.Skip? || c.LockSlot? || c.Note?
    ensures Honest(Apply(r, c))
  {
  }

  lemma HonestExecutes(r: Replica)
    requires r.cfg.Valid() && Honest(r) && CanExecute(r)
    ensures Honest(ExecuteNext(r))
  {
    var q := ExecuteNext(r);
    var s := r.execSeq;
    assert PinnedSlot(r.cfg, r.view, s, r.log[s]);
    HonestPut(r, q.(executed := r.executed), s);
    assert Did(q, Executed(s, r.log[s].req));
    forall i | 0 <= i < |q.executed| ensures Did(q, q.executed[i]) {
      assert i < |r.executed| ==> Did(q.(executed := r.executed), r.executed[i]);
    }
  }

  lemma HonestAccepts(r: Replica, c: Change)
    requires r.cfg.Valid() && Honest(r) && Enabled(r, c) && c.Accept?
    ensures Honest(Apply(r, c))
  {
    forall t | t in r.log ensures t != c.s {
      assert PinnedSlot(r.cfg, r.view, t, r.log[t]);
    }
    HonestPut(r, Apply(r, c), c.s);
  }

  lemma HonestChanges(r: Replica, c: Change)
    requires r.cfg.Valid() && Honest(r) && Enabled(r, c) && Ordinary(c)
    ensures Honest(Apply(r, c))
  {
    match c
    case Execute => HonestExecutes(r);
    case CertifyPrepare(_, _) => HonestCertifies(r, c);
    case CertifyCommit(_, _) => HonestCertifies(r, c);
    case Vote(_, _, _) => HonestVotes(r, c);
    case CommitVote(_, _, _) => HonestVotes(r, c);
    case StorePrepare(cert) => HonestStores(r, c);
    case StoreCommit(cert) => HonestStores(r, c);
    case Accept(s, d, req) => HonestAccepts(r, c);
    case _ => HonestRests(r, c);
  }

  lemma {:induction false} HonestRuns(r: Replica, cs: seq<Change>, q: Replica)
    requires r.cfg.Valid() && Honest(r) && Runs(r, cs, q) && forall c :: c in cs ==> Ordinary(c)
    ensures q.cfg == r.cfg && q.view == r.view && Honest(q)
    decreases |cs|
  {
    if cs != [] {
      ApplyKeepsConfig(r, cs[0]);
      assert cs[0] in cs;
      HonestChanges(r, cs[0]);
      HonestRuns(Apply(r, cs[0]), cs[1..], q);
    }
  }

  lemma ReceiveRuns(r: Replica, m: Msg) returns (cs: seq<Change>)
    requires r.cfg.Valid() && !m.DiscardMsg?
    ensures Runs(r, cs, Take(r, Receive(m)))
    ensures forall c :: c in cs ==> Ordinary(c) && (c.Accept? ==> m.PrePrepareMsg?)
  {
    match m {
      case PrePrepareMsg(s, v, d, req) => cs := OnPrePrepareRuns(r, s, v, d, req);
      case PrepareMsg(from, s, v, d, sig) => cs := OnPrepareRuns(r, from, s, v, d, sig);
      case PrepareCertMsg(cert) => cs := OnPrepareCertRuns(r, cert);
      case CommitMsg(from, s, v, d, sig) => cs := OnCommitRuns(r, from, s, v, d, sig);
      case CommitCertMsg(cert) => cs := OnCommitCertRuns(r, cert);
    }
    assert forall c :: c in cs ==> c == cs[0] || c in cs[1..];
  }

  /** A start that offers nothing touches no slot and signs nothing. */
  lemma NothingOffered(r: Replica, req: Request)
    requires r.cfg.Valid() && Accepts(r, Propose(req)) == None && r.IsPrimary()
    ensures var q := StartConsensus(r, req);
      && q.cfg == r.cfg && q.view == r.view && q.log == r.log && q.nextSeq >= r.nextSeq
      && q.signed == r.signed && q.executed == r.executed
  {
  }

  /** What a start offers, before it is processed. */
  function Offered(r: Replica, p: Proposal): Replica {
    Pbft.Propose(r, p.req, OfferLedger(r, p.req))
  }

  lemma OfferedRuns(r: Replica, req: Request, p: Proposal) returns (cs: seq<Change>)
    requires r.cfg.Valid() && r.IsPrimary() && Accepts(r, Propose(req)) == Some(p)
    ensures p == Proposal(r.nextSeq, DigestOf(p.req), p.req) && Enabled(r, Offer(p.req))
    ensures Offered(r, p) == Apply(r, Offer(p.req)) && Offered(r, p).cfg == r.cfg && Offered(r, p).view == r.view
    ensures Runs(Offered(r, p), cs, StartConsensus(r, req)) && AllQuiet(cs)
    ensures StartConsensus(r, req) == ProcessPrePrepare(Offered(r, p), p.seqNo, r.view, p.digest, p.req)
  {
    cs := ProcessRuns(Offered(r, p), p.seqNo, p.digest, p.req);
  }

  lemma HonestOffers(r: Replica, req: Request)
    requires r.cfg.Valid() && Honest(r) && Enabled(r, Offer(req))
    requires Unclaimed(r.log, Proposal(r.nextSeq, DigestOf(req), req))
    ensures Honest(Apply(r, Offer(req)))
  {
    assert r.nextSeq in r.log ==> PinnedSlot(r.cfg, r.view, r.nextSeq, r.log[r.nextSeq]);
    HonestPut(r, Apply(r, Offer(req)), r.nextSeq);
  }

  lemma HonestStarts(r: Replica, req: Request)
    requires r.cfg.Valid() && Honest(r) && Admissible(r, Propose(req))
    ensures var q := StartConsensus(r, req); q.cfg == r.cfg && q.view == r.view && Honest(q)
  {
    match Accepts(r, Propose(req))
    case Some(p) =>
      var cs := OfferedRuns(r, req, p);
      HonestOffers(r, p.req);
      HonestRuns(Offered(r, p), cs, StartConsensus(r, req));
    case None =>
      NothingOffered(r, req);
      SameIsHonest(r, StartConsensus(r, req));
  }

  lemma SameIsHonest(r: Replica, q: Replica)
    requires r.cfg.Valid() && Honest(r) && q.cfg == r.cfg && q.view == r.view
    requires q.log == r.log && q.signed == r.signed && q.executed == r.executed
    ensures Honest(q)
  {
    forall sig | sig in q.signed ensures Matches(q, sig.seqNo, sig.digest) {
      assert Matches(r, sig.seqNo, sig.digest);
    }
    forall i | 0 <= i < |q.executed| ensures Did(q, q.executed[i]) {
      assert Did(r, r.executed[i]);
    }
  }

  lemma HonestTakes(r: Replica, input: Input)
    requires r.cfg.Valid() && Honest(r) && Admissible(r, input)
    ensures var q := Take(r, input); q.cfg == r.cfg && q.view == r.view && Honest(q)
  {
    match input
    case Receive(m) =>
      var cs := ReceiveRuns(r, m);
      HonestRuns(r, cs, Take(r, input));
    case Propose(req) => HonestStarts(r, req);
  }

  ghost predicate TakeStep(x: Replica, a: Input, y: Replica) {
    x.cfg.Valid() && Admissible(x, a) && y == Take(x, a)
  }

  /** `last` is what a correct member becomes under the inputs. */
  ghost predicate Takes(first: Replica, inputs: seq<Input>, last: Replica) {
    Path(TakeStep, first, inputs, last)
  }

  lemma TakesFirst(first: Replica, inputs: seq<Input>, last: Replica)
    requires Takes(first, inputs, last) && inputs != []
    ensures first.cfg.Valid() && Admissible(first, inputs[0])
    ensures Takes(Take(first, inputs[0]), inputs[1..], last)
  {
    var _ := PathFirst(TakeStep, first, inputs, last);
  }

  lemma {:induction false} HonestAlways(r: Replica, inputs: seq<Input>, q: Replica)
    requires r.cfg.Valid() && Honest(r) && Takes(r, inputs, q)
    ensures q.cfg == r.cfg && q.view == r.view && Honest(q)
    decreases |inputs|
  {
    if inputs != [] {
      TakesFirst(r, inputs, q);
      HonestTakes(r, inputs[0]);
      HonestAlways(Take(r, inputs[0]), inputs[1..], q);
    }
  }

  /** Whatever messages a correct member is sent, it signs at most one digest for a number, counting
      both phases - as long as a primary offers only under unclaimed numbers. */
  lemma SignsOneDigest(cfg: Config, initial: int, inputs: seq<Input>, q: Replica)
    requires cfg.Valid() && Takes(Boot(cfg, initial), inputs, q)
    ensures OneDigest(q)
    ensures forall a :: a in q.signed ==> a.signer == cfg.self && a.view == 0
  {
    HonestAlways(Boot(cfg, initial), inputs, q);
    SoundIsOne(q);
  }

  // ---------------------------------------------------------------- a primary that is sent proposals

  predicate OneDigest(r: Replica) {
    forall a, b :: a in r.signed && b in r.signed && a.seqNo == b.seqNo ==> a.digest == b.digest
  }

  /** The next request would be offered under a number that the primary signed for another digest: it was
      sent a PRE-PREPARE for its own next number, and accepted it. */
  predicate Clashes(r: Replica, req: Request)
    requires r.cfg.Valid()
  {
    var p := Accepts(r, Propose(req));
    p.Some? && exists sig :: sig in r.signed && sig.seqNo == p.value.seqNo && sig.digest != p.value.digest
  }

  /** An offered request passes the checks of its processing as well, so it is always signed. */
  lemma OfferedIsSigned(r: Replica, req: Request, p: Proposal)
    requires r.cfg.Valid() && r.IsPrimary() && Accepts(r, Propose(req)) == Some(p)
    ensures Signature(r.cfg.self, PrepareSig, p.seqNo, r.view, p.digest) in StartConsensus(r, req).signed
    ensures r.signed <= StartConsensus(r, req).signed
  {
    var _ := OfferedRuns(r, req, p);
    var m := Offered(r, p);
    OfferedPasses(r, p);
    var sig := Signature(r.cfg.self, PrepareSig, p.seqNo, r.view, p.digest);
    assert StartConsensus(r, req) == OnPrepare(m.Sign(sig), r.cfg.self, p.seqNo, r.view, p.digest, sig);
    var cs := OnPrepareRuns(m.Sign(sig), r.cfg.self, p.seqNo, r.view, p.digest, sig);
    SignedStay(m.Sign(sig), cs, StartConsensus(r, req));
  }

  lemma OfferedPasses(r: Replica, p: Proposal)
    requires r.cfg.Valid() && p == Proposal(r.nextSeq, DigestOf(p.req), p.req) && Enabled(r, Offer(p.req))
    ensures var m := Offered(r, p);
      && ValidateRequest(m.ledger, p.req, p.seqNo) && m.signed == r.signed
      && (IsCommitPhaseOp(p.req.op) ==> LocksHeldForCommitOp(m.ledger, p.req))
      && (!IsCommitPhaseOp(p.req.op) ==> EnsureAll(m.ledger, LockItems(p.req), p.seqNo) == (m.ledger, true))
  {
    var m := Offered(r, p);
    if !IsCommitPhaseOp(p.req.op) {
      Proposer.AcquireAllTakes(r.ledger, LockItems(p.req), r.nextSeq);
      Proposer.EnsureHeld(m.ledger, LockItems(p.req), p.seqNo);
    }
  }

  /** No change takes a signature back. */
  lemma {:induction false} SignedStay(r: Replica, cs: seq<Change>, q: Replica)
    requires r.cfg.Valid() && Runs(r, cs, q)
    ensures r.signed <= q.signed && q.cfg == r.cfg
    decreases |cs|
  {
    if cs != [] {
      ApplyKeepsConfig(r, cs[0]);
      assert r.signed <= Apply(r, cs[0]).signed;
      SignedStay(Apply(r, cs[0]), cs[1..], q);
    }
  }

  /** All slots are in use, and every signature is for what the log holds. */
  predicate Sound(r: Replica) {
    && (forall s :: s in r.log ==> r.log[s].prePrepare && !r.log[s].discarded)
    && (forall sig :: sig in r.signed ==> Matches(r, sig.seqNo, sig.digest))
  }

  lemma SoundIsOne(q: Replica)
    requires Sound(q)
    ensures OneDigest(q)
  {
    forall a, b | a in q.signed && b in q.signed && a.seqNo == b.seqNo ensures a.digest == b.digest {
      assert Matches(q, a.seqNo, a.digest) && Matches(q, b.seqNo, b.digest);
    }
  }

  lemma {:induction false} SoundRuns(r: Replica, cs: seq<Change>, q: Replica)
    requires r.cfg.Valid() && Sound(r) && Runs(r, cs, q) && forall c :: c in cs ==> Ordinary(c)
    ensures Sound(q)
    decreases |cs|
  {
    if cs != [] {
      ApplyKeepsConfig(r, cs[0]);
      assert cs[0] in cs;
      assert Sound(Apply(r, cs[0])) by {
        var q := Apply(r, cs[0]);
        if !cs[0].Accept? {
          OneKeeps(r, cs[0]);
        }
        forall sig | sig in r.signed ensures Matches(q, sig.seqNo, sig.digest) {
          assert Matches(r, sig.seqNo, sig.digest);
        }
      }
      SoundRuns(Apply(r, cs[0]), cs[1..], q);
    }
  }

  /** A step of a member that follows the engine, whatever it is sent; nothing is discarded. */
  ghost predicate FreeStep(x: Replica, a: Input, y: Replica) {
    && x.cfg.Valid() && (a.Propose? ==> x.IsPrimary()) && (a.Receive? ==> !a.msg.DiscardMsg?)
    && y == Take(x, a)
  }

  /** No step of the run offers under a number that was signed for another digest. */
  predicate NeverClashes(r: Replica, inputs: seq<Input>)
    decreases |inputs|
  {
    inputs == [] || !r.cfg.Valid()
    || (!(inputs[0].Propose? && Clashes(r, inputs[0].req)) && NeverClashes(Take(r, inputs[0]), inputs[1..]))
  }

  /** A clash is signed at once; a step that does not clash leaves every signature for what the log holds. */
  lemma FreeTakes(r: Replica, a: Input, q: Replica)
    requires FreeStep(r, a, q)
    ensures q.cfg == r.cfg && r.signed <= q.signed
    ensures a.Propose? && Clashes(r, a.req) ==> !OneDigest(q)
    ensures Sound(r) && !(a.Propose? && Clashes(r, a.req)) ==> Sound(q)
  {
    match a
    case Receive(m) =>
      var cs := ReceiveRuns(r, m);
      SignedStay(r, cs, q);
      if Sound(r) {
        SoundRuns(r, cs, q);
      }
    case Propose(req) => FreeStarts(r, req);
  }

  lemma FreeStarts(r: Replica, req: Request)
    requires r.cfg.Valid() && r.IsPrimary()
    ensures StartConsensus(r, req).cfg == r.cfg && r.signed <= StartConsensus(r, req).signed
    ensures Clashes(r, req) ==> !OneDigest(StartConsensus(r, req))
    ensures Sound(r) && !Clashes(r, req) ==> Sound(StartConsensus(r, req))
  {
    match Accepts(r, Propose(req))
    case None => NothingOffered(r, req);
    case Some(p) =>
      var cs := OfferedRuns(r, req, p);
      SignedStay(Offered(r, p), cs, StartConsensus(r, req));
      OfferedIsSigned(r, req, p);
      if Sound(r) && !Clashes(r, req) {
        SoundRuns(Offered(r, p), cs, StartConsensus(r, req));
      }
  }

  lemma {:induction false} FreeSigned(r: Replica, inputs: seq<Input>, q: Replica)
    requires Path(FreeStep, r, inputs, q)
    ensures r.signed <= q.signed
    decreases |inputs|
  {
    if inputs != [] {
      var m := PathFirst(FreeStep, r, inputs, q);
      FreeTakes(r, inputs[0], m);
      FreeSigned(m, inputs[1..], q);
    }
  }

  /** Whatever a member that follows the engine is sent, without discards: it signs one digest for every
      number exactly when no step of its run clashed. */
  lemma OneDigestIffNoClash(cfg: Config, initial: int, inputs: seq<Input>, q: Replica)
    requires Path(FreeStep, Boot(cfg, initial), inputs, q)
    ensures OneDigest(q) <==> NeverClashes(Boot(cfg, initial), inputs)
  {
    OneDigestFrom(Boot(cfg, initial), inputs, q);
  }

  lemma {:induction false} OneDigestFrom(r: Replica, inputs: seq<Input>, q: Replica)
    requires Sound(r) && Path(FreeStep, r, inputs, q)
    ensures OneDigest(q) <==> NeverClashes(r, inputs)
    decreases |inputs|
  {
    if inputs == [] {
      SoundIsOne(r);
    } else {
      var m := PathFirst(FreeStep, r, inputs, q);
      FreeTakes(r, inputs[0], m);
      if inputs[0].Propose? && Clashes(r, inputs[0].req) {
        FreeSigned(m, inputs[1..], q);
      } else {
        OneDigestFrom(m, inputs[1..], q);
      }
    }
  }

  /** An offer does not ask whether its number was executed: the slot keeps that mark under the new
      digest, while the list of executions goes on. */
  lemma OfferKeepsExecuted(r: Replica, req: Request, p: Proposal)
    requires r.cfg.Valid() && r.IsPrimary() && Accepts(r, Propose(req)) == Some(p)
    requires p.seqNo in r.log && !r.log[p.seqNo].discarded
    ensures var q := StartConsensus(r, req);
      && Carries(q.log, p) && r.executed <= q.executed && (r.log[p.seqNo].executed ==> q.log[p.seqNo].executed)
  {
    var cs := OfferedRuns(r, req, p);
    QuietKeeps(Offered(r, p), cs, StartConsensus(r, req));
    assert p.seqNo in Offered(r, p).log;
  }

  /** A fresh primary that is sent a PRE-PREPARE for its first number signs it, and signs the next request
      that a client sends under the same number. */
  lemma PrimarySignsTwice(cfg: Config, initial: int, x: Request, y: Request)
    requires cfg.Valid() && cfg.top.PrimaryOf(cfg.cluster, 0) == cfg.self && cfg.Quorum() >= 2
    requires cfg.HonestLive() >= cfg.Quorum() && OpMatchesCluster(cfg, x)
    requires x.op == Intra && y.op == Intra && x.client != y.client && x.ts > 0 && y.ts > 0
    requires x.x != x.y && y.x != y.y && {x.x, x.y} !! {y.x, y.y} && x.amt <= initial && y.amt <= initial
    ensures var r := OnPrePrepare(Boot(cfg, initial), 1, 0, DigestOf(x), x);
      && Takes(Boot(cfg, initial), [Receive(PrePrepareMsg(1, 0, DigestOf(x), x))], r)
      && Signature(cfg.self, PrepareSig, 1, 0, DigestOf(x)) in StartConsensus(r, y).signed
      && Signature(cfg.self, PrepareSig, 1, 0, DigestOf(y)) in StartConsensus(r, y).signed
      && DigestOf(x) != DigestOf(y)
  {
    var input := Receive(PrePrepareMsg(1, 0, DigestOf(x), x));
    var r := SentFirst(cfg, initial, x);
    OneStep(TakeStep, Boot(cfg, initial), input, r);
    assert y.x in {y.x, y.y} && y.y in {y.x, y.y} && x.x in {x.x, x.y} && x.y in {x.x, x.y};
    BothFree(r.ledger, y, 1);
    assert y.(op := Normal(y.op)) == y;
    assert TxnOf(x) != TxnOf(y) && forall s :: s in r.log ==> s == 1;
    OfferedIsSigned(r, y, Proposal(1, DigestOf(y), y));
  }

  lemma SentFirst(cfg: Config, initial: int, x: Request) returns (r: Replica)
    requires cfg.Valid() && cfg.top.PrimaryOf(cfg.cluster, 0) == cfg.self && cfg.Quorum() >= 2
    requires OpMatchesCluster(cfg, x) && x.op == Intra && x.x != x.y && x.ts > 0 && x.amt <= initial
    ensures r == OnPrePrepare(Boot(cfg, initial), 1, 0, DigestOf(x), x)
    ensures r.cfg == cfg && r.view == 0 && r.nextSeq == 1 && r.log.Keys == {1} && r.log[1].req == x
    ensures Signature(cfg.self, PrepareSig, 1, 0, DigestOf(x)) in r.signed
    ensures r.ledger == Fresh(initial).Acquire(x.x, 1).Acquire(x.y, 1)
  {
    r := OnPrePrepare(Boot(cfg, initial), 1, 0, DigestOf(x), x);
    var r1 := Boot(cfg, initial).Put(1, Proposed(EmptySlot, DigestOf(x), x));
    var l := Fresh(initial).Acquire(x.x, 1).Acquire(x.y, 1);
    BothFree(Fresh(initial), x, 1);
    assert ValidateRequest(r1.ledger, x, 1);
    assert r == SendPrepare(r1.(ledger := l), 1, 0, DigestOf(x));
  }

  lemma BothFree(l: Ledger, req: Request, s: int)
    requires req.op == Intra && req.x != req.y && !l.IsLocked(req.x) && !l.IsLocked(req.y)
    ensures EnsureAll(l, LockItems(req), s) == (l.Acquire(req.x, s).Acquire(req.y, s), true)
    ensures AcquireAll(l, LockItems(req), s) == (l.Acquire(req.x, s).Acquire(req.y, s), true)
  {
    var m := l.Acquire(req.x, s);
    assert LockItems(req)[1..] == [req.y] && [req.y][1..] == [];
    assert EnsureAll(m, [req.y], s) == EnsureAll(m.Acquire(req.y, s), [], s);
    assert AcquireAll(m, [req.y], s) == AcquireAll(m.Acquire(req.y, s), [], s);
  }

  // ---------------------------------------------------------------- the check a receiver could make

  /** A primary takes a PRE-PREPARE only for a number that it has assigned already. */
  predicate Guarded(r: Replica, input: Input)
    requires r.cfg.Valid()
  {
    match input
    case Propose(_) => r.IsPrimary()
    case Receive(m) =>
      !m.DiscardMsg? && (m.PrePrepareMsg? && r.IsPrimary() ==> m.seqNo < r.nextSeq || Accepts(r, input) == None)
  }

  ghost predicate GuardedStep(x: Replica, a: Input, y: Replica) {
    x.cfg.Valid() && Guarded(x, a) && y == Take(x, a)
  }

  predicate Behind(r: Replica)
    requires r.cfg.Valid()
  {
    r.IsPrimary() ==> forall s :: s in r.log ==> s < r.nextSeq
  }

  /** With that check no offer meets a number that is taken, so the results above hold. */
  lemma {:induction false} GuardedTakes(r: Replica, inputs: seq<Input>, q: Replica)
    requires r.cfg.Valid() && Honest(r) && Behind(r) && Path(GuardedStep, r, inputs, q)
    ensures Takes(r, inputs, q)
    decreases |inputs|
  {
    if inputs == [] {
      NoStep(TakeStep, r, inputs);
    } else {
      var m := PathFirst(GuardedStep, r, inputs, q);
      HonestTakes(r, inputs[0]);
      TakeKeeps(r, inputs[0]);
      GuardedTakes(m, inputs[1..], q);
      PathCons(TakeStep, r, inputs, m, q);
    }
  }

  /** A primary that takes PRE-PREPAREs only for numbers that it assigned signs one digest a number. */
  lemma ReceiverCheckIsEnough(cfg: Config, initial: int, inputs: seq<Input>, q: Replica)
    requires cfg.Valid() && Path(GuardedStep, Boot(cfg, initial), inputs, q)
    ensures Takes(Boot(cfg, initial), inputs, q) && OneDigest(q)
  {
    GuardedTakes(Boot(cfg, initial), inputs, q);
    HonestAlways(Boot(cfg, initial), inputs, q);
    SoundIsOne(q);
  }

  // ---------------------------------------------------------------- clusters with faulty members

  /** `correct` maps the members that follow the engine to what they have become; the other members
      sign whatever they like.  `made` holds every signature there is: nobody makes one for a correct
      member, and stored certificates carry signatures of members. */
  ghost predicate Faulty(cfg: Config, correct: map<int, Replica>, made: set<Signature>) {
    && cfg.Valid() && correct.Keys <= Members(cfg.top, cfg.cluster)
    && (forall id :: id in correct ==> Correct(cfg, id, correct[id]))
    && (forall sig :: sig in made && sig.signer in correct ==> sig in correct[sig.signer].signed)
    && (forall id, t :: id in correct && t in correct[id].log && correct[id].log[t].commitCert.Some? ==>
          FromMembers(cfg, made, correct[id].log[t].commitCert.value))
  }

  predicate FromMembers(cfg: Config, made: set<Signature>, cert: Certificate)
    requires cfg.Valid()
  {
    Signatures(cert) <= made && Signers(cert) <= Members(cfg.top, cfg.cluster)
  }

  ghost predicate Correct(cfg: Config, id: int, r: Replica) {
    && r.cfg.Valid() && r.cfg.self == id && r.cfg.top == cfg.top && r.cfg.cluster == cfg.cluster
    && exists initial, inputs :: Takes(Boot(r.cfg, initial), inputs, r)
  }

  lemma CorrectPins(cfg: Config, id: int, r: Replica, s: int)
    requires Correct(cfg, id, r) && s in r.log
    ensures PinnedSlot(r.cfg, 0, s, r.log[s])
  {
    var initial, inputs :| Takes(Boot(r.cfg, initial), inputs, r);
    HonestAlways(Boot(r.cfg, initial), inputs, r);
  }

  /** With at most `4f+1-n` faulty members, two correct members that execute one number execute it
      under one digest, whatever the faulty ones send - a faulty primary included, and to a correct
      primary anything that leaves the numbers it offers under unclaimed. */
  lemma FaultyAgree(
    cfg: Config, correct: map<int, Replica>, made: set<Signature>, p: int, q: int, s: int)
    requires Faulty(cfg, correct, made) && p in correct && q in correct
    requires |Members(cfg.top, cfg.cluster) - correct.Keys| <= Tolerance(cfg.top)
    requires s in correct[p].log && correct[p].log[s].executed
    requires s in correct[q].log && correct[q].log[s].executed
    ensures correct[p].log[s].digest == correct[q].log[s].digest
  {
    var a, b := correct[p], correct[q];
    CorrectPins(cfg, p, a, s);
    CorrectPins(cfg, q, b, s);
    forall id | id in correct && SignedTwo(made, id, 0, s) ensures false {
      var r := correct[id];
      assert Correct(cfg, id, r);
      var initial, inputs :| Takes(Boot(r.cfg, initial), inputs, r);
      SignsOneDigest(r.cfg, initial, inputs, r);
    }
    SubsetCount(Equivocators(made, Members(cfg.top, cfg.cluster), 0, s), Members(cfg.top, cfg.cluster) - correct.Keys);
    CertificatesAgree(a.cfg, made, a.log[s].commitCert.value, CommitSig, b.log[s].commitCert.value, CommitSig);
  }

  // ---------------------------------------------------------------- digests and requests

  function Only(p: Option<Proposal>): set<Proposal> {
    if p.Some? then {p.value} else {}
  }

  /** Everything that is accepted under the inputs. */
  function Accepted(r: Replica, inputs: seq<Input>): set<Proposal>
    decreases |inputs|
  {
    if inputs == [] || !r.cfg.Valid() then {}
    else Only(Accepts(r, inputs[0])) + Accepted(Take(r, inputs[0]), inputs[1..])
  }

  /** Every slot keeps the proposal that it was started with, and what was executed stays so. */
  predicate Kept(a: map<int, Slot>, b: map<int, Slot>) {
    forall s :: s in a ==> s in b && SameProposal(a[s], b[s])
  }

  lemma {:induction false} QuietKeeps(r: Replica, cs: seq<Change>, q: Replica)
    requires r.cfg.Valid() && Runs(r, cs, q)
    requires forall c :: c in cs ==> Ordinary(c) && !c.Accept?
    ensures Kept(r.log, q.log) && q.log.Keys == r.log.Keys && q.nextSeq == r.nextSeq && r.executed <= q.executed
    decreases |cs|
  {
    if cs != [] {
      assert cs[0] in cs;
      ApplyKeepsConfig(r, cs[0]);
      OneKeeps(r, cs[0]);
      QuietKeeps(Apply(r, cs[0]), cs[1..], q);
    }
  }

  lemma OneKeeps(r: Replica, c: Change)
    requires r.cfg.Valid() && Enabled(r, c) && Ordinary(c) && !c.Accept?
    ensures var q := Apply(r, c);
      Kept(r.log, q.log) && q.log.Keys == r.log.Keys && q.nextSeq == r.nextSeq && r.executed <= q.executed
  {
  }

  /** What a step makes of the log: the slot of the proposal that it accepts, and every other slot's. */
  predicate Grows(a: map<int, Slot>, b: map<int, Slot>, p: Option<Proposal>) {
    && Kept(a, b)
    && match p
       case None => b.Keys == a.Keys
       case Some(x) => Carries(b, x) && b.Keys == a.Keys + {x.seqNo}
  }

  lemma TakeKeeps(r: Replica, input: Input)
    requires r.cfg.Valid() && Honest(r) && Admissible(r, input)
    ensures Grows(r.log, Take(r, input).log, Accepts(r, input))
    ensures Take(r, input).nextSeq >= r.nextSeq
    ensures input.Propose? && Accepts(r, input).Some? ==> Accepts(r, input).value.seqNo < Take(r, input).nextSeq
  {
    match input
    case Propose(req) =>
      if p :| Accepts(r, input) == Some(p) {
        OfferKeeps(r, req, p);
      } else {
        NothingOffered(r, req);
      }
    case Receive(m) =>
      if p :| Accepts(r, input) == Some(p) {
        assert p.seqNo !in r.log by {
          assert p.seqNo in r.log ==> PinnedSlot(r.cfg, r.view, p.seqNo, r.log[p.seqNo]);
        }
        var r1, q := r.Put(p.seqNo, Proposed(EmptySlot, p.digest, p.req)), Take(r, Receive(m));
        assert q == ProcessPrePrepare(r1, p.seqNo, r.view, p.digest, p.req);
        var cs := ProcessRuns(r1, p.seqNo, p.digest, p.req);
        QuietKeeps(r1, cs, q);
        GrowsThen(r.log, r1.log, q.log, p);
      } else if !m.PrePrepareMsg? {
        var cs := ReceiveRuns(r, m);
        QuietKeeps(r, cs, Take(r, input));
      }
  }

  lemma OfferKeeps(r: Replica, req: Request, p: Proposal)
    requires r.cfg.Valid() && Honest(r) && Admissible(r, Propose(req)) && Accepts(r, Propose(req)) == Some(p)
    ensures Grows(r.log, StartConsensus(r, req).log, Some(p)) && StartConsensus(r, req).nextSeq == p.seqNo + 1
  {
    var cs := OfferedRuns(r, req, p);
    QuietKeeps(Offered(r, p), cs, StartConsensus(r, req));
    assert p.seqNo in r.log ==> PinnedSlot(r.cfg, r.view, p.seqNo, r.log[p.seqNo]);
    assert Offered(r, p).log == r.log[p.seqNo := Proposed(SlotAt(r, p.seqNo), p.digest, p.req)];
    GrowsThen(r.log, Offered(r, p).log, StartConsensus(r, req).log, p);
  }

  lemma GrowsThen(a: map<int, Slot>, b: map<int, Slot>, c: map<int, Slot>, p: Proposal)
    requires Grows(a, b, Some(p)) && Kept(b, c) && c.Keys == b.Keys
    ensures Grows(a, c, Some(p))
  {
    assert SameProposal(b[p.seqNo], c[p.seqNo]);
  }

  /** The log holds one proposal a number, and they are the accepted ones. */
  predicate Holds(log: map<int, Slot>, ps: set<Proposal>) {
    && (forall p :: p in ps ==> Carries(log, p))
    && (forall s :: s in log ==> exists p :: p in ps && p.seqNo == s)
  }

  lemma HoldsMore(a: map<int, Slot>, b: map<int, Slot>, ps: set<Proposal>, p: Option<Proposal>)
    requires Holds(a, ps) && Grows(a, b, p)
    ensures Holds(b, ps + Only(p))
  {
    var all := ps + Only(p);
    forall x | x in all ensures Carries(b, x) {
      assert x in ps ==> Carries(a, x);
    }
    forall s | s in b ensures exists x :: x in all && x.seqNo == s {
      if s in a {
        var x :| x in ps && x.seqNo == s;
        assert x in all;
      } else {
        assert p.Some? && p.value.seqNo == s && p.value in all;
      }
    }
  }

  lemma {:induction false} AcceptedHeld(r: Replica, ps: set<Proposal>, inputs: seq<Input>, q: Replica)
    requires r.cfg.Valid() && Honest(r) && Holds(r.log, ps) && Takes(r, inputs, q)
    ensures q.cfg == r.cfg && Honest(q) && Holds(q.log, ps + Accepted(r, inputs))
    decreases |inputs|
  {
    if inputs == [] {
      assert ps + Accepted(r, inputs) == ps;
    } else {
      TakesFirst(r, inputs, q);
      var m, more := Take(r, inputs[0]), ps + Only(Accepts(r, inputs[0]));
      HonestTakes(r, inputs[0]);
      TakeKeeps(r, inputs[0]);
      HoldsMore(r.log, Take(r, inputs[0]).log, ps, Accepts(r, inputs[0]));
      AcceptedHeld(m, more, inputs[1..], q);
      assert ps + Accepted(r, inputs) == more + Accepted(m, inputs[1..]) by {
        assert Accepted(r, inputs) == Only(Accepts(r, inputs[0])) + Accepted(Take(r, inputs[0]), inputs[1..]);
      }
    }
  }

  predicate AcceptedAs(ps: set<Proposal>, q: Replica, e: Executed) {
    e.seqNo in q.log
    && exists p :: p in ps && p.seqNo == e.seqNo && p.req == e.req && q.log[e.seqNo].digest == Some(p.digest)
  }

  /** A correct member accepts one proposal a number, and what it executes is what it accepted, under the
      digest of the slot. */
  lemma ExecutesWhatItAccepted(cfg: Config, initial: int, inputs: seq<Input>, q: Replica)
    requires cfg.Valid() && Takes(Boot(cfg, initial), inputs, q)
    ensures var ps := Accepted(Boot(cfg, initial), inputs);
      && (forall a, b :: a in ps && b in ps && a.seqNo == b.seqNo ==> a == b)
      && (forall i :: 0 <= i < |q.executed| ==> AcceptedAs(ps, q, q.executed[i]))
  {
    AcceptedHeld(Boot(cfg, initial), {}, inputs, q);
    var ps := Accepted(Boot(cfg, initial), inputs);
    assert {} + ps == ps;
    forall a, b | a in ps && b in ps && a.seqNo == b.seqNo ensures a == b {
      assert Carries(q.log, a) && Carries(q.log, b);
    }
    forall i | 0 <= i < |q.executed| ensures AcceptedAs(ps, q, q.executed[i]) {
      assert Did(q, q.executed[i]);
      var p :| p in ps && p.seqNo == q.executed[i].seqNo;
      assert Carries(q.log, p);
    }
  }

  predicate Alike(ps: set<Proposal>, qs: set<Proposal>, s: int) {
    forall p, q :: p in ps && q in qs && p.seqNo == s && q.seqNo == s ==> p.req == q.req
  }

  /** Two correct members that execute a number execute the same request exactly when the proposals
      that they accepted for it carry the same request. */
  lemma SameRequestIffSameProposal(
    a: Replica, ia: int, xs: seq<Input>, b: Replica, ib: int, ys: seq<Input>, i: int, j: int)
    requires a.cfg.Valid() && Takes(Boot(a.cfg, ia), xs, a) && b.cfg.Valid() && Takes(Boot(b.cfg, ib), ys, b)
    requires 0 <= i < |a.executed| && 0 <= j < |b.executed| && a.executed[i].seqNo == b.executed[j].seqNo
    ensures a.executed[i] == b.executed[j] <==>
      Alike(Accepted(Boot(a.cfg, ia), xs), Accepted(Boot(b.cfg, ib), ys), a.executed[i].seqNo)
  {
    ExecutesWhatItAccepted(a.cfg, ia, xs, a);
    ExecutesWhatItAccepted(b.cfg, ib, ys, b);
    var ps, qs := Accepted(Boot(a.cfg, ia), xs), Accepted(Boot(b.cfg, ib), ys);
    assert AcceptedAs(ps, a, a.executed[i]) && AcceptedAs(qs, b, b.executed[j]);
  }

  /** What a backup could check and does not: the proposals for a number carry their own digest. */
  predicate Faithful(ps: set<Proposal>, s: int) {
    forall p :: p in ps && p.seqNo == s ==> p.digest == DigestOf(p.req)
  }

  /** When the proposals that two correct members accepted for a number carry the digests of their
      requests, agreement on the digest is agreement on the request - exactly, unless one of them
      leaves the operation unset where the other says intra-shard. */
  lemma SameDigestSameRequest(
    a: Replica, ia: int, xs: seq<Input>, b: Replica, ib: int, ys: seq<Input>, i: int, j: int)
    requires a.cfg.Valid() && Takes(Boot(a.cfg, ia), xs, a) && b.cfg.Valid() && Takes(Boot(b.cfg, ib), ys, b)
    requires 0 <= i < |a.executed| && 0 <= j < |b.executed| && a.executed[i].seqNo == b.executed[j].seqNo
    requires Faithful(Accepted(Boot(a.cfg, ia), xs), a.executed[i].seqNo)
    requires Faithful(Accepted(Boot(b.cfg, ib), ys), b.executed[j].seqNo)
    requires var s := a.executed[i].seqNo; s in a.log && s in b.log ==> a.log[s].digest == b.log[s].digest
    ensures var x, y := a.executed[i].req, b.executed[j].req;
      x.(op := Normal(x.op)) == y.(op := Normal(y.op)) && (x.op != Unset && y.op != Unset ==> x == y)
  {
    ExecutesWhatItAccepted(a.cfg, ia, xs, a);
    ExecutesWhatItAccepted(b.cfg, ib, ys, b);
    assert AcceptedAs(Accepted(Boot(a.cfg, ia), xs), a, a.executed[i]);
    assert AcceptedAs(Accepted(Boot(b.cfg, ib), ys), b, b.executed[j]);
    DigestMeaning(a.executed[i].req, b.executed[j].req);
  }

  /** Within the bound, and whatever the faulty members send: two correct members that execute a number
      execute one request, if the proposals that they accepted for it carry their own digests. */
  lemma FaultyRequestsAgree(
    cfg: Config, correct: map<int, Replica>, made: set<Signature>, p: int, q: int,
    ia: int, xs: seq<Input>, ib: int, ys: seq<Input>, i: int, j: int)
    requires Faulty(cfg, correct, made) && p in correct && q in correct
    requires |Members(cfg.top, cfg.cluster) - correct.Keys| <= Tolerance(cfg.top)
    requires Takes(Boot(correct[p].cfg, ia), xs, correct[p]) && Takes(Boot(correct[q].cfg, ib), ys, correct[q])
    requires 0 <= i < |correct[p].executed| && 0 <= j < |correct[q].executed|
    requires correct[p].executed[i].seqNo == correct[q].executed[j].seqNo
    requires Faithful(Accepted(Boot(correct[p].cfg, ia), xs), correct[p].executed[i].seqNo)
    requires Faithful(Accepted(Boot(correct[q].cfg, ib), ys), correct[q].executed[j].seqNo)
    ensures var x, y := correct[p].executed[i].req, correct[q].executed[j].req;
      x.(op := Normal(x.op)) == y.(op := Normal(y.op)) && (x.op != Unset && y.op != Unset ==> x == y)
  {
    var a, b := correct[p], correct[q];
    assert Correct(cfg, p, a) && Correct(cfg, q, b);
    HonestAlways(Boot(a.cfg, ia), xs, a);
    HonestAlways(Boot(b.cfg, ib), ys, b);
    assert Did(a, a.executed[i]) && Did(b, b.executed[j]);
    FaultyAgree(cfg, correct, made, p, q, a.executed[i].seqNo);
    SameDigestSameRequest(a, ia, xs, b, ib, ys, i, j);
  }

  /** Some run of a correct member ends with `req` executed under the certificate, and nothing else. */
  ghost predicate MayExecute(cfg: Config, initial: int, cert: Certificate, req: Request) {
    exists inputs, q :: Takes(Boot(cfg, initial), inputs, q) && ExecutedUnder(q, cert, req)
  }

  predicate ExecutedUnder(q: Replica, cert: Certificate, req: Request) {
    && q.executed == [Executed(1, req)] && 1 in q.log
    && q.log[1].digest == Some(cert.digest) && q.log[1].commitCert == Some(cert)
  }

  lemma BackupProcesses(r: Replica, s: int, view: int, d: Digest, req: Request)
    requires r.cfg.Valid() && !r.IsPrimary()
    ensures var q := ProcessPrePrepare(r, s, view, d, req);
      && q.cfg == r.cfg && q.view == r.view && q.log == r.log
      && q.execSeq == r.execSeq && q.executed == r.executed
  {
  }

  /** Nobody recomputes the digest of a proposal: a fresh backup executes whatever request it was sent
      under the digest that is certified. */
  lemma DigestIsNotChecked(cfg: Config, initial: int, req: Request, cert: Certificate)
    requires cfg.Valid() && cfg.self != cfg.top.PrimaryOf(cfg.cluster, 0)
    requires OpMatchesCluster(cfg, req)
    requires cert.seqNo == 1 && cert.view == 0 && VerifyCert(cfg, cert, CommitSig)
    ensures var inputs := [Receive(PrePrepareMsg(1, 0, cert.digest, req)), Receive(CommitCertMsg(cert))];
      exists q :: Takes(Boot(cfg, initial), inputs, q) && ExecutedUnder(q, cert, req)
  {
    var r := Boot(cfg, initial);
    var accept, commit := Receive(PrePrepareMsg(1, 0, cert.digest, req)), Receive(CommitCertMsg(cert));
    var r1 := Take(r, accept);
    BackupProcesses(r.Put(1, Proposed(EmptySlot, cert.digest, req)), 1, 0, cert.digest, req);
    var slot := r1.log[1];
    var r2 := r1.Put(1, slot.(commitCert := Some(cert)));
    var r3 := ExecuteNext(r2);
    assert CanExecute(r2) && !CanSkip(r3) && !CanExecute(r3);
    var q := Take(r1, commit);
    assert q == TryExecute(r2) == TryExecute(r3) == r3;
    TwoSteps(TakeStep, r, accept, r1, commit, q);
    assert ExecutedUnder(q, cert, req);
  }

  /** So one certificate makes two backups that were sent different requests under its digest execute
      different requests at one number. */
  lemma BackupsDisagree(a: Config, b: Config, initial: int, x: Request, y: Request, cert: Certificate)
    requires a.Valid() && a.self != a.top.PrimaryOf(a.cluster, 0) && OpMatchesCluster(a, x)
    requires b.Valid() && b.self != b.top.PrimaryOf(b.cluster, 0) && OpMatchesCluster(b, y)
    requires cert.seqNo == 1 && cert.view == 0 && VerifyCert(a, cert, CommitSig) && VerifyCert(b, cert, CommitSig)
    ensures MayExecute(a, initial, cert, x) && MayExecute(b, initial, cert, y)
  {
    DigestIsNotChecked(a, initial, x, cert);
    DigestIsNotChecked(b, initial, y, cert);
  }

}
