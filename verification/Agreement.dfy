/** One cluster in one view with an honest primary (pbft/engine.go:302-585, 1198-1260).

    PREPARE and COMMIT votes are arbitrary; every other message is one the primary sent, delivered
    any number of times, in any order, or never.  The primary may give a slot up and use its number
    again. */
module Agreement {
  import opened Types
  import opened Pbft
  import opened Micro
  import opened Paths

  datatype Cluster = Cluster(primary: int, replicas: map<int, Replica>) {
    /** One topology, one cluster, one view; the primary is the view's. */
    ghost predicate Configured() {
      && primary in replicas && replicas[primary].cfg.Valid() && replicas[primary].IsPrimary()
      && forall id :: id in replicas ==>
           && replicas[id].cfg.Valid() && replicas[id].cfg.self == id
           && replicas[id].view == replicas[primary].view
           && replicas[id].cfg.top == replicas[primary].cfg.top
           && replicas[id].cfg.cluster == replicas[primary].cfg.cluster
    }

    function Net(): set<Msg>
      requires primary in replicas
    {
      replicas[primary].sent
    }

    function With(id: int, r: Replica): Cluster { this.(replicas := replicas[id := r]) }
  }

  datatype Action =
    | Start(req: Request)
    | TakePrepare(from: int, seqNo: int, view: int, digest: Digest, sig: Signature)
    | TakeCommit(from: int, seqNo: int, view: int, digest: Digest, sig: Signature)
    | GiveUp(seqNo: int)
    | Deliver(to: int, msg: Msg)

  predicate Broadcast(m: Msg) {
    m.PrePrepareMsg? || m.PrepareCertMsg? || m.CommitCertMsg? || m.DiscardMsg?
  }

  /** The primary starts instances, collects votes and gives up proposals that are not yet
      certified; a backup handles what the primary sent. */
  ghost predicate Allowed(c: Cluster, a: Action)
    requires c.Configured()
  {
    match a
    case GiveUp(s) =>
      s in c.replicas[c.primary].log && !c.replicas[c.primary].log[s].discarded
      && !IsCommitPhaseOp(c.replicas[c.primary].log[s].req.op)
    case Deliver(to, m) => to in c.replicas && to != c.primary && m in c.Net() && Broadcast(m)
    case _ => true
  }

  function Handle(r: Replica, m: Msg): Replica
    requires r.cfg.Valid() && Broadcast(m)
  {
    match m
    case PrePrepareMsg(s, v, d, req) => OnPrePrepare(r, s, v, d, req)
    case PrepareCertMsg(cert) => OnPrepareCert(r, cert)
    case CommitCertMsg(cert) => OnCommitCert(r, cert)
    case DiscardMsg(s, v) => OnDiscard(r, s, v)
  }

  function Lead(r: Replica, a: Action): Replica
    requires r.cfg.Valid() && !a.Deliver? && (a.GiveUp? ==> a.seqNo in r.log)
  {
    match a
    case Start(req) => StartConsensus(r, req)
    case TakePrepare(from, s, v, d, sig) => OnPrepare(r, from, s, v, d, sig)
    case TakeCommit(from, s, v, d, sig) => OnCommit(r, from, s, v, d, sig)
    case GiveUp(s) => Reclaim(r, s, r.log[s].req)
  }

  ghost function Do(c: Cluster, a: Action): Cluster
    requires c.Configured() && Allowed(c, a)
  {
    if a.Deliver? then c.With(a.to, Handle(c.replicas[a.to], a.msg))
    else c.With(c.primary, Lead(c.replicas[c.primary], a))
  }

  // ---------------------------------------------------------------- what a primary keeps

  predicate Certified(log: map<int, Slot>, s: int, d: Digest) {
    s in log && log[s].prepareCert.Some? && log[s].digest == Some(d)
  }

  predicate HonestMsg(log: map<int, Slot>, m: Msg) {
    match m
    case PrePrepareMsg(s, v, d, req) => d == DigestOf(req) && req.op != Unset
    case PrepareCertMsg(cert) => Certified(log, cert.seqNo, cert.digest)
    case CommitCertMsg(cert) => Certified(log, cert.seqNo, cert.digest)
    case _ => true
  }

  predicate LeadSlot(slot: Slot, unused: bool) {
    && (slot.discarded ==> !slot.prePrepare)
    && (unused ==> slot.discarded)
    && (slot.prePrepare ==> slot.req.op != Unset && slot.digest == Some(DigestOf(slot.req)))
    && (slot.prepareCert.Some? ==> slot.prePrepare)
    && (slot.commitCert.Some? ==> slot.prepareCert.Some?)
    && (slot.executed ==> slot.commitCert.Some?)
  }

  predicate Published(sent: set<Msg>, slot: Slot) {
    && (slot.prepareCert.Some? ==> PrepareCertMsg(slot.prepareCert.value) in sent)
    && (slot.commitCert.Some? ==> CommitCertMsg(slot.commitCert.value) in sent)
  }

  /** Once a slot is certified it never changes its digest again, and everything the primary
      announced or executed is certified; numbers from `nextSeq` on carry nothing. */
  predicate LeadInv(r: Replica) {
    && (forall s :: s in r.log ==> Published(r.sent, r.log[s]))
    && (forall s :: s in r.log ==> LeadSlot(r.log[s], s >= r.nextSeq))
    && (forall m :: m in r.sent ==> HonestMsg(r.log, m))
    && (forall i :: 0 <= i < |r.executed| ==> LeadDid(r.log, r.executed[i]))
  }

  predicate LeadDid(log: map<int, Slot>, e: Executed) {
    e.req.op != Unset && Certified(log, e.seqNo, DigestOf(e.req))
  }

  predicate Leading(c: Change) {
    Quiet(c) || c.Offer? || c.Burn? || c.Discard? || c.Rollback? || c.Announce?
  }

  /** Rewriting one slot keeps what is certified, provided a certified slot keeps its digest. */
  lemma LeadPut(r: Replica, q: Replica, s: int)
    requires LeadInv(r) && s in q.log
    requires q.log == r.log[s := q.log[s]] && q.executed == r.executed && q.sent >= r.sent
    requires s in r.log && r.log[s].prepareCert.Some? ==>
      q.log[s].prepareCert.Some? && q.log[s].digest == r.log[s].digest
    requires LeadSlot(q.log[s], s >= q.nextSeq) && Published(q.sent, q.log[s])
    requires q.nextSeq == r.nextSeq || (s == r.nextSeq && q.nextSeq == s + 1)
    requires forall m :: m in q.sent && m !in r.sent ==> HonestMsg(q.log, m)
    ensures LeadInv(q)
  {
    forall t, d | Certified(r.log, t, d) ensures Certified(q.log, t, d) {
    }
    forall t | t in q.log ensures Published(q.sent, q.log[t]) {
      assert t in r.log ==> Published(r.sent, r.log[t]);
    }
    forall m | m in q.sent ensures HonestMsg(q.log, m) {
      if m in r.sent {
        assert HonestMsg(r.log, m);
      }
    }
    forall i | 0 <= i < |q.executed| ensures LeadDid(q.log, q.executed[i]) {
      assert LeadDid(r.log, r.executed[i]);
    }
  }

  lemma LeadExecutes(r: Replica)
    requires r.cfg.Valid() && LeadInv(r) && CanExecute(r)
    ensures LeadInv(ExecuteNext(r))
  {
    var q := ExecuteNext(r);
    assert LeadSlot(r.log[r.execSeq], r.execSeq >= r.nextSeq);
    LeadPut(r, q.(executed := r.executed), r.execSeq);
    assert LeadDid(q.log, Executed(r.execSeq, r.log[r.execSeq].req));
  }

  lemma LeadCollects(r: Replica, c: Change)
    requires r.cfg.Valid() && r.IsPrimary() && LeadInv(r) && Enabled(r, c)
    requires c.Vote? || c.CommitVote? || c.CertifyPrepare? || c.CertifyCommit?
    ensures LeadInv(Apply(r, c)) && r.sent <= Apply(r, c).sent
  {
    assert LeadSlot(r.log[c.s], c.s >= r.nextSeq);
    LeadPut(r, Apply(r, c), c.s);
  }

  lemma LeadChanges(r: Replica, c: Change)
    requires r.cfg.Valid() && r.IsPrimary() && LeadInv(r) && Enabled(r, c) && Leading(c)
    ensures LeadInv(Apply(r, c)) && r.sent <= Apply(r, c).sent
  {
    var q := Apply(r, c);
    match c
    case Execute => LeadExecutes(r);
    case Offer(req) =>
      var q := Propose(r, req, OfferLedger(r, req));
      var s := r.nextSeq;
      assert s in r.log ==> LeadSlot(r.log[s], true);
      LeadPut(r, q, s);
    case Vote(_, _, _) => LeadCollects(r, c);
    case CommitVote(_, _, _) => LeadCollects(r, c);
    case CertifyPrepare(_, _) => LeadCollects(r, c);
    case CertifyCommit(_, _) => LeadCollects(r, c);
    case Discard(s) => LeadPut(r, q, s);
    case Rollback(s) =>
      forall t | t in q.log ensures LeadSlot(q.log[t], t >= q.nextSeq) {
        assert LeadSlot(r.log[t], t >= r.nextSeq);
      }
    case _ =>
  }

  lemma {:induction false} LeadRuns(r: Replica, cs: seq<Change>, q: Replica)
    requires r.cfg.Valid() && r.IsPrimary() && LeadInv(r) && Runs(r, cs, q)
    requires forall c :: c in cs ==> Leading(c)
    ensures LeadInv(q) && r.sent <= q.sent && q.cfg == r.cfg && q.view == r.view
    decreases |cs|
  {
    if cs != [] {
      ApplyKeepsConfig(r, cs[0]);
      assert cs[0] in cs;
      LeadChanges(r, cs[0]);
      LeadRuns(Apply(r, cs[0]), cs[1..], q);
    }
  }

  lemma LeadIsChanges(r: Replica, a: Action) returns (cs: seq<Change>)
    requires r.cfg.Valid() && !a.Deliver? && (a.GiveUp? ==> a.seqNo in r.log)
    ensures Runs(r, cs, Lead(r, a))
    ensures forall c :: c in cs ==> Leading(c) && (Quiet(c) || c.Offer? || c.Burn? || a.GiveUp?)
    ensures forall c :: c in cs && c.Offer? ==> a.Start? && c.req == a.req.(op := Normal(a.req.op))
  {
    match a {
      case Start(req) =>
        cs := StartConsensusRuns(r, req);
        assert forall c :: c in cs ==> c == cs[0] || c in cs[1..];
      case TakePrepare(from, s, v, d, sig) => cs := OnPrepareRuns(r, from, s, v, d, sig);
      case TakeCommit(from, s, v, d, sig) => cs := OnCommitRuns(r, from, s, v, d, sig);
      case GiveUp(s) => cs := ReclaimRuns(r, s);
    }
  }

  // ---------------------------------------------------------------- what a backup keeps

  predicate Announced(net: set<Msg>, s: int, d: Digest) {
    exists m :: m in net && m.CommitCertMsg? && m.cert.seqNo == s && m.cert.digest == d
  }

  predicate FollowSlot(net: set<Msg>, s: int, slot: Slot) {
    && (slot.discarded ==> !slot.prePrepare)
    && (slot.prePrepare ==> slot.req.op != Unset && slot.digest == Some(DigestOf(slot.req)))
    && (slot.prepareCert.Some? ==> slot.prePrepare && PrepareCertMsg(slot.prepareCert.value) in net)
    && (slot.prepareCert.Some? ==>
          slot.prepareCert.value.seqNo == s && slot.digest == Some(slot.prepareCert.value.digest))
    && (slot.commitCert.Some? ==> slot.prePrepare && CommitCertMsg(slot.commitCert.value) in net)
    && (slot.commitCert.Some? ==>
          slot.commitCert.value.seqNo == s && slot.digest == Some(slot.commitCert.value.digest))
  }

  predicate FollowDid(net: set<Msg>, e: Executed) {
    e.req.op != Unset && Announced(net, e.seqNo, DigestOf(e.req))
  }

  predicate FollowInv(r: Replica, net: set<Msg>) {
    && (forall s :: s in r.log ==> FollowSlot(net, s, r.log[s]))
    && (forall i :: 0 <= i < |r.executed| ==> FollowDid(net, r.executed[i]))
  }

  predicate ProposalsHonest(net: set<Msg>) {
    forall m :: m in net && m.PrePrepareMsg? ==> m.digest == DigestOf(m.req) && m.req.op != Unset
  }

  /** A change at a backup that a message of the primary accounts for. */
  predicate Following(view: int, net: set<Msg>, c: Change) {
    match c
    case Accept(s, d, req) => PrePrepareMsg(s, view, d, req) in net
    case StorePrepare(cert) => PrepareCertMsg(cert) in net
    case StoreCommit(cert) => CommitCertMsg(cert) in net
    case Discard(s) => true
    case _ => Quiet(c)
  }

  lemma FollowChanges(r: Replica, net: set<Msg>, c: Change)
    requires r.cfg.Valid() && !r.IsPrimary() && FollowInv(r, net) && ProposalsHonest(net)
    requires Enabled(r, c) && Following(r.view, net, c)
    ensures FollowInv(Apply(r, c), net)
  {
    var q := Apply(r, c);
    match c
    case Accept(s, d, req) =>
      assert s in r.log ==> FollowSlot(net, s, r.log[s]);
      assert FollowSlot(net, s, q.log[s]);
    case StorePrepare(cert) =>
      assert FollowSlot(net, cert.seqNo, r.log[cert.seqNo]);
      assert FollowSlot(net, cert.seqNo, q.log[cert.seqNo]);
    case StoreCommit(cert) =>
      assert FollowSlot(net, cert.seqNo, r.log[cert.seqNo]);
      assert FollowSlot(net, cert.seqNo, q.log[cert.seqNo]);
    case Discard(s) => assert FollowSlot(net, s, q.log[s]);
    case Execute =>
      assert FollowSlot(net, r.execSeq, r.log[r.execSeq]);
      assert FollowSlot(net, r.execSeq, q.log[r.execSeq]);
      assert FollowDid(net, Executed(r.execSeq, r.log[r.execSeq].req));
    case _ =>
  }

  lemma {:induction false} FollowRuns(r: Replica, net: set<Msg>, cs: seq<Change>, q: Replica)
    requires r.cfg.Valid() && !r.IsPrimary() && FollowInv(r, net) && ProposalsHonest(net)
    requires Runs(r, cs, q) && forall c :: c in cs ==> Following(r.view, net, c)
    ensures FollowInv(q, net) && q.cfg == r.cfg && q.view == r.view
    decreases |cs|
  {
    if cs != [] {
      ApplyKeepsConfig(r, cs[0]);
      assert cs[0] in cs;
      FollowChanges(r, net, cs[0]);
      FollowRuns(Apply(r, cs[0]), net, cs[1..], q);
    }
  }

  /** The changes that handling a message of the primary makes. */
  lemma HandleRuns(r: Replica, m: Msg) returns (cs: seq<Change>)
    requires r.cfg.Valid() && !r.IsPrimary() && Broadcast(m)
    ensures Runs(r, cs, Handle(r, m))
    ensures forall c :: c in cs ==> Following(r.view, {m}, c) && (c.Discard? ==> m.DiscardMsg?)
  {
    match m {
      case PrePrepareMsg(s, v, d, req) => cs := OnPrePrepareRuns(r, s, v, d, req);
      case PrepareCertMsg(cert) => cs := OnPrepareCertRuns(r, cert);
      case CommitCertMsg(cert) => cs := OnCommitCertRuns(r, cert);
      case DiscardMsg(s, v) => cs := OnDiscardRuns(r, s, v);
    }
    assert forall c :: c in cs ==> c == cs[0] || c in cs[1..];
  }

  lemma FollowKeeps(r: Replica, net: set<Msg>, m: Msg)
    requires r.cfg.Valid() && !r.IsPrimary() && FollowInv(r, net) && ProposalsHonest(net)
    requires m in net && Broadcast(m)
    ensures var q := Handle(r, m); FollowInv(q, net) && q.cfg == r.cfg && q.view == r.view
  {
    var cs := HandleRuns(r, m);
    forall c | c in cs ensures Following(r.view, net, c) {
      assert Following(r.view, {m}, c);
    }
    FollowRuns(r, net, cs, Handle(r, m));
  }

  // ---------------------------------------------------------------- whole runs

  ghost predicate Inv(c: Cluster) {
    && c.Configured()
    && LeadInv(c.replicas[c.primary])
    && forall id :: id in c.replicas && id != c.primary ==> FollowInv(c.replicas[id], c.Net())
  }

  ghost predicate Start0(c: Cluster) {
    c.Configured() && forall id :: id in c.replicas ==>
      c.replicas[id] == Boot(c.replicas[id].cfg, c.replicas[id].cfg.top.initialBalance)
  }

  ghost predicate LeadStep(x: Cluster, a: Action, y: Cluster) {
    x.Configured() && Allowed(x, a) && y == Do(x, a)
  }

  /** The last cluster is reached from the first by the actions, one after the other. */
  ghost predicate Leads(first: Cluster, acts: seq<Action>, last: Cluster) {
    Path(LeadStep, first, acts, last)
  }

  lemma LeadsFirst(first: Cluster, acts: seq<Action>, last: Cluster)
    requires Leads(first, acts, last) && acts != []
    ensures first.Configured() && Allowed(first, acts[0])
    ensures Leads(Do(first, acts[0]), acts[1..], last)
  {
    var _ := PathFirst(LeadStep, first, acts, last);
  }

  lemma InvHolds(c: Cluster, a: Action)
    requires Inv(c) && Allowed(c, a)
    ensures Inv(Do(c, a))
  {
    var p, d := c.replicas[c.primary], Do(c, a);
    if a.Deliver? {
      assert ProposalsHonest(c.Net()) by {
        assert forall m :: m in p.sent ==> HonestMsg(p.log, m);
      }
      FollowKeeps(c.replicas[a.to], c.Net(), a.msg);
    } else {
      var cs := LeadIsChanges(p, a);
      LeadRuns(p, cs, Lead(p, a));
      forall id | id in d.replicas && id != d.primary ensures FollowInv(d.replicas[id], d.Net()) {
        forall s | s in c.replicas[id].log ensures FollowSlot(d.Net(), s, c.replicas[id].log[s]) {
          assert FollowSlot(c.Net(), s, c.replicas[id].log[s]);
        }
        forall i | 0 <= i < |c.replicas[id].executed| ensures FollowDid(d.Net(), c.replicas[id].executed[i]) {
          assert FollowDid(c.Net(), c.replicas[id].executed[i]);
        }
      }
    }
  }

  lemma {:induction false} InvAlways(c: Cluster, acts: seq<Action>, d: Cluster)
    requires Inv(c) && Leads(c, acts, d)
    ensures Inv(d)
    decreases |acts|
  {
    if acts != [] {
      LeadsFirst(c, acts, d);
      InvHolds(c, acts[0]);
      InvAlways(Do(c, acts[0]), acts[1..], d);
    }
  }

  // ---------------------------------------------------------------- agreement

  /** A certificate that some replica of the cluster stores, or that is on the network. */
  ghost predicate Circulates(c: Cluster, cert: Certificate)
    requires c.Configured()
  {
    || PrepareCertMsg(cert) in c.Net() || CommitCertMsg(cert) in c.Net()
    || exists id :: id in c.replicas && Stores(c.replicas[id], cert)
  }

  predicate Stores(r: Replica, cert: Certificate) {
    exists s :: s in r.log && (r.log[s].prepareCert == Some(cert) || r.log[s].commitCert == Some(cert))
  }

  lemma CirculatingIsCertified(c: Cluster, cert: Certificate)
    requires Inv(c) && Circulates(c, cert)
    ensures Certified(c.replicas[c.primary].log, cert.seqNo, cert.digest)
  {
    var p := c.replicas[c.primary];
    if id :| id in c.replicas && Stores(c.replicas[id], cert) {
      var r := c.replicas[id];
      var s :| s in r.log && (r.log[s].prepareCert == Some(cert) || r.log[s].commitCert == Some(cert));
      assert if id == c.primary then Published(p.sent, r.log[s]) else FollowSlot(c.Net(), s, r.log[s]);
      assert PrepareCertMsg(cert) in c.Net() || CommitCertMsg(cert) in c.Net();
    }
    assert PrepareCertMsg(cert) in p.sent ==> HonestMsg(p.log, PrepareCertMsg(cert));
    assert CommitCertMsg(cert) in p.sent ==> HonestMsg(p.log, CommitCertMsg(cert));
  }

  lemma ExecutedIsCertified(c: Cluster, id: int, i: int)
    requires Inv(c) && id in c.replicas && 0 <= i < |c.replicas[id].executed|
    ensures LeadDid(c.replicas[c.primary].log, c.replicas[id].executed[i])
  {
    var p, e := c.replicas[c.primary], c.replicas[id].executed[i];
    if id != c.primary {
      assert FollowDid(c.Net(), e);
      var m :| m in c.Net() && m.CommitCertMsg? && m.cert.seqNo == e.seqNo && m.cert.digest == DigestOf(e.req);
      assert HonestMsg(p.log, m);
    }
  }

  /** Per-slot agreement: in every run, all prepare and commit certificates for one sequence number
      carry one digest, and no two replicas execute different requests at it, although slots are
      given up and their numbers reused. */
  lemma Agree(c: Cluster, acts: seq<Action>, d: Cluster)
    requires Start0(c) && Leads(c, acts, d)
    ensures d.Configured()
    ensures forall a, b :: Circulates(d, a) && Circulates(d, b) && a.seqNo == b.seqNo ==> a.digest == b.digest
    ensures forall p, q, i, j ::
      p in d.replicas && q in d.replicas
      && 0 <= i < |d.replicas[p].executed| && 0 <= j < |d.replicas[q].executed|
      && d.replicas[p].executed[i].seqNo == d.replicas[q].executed[j].seqNo
      ==> d.replicas[p].executed[i] == d.replicas[q].executed[j]
  {
    assert Inv(c);
    InvAlways(c, acts, d);
    forall a, b | Circulates(d, a) && Circulates(d, b) && a.seqNo == b.seqNo ensures a.digest == b.digest {
      CirculatingIsCertified(d, a);
      CirculatingIsCertified(d, b);
    }
    forall p, q, i, j |
      p in d.replicas && q in d.replicas
      && 0 <= i < |d.replicas[p].executed| && 0 <= j < |d.replicas[q].executed|
      && d.replicas[p].executed[i].seqNo == d.replicas[q].executed[j].seqNo
      ensures d.replicas[p].executed[i] == d.replicas[q].executed[j]
    {
      ExecutedIsCertified(d, p, i);
      ExecutedIsCertified(d, q, j);
      DigestMeaning(d.replicas[p].executed[i].req, d.replicas[q].executed[j].req);
    }
  }
}
