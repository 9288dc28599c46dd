/** Every handler of the engine is a sequence of elementary state changes.  Invariants are proved
    against these changes, once each, and carry over to every handler. */
module Micro {
  import opened Types
  import opened Ledgers
  import opened Pbft

  datatype Change =
    | Vote(s: int, from: int, sig: Signature)
    | CommitVote(s: int, from: int, sig: Signature)
    | CertifyPrepare(s: int, cert: Certificate)
    | CertifyCommit(s: int, cert: Certificate)
    | StorePrepare(cert: Certificate)
    | StoreCommit(cert: Certificate)
    | Endorse(sig: Signature)
    | Skip
    | Execute
    | Accept(s: int, d: Digest, req: Request)
    | Offer(req: Request)
    | Burn
    | LockSlot(s: int)
    | Note(hook: Hook)
    | Discard(s: int)
    | Wipe(s: int)
    | Rollback(s: int)
    | Announce(s: int)
    | Adopt(s: int, d: Digest, req: Request)
    | AdoptLocks(s: int)

  predicate Matches(r: Replica, s: int, d: Digest) {
    s in r.log && r.log[s].prePrepare && r.log[s].digest == Some(d)
  }

  predicate Enabled(r: Replica, c: Change)
    requires r.cfg.Valid()
  {
    match c
    case Vote(s, from, sig) =>
      r.IsPrimary() && Matches(r, s, sig.digest) && sig == Signature(from, PrepareSig, s, r.view, sig.digest)
      && r.cfg.Known(from) && from !in r.log[s].prepares
    case CommitVote(s, from, sig) =>
      r.IsPrimary() && s in r.log && r.log[s].prepareCert.Some? && r.log[s].digest == Some(sig.digest)
      && sig == Signature(from, CommitSig, s, r.view, sig.digest)
      && r.cfg.Known(from) && from !in r.log[s].commits
    case CertifyPrepare(s, cert) =>
      r.IsPrimary() && Matches(r, s, cert.digest) && r.log[s].prepareCert == None
      && BuildCert(r, s, r.log[s], r.log[s].prepares) == Some(cert)
    case CertifyCommit(s, cert) =>
      r.IsPrimary() && s in r.log && r.log[s].prepareCert.Some? && r.log[s].digest == Some(cert.digest)
      && r.log[s].commitCert == None && BuildCert(r, s, r.log[s], r.log[s].commits) == Some(cert)
    case StorePrepare(cert) =>
      cert.view == r.view && VerifyCert(r.cfg, cert, PrepareSig) && Matches(r, cert.seqNo, cert.digest)
    case StoreCommit(cert) =>
      cert.view == r.view && VerifyCert(r.cfg, cert, CommitSig) && Matches(r, cert.seqNo, cert.digest)
    case Endorse(sig) =>
      sig.signer == r.cfg.self && sig.view == r.view && Matches(r, sig.seqNo, sig.digest)
      && (sig.phase == CommitSig ==> r.log[sig.seqNo].prepareCert.Some?)
    case Skip => CanSkip(r)
    case Execute => CanExecute(r)
    case Accept(s, d, req) =>
      OpMatchesCluster(r.cfg, req) && GapClear(r, s) && !(s in r.log && r.log[s].prePrepare && !r.log[s].discarded)
    case Offer(req) =>
      req.op != Unset && ValidateForStart(r, req) && CanOffer(r, req)
    case Burn => true
    case LockSlot(s) => s in r.log && r.log[s].prePrepare && !IsCommitPhaseOp(r.log[s].req.op)
    case Note(h) => h.Dropped? || h.Rejected?
    case Discard(s) =>
      s in r.log && !r.log[s].executed && r.log[s].commitCert == None
      && (r.IsPrimary() ==> r.log[s].prepareCert == None)
    case Wipe(s) => s in r.log && !r.log[s].executed && r.log[s].commitCert == None
    case Rollback(s) => r.nextSeq == s + 1 && s in r.log && r.log[s].discarded
    case Announce(s) => r.IsPrimary() && s in r.log && r.log[s].discarded
    case Adopt(s, d, req) => GapClear(r, s) && !Matches(r, s, d)
    case AdoptLocks(s) => s in r.log && r.log[s].prePrepare && CanAcquire(r.ledger, r.log[s].req)
  }

  function Apply(r: Replica, c: Change): Replica
    requires r.cfg.Valid() && Enabled(r, c)
  {
    match c
    case Vote(s, from, sig) => r.Put(s, r.log[s].(prepares := r.log[s].prepares[from := sig]))
    case CommitVote(s, from, sig) => r.Put(s, r.log[s].(commits := r.log[s].commits[from := sig]))
    case CertifyPrepare(s, cert) => r.Put(s, r.log[s].(prepareCert := Some(cert))).Send(PrepareCertMsg(cert))
    case CertifyCommit(s, cert) => r.Put(s, r.log[s].(commitCert := Some(cert))).Send(CommitCertMsg(cert))
    case StorePrepare(cert) => r.Put(cert.seqNo, r.log[cert.seqNo].(prepareCert := Some(cert)))
    case StoreCommit(cert) => r.Put(cert.seqNo, r.log[cert.seqNo].(commitCert := Some(cert)))
    case Endorse(sig) =>
      if r.IsPrimary() then r.Sign(sig)
      else r.Sign(sig).Send(
        if sig.phase == PrepareSig then PrepareMsg(sig.signer, sig.seqNo, sig.view, sig.digest, sig)
        else CommitMsg(sig.signer, sig.seqNo, sig.view, sig.digest, sig))
    case Skip => r.(execSeq := r.execSeq + 1)
    case Execute => ExecuteNext(r)
    case Accept(s, d, req) => r.Put(s, Proposed(SlotAt(r, s), d, req))
    case Offer(req) => Propose(r, req, OfferLedger(r, req))
    case Burn => r.(nextSeq := r.nextSeq + 1)
    case LockSlot(s) => r.(ledger := EnsureAll(r.ledger, LockItems(r.log[s].req), s).0)
    case Note(h) => r.Call(h)
    case Discard(s) =>
      r.Put(s, Discarded(r.log[s])).(ledger := ReleaseAll(r.ledger, LockItems(r.log[s].req)))
    case Wipe(s) =>
      r.Put(s, Discarded(r.log[s])).(ledger := ReleaseAll(r.ledger, LockItems(r.log[s].req)))
    case Rollback(s) => r.(nextSeq := s)
    case Announce(s) => r.Send(DiscardMsg(s, r.view))
    case Adopt(s, d, req) => r.Put(s, SlotAt(r, s).(digest := Some(d), req := req, prePrepare := true))
    case AdoptLocks(s) =>
      var (l, ok) := AcquireAll(r.ledger, LockItems(r.log[s].req), s);
      r.(ledger := if ok then l else ReleaseAll(l, LockItems(r.log[s].req)))
  }

  lemma ApplyKeepsConfig(r: Replica, c: Change)
    requires r.cfg.Valid() && Enabled(r, c)
    ensures Apply(r, c).cfg == r.cfg && Apply(r, c).view == r.view
  {
  }

  /** `q` is what the changes make of `r`. */
  ghost predicate Runs(r: Replica, cs: seq<Change>, q: Replica)
    requires r.cfg.Valid()
    decreases |cs|
  {
    if cs == [] then q == r
    else Enabled(r, cs[0]) && (ApplyKeepsConfig(r, cs[0]); Runs(Apply(r, cs[0]), cs[1..], q))
  }

  /** The changes that follow from what a replica already accepted and locked. */
  predicate Calm(c: Change) {
    || c.Vote? || c.CommitVote? || c.CertifyPrepare? || c.CertifyCommit? || c.Endorse?
    || c.Skip? || c.Execute? || (c.Note? && c.hook.Rejected?)
  }

  predicate AllCalm(cs: seq<Change>) {
    forall c :: c in cs ==> Calm(c)
  }

  /** Calls about one request; only a coordinator prepare is reported as dropped. */
  predicate OnlyNotes(req: Request, cs: seq<Change>) {
    forall c :: c in cs ==> c.Note? && (c.hook.Dropped? ==> c.hook.req == req && req.op == CoordPrepare)
  }

  /** A start is an offer under the next number, the loss of that number, or only an answer. */
  predicate Starting(s: int, req: Request, cs: seq<Change>) {
    || (cs != [] && cs[0] == Offer(req) && AllQuiet(cs[1..]) && Opening(s, cs[1..]))
    || (cs != [] && cs[0] == Burn && OnlyNotes(req, cs[1..]))
    || OnlyNotes(req, cs)
  }

  predicate Quiet(c: Change) { Calm(c) || c.LockSlot? || c.Note? }

  predicate AllQuiet(cs: seq<Change>) {
    forall c :: c in cs ==> Quiet(c)
  }

  /** Locks are taken first, and only for the slot at hand. */
  predicate Opening(s: int, cs: seq<Change>) {
    cs == [] || ((Calm(cs[0]) || cs[0] == LockSlot(s)) && AllCalm(cs[1..]))
  }

  lemma One(r: Replica, c: Change, cs: seq<Change>, q: Replica)
    requires r.cfg.Valid() && Enabled(r, c) && Apply(r, c).cfg.Valid() && Runs(Apply(r, c), cs, q)
    ensures Runs(r, [c] + cs, q)
  {
    assert ([c] + cs)[1..] == cs;
  }

  lemma {:induction false} Then(r: Replica, a: seq<Change>, m: Replica, b: seq<Change>, q: Replica)
    requires r.cfg.Valid() && m.cfg.Valid() && Runs(r, a, m) && Runs(m, b, q)
    ensures Runs(r, a + b, q)
    decreases |a|
  {
    if a == [] {
      assert a + b == b;
    } else {
      ApplyKeepsConfig(r, a[0]);
      Then(Apply(r, a[0]), a[1..], m, b, q);
      assert (a + b)[1..] == a[1..] + b;
    }
  }

  /** No change takes a call back. */
  lemma {:induction false} RunHooks(r: Replica, cs: seq<Change>, q: Replica)
    requires r.cfg.Valid() && Runs(r, cs, q)
    ensures r.hooks <= q.hooks
    decreases |cs|
  {
    if cs != [] {
      ApplyKeepsConfig(r, cs[0]);
      RunHooks(Apply(r, cs[0]), cs[1..], q);
    }
  }

  // ---------------------------------------------------------------- handlers as changes

  lemma {:induction false} TryExecuteRuns(r: Replica) returns (cs: seq<Change>)
    requires r.cfg.Valid()
    ensures Runs(r, cs, TryExecute(r))
    ensures forall c :: c in cs ==> c.Skip? || c.Execute?
    decreases |Ahead(r)|
  {
    cs := [];
    if CanSkip(r) {
      var q := r.(execSeq := r.execSeq + 1);
      assert Ahead(q) == Ahead(r) - {r.execSeq} && r.execSeq in Ahead(r);
      var rest := TryExecuteRuns(q);
      One(r, Skip, rest, TryExecute(r));
      cs := [Skip] + rest;
    } else if CanExecute(r) {
      assert Ahead(ExecuteNext(r)) == Ahead(r) - {r.execSeq} && r.execSeq in Ahead(r);
      var rest := TryExecuteRuns(ExecuteNext(r));
      One(r, Execute, rest, TryExecute(r));
      cs := [Execute] + rest;
    }
  }

  /** A certificate that the collector has just built and stored only lets it execute. */
  lemma OwnCommitCertRuns(r: Replica, cert: Certificate) returns (cs: seq<Change>)
    requires r.cfg.Valid() && cert.seqNo in r.log && r.log[cert.seqNo].commitCert == Some(cert)
    ensures Runs(r, cs, OnCommitCert(r, cert)) && AllCalm(cs)
  {
    cs := [];
    assert r.Put(cert.seqNo, r.log[cert.seqNo].(commitCert := Some(cert))) == r by {
      assert r.log[cert.seqNo := r.log[cert.seqNo]] == r.log;
    }
    if OnCommitCert(r, cert) != r {
      cs := TryExecuteRuns(r);
    }
  }

  /** A full set of votes becomes a certificate, which the collector handles itself. */
  lemma CommitReadyRuns(r: Replica, s: int) returns (cs: seq<Change>)
    requires r.cfg.Valid() && s in r.log && EnabledCommit(r, s)
    ensures Runs(r, cs, CommitReady(r, s, r.log[s])) && AllCalm(cs)
  {
    var slot := r.log[s];
    var cert := BuildCert(r, s, slot, slot.commits).value;
    var c := CertifyCommit(s, cert);
    var rest := OwnCommitCertRuns(Apply(r, c), cert);
    One(r, c, rest, CommitReady(r, s, slot));
    cs := [c] + rest;
  }

  predicate EnabledCommit(r: Replica, s: int)
    requires r.cfg.Valid() && s in r.log
  {
    && r.IsPrimary() && r.log[s].commitCert == None && r.log[s].digest.Some?
    && BuildCert(r, s, r.log[s], r.log[s].commits).Some?
    && r.log[s].prepareCert.Some?
  }

  lemma OnCommitRuns(r: Replica, from: int, s: int, view: int, d: Digest, sig: Signature)
    returns (cs: seq<Change>)
    requires r.cfg.Valid()
    ensures Runs(r, cs, OnCommit(r, from, s, view, d, sig)) && AllCalm(cs)
  {
    cs := [];
    var q := OnCommit(r, from, s, view, d, sig);
    if q != r {
      var c := CommitVote(s, from, sig);
      var r1 := Apply(r, c);
      if |r1.log[s].commits| >= r.cfg.Quorum() && r1.log[s].commitCert == None {
        cs := CommitReadyRuns(r1, s);
        SameReady(r, r1, s);
      }
      One(r, c, cs, q);
      cs := [c] + cs;
    }
  }

  lemma PutTwice(log: map<int, Slot>, s: int, a: Slot, b: Slot)
    ensures log[s := a][s := b] == log[s := b]
  {
  }

  /** Writing the slot first makes no difference to what becomes of it. */
  lemma SameReady(r: Replica, r1: Replica, s: int)
    requires r.cfg.Valid() && s in r1.log && r1 == r.Put(s, r1.log[s])
    ensures CommitReady(r1, s, r1.log[s]) == CommitReady(r, s, r1.log[s])
    ensures PrepareReady(r1, s, r1.log[s]) == PrepareReady(r, s, r1.log[s])
  {
    var slot := r1.log[s];
    if BuildCert(r, s, slot, slot.commits).Some? {
      PutTwice(r.log, s, slot, slot.(commitCert := BuildCert(r, s, slot, slot.commits)));
    }
    if BuildCert(r, s, slot, slot.prepares).Some? {
      PutTwice(r.log, s, slot, slot.(prepareCert := BuildCert(r, s, slot, slot.prepares)));
    }
    PutTwice(r.log, s, slot, slot);
  }

  lemma SendCommitRuns(r: Replica, s: int, d: Digest) returns (cs: seq<Change>)
    requires r.cfg.Valid() && Matches(r, s, d) && r.log[s].prepareCert.Some?
    ensures Runs(r, cs, SendCommit(r, s, r.view, d)) && AllCalm(cs)
  {
    var sig := Signature(r.cfg.self, CommitSig, s, r.view, d);
    cs := [];
    if r.IsPrimary() {
      cs := OnCommitRuns(r.Sign(sig), r.cfg.self, s, r.view, d, sig);
    }
    One(r, Endorse(sig), cs, SendCommit(r, s, r.view, d));
    cs := [Endorse(sig)] + cs;
  }

  lemma OwnPrepareCertRuns(r: Replica, cert: Certificate) returns (cs: seq<Change>)
    requires r.cfg.Valid() && cert.seqNo in r.log && r.log[cert.seqNo].prepareCert == Some(cert)
    ensures Runs(r, cs, OnPrepareCert(r, cert)) && AllCalm(cs)
  {
    cs := [];
    assert r.Put(cert.seqNo, r.log[cert.seqNo].(prepareCert := Some(cert))) == r by {
      assert r.log[cert.seqNo := r.log[cert.seqNo]] == r.log;
    }
    if cert.view == r.view && VerifyCert(r.cfg, cert, PrepareSig) && Matches(r, cert.seqNo, cert.digest) {
      cs := SendCommitRuns(r, cert.seqNo, cert.digest);
    }
  }

  /** A full set of votes becomes a certificate, which the collector handles itself. */
  lemma PrepareReadyRuns(r: Replica, s: int) returns (cs: seq<Change>)
    requires r.cfg.Valid() && s in r.log && EnabledPrepare(r, s)
    ensures Runs(r, cs, PrepareReady(r, s, r.log[s])) && AllCalm(cs)
  {
    var slot := r.log[s];
    var cert := BuildCert(r, s, slot, slot.prepares).value;
    var c := CertifyPrepare(s, cert);
    var rest := OwnPrepareCertRuns(Apply(r, c), cert);
    One(r, c, rest, PrepareReady(r, s, slot));
    cs := [c] + rest;
  }

  predicate EnabledPrepare(r: Replica, s: int)
    requires r.cfg.Valid() && s in r.log
  {
    && r.IsPrimary() && r.log[s].prepareCert == None && r.log[s].digest.Some?
    && BuildCert(r, s, r.log[s], r.log[s].prepares).Some?
    && r.log[s].prePrepare
  }

  lemma OnPrepareRuns(r: Replica, from: int, s: int, view: int, d: Digest, sig: Signature)
    returns (cs: seq<Change>)
    requires r.cfg.Valid()
    ensures Runs(r, cs, OnPrepare(r, from, s, view, d, sig)) && AllCalm(cs)
  {
    cs := [];
    var q := OnPrepare(r, from, s, view, d, sig);
    if q != r {
      var c := Vote(s, from, sig);
      var r1 := Apply(r, c);
      if |r1.log[s].prepares| >= r.cfg.Quorum() && r1.log[s].prepareCert == None {
        cs := PrepareReadyRuns(r1, s);
        SameReady(r, r1, s);
      }
      One(r, c, cs, q);
      cs := [c] + cs;
    }
  }

  lemma SendPrepareRuns(r: Replica, s: int, d: Digest) returns (cs: seq<Change>)
    requires r.cfg.Valid() && Matches(r, s, d)
    ensures Runs(r, cs, SendPrepare(r, s, r.view, d)) && AllCalm(cs)
  {
    var sig := Signature(r.cfg.self, PrepareSig, s, r.view, d);
    cs := [];
    if !(r.cfg.byzantineBackup && !r.IsPrimary()) {
      if r.IsPrimary() {
        cs := OnPrepareRuns(r.Sign(sig), r.cfg.self, s, r.view, d, sig);
      }
      One(r, Endorse(sig), cs, SendPrepare(r, s, r.view, d));
      cs := [Endorse(sig)] + cs;
    }
  }

  lemma ProcessRuns(r: Replica, s: int, d: Digest, req: Request) returns (cs: seq<Change>)
    requires r.cfg.Valid() && Matches(r, s, d) && r.log[s].req == req
    ensures Runs(r, cs, ProcessPrePrepare(r, s, r.view, d, req)) && AllQuiet(cs) && Opening(s, cs)
  {
    var q := ProcessPrePrepare(r, s, r.view, d, req);
    cs := [];
    if r.cfg.byzantineBackup && !r.IsPrimary() {
    } else if !ValidateRequest(r.ledger, req, s) {
      if r.IsPrimary() && Insufficient(r.ledger, req) {
        One(r, Note(Rejected(req)), [], q);
        cs := [Note(Rejected(req))];
      }
    } else if IsCommitPhaseOp(req.op) {
      if LocksHeldForCommitOp(r.ledger, req) {
        cs := SendPrepareRuns(r, s, d);
      }
    } else {
      var r1 := Apply(r, LockSlot(s));
      if EnsureAll(r.ledger, LockItems(req), s).1 {
        cs := SendPrepareRuns(r1, s, d);
      }
      One(r, LockSlot(s), cs, q);
      cs := [LockSlot(s)] + cs;
    }
  }

  /** A backup accepts a proposal, or ignores the message. */
  lemma OnPrePrepareRuns(r: Replica, s: int, view: int, d: Digest, req: Request) returns (cs: seq<Change>)
    requires r.cfg.Valid()
    ensures Runs(r, cs, OnPrePrepare(r, s, view, d, req))
    ensures cs == [] || (cs[0] == Accept(s, d, req) && view == r.view && AllQuiet(cs[1..]) && Opening(s, cs[1..]))
  {
    cs := [];
    var q := OnPrePrepare(r, s, view, d, req);
    if view == r.view && OpMatchesCluster(r.cfg, req) && GapClear(r, s)
       && !(s in r.log && r.log[s].prePrepare && !r.log[s].discarded) {
      var c := Accept(s, d, req);
      var rest := ProcessRuns(Apply(r, c), s, d, req);
      One(r, c, rest, q);
      cs := [c] + rest;
    }
  }

  lemma OnPrepareCertRuns(r: Replica, cert: Certificate) returns (cs: seq<Change>)
    requires r.cfg.Valid()
    ensures Runs(r, cs, OnPrepareCert(r, cert))
    ensures cs == [] || (cs[0] == StorePrepare(cert) && AllCalm(cs[1..]))
  {
    cs := [];
    if cert.view == r.view && VerifyCert(r.cfg, cert, PrepareSig) && Matches(r, cert.seqNo, cert.digest) {
      var c := StorePrepare(cert);
      var rest := SendCommitRuns(Apply(r, c), cert.seqNo, cert.digest);
      One(r, c, rest, OnPrepareCert(r, cert));
      cs := [c] + rest;
    }
  }

  lemma OnCommitCertRuns(r: Replica, cert: Certificate) returns (cs: seq<Change>)
    requires r.cfg.Valid()
    ensures Runs(r, cs, OnCommitCert(r, cert))
    ensures cs == [] || (cs[0] == StoreCommit(cert) && AllCalm(cs[1..]))
  {
    cs := [];
    if cert.view == r.view && VerifyCert(r.cfg, cert, CommitSig) && Matches(r, cert.seqNo, cert.digest) {
      var c := StoreCommit(cert);
      var rest := TryExecuteRuns(Apply(r, c));
      One(r, c, rest, OnCommitCert(r, cert));
      cs := [c] + rest;
    }
  }

  lemma {:induction false} AcquireAllFrame(l: Ledger, items: seq<int>, s: int)
    ensures var m := AcquireAll(l, items, s).0;
      && m == l.(locks := m.locks)
      && (forall k :: k in l.locks ==> k in m.locks && m.locks[k] == l.locks[k])
      && (forall k :: k in m.locks ==> k in l.locks || k in items)
    decreases |items|
  {
    if items != [] && !l.IsLocked(items[0]) {
      AcquireAllFrame(l.Acquire(items[0], s), items[1..], s);
      assert items == [items[0]] + items[1..];
    }
  }

  /** Giving up half-taken locks leaves the lock table as it was. */
  lemma FailedLocksReleased(l: Ledger, req: Request, s: int)
    requires CanAcquire(l, req)
    ensures ReleaseAll(AcquireAll(l, LockItems(req), s).0, LockItems(req)) == l
  {
    var items := LockItems(req);
    var m := AcquireAll(l, items, s).0;
    AcquireAllFrame(l, items, s);
    var back := m.locks - (set i | i in items);
    forall k ensures (k in back <==> k in l.locks) && (k in back ==> back[k] == l.locks[k]) {
      assert k in items ==> k !in l.locks by {
        if k in items {
          assert !l.IsLocked(k);
        }
      }
    }
    assert back == l.locks;
  }

  lemma DropRuns(r: Replica, req: Request) returns (cs: seq<Change>)
    requires r.cfg.Valid()
    ensures Runs(r, cs, DropCrossPrepare(r, req)) && OnlyNotes(req, cs)
  {
    cs := [];
    if req.op == CoordPrepare {
      One(r, Note(Dropped(req)), [], DropCrossPrepare(r, req));
      cs := [Note(Dropped(req))];
    }
  }

  lemma RefuseRuns(r: Replica, req: Request) returns (cs: seq<Change>)
    requires r.cfg.Valid()
    ensures Runs(r, cs, Refuse(r, req)) && OnlyNotes(req, cs)
  {
    if r.IsPrimary() && Insufficient(r.ledger, req) {
      var rest := DropRuns(r.Call(Rejected(req)), req);
      One(r, Note(Rejected(req)), rest, Refuse(r, req));
      cs := [Note(Rejected(req))] + rest;
    } else {
      cs := DropRuns(r, req);
    }
  }

  lemma OfferRuns(r: Replica, req: Request) returns (cs: seq<Change>)
    requires r.cfg.Valid() && Enabled(r, Offer(req))
    ensures Runs(r, cs, ProcessPrePrepare(
      Propose(r, req, OfferLedger(r, req)), r.nextSeq, r.view, DigestOf(req), req))
    ensures cs != [] && cs[0] == Offer(req) && AllQuiet(cs[1..]) && Opening(r.nextSeq, cs[1..])
  {
    var r1 := Apply(r, Offer(req));
    var rest := ProcessRuns(r1, r.nextSeq, DigestOf(req), req);
    One(r, Offer(req), rest, ProcessPrePrepare(r1, r.nextSeq, r.view, DigestOf(req), req));
    cs := [Offer(req)] + rest;
  }

  lemma BurnRuns(r: Replica, req: Request) returns (cs: seq<Change>)
    requires r.cfg.Valid() && ValidateForStart(r, req) && req.op != Unset
    ensures Runs(r, cs, Burned(r, req))
    ensures cs != [] && cs[0] == Burn && OnlyNotes(req, cs[1..])
  {
    cs := [];
    if !IsCommitPhaseOp(req.op) {
      assert CanAcquire(r.ledger, req);
      FailedLocksReleased(r.ledger, req, r.nextSeq);
      cs := DropRuns(Apply(r, Burn), req);
    }
    One(r, Burn, cs, Burned(r, req));
    cs := [Burn] + cs;
  }

  /** A primary offers the request under a new number, burns the number, or only answers. */
  lemma StartConsensusRuns(r: Replica, req0: Request) returns (cs: seq<Change>)
    requires r.cfg.Valid()
    ensures Runs(r, cs, StartConsensus(r, req0))
    ensures Starting(r.nextSeq, req0.(op := Normal(req0.op)), cs)
  {
    var req := req0.(op := Normal(req0.op));
    if r.IsPrimary() && !IsCommitPhaseOp(req.op) && r.cfg.HonestLive() < r.cfg.Quorum() {
      cs := DropRuns(r, req);
    } else if !ValidateForStart(r, req) {
      cs := [];
      if r.IsPrimary() {
        cs := RefuseRuns(r, req);
      }
    } else if Enabled(r, Offer(req)) {
      cs := OfferRuns(r, req);
    } else {
      cs := BurnRuns(r, req);
    }
  }

  lemma SkipIfStuckRuns(r: Replica, s: int) returns (cs: seq<Change>)
    requires r.cfg.Valid() && s in r.log && r.log[s].discarded
    ensures Runs(r, cs, SkipIfStuck(r, s)) && AllCalm(cs)
  {
    cs := [];
    if r.execSeq == s {
      One(r, Skip, [], SkipIfStuck(r, s));
      cs := [Skip];
    }
  }

  /** A discarded slot is wiped, skipped if execution waits for it, and execution resumes. */
  lemma OnDiscardRuns(r: Replica, s: int, view: int) returns (cs: seq<Change>)
    requires r.cfg.Valid() && (r.IsPrimary() && s in r.log ==> r.log[s].prepareCert == None)
    ensures Runs(r, cs, OnDiscard(r, s, view))
    ensures cs == [] || (cs[0] == Discard(s) && view == r.view && AllCalm(cs[1..]))
  {
    cs := [];
    if view == r.view && s in r.log && !r.log[s].executed && r.log[s].commitCert == None {
      var r1 := Apply(r, Discard(s));
      var a := SkipIfStuckRuns(r1, s);
      var b := TryExecuteRuns(SkipIfStuck(r1, s));
      Then(r1, a, SkipIfStuck(r1, s), b, OnDiscard(r, s, view));
      One(r, Discard(s), a + b, OnDiscard(r, s, view));
      cs := [Discard(s)] + (a + b);
    }
  }

  /** The same at a replica that may hold a prepare certificate as primary. */
  lemma WipeRuns(r: Replica, s: int, view: int) returns (cs: seq<Change>)
    requires r.cfg.Valid()
    ensures Runs(r, cs, OnDiscard(r, s, view))
    ensures cs == [] || (cs[0] == Wipe(s) && view == r.view && AllCalm(cs[1..]))
  {
    cs := [];
    if view == r.view && s in r.log && !r.log[s].executed && r.log[s].commitCert == None {
      var r1 := Apply(r, Wipe(s));
      var a := SkipIfStuckRuns(r1, s);
      var b := TryExecuteRuns(SkipIfStuck(r1, s));
      Then(r1, a, SkipIfStuck(r1, s), b, OnDiscard(r, s, view));
      One(r, Wipe(s), a + b, OnDiscard(r, s, view));
      cs := [Wipe(s)] + (a + b);
    }
  }

  /** What a reclaim consists of. */
  predicate Reclaiming(c: Change, s: int) {
    Quiet(c) || c == Discard(s) || c == Rollback(s) || c == Announce(s)
  }

  lemma RollbackRuns(r: Replica, s: int) returns (cs: seq<Change>)
    requires r.cfg.Valid() && s in r.log && r.log[s].discarded
    ensures Runs(r, cs, RolledBack(r, s))
    ensures cs == [] || cs == [Rollback(s)]
  {
    cs := [];
    if r.nextSeq == s + 1 {
      One(r, Rollback(s), [], r.(nextSeq := s));
      cs := [Rollback(s)];
    }
  }

  /** The first half of a reclaim: skip the slot, tell the coordinator, take the number back. */
  lemma RetractRuns(r: Replica, s: int, req: Request) returns (cs: seq<Change>)
    requires r.cfg.Valid() && s in r.log && r.log[s].discarded
    ensures Runs(r, cs, RolledBack(DropCrossPrepare(SkipIfStuck(r, s), req), s))
    ensures forall c :: c in cs ==> Reclaiming(c, s)
  {
    var r2 := SkipIfStuck(r, s);
    var r3 := DropCrossPrepare(r2, req);
    var a := SkipIfStuckRuns(r, s);
    var b := DropRuns(r2, req);
    Then(r, a, r2, b, r3);
    var c := RollbackRuns(r3, s);
    Then(r, a + b, r3, c, RolledBack(r3, s));
    cs := a + b + c;
  }

  /** The second half: announce the discard and handle it as every replica does. */
  lemma AnnounceRuns(r: Replica, s: int) returns (cs: seq<Change>)
    requires r.cfg.Valid() && s in r.log && r.log[s].discarded && r.IsPrimary() && r.log[s].prepareCert == None
    ensures Runs(r, cs, OnDiscard(r.Send(DiscardMsg(s, r.view)), s, r.view))
    ensures forall c :: c in cs ==> Reclaiming(c, s)
  {
    var d := OnDiscardRuns(r.Send(DiscardMsg(s, r.view)), s, r.view);
    One(r, Announce(s), d, OnDiscard(r.Send(DiscardMsg(s, r.view)), s, r.view));
    cs := [Announce(s)] + d;
  }

  lemma ReclaimRuns(r: Replica, s: int) returns (cs: seq<Change>)
    requires r.cfg.Valid() && s in r.log
    ensures Runs(r, cs, Reclaim(r, s, r.log[s].req))
    ensures forall c :: c in cs ==> Reclaiming(c, s)
  {
    cs := [];
    if CanReclaim(r, s) {
      var req := r.log[s].req;
      var r1 := Apply(r, Discard(s));
      var a := RetractRuns(r1, s, req);
      var r2 := RolledBack(DropCrossPrepare(SkipIfStuck(r1, s), req), s);
      assert r2.log == r1.log && r2.cfg == r.cfg && r2.view == r.view;
      var b := AnnounceRuns(r2, s);
      Then(r1, a, r2, b, Reclaim(r, s, req));
      One(r, Discard(s), a + b, Reclaim(r, s, req));
      cs := [Discard(s)] + (a + b);
    }
  }

  /** Entering a new view: a slot is overwritten without being wiped. */
  lemma AcceptNewViewRuns(r: Replica, m: Msg) returns (cs: seq<Change>)
    requires r.cfg.Valid() && m.PrePrepareMsg? && m.view == r.view
    ensures Runs(r, cs, AcceptNewView(r, m))
    ensures forall c :: c in cs ==> Quiet(c) || c == Adopt(m.seqNo, m.digest, m.req) || c == AdoptLocks(m.seqNo)
  {
    cs := [];
    if r.cfg.top.SameCluster(m.req.x, m.req.y) && GapClear(r, m.seqNo) {
      var c := Adopt(m.seqNo, m.digest, m.req);
      if Matches(r, m.seqNo, m.digest) {
        assert r.log[m.seqNo := r.log[m.seqNo]] == r.log;
      } else {
        var rest := AdoptedRuns(Apply(r, c), m);
        One(r, c, rest, AcceptNewView(r, m));
        cs := [c] + rest;
      }
    }
  }

  lemma AdoptedRuns(q: Replica, m: Msg) returns (cs: seq<Change>)
    requires q.cfg.Valid() && m.PrePrepareMsg? && m.view == q.view
    requires Matches(q, m.seqNo, m.digest) && q.log[m.seqNo].req == m.req
    ensures Runs(q, cs, Adopted(q, m))
    ensures forall c :: c in cs ==> Quiet(c) || c == AdoptLocks(m.seqNo)
  {
    cs := [];
    if !q.IsPrimary() {
      cs := ProcessRuns(q, m.seqNo, m.digest, m.req);
    } else if CanAcquire(q.ledger, m.req) {
      var q1 := Apply(q, AdoptLocks(m.seqNo));
      if AcquireAll(q.ledger, LockItems(m.req), m.seqNo).1 {
        cs := ProcessRuns(q1, m.seqNo, m.digest, m.req);
      }
      One(q, AdoptLocks(m.seqNo), cs, Adopted(q, m));
      cs := [AdoptLocks(m.seqNo)] + cs;
    }
  }
}
