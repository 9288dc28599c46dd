/** The consensus engine as the object that the program runs: fields and a store that its handlers
    change in place (pbft/engine.go).  Each handler is proved to compute its function of module Pbft. */
module Engines {
  import opened Types
  import opened Ledgers
  import opened Ordering
  import opened Pbft
  import opened Stores
  import Certificates
  import Quorums

  lemma {:induction false} AcquireFrom(l: Ledger, items: seq<int>, s: int, k: nat)
    requires k <= |items| && AcquireAll(l, items[..k], s).1
    ensures AcquireAll(l, items, s) == AcquireAll(AcquireAll(l, items[..k], s).0, items[k..], s)
    decreases k
  {
    if k > 0 {
      assert items[..k][1..] == items[1..][..k - 1] && items[1..][k - 1..] == items[k..];
      assert items[..k][0] == items[0];
      AcquireFrom(l.Acquire(items[0], s), items[1..], s, k - 1);
    } else {
      assert items[..0] == [] && items[0..] == items;
    }
  }

  lemma {:induction false} EnsureFrom(l: Ledger, items: seq<int>, s: int, k: nat)
    requires k <= |items| && EnsureAll(l, items[..k], s).1
    ensures EnsureAll(l, items, s) == EnsureAll(EnsureAll(l, items[..k], s).0, items[k..], s)
    decreases k
  {
    if k > 0 {
      assert items[..k][1..] == items[1..][..k - 1] && items[1..][k - 1..] == items[k..];
      assert items[..k][0] == items[0];
      EnsureFrom(l.Acquire(items[0], s), items[1..], s, k - 1);
    } else {
      assert items[..0] == [] && items[0..] == items;
    }
  }

  class Engine {
    const cfg: Config
    const store: Store
    var view: int
    var nextSeq: int
    var execSeq: int
    var log: map<int, Slot>
    var sent: set<Msg>
    var signed: set<Signature>
    var executed: seq<Executed>
    var hooks: seq<Hook>

    ghost predicate Valid()
      reads this, store
    {
      cfg.Valid() && store.Valid() && store.first == 0
    }

    /** The engine and its store as a value. */
    ghost function State(): Replica
      reads this, store
      requires Valid()
    {
      Replica(cfg, view, nextSeq, execSeq, log, store.Value(), sent, signed, executed, hooks)
    }

    /** Record numbers are 64 bits wide: there is room for what waits for execution and `more`. */
    ghost predicate Room(more: nat)
      reads this, store
      requires Valid()
    {
      store.Next() + |Ahead(State())| + more <= LIMIT
    }

    constructor (cfg_: Config, store_: Store)
      requires cfg_.Valid() && store_.Valid() && store_.first == 0
      ensures cfg == cfg_ && store == store_ && Valid()
      ensures State() == Boot(cfg_, store_.initial).(ledger := store_.Value())
    {
      cfg, store := cfg_, store_;
      view, nextSeq, execSeq := 0, 1, 1;
      log, sent, signed, executed, hooks := map[], {}, {}, [], [];
    }

    // -------------------------------------------------------------- queries

    method IsPrimary() returns (primary: bool)
      requires Valid()
      ensures primary == State().IsPrimary()
    {
      primary := cfg.top.PrimaryOf(cfg.cluster, view) == cfg.self;
    }

    /** Walks all numbers below `s`, passing over those already executed. */
    method GapClearLocked(s: int) returns (ok: bool)
      requires Valid()
      ensures ok == GapClear(State(), s)
    {
      var i := 1;
      while i < s
        invariant i >= 1
        invariant forall j :: 1 <= j < i && j < s && j >= execSeq ==> j in log && (log[j].discarded || log[j].prePrepare)
      {
        if i >= execSeq {
          if i !in log {
            return false;
          }
          if !log[i].discarded && !log[i].prePrepare {
            return false;
          }
        }
        i := i + 1;
      }
      ok := true;
    }

    /** Scans the slots in any order. */
    method ClientTxnInFlight(req: Request) returns (found: bool)
      requires Valid()
      ensures found == TxnInFlight(State(), req)
    {
      var key, left := TxnOf(req), log.Keys;
      while left != {}
        invariant left <= log.Keys
        invariant forall s :: s in log && s !in left ==>
          log[s].discarded || log[s].executed || !log[s].prePrepare || TxnOf(log[s].req) != key
        decreases |left|
      {
        EmptyWithout(left);
        var s :| s in left;
        var slot := log[s];
        if !slot.discarded && !slot.executed && slot.prePrepare && TxnOf(slot.req) == key {
          return true;
        }
        left := left - {s};
      }
      found := false;
    }

    method CanAcquireForOp(req: Request) returns (ok: bool)
      requires Valid()
      ensures ok == CanAcquire(store.Value(), req)
    {
      var items := LockItems(req);
      for k := 0 to |items|
        invariant forall j :: 0 <= j < k ==> !store.Value().IsLocked(items[j])
      {
        assert items[k] in items;
        if items[k] in store.locks {
          return false;
        }
      }
      ok := true;
    }

    method LocksReadyForSeq(s: int, req: Request) returns (ok: bool)
      requires Valid()
      ensures ok == LocksReady(store.Value(), s, req)
    {
      var items := LockItems(req);
      for k := 0 to |items|
        invariant forall j :: 0 <= j < k ==> !store.Value().IsLocked(items[j]) || store.Value().LockSeq(items[j]) == s
      {
        assert items[k] in items;
        if items[k] in store.locks && store.locks[items[k]] != s {
          return false;
        }
      }
      ok := true;
    }

    // -------------------------------------------------------------- locks

    /** Takes the locks one by one and stops at the first that is held. */
    method AcquireLocksForOp(s: int, req: Request) returns (ok: bool)
      requires Valid()
      modifies store`locks
      ensures Valid() && (store.Value(), ok) == AcquireAll(old(store.Value()), LockItems(req), s)
    {
      var items := LockItems(req);
      for k := 0 to |items|
        invariant Valid() && (store.Value(), true) == AcquireAll(old(store.Value()), items[..k], s)
      {
        AcquireFrom(old(store.Value()), items, s, k);
        AcquireFrom(old(store.Value()), items[..k + 1], s, k);
        assert items[..k + 1][..k] == items[..k] && items[..k + 1][k..] == [items[k]];
        var taken := store.AcquireLock(items[k], s);
        if !taken {
          return false;
        }
      }
      assert items[..|items|] == items;
      ok := true;
    }

    method EnsureLocksForOp(s: int, req: Request) returns (ok: bool)
      requires Valid()
      modifies store`locks
      ensures Valid() && (store.Value(), ok) == EnsureAll(old(store.Value()), LockItems(req), s)
    {
      var items := LockItems(req);
      for k := 0 to |items|
        invariant Valid() && (store.Value(), true) == EnsureAll(old(store.Value()), items[..k], s)
      {
        EnsureFrom(old(store.Value()), items, s, k);
        EnsureFrom(old(store.Value()), items[..k + 1], s, k);
        assert items[..k + 1][..k] == items[..k] && items[..k + 1][k..] == [items[k]];
        var taken := store.AcquireLockForSeq(items[k], s);
        if !taken {
          return false;
        }
      }
      assert items[..|items|] == items;
      ok := true;
    }

    method ReleaseLocksForOp(req: Request)
      requires Valid()
      modifies store`locks
      ensures Valid() && store.Value() == ReleaseAll(old(store.Value()), LockItems(req))
    {
      var items := LockItems(req);
      for k := 0 to |items|
        invariant Valid() && store.Value() == ReleaseAll(old(store.Value()), items[..k])
      {
        store.ReleaseLock(items[k]);
      }
      assert items[..|items|] == items;
    }

    // -------------------------------------------------------------- executing

    method ExecuteIntra(req: Request, s: int)
      requires Valid() && Normal(req.op) == Intra && store.Next() < LIMIT
      modifies this`hooks, store
      ensures Valid() && store.Next() <= old(store.Next()) + 1
      ensures store.Value() == Exec(old(store.Value()), req, view)
      ensures hooks == old(hooks) + if old(store.Value()).Bal(req.x) < req.amt then [] else [Replied(req, s, Commit)]
    {
      var ok := store.ApplyTransfer(req.x, req.y, req.amt);
      if !ok {
        ReleaseLocksForOp(req);
        return;
      }
      store.AppendDatastore(MakeEntry(req, IntraTxn, CommitPhase, view, Commit));
      store.SetClientTS(req.client, req.ts);
      ReleaseLocksForOp(req);
      hooks := hooks + [Replied(req, s, Commit)];
    }

    method ExecuteCoordPrepare(req: Request, s: int, cert: Certificate)
      requires Valid() && req.op == CoordPrepare && store.Next() < LIMIT
      modifies this`hooks, store
      ensures Valid() && store.Next() <= old(store.Next()) + 1
      ensures store.Value() == Exec(old(store.Value()), req, view)
      ensures hooks == old(hooks) + if old(store.Value()).Bal(req.x) < req.amt then [] else [CoordPrepared(req, s, cert)]
    {
      var oldBal := store.GetBalance(req.x);
      var ok := store.ApplyDebitOnly(req.x, req.amt);
      if !ok {
        store.ReleaseLock(req.x);
        return;
      }
      store.WALWrite(TxnOf(req), map[req.x := oldBal]);
      store.AppendDatastore(MakeEntry(req, CrossTxn, PreparePhase, view, Commit));
      hooks := hooks + [CoordPrepared(req, s, cert)];
    }

    method ExecutePartPrepare(req: Request, s: int, cert: Certificate, outcome: Outcome)
      requires Valid() && req.op == (if outcome == Commit then PartPrepareCommit else PartPrepareAbort)
      requires store.Next() < LIMIT
      modifies this`hooks, store
      ensures Valid() && store.Next() <= old(store.Next()) + 1
      ensures store.Value() == Exec(old(store.Value()), req, view)
      ensures hooks == old(hooks) + [PartPrepared(req, s, cert, outcome)]
    {
      if outcome == Commit && TxnOf(req) !in store.wal {
        var oldBal := store.GetBalance(req.y);
        store.ApplyCreditOnly(req.y, req.amt);
        store.WALWrite(TxnOf(req), map[req.y := oldBal]);
      }
      store.AppendDatastore(MakeEntry(req, CrossTxn, PreparePhase, view, outcome));
      hooks := hooks + [PartPrepared(req, s, cert, outcome)];
    }

    method ExecuteCoordCommit(req: Request, s: int, cert: Certificate)
      requires Valid() && req.op == CoordCommit && store.Next() < LIMIT
      modifies this`hooks, store
      ensures Valid() && store.Next() <= old(store.Next()) + 1
      ensures store.Value() == Exec(old(store.Value()), req, view)
      ensures hooks == old(hooks) + [Replied(req, s, Commit), CoordFinal(req, s, cert, Commit)]
    {
      store.AppendDatastore(MakeEntry(req, CrossTxn, CommitPhase, view, Commit));
      store.WALDelete(TxnOf(req));
      store.ReleaseLock(req.x);
      store.SetClientTS(req.client, req.ts);
      hooks := hooks + [Replied(req, s, Commit)];
      hooks := hooks + [CoordFinal(req, s, cert, Commit)];
    }

    /** Undo and delete only what is there. */
    method UndoIfLogged(t: Digest)
      requires Valid()
      modifies store`balances, store`wal
      ensures Valid() && store.Value() == old(store.Value()).WalUndo(t).WalDelete(t)
    {
      if t in store.wal {
        var _ := store.WALUndo(t);
        store.WALDelete(t);
      } else {
        assert store.wal - {t} == store.wal;
      }
    }

    method ExecuteCoordAbort(req: Request, s: int, cert: Certificate)
      requires Valid() && req.op == CoordAbort && store.Next() < LIMIT
      modifies this`hooks, store
      ensures Valid() && store.Next() <= old(store.Next()) + 1
      ensures store.Value() == Exec(old(store.Value()), req, view)
      ensures hooks == old(hooks) + [Replied(req, s, Abort), CoordFinal(req, s, cert, Abort)]
    {
      UndoIfLogged(TxnOf(req));
      store.AppendDatastore(MakeEntry(req, CrossTxn, CommitPhase, view, Abort));
      ReleaseIfLocked(req.x);
      store.SetClientTS(req.client, req.ts);
      hooks := hooks + [Replied(req, s, Abort)];
      hooks := hooks + [CoordFinal(req, s, cert, Abort)];
    }

    method ReleaseIfLocked(item: int)
      requires Valid()
      modifies store`locks
      ensures Valid() && store.Value() == old(store.Value()).Release(item)
    {
      if item in store.locks {
        store.ReleaseLock(item);
      } else {
        assert store.locks - {item} == store.locks;
      }
    }

    method ExecutePartCommit(req: Request, s: int, cert: Certificate)
      requires Valid() && req.op == PartCommit && store.Next() < LIMIT
      modifies this`hooks, store
      ensures Valid() && store.Next() <= old(store.Next()) + 1
      ensures store.Value() == Exec(old(store.Value()), req, view)
      ensures hooks == old(hooks) + [PartFinal(req, s, cert, Commit)]
    {
      store.AppendDatastore(MakeEntry(req, CrossTxn, CommitPhase, view, Commit));
      store.WALDelete(TxnOf(req));
      ReleaseIfLocked(req.y);
      hooks := hooks + [PartFinal(req, s, cert, Commit)];
    }

    method ExecutePartAbort(req: Request, s: int, cert: Certificate)
      requires Valid() && req.op == PartAbort && store.Next() < LIMIT
      modifies this`hooks, store
      ensures Valid() && store.Next() <= old(store.Next()) + 1
      ensures store.Value() == Exec(old(store.Value()), req, view)
      ensures hooks == old(hooks) + [PartFinal(req, s, cert, Abort)]
    {
      UndoIfLogged(TxnOf(req));
      store.AppendDatastore(MakeEntry(req, CrossTxn, CommitPhase, view, Abort));
      ReleaseIfLocked(req.y);
      hooks := hooks + [PartFinal(req, s, cert, Abort)];
    }

    method ExecuteOp(req: Request, s: int, cert: Certificate)
      requires Valid() && store.Next() < LIMIT
      modifies this`hooks, store
      ensures Valid() && store.Next() <= old(store.Next()) + 1
      ensures store.Value() == Exec(old(store.Value()), req, view)
      ensures hooks == old(hooks) + HooksOf(old(store.Value()), req, s, cert)
    {
      match Normal(req.op)
      case Intra => ExecuteIntra(req, s);
      case CoordPrepare => ExecuteCoordPrepare(req, s, cert);
      case PartPrepareCommit => ExecutePartPrepare(req, s, cert, Commit);
      case PartPrepareAbort => ExecutePartPrepare(req, s, cert, Abort);
      case CoordCommit => ExecuteCoordCommit(req, s, cert);
      case CoordAbort => ExecuteCoordAbort(req, s, cert);
      case PartCommit => ExecutePartCommit(req, s, cert);
      case PartAbort => ExecutePartAbort(req, s, cert);
      case _ => ReleaseLocksForOp(req);
    }

    method ExecuteOne()
      requires Valid() && store.Next() < LIMIT && CanExecute(State())
      modifies this`execSeq, this`log, this`executed, this`hooks, store
      ensures Valid() && State() == ExecuteNext(old(State())) && store.Next() <= old(store.Next()) + 1
    {
      var s, slot := execSeq, log[execSeq];
      log := log[s := slot.(executed := true)];
      execSeq := execSeq + 1;
      executed := executed + [Executed(s, slot.req)];
      ExecuteOp(slot.req, s, slot.commitCert.value);
    }

    /** One round of the loop. */
    method StepOnce() returns (more: bool)
      requires Valid() && Room(0)
      modifies this`execSeq, this`log, this`executed, this`hooks, store
      ensures Valid() && Room(0) && TryExecute(State()) == TryExecute(old(State()))
      ensures if more then |Ahead(State())| < |Ahead(old(State()))|
        else State() == old(State()) && State() == TryExecute(State())
    {
      if CanSkip(State()) {
        assert State().execSeq in Ahead(State());
        assert Ahead(State().(execSeq := State().execSeq + 1)) == Ahead(State()) - {State().execSeq};
      } else if CanExecute(State()) {
        assert Ahead(ExecuteNext(State())) == Ahead(State()) - {State().execSeq} && State().execSeq in Ahead(State());
      }
      if execSeq !in log {
        return false;
      }
      if log[execSeq].discarded {
        execSeq := execSeq + 1;
        return true;
      }
      if log[execSeq].commitCert == None || log[execSeq].executed {
        return false;
      }
      ExecuteOne();
      more := true;
    }

    /** Steps over discarded slots and executes committed ones until there is nothing to do. */
    method TryExecuteAll()
      requires Valid() && Room(0)
      modifies this`execSeq, this`log, this`executed, this`hooks, store
      ensures Valid() && State() == TryExecute(old(State()))
    {
      var more := true;
      while more
        invariant Valid() && Room(0) && TryExecute(State()) == TryExecute(old(State()))
        invariant !more ==> State() == TryExecute(State())
        decreases |Ahead(State())|, more
      {
        more := StepOnce();
      }
    }

    // -------------------------------------------------------------- agreeing

    method OnCommitCertificate(cert: Certificate)
      requires Valid() && Room(0)
      modifies this, store
      ensures Valid() && State() == OnCommitCert(old(State()), cert)
    {
      if cert.view != view {
        return;
      }
      var ok := Certificates.CheckCert(cfg, cert, CommitSig);
      if !ok || cert.seqNo !in log {
        return;
      }
      var slot := log[cert.seqNo];
      if !slot.prePrepare || slot.digest != Some(cert.digest) {
        return;
      }
      log := log[cert.seqNo := slot.(commitCert := Some(cert))];
      assert Ahead(State()) == Ahead(old(State()));
      TryExecuteAll();
    }

    method CertifyCommit(s: int, slot: Slot)
      requires Valid() && Room(0) && s in log && slot.digest.Some? && slot.commitCert == None
      modifies this, store
      ensures Valid() && State() == CommitReady(old(State()), s, slot)
    {
      var cert := Certificates.BuildCertificate(State(), cfg.Quorum(), s, view, slot, slot.commits);
      log := log[s := slot.(commitCert := cert)];
      assert Ahead(State()) == Ahead(old(State()));
      if cert.Some? {
        sent := sent + {CommitCertMsg(cert.value)};
        OnCommitCertificate(cert.value);
      } else {
        assert slot.(commitCert := None) == slot;
      }
    }

    method OnCommitMsg(from: int, s: int, v: int, d: Digest, sig: Signature)
      requires Valid() && Room(0)
      modifies this, store
      ensures Valid() && State() == OnCommit(old(State()), from, s, v, d, sig)
    {
      var primary := IsPrimary();
      if !primary || v != view || s !in log {
        return;
      }
      var slot := log[s];
      if slot.prepareCert == None || slot.digest != Some(d) {
        return;
      }
      if !Verifies(from, CommitSig, s, v, d, sig) || !cfg.Known(from) || from in slot.commits {
        return;
      }
      slot := slot.(commits := slot.commits[from := sig]);
      if |slot.commits| >= cfg.Quorum() && slot.commitCert == None {
        CertifyCommit(s, slot);
      } else {
        log := log[s := slot];
      }
    }

    method SendCommitVote(s: int, v: int, d: Digest)
      requires Valid() && Room(0)
      modifies this, store
      ensures Valid() && State() == SendCommit(old(State()), s, v, d)
    {
      var sig := Signature(cfg.self, CommitSig, s, v, d);
      signed := signed + {sig};
      var primary := IsPrimary();
      assert Ahead(State()) == Ahead(old(State()));
      if primary {
        OnCommitMsg(cfg.self, s, v, d, sig);
      } else {
        sent := sent + {CommitMsg(cfg.self, s, v, d, sig)};
      }
    }

    method OnPrepareCertificate(cert: Certificate)
      requires Valid() && Room(0)
      modifies this, store
      ensures Valid() && State() == OnPrepareCert(old(State()), cert)
    {
      if cert.view != view {
        return;
      }
      var ok := Certificates.CheckCert(cfg, cert, PrepareSig);
      if !ok || cert.seqNo !in log {
        return;
      }
      var slot := log[cert.seqNo];
      if !slot.prePrepare || slot.digest != Some(cert.digest) {
        return;
      }
      log := log[cert.seqNo := slot.(prepareCert := Some(cert))];
      assert Ahead(State()) == Ahead(old(State()));
      SendCommitVote(cert.seqNo, cert.view, cert.digest);
    }

    method CertifyPrepare(s: int, slot: Slot)
      requires Valid() && Room(0) && s in log && slot.digest.Some? && slot.prepareCert == None
      modifies this, store
      ensures Valid() && State() == PrepareReady(old(State()), s, slot)
    {
      var cert := Certificates.BuildCertificate(State(), cfg.Quorum(), s, view, slot, slot.prepares);
      log := log[s := slot.(prepareCert := cert)];
      assert Ahead(State()) == Ahead(old(State()));
      if cert.Some? {
        sent := sent + {PrepareCertMsg(cert.value)};
        OnPrepareCertificate(cert.value);
      } else {
        assert slot.(prepareCert := None) == slot;
      }
    }

    method OnPrepareMsg(from: int, s: int, v: int, d: Digest, sig: Signature)
      requires Valid() && Room(0)
      modifies this, store
      ensures Valid() && State() == OnPrepare(old(State()), from, s, v, d, sig)
    {
      var primary := IsPrimary();
      if !primary || v != view || s !in log {
        return;
      }
      var slot := log[s];
      if !slot.prePrepare || slot.digest != Some(d) {
        return;
      }
      if !Verifies(from, PrepareSig, s, v, d, sig) || !cfg.Known(from) || from in slot.prepares {
        return;
      }
      slot := slot.(prepares := slot.prepares[from := sig]);
      if |slot.prepares| >= cfg.Quorum() && slot.prepareCert == None {
        CertifyPrepare(s, slot);
      } else {
        log := log[s := slot];
      }
    }

    method SendPrepareVote(s: int, v: int, d: Digest)
      requires Valid() && Room(0)
      modifies this, store
      ensures Valid() && State() == SendPrepare(old(State()), s, v, d)
    {
      var primary := IsPrimary();
      if cfg.byzantineBackup && !primary {
        return;
      }
      var sig := Signature(cfg.self, PrepareSig, s, v, d);
      signed := signed + {sig};
      assert Ahead(State()) == Ahead(old(State()));
      if primary {
        OnPrepareMsg(cfg.self, s, v, d, sig);
      } else {
        sent := sent + {PrepareMsg(cfg.self, s, v, d, sig)};
      }
    }

    method ValidateRequestNow(req: Request, s: int) returns (ok: bool)
      requires Valid()
      ensures ok == ValidateRequest(store.Value(), req, s)
    {
      var bal := store.GetBalance(req.x);
      var ts := if req.client in store.clientTS then store.clientTS[req.client] else 0;
      if Normal(req.op) == Intra && ts >= req.ts {
        return false;
      }
      if Normal(req.op) in {Intra, CoordPrepare} && bal < req.amt {
        return false;
      }
      if req.op == PartPrepareAbort || IsCommitPhaseOp(req.op) {
        return LocksHeldNow(req);
      }
      ok := LocksReadyForSeq(s, req);
    }

    function LocksHeldNow(req: Request): (held: bool)
      reads store
      requires store.Valid()
      ensures held == LocksHeldForCommitOp(store.Value(), req)
    {
      match req.op
      case CoordCommit => req.x in store.locks
      case CoordAbort => req.x in store.locks
      case PartCommit => req.y in store.locks
      case PartAbort => req.y in store.locks
      case _ => true
    }

    method ProcessPrePrepareMsg(s: int, v: int, d: Digest, req: Request)
      requires Valid() && Room(0)
      modifies this, store
      ensures Valid() && State() == ProcessPrePrepare(old(State()), s, v, d, req)
    {
      var primary := IsPrimary();
      if cfg.byzantineBackup && !primary {
        return;
      }
      var ok := ValidateRequestNow(req, s);
      if !ok {
        var bal := store.GetBalance(req.x);
        if primary && Normal(req.op) in {Intra, CoordPrepare} && bal < req.amt {
          hooks := hooks + [Rejected(req)];
        }
        return;
      }
      if IsCommitPhaseOp(req.op) {
        if !LocksHeldNow(req) {
          return;
        }
      } else {
        var ready := EnsureLocksForOp(s, req);
        assert Ahead(State()) == Ahead(old(State()));
        if !ready {
          return;
        }
      }
      SendPrepareVote(s, v, d);
    }

    /** The slot of a number, made when it is first needed. */
    method EnsureSeqLocked(s: int) returns (slot: Slot)
      requires Valid()
      modifies this`log
      ensures Valid() && slot == SlotAt(old(State()), s) && State() == old(State()).Put(s, slot)
    {
      if s !in log {
        log := log[s := EmptySlot];
      }
      slot := log[s];
      assert log == old(log)[s := slot];
    }

    /** A discarded slot is wiped before it carries a new proposal. */
    method PutProposal(s: int, d: Digest, req: Request)
      requires Valid()
      modifies this`log
      ensures Valid() && State() == old(State()).Put(s, Proposed(SlotAt(old(State()), s), d, req))
    {
      var slot := EnsureSeqLocked(s);
      if slot.discarded {
        slot := slot.(discarded := false, prepares := map[], commits := map[],
                      prepareCert := None, commitCert := None, executed := false);
      }
      slot := slot.(digest := Some(d), req := req, prePrepare := true);
      log := log[s := slot];
    }

    method OnPrePrepareMsg(s: int, v: int, d: Digest, req: Request)
      requires Valid() && Room(1)
      modifies this, store
      ensures Valid() && State() == OnPrePrepare(old(State()), s, v, d, req)
    {
      if v != view || !OpMatchesCluster(cfg, req) {
        return;
      }
      var clear := GapClearLocked(s);
      if !clear {
        return;
      }
      if s in log && log[s].prePrepare && !log[s].discarded {
        return;
      }
      PutProposal(s, d, req);
      AheadPut(old(State()), s, log[s]);
      ProcessPrePrepareMsg(s, v, d, req);
    }

    // -------------------------------------------------------------- proposing

    method DropCrossPrepareNow(req: Request)
      requires Valid()
      modifies this`hooks
      ensures Valid() && State() == DropCrossPrepare(old(State()), req)
    {
      if req.op == CoordPrepare {
        hooks := hooks + [Dropped(req)];
      }
    }

    method ValidateForStartNow(req: Request) returns (ok: bool)
      requires Valid()
      ensures ok == ValidateForStart(State(), req)
    {
      var bal := store.GetBalance(req.x);
      var ts := if req.client in store.clientTS then store.clientTS[req.client] else 0;
      var inFlight := ClientTxnInFlight(req);
      var free := CanAcquireForOp(req);
      match Normal(req.op)
      case Intra => ok := ts < req.ts && !inFlight && free && bal >= req.amt;
      case CoordPrepare => ok := !inFlight && free && bal >= req.amt;
      case PartPrepareCommit => ok := free;
      case PartPrepareAbort => ok := true;
      case CoordCommit => ok := req.x in store.locks && TxnOf(req) in store.wal;
      case CoordAbort => ok := req.x in store.locks;
      case PartCommit => ok := req.y in store.locks && TxnOf(req) in store.wal;
      case PartAbort => ok := true;
      case _ => ok := false;
    }

    method RefuseNow(req: Request)
      requires Valid()
      modifies this`hooks
      ensures Valid() && State() == Refuse(old(State()), req)
    {
      var primary := IsPrimary();
      var bal := store.GetBalance(req.x);
      if primary && Normal(req.op) in {Intra, CoordPrepare} && bal < req.amt {
        hooks := hooks + [Rejected(req)];
      }
      DropCrossPrepareNow(req);
    }

    /** Writes the slot and broadcasts, then handles the proposal like everyone else. */
    method ProposeNow(s: int, req: Request)
      requires Valid() && Room(1) && s == nextSeq - 1
      modifies this, store
      ensures Valid()
      ensures State() == ProcessPrePrepare(
        Propose(old(State()).(nextSeq := s), req, old(store.Value())), s, old(view), DigestOf(req), req)
    {
      var d := DigestOf(req);
      PutProposal(s, d, req);
      AheadPut(old(State()), s, log[s]);
      if !cfg.byzantineLeader {
        sent := sent + {PrePrepareMsg(s, view, d, req)};
      }
      assert State() == Propose(old(State()).(nextSeq := s), req, old(store.Value()));
      assert Ahead(State()) == Ahead(old(State()).Put(s, log[s]));
      ProcessPrePrepareMsg(s, view, d, req);
    }

    /** The locks of an operation, or the check that a decision's lock is held. */
    method TakeLocks(s: int, req: Request) returns (ok: bool)
      requires Valid()
      modifies store`locks
      ensures Valid() && OnlyLocks(old(State()), State())
      ensures ok == CanOffer(old(State()).(nextSeq := s), req)
      ensures store.Value() == OfferLedger(old(State()).(nextSeq := s), req)
    {
      if IsCommitPhaseOp(req.op) {
        ok := LocksHeldNow(req);
      } else {
        ok := AcquireLocksForOp(s, req);
      }
    }

    method GiveBack(req: Request)
      requires Valid()
      modifies this`hooks, store`locks
      ensures Valid()
      ensures State() == if IsCommitPhaseOp(req.op) then old(State())
        else DropCrossPrepare(old(State()).(ledger := ReleaseAll(old(store.Value()), LockItems(req))), req)
    {
      if !IsCommitPhaseOp(req.op) {
        ReleaseLocksForOp(req);
        DropCrossPrepareNow(req);
      }
    }

    method AdmitNow(req: Request)
      requires Valid() && Room(1)
      modifies this, store
      ensures Valid() && State() == Admit(old(State()), req)
    {
      ghost var r := State();
      var s := nextSeq;
      nextSeq := nextSeq + 1;
      var ok := TakeLocks(s, req);
      assert State() == r.(nextSeq := s + 1, ledger := OfferLedger(r, req));
      if ok {
        assert
          && Propose(r.(nextSeq := r.nextSeq, ledger := OfferLedger(r, req)), req, OfferLedger(r, req))
             == Propose(r, req, OfferLedger(r, req));
        assert Ahead(State()) == Ahead(r);
        ProposeNow(s, req);
      } else {
        GiveBack(req);
        assert IsCommitPhaseOp(req.op) ==> OfferLedger(r, req) == r.ledger;
      }
    }

    method StartConsensusNow(req0: Request)
      requires Valid() && Room(1)
      modifies this, store
      ensures Valid() && State() == StartConsensus(old(State()), req0)
    {
      var req := req0.(op := Normal(req0.op));
      var primary := IsPrimary();
      if primary && !IsCommitPhaseOp(req.op) && cfg.HonestLive() < cfg.Quorum() {
        DropCrossPrepareNow(req);
        return;
      }
      var ok := ValidateForStartNow(req);
      if !ok {
        if primary {
          RefuseNow(req);
        }
        return;
      }
      AdmitNow(req);
    }

    // -------------------------------------------------------------- discarding

    method SkipExecSeqIfStuck(s: int)
      requires Valid()
      modifies this`execSeq
      ensures Valid() && State() == SkipIfStuck(old(State()), s)
    {
      if execSeq == s {
        execSeq := execSeq + 1;
      }
    }

    method OnDiscardMsg(s: int, v: int)
      requires Valid() && Room(0)
      modifies this, store
      ensures Valid() && State() == OnDiscard(old(State()), s, v)
    {
      if v != view || s !in log || log[s].executed || log[s].commitCert.Some? {
        return;
      }
      var req := log[s].req;
      log := log[s := Discarded(log[s])];
      ReleaseLocksForOp(req);
      SkipExecSeqIfStuck(s);
      AheadShrinks(old(State()), State());
      TryExecuteAll();
    }

    method RetractNow(s: int, req: Request)
      requires Valid() && s in log
      modifies this, store`locks
      ensures Valid()
      ensures var r := old(State());
        var r1 := r.Put(s, Discarded(r.log[s])).(ledger := ReleaseAll(r.ledger, LockItems(req)));
        State() == RolledBack(DropCrossPrepare(SkipIfStuck(r1, s), req), s).Send(DiscardMsg(s, r.view))
      ensures log.Keys == old(log.Keys) && execSeq >= old(execSeq) && store.Next() == old(store.Next())
    {
      log := log[s := Discarded(log[s])];
      ReleaseLocksForOp(req);
      SkipExecSeqIfStuck(s);
      DropCrossPrepareNow(req);
      if nextSeq == s + 1 {
        nextSeq := s;
      }
      sent := sent + {DiscardMsg(s, view)};
    }

    method ReclaimSeq(s: int, req: Request)
      requires Valid() && Room(0)
      modifies this, store
      ensures Valid() && State() == Reclaim(old(State()), s, req)
    {
      var primary := IsPrimary();
      if !primary || s !in log || log[s].executed || log[s].commitCert.Some? || log[s].prepareCert.Some? {
        return;
      }
      if |log[s].prepares| >= cfg.Quorum() {
        return;
      }
      RetractNow(s, req);
      AheadShrinks(old(State()), State());
      OnDiscardMsg(s, view);
    }

    // -------------------------------------------------------------- entering a new view

    method AcceptNewViewPrePrepare(m: Msg)
      requires Valid() && Room(1) && m.PrePrepareMsg?
      modifies this, store
      ensures Valid() && State() == AcceptNewView(old(State()), m)
    {
      if !cfg.top.SameCluster(m.req.x, m.req.y) {
        return;
      }
      var clear := GapClearLocked(m.seqNo);
      if !clear {
        return;
      }
      var slot := EnsureSeqLocked(m.seqNo);
      if slot.prePrepare && slot.digest == Some(m.digest) {
        return;
      }
      log := log[m.seqNo := slot.(digest := Some(m.digest), req := m.req, prePrepare := true)];
      AheadPut(old(State()), m.seqNo, log[m.seqNo]);
      assert State() == old(State()).Put(m.seqNo, log[m.seqNo]);
      AdoptNow(m);
    }

    method AdoptNow(m: Msg)
      requires Valid() && Room(0) && m.PrePrepareMsg?
      modifies this, store
      ensures Valid() && State() == Adopted(old(State()), m)
    {
      var primary := IsPrimary();
      if primary {
        var free := CanAcquireForOp(m.req);
        if !free {
          return;
        }
        var ok := AcquireLocksForOp(m.seqNo, m.req);
        assert Ahead(State()) == Ahead(old(State()));
        if !ok {
          ReleaseLocksForOp(m.req);
          return;
        }
      }
      ProcessPrePrepareMsg(m.seqNo, m.view, m.digest, m.req);
    }
  }

  predicate OnlyLocks(r: Replica, q: Replica) {
    q == r.(ledger := q.ledger)
  }

  lemma AheadShrinks(r: Replica, q: Replica)
    requires q.log.Keys <= r.log.Keys && q.execSeq >= r.execSeq
    ensures |Ahead(q)| <= |Ahead(r)|
  {
    Quorums.SubsetCount(Ahead(q), Ahead(r));
  }

  lemma AheadPut(r: Replica, s: int, slot: Slot)
    ensures |Ahead(r.Put(s, slot))| <= |Ahead(r)| + 1
  {
    if s >= r.execSeq && s !in Ahead(r) {
      assert Ahead(r.Put(s, slot)) == Ahead(r) + {s};
    } else {
      assert Ahead(r.Put(s, slot)) == Ahead(r);
    }
  }
}
