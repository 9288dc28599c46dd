/** The coordinator and participant of a primary as the objects that the program runs
    (twopc/coordinator.go, twopc/participant.go, twopc/collector.go).  Each handler is proved to compute
    its function of module TwoPC. */
module Bridges {
  import opened Types
  import opened Ledgers
  import opened Pbft
  import opened TwoPC
  import Agreement
  import Certificates
  import Engines
  import Micro

  /** The replies that a coordinator has accepted, in the order of arrival. */
  class PreparedCollector {
    var certs: seq<Letter>

    constructor ()
      ensures certs == []
    {
      certs := [];
    }

    method Record(m: Letter)
      modifies this
      ensures certs == old(certs) + [m]
    {
      certs := certs + [m];
    }

    method Has(req: Request) returns (found: bool)
      ensures found <==> exists m :: m in certs && SameClientTxn(m.req, req)
    {
      for k := 0 to |certs|
        invariant forall j :: 0 <= j < k ==> !SameClientTxn(certs[j].req, req)
      {
        if SameClientTxn(certs[k].req, req) {
          assert certs[k] in certs;
          return true;
        }
      }
      found := false;
    }

    /** The replies for one client transaction with one outcome, in order. */
    method Matching(req: Request, outcome: Outcome) returns (out: seq<Letter>)
      requires forall m :: m in certs ==> m.ReplyLetter?
      ensures forall m :: m in out <==> m in certs && SameClientTxn(m.req, req) && m.outcome == outcome
      ensures |out| <= |certs|
    {
      out := [];
      for k := 0 to |certs|
        invariant forall m :: m in out <==> m in certs[..k] && SameClientTxn(m.req, req) && m.outcome == outcome
        invariant |out| <= k
      {
        assert certs[..k + 1] == certs[..k] + [certs[k]];
        assert certs[k] in certs;
        if SameClientTxn(certs[k].req, req) && certs[k].outcome == outcome {
          out := out + [certs[k]];
        }
      }
      assert certs[..|certs|] == certs;
    }
  }

  /** Two requests are the same client transaction exactly when they share the key of their WAL entry. */
  lemma SameTxnIsSameKey(a: Request, b: Request)
    ensures SameClientTxn(a, b) <==> TxnOf(a) == TxnOf(b)
  {
  }

  class Bridge {
    const engine: Engines.Engine
    const collector: PreparedCollector
    var crossBusy: bool
    var commitStarted: set<Digest>
    var watched: set<Request>
    var expired: set<Request>
    var ingress: seq<Request>
    var outbox: set<Letter>

    ghost predicate Valid()
      reads this, engine, engine.store, collector
    {
      engine.Valid()
    }

    ghost function Value(): Node
      reads this, engine, engine.store, collector
      requires Valid()
    {
      Node(engine.State(), crossBusy, commitStarted, collector.certs, watched, expired, ingress, outbox)
    }

    constructor (engine_: Engines.Engine)
      requires engine_.Valid()
      ensures engine == engine_ && Valid() && fresh(collector)
      ensures Value() == Node(engine_.State(), false, {}, [], {}, {}, [], {})
    {
      engine := engine_;
      collector := new PreparedCollector();
      crossBusy, commitStarted, watched, expired, ingress, outbox := false, {}, {}, {}, [], {};
    }

    // -------------------------------------------------------------- hooks

    method OnHook(h: Hook)
      requires Valid()
      modifies this
      ensures Valid() && Value() == Fire(old(Value()), h)
    {
      match h
      case Dropped(_) => crossBusy := false;
      case CoordPrepared(req, _, cert) =>
        crossBusy := false;
        outbox := outbox + {PrepareLetter(ClientReq(req), cert)};
        watched := watched + {req};
      case PartPrepared(req, _, cert, outcome) => outbox := outbox + {ReplyLetter(ClientReq(req), outcome, cert)};
      case CoordFinal(req, _, cert, outcome) => outbox := outbox + {DecisionLetter(ClientReq(req), outcome, cert)};
      case _ =>
    }

    /** The calls that the engine has made since it had made `done` of them. */
    method OnHooksFrom(done: nat)
      requires Valid() && done <= |engine.hooks|
      modifies this
      ensures Valid() && Value() == FireAll(old(Value()), engine.hooks[done..])
    {
      var hs := engine.hooks;
      var k := done;
      while k < |hs|
        invariant done <= k <= |hs| && Valid() && engine.hooks == hs
        invariant FireAll(Value(), hs[k..]) == FireAll(old(Value()), hs[done..])
      {
        assert hs[k..][0] == hs[k] && hs[k..][1..] == hs[k + 1..];
        OnHook(hs[k]);
        k := k + 1;
      }
      assert hs[|hs|..] == [];
    }

    /** The ingress loop takes one queued request and starts it. */
    method TakeNext(i: nat)
      requires Valid() && engine.Room(1) && i < |ingress|
      modifies this, engine, engine.store
      ensures Valid() && Value() == Dequeue(old(Value()), i)
    {
      ghost var n := Value();
      var req, done := ingress[i], |engine.hooks|;
      ingress := ingress[..i] + ingress[i + 1..];
      engine.StartConsensusNow(req);
      HooksGrow(n.r, Agreement.Start(req));
      OnHooksFrom(done);
    }

    /** The engine handles a vote, or its timer gives a proposal up. */
    method OnEngineInput(a: Agreement.Action)
      requires Valid() && engine.Room(1) && !a.Start? && !a.Deliver? && (a.GiveUp? ==> a.seqNo in engine.log)
      modifies this, engine, engine.store
      ensures Valid() && Value() == EngineStep(old(Value()), a)
    {
      ghost var n := Value();
      var done := |engine.hooks|;
      match a {
        case TakePrepare(from, s, v, d, sig) => engine.OnPrepareMsg(from, s, v, d, sig);
        case TakeCommit(from, s, v, d, sig) => engine.OnCommitMsg(from, s, v, d, sig);
        case GiveUp(s) => engine.ReclaimSeq(s, engine.log[s].req);
      }
      HooksGrow(n.r, a);
      OnHooksFrom(done);
    }

    /** An intra-shard request goes straight to the ingress queue. */
    method OnIntraRequest(req: Request)
      requires Valid()
      modifies this
      ensures Valid() && Value() == old(Value()).Enqueue(req)
    {
      ingress := ingress + [req];
    }

    // -------------------------------------------------------------- the coordinator

    method OnClientRequest(req: Request)
      requires Valid()
      modifies this, engine`hooks
      ensures Valid() && Value() == HandleClientRequest(old(Value()), req)
    {
      var top, store := engine.cfg.top, engine.store;
      if top.SameCluster(req.x, req.y) {
        return;
      }
      var primary := engine.IsPrimary();
      if top.ClusterOf(req.x) != engine.cfg.cluster || !primary {
        return;
      }
      var ts := if req.client in store.clientTS then store.clientTS[req.client] else 0;
      if ts >= req.ts || TxnOf(req) in commitStarted {
        return;
      }
      var inFlight := engine.ClientTxnInFlight(req);
      if inFlight || crossBusy || req.x in store.locks {
        return;
      }
      var bal := store.GetBalance(req.x);
      if bal < req.amt {
        engine.hooks := engine.hooks + [Rejected(req)];
        return;
      }
      crossBusy := true;
      ingress := ingress + [req.(op := CoordPrepare)];
    }

    method OnParticipantReply(m: Letter)
      requires Valid() && m.ReplyLetter?
      modifies this, collector
      ensures Valid() && Value() == HandleParticipantReply(old(Value()), m)
    {
      var top := engine.cfg.top;
      var ok := Certificates.CheckClusterCert(top, top.ClusterOf(m.req.y), m.cert, CommitSig, top.Quorum());
      if !ok {
        return;
      }
      collector.Record(m);
      var primary := engine.IsPrimary();
      if !primary {
        return;
      }
      var key := TxnOf(m.req);
      var already := key in commitStarted;
      if !already {
        commitStarted := commitStarted + {key};
      }
      if already {
        if m.outcome == Commit {
          ingress := ingress + [m.req.(op := CoordAbort)];
        }
        return;
      }
      ingress := ingress + [m.req.(op := if m.outcome == Commit then CoordCommit else CoordAbort)];
    }

    /** The deadline of the prepare phase. */
    method OnDeadline(req: Request)
      requires Valid()
      modifies this
      ensures Valid() && Value() == Expire(old(Value()), req)
    {
      var replied := collector.Has(req);
      if req !in watched || TxnOf(req) in commitStarted || replied {
        return;
      }
      commitStarted := commitStarted + {TxnOf(req)};
      expired := expired + {req};
    }

    method OnRetry(req: Request)
      requires Valid()
      modifies this
      ensures Valid() && Value() == RetryAbort(old(Value()), req)
    {
      if req in expired && TxnOf(req) in engine.store.wal {
        ingress := ingress + [req.(op := CoordAbort)];
      }
    }

    // -------------------------------------------------------------- the participant

    /** Scans the records, oldest first, for a prepare with the same endpoints and amount. */
    method FindPrepare(req: Request) returns (outcome: Option<Outcome>)
      requires Valid()
      ensures outcome == PrepareOutcome(engine.store.Value().entries, req)
      ensures forall o :: outcome == Some(o) <==> FirstRecord(engine.store.Value().entries, req, o)
      ensures outcome == None <==> NoRecord(engine.store.Value().entries, req)
    {
      var entries := engine.store.Datastore();
      ScanMeaning(entries, req);
      for k := 0 to |entries|
        invariant forall j :: 0 <= j < k ==> !Records(entries[j], req)
      {
        var e := entries[k];
        SameFields(e, req);
        if e.phase == PreparePhase
           && TxnOf(Request(req.client, req.ts, e.x, e.y, e.amt, Unset)) == TxnOf(req) {
          assert FirstRecord(entries, req, e.outcome);
          return Some(e.outcome);
        }
      }
      assert NoRecord(entries, req);
      outcome := None;
    }

    method OnPrepareLetter(m: Letter)
      requires Valid() && m.PrepareLetter?
      modifies this
      ensures Valid() && Value() == HandlePrepare(old(Value()), m)
    {
      var top, store := engine.cfg.top, engine.store;
      var primary := engine.IsPrimary();
      if !primary {
        return;
      }
      var ok := Certificates.CheckClusterCert(top, top.ClusterOf(m.req.x), m.cert, CommitSig, top.Quorum());
      if !ok {
        return;
      }
      if TxnOf(m.req) in store.wal {
        outbox := outbox + {ReplyLetter(ClientReq(m.req), Commit, m.cert)};
        return;
      }
      var earlier := FindPrepare(m.req);
      if earlier.Some? {
        outbox := outbox + {ReplyLetter(ClientReq(m.req), earlier.value, m.cert)};
        return;
      }
      ingress := ingress + [m.req.(op := if m.req.y in store.locks then PartPrepareAbort else PartPrepareCommit)];
    }

    method OnDecisionLetter(m: Letter)
      requires Valid() && m.DecisionLetter?
      modifies this
      ensures Valid() && Value() == HandleCommit(old(Value()), m)
    {
      var top := engine.cfg.top;
      var primary := engine.IsPrimary();
      if !primary {
        return;
      }
      var ok := Certificates.CheckClusterCert(top, top.ClusterOf(m.req.x), m.cert, CommitSig, top.Quorum());
      if !ok {
        return;
      }
      if m.outcome == Abort {
        var earlier := FindPrepare(m.req);
        if earlier == Some(Abort) {
          return;
        }
        ingress := ingress + [m.req.(op := PartAbort)];
      } else {
        ingress := ingress + [m.req.(op := PartCommit)];
      }
    }
  }

  /** The engine only adds to its record of calls. */
  lemma HooksGrow(r: Replica, a: Agreement.Action)
    requires r.cfg.Valid() && !a.Deliver? && (a.GiveUp? ==> a.seqNo in r.log)
    ensures r.hooks <= Agreement.Lead(r, a).hooks
  {
    var cs := Agreement.LeadIsChanges(r, a);
    Micro.RunHooks(r, cs, Agreement.Lead(r, a));
  }
}
