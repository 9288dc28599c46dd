/** What the participant does with the coordinator's letters (twopc/participant.go:58-146), in terms of the
    records and locks that it finds, and over whole runs of the bank. */
module Participant {
  import opened Types
  import opened Ledgers
  import opened Runs
  import opened Pbft
  import opened TwoPC
  import opened TwoPhase
  import Certificates
  import Replication

  // ---------------------------------------------------------------- one letter

  /** A primary takes a letter that comes with a certificate of the coordinator's cluster. */
  predicate Accepted(n: Node, m: Letter)
    requires n.Valid()
  {
    var top := n.r.cfg.top;
    n.r.IsPrimary() && Certificates.VerifyClusterCert(top, top.ClusterOf(m.req.x), m.cert, CommitSig, top.Quorum())
  }

  /** Handling has queued the letter's request under `op`, and nothing else. */
  predicate Queues(n: Node, q: Node, m: Letter, op: Op) {
    q.ingress == n.ingress + [m.req.(op := op)]
  }

  /** An accepted PREPARE letter starts the transaction exactly when neither an open entry nor a record of
      its endpoints and amount is there: as a commit when the item is free, as an abort when it is locked.
      Otherwise it is answered with the recorded outcome, and nothing is queued. */
  lemma PrepareLetterLaw(n: Node, m: Letter)
    requires n.Valid() && m.PrepareLetter?
    ensures var q, l := HandlePrepare(n, m), n.r.ledger;
      var first := Accepted(n, m) && TxnOf(m.req) !in l.wal && NoRecord(l.entries, m.req);
      && (Queues(n, q, m, PartPrepareCommit) <==> first && m.req.y !in l.locks)
      && (Queues(n, q, m, PartPrepareAbort) <==> first && m.req.y in l.locks)
      && (q.ingress == n.ingress <==> !first)
      && (forall o :: Accepted(n, m) && TxnOf(m.req) !in l.wal && FirstRecord(l.entries, m.req, o) ==>
            q.outbox == n.outbox + {ReplyLetter(ClientReq(m.req), o, m.cert)})
      && (Accepted(n, m) && TxnOf(m.req) in l.wal ==>
            q.outbox == n.outbox + {ReplyLetter(ClientReq(m.req), Commit, m.cert)})
  {
    ScanMeaning(n.r.ledger.entries, m.req);
    assert forall op :: (n.ingress + [m.req.(op := op)])[|n.ingress|] == m.req.(op := op);
  }

  /** An accepted abort letter queues the undo exactly when the first record of the endpoints and the
      amount is not an abort, whether or not the entry is open; an accepted commit letter always queues the
      final commit; and any other letter queues nothing. */
  lemma DecisionLetterLaw(n: Node, m: Letter)
    requires n.Valid() && m.DecisionLetter?
    ensures var q, l := HandleCommit(n, m), n.r.ledger;
      && (Queues(n, q, m, PartCommit) <==> Accepted(n, m) && m.outcome == Commit)
      && (Queues(n, q, m, PartAbort) <==>
            Accepted(n, m) && m.outcome == Abort && !FirstRecord(l.entries, m.req, Abort))
      && (q.ingress == n.ingress <==>
            !Accepted(n, m) || (m.outcome == Abort && FirstRecord(l.entries, m.req, Abort)))
  {
    ScanMeaning(n.r.ledger.entries, m.req);
    assert forall op :: (n.ingress + [m.req.(op := op)])[|n.ingress|] == m.req.(op := op);
  }

  // ---------------------------------------------------------------- whole runs

  lemma {:induction false} PreparedHasRecord(initial: int, log: seq<Request>, view: int, p: Request)
    requires p in log && (p.op == PartPrepareCommit || p.op == PartPrepareAbort)
    ensures !NoRecord(ExecAll(Fresh(initial), log, view).entries, p)
  {
    var n := |log| - 1;
    var l := ExecAll(Fresh(initial), log[..n], view);
    var es := Exec(l, log[n], view).entries;
    assert log == log[..n] + [log[n]];
    RecordMeaning(l, log[n], view);
    if log[n] == p {
      assert Records(es[|l.entries|], p);
    } else {
      PreparedHasRecord(initial, log[..n], view, p);
      var e :| e in l.entries && Records(e, p);
      assert e in es;
    }
  }

  /** In every run of the bank: once a participant has executed a prepare of a transaction, in either way,
      a PREPARE letter for it never queues anything again, however often and however late it comes. */
  lemma PreparedNeverAgain(w: World, steps: seq<Step>, v: World, c: int, m: Letter)
    requires Initial(w) && Reaches(w, steps, v) && m.PrepareLetter?
    requires v.Configured() && 1 <= c <= v.top.numClusters
    requires exists op :: op in {PartPrepareCommit, PartPrepareAbort} && Happened(v.trace, c, TxnOf(m.req), op)
    ensures HandlePrepare(v.nodes[c], m).ingress == v.nodes[c].ingress
  {
    CommitOrder(w, steps, v);
    InitialInv(w);
    WorldAlways(w, steps, v);
    var r := v.nodes[c].r;
    assert NodeInv(v.top, v.trace, c, v.nodes[c]);
    var op :| op in {PartPrepareCommit, PartPrepareAbort} && Happened(v.trace, c, TxnOf(m.req), op);
    var p, log := Tagged(TxnOf(m.req), op), Replication.Requests(r.executed);
    LogHas(v.trace, c, p);
    PreparedHasRecord(r.ledger.initial, log, r.view, p);
    assert r.ledger.Core().entries == ExecAll(Fresh(r.ledger.initial), log, r.view).Core().entries;
    assert !NoRecord(r.ledger.entries, m.req) by {
      var e :| e in r.ledger.entries && Records(e, p);
      assert Records(e, m.req);
    }
    PrepareLetterLaw(v.nodes[c], m);
  }
}
