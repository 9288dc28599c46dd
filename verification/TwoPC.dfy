/** Two-phase commit between the clusters (twopc/coordinator.go, twopc/participant.go).

    A cluster is represented by its primary.  Letters between clusters are those the primaries sent;
    they are delivered any number of times, in any order, or never.  A wait is the test it waits for,
    and a timeout may strike whenever its guard holds. */
module TwoPC {
  import opened Types
  import opened Ledgers
  import opened Pbft
  import opened Certificates
  import Agreement

  datatype Letter =
    | PrepareLetter(req: Request, cert: Certificate)
    | ReplyLetter(req: Request, outcome: Outcome, cert: Certificate)
    | DecisionLetter(req: Request, outcome: Outcome, cert: Certificate)

  /** The coordinator, the participant and the engine of one primary.  `watched` are the transactions
      whose prepare phase is being timed, `expired` those that are being aborted on a timeout. */
  datatype Node = Node(
    r: Replica,
    crossBusy: bool,
    commitStarted: set<Digest>,
    collected: seq<Letter>,
    watched: set<Request>,
    expired: set<Request>,
    ingress: seq<Request>,
    outbox: set<Letter>)
  {
    predicate Valid() { r.cfg.Valid() }

    function Post(m: Letter): Node { this.(outbox := outbox + {m}) }

    function Enqueue(req: Request): Node { this.(ingress := ingress + [req]) }
  }

  function BootNode(cfg: Config): Node {
    Node(Boot(cfg, cfg.top.initialBalance), false, {}, [], {}, {}, [], {})
  }

  // ---------------------------------------------------------------- what execution calls

  /** The hooks of the coordinator and the participant, on a primary. */
  function Fire(n: Node, h: Hook): Node {
    match h
    case Dropped(_) => n.(crossBusy := false)
    case CoordPrepared(req, _, cert) =>
      n.(crossBusy := false, watched := n.watched + {req}).Post(PrepareLetter(ClientReq(req), cert))
    case PartPrepared(req, _, cert, outcome) => n.Post(ReplyLetter(ClientReq(req), outcome, cert))
    case CoordFinal(req, _, cert, outcome) => n.Post(DecisionLetter(ClientReq(req), outcome, cert))
    case _ => n
  }

  function FireAll(n: Node, hs: seq<Hook>): Node
    decreases |hs|
  {
    if hs == [] then n else FireAll(Fire(n, hs[0]), hs[1..])
  }

  function AfterEngine(n: Node, r: Replica): Node {
    FireAll(n.(r := r), if |n.r.hooks| <= |r.hooks| then r.hooks[|n.r.hooks|..] else [])
  }

  /** The engine works: it collects a vote, or gives a proposal up. */
  function EngineStep(n: Node, a: Agreement.Action): Node
    requires n.Valid() && !a.Deliver? && (a.GiveUp? ==> a.seqNo in n.r.log)
  {
    AfterEngine(n, Agreement.Lead(n.r, a))
  }

  function Without(s: seq<Request>, i: nat): seq<Request>
    requires i < |s|
  {
    s[..i] + s[i + 1..]
  }

  /** The ingress loop starts a queued request. */
  function Dequeue(n: Node, i: nat): Node
    requires n.Valid() && i < |n.ingress|
  {
    EngineStep(n.(ingress := Without(n.ingress, i)), Agreement.Start(n.ingress[i]))
  }

  // ---------------------------------------------------------------- the coordinator

  predicate SameClientTxn(a: Request, b: Request) {
    a.client == b.client && a.ts == b.ts && a.x == b.x && a.y == b.y && a.amt == b.amt
  }

  predicate HasReply(n: Node, req: Request) {
    exists m :: m in n.collected && SameClientTxn(m.req, req)
  }

  /** A client's cross-shard request: one at a time, once the item is free, and never again after a
      decision was started. */
  function HandleClientRequest(n: Node, req: Request): Node
    requires n.Valid()
  {
    var top := n.r.cfg.top;
    if top.SameCluster(req.x, req.y) then n
    else if top.ClusterOf(req.x) != n.r.cfg.cluster || !n.r.IsPrimary() then n
    else if n.r.ledger.TS(req.client) >= req.ts then n
    else if TxnOf(req) in n.commitStarted then n
    else if TxnInFlight(n.r, req) then n
    else if n.crossBusy || n.r.ledger.IsLocked(req.x) then n
    else if n.r.ledger.Bal(req.x) < req.amt then n.(r := n.r.Call(Rejected(req)))
    else n.(crossBusy := true).Enqueue(req.(op := CoordPrepare))
  }

  function HandleParticipantReply(n: Node, m: Letter): Node
    requires n.Valid() && m.ReplyLetter?
  {
    var top := n.r.cfg.top;
    if !VerifyClusterCert(top, top.ClusterOf(m.req.y), m.cert, CommitSig, top.Quorum()) then n
    else
      var n1 := n.(collected := n.collected + [m]);
      if n.r.IsPrimary() then MaybeStartFinalCommit(n1, m) else n1
  }

  /** The first reply decides; a late commit reply re-drives an abort. */
  function MaybeStartFinalCommit(n: Node, m: Letter): Node
    requires m.ReplyLetter?
  {
    if TxnOf(m.req) in n.commitStarted then
      if m.outcome == Commit then n.Enqueue(m.req.(op := CoordAbort)) else n
    else
      n.(commitStarted := n.commitStarted + {TxnOf(m.req)})
       .Enqueue(m.req.(op := if m.outcome == Commit then CoordCommit else CoordAbort))
  }

  /** The watch on the prepare phase runs out. */
  function Expire(n: Node, req: Request): Node {
    if req !in n.watched || TxnOf(req) in n.commitStarted || HasReply(n, req) then n
    else n.(commitStarted := n.commitStarted + {TxnOf(req)}, expired := n.expired + {req})
  }

  function RetryAbort(n: Node, req: Request): Node {
    if req in n.expired && TxnOf(req) in n.r.ledger.wal then n.Enqueue(req.(op := CoordAbort)) else n
  }

  // ---------------------------------------------------------------- the participant

  /** The scan for an earlier prepare record; client and time are not recorded, so they do not count. */
  function PrepareOutcome(entries: seq<Entry>, req: Request): Option<Outcome>
    decreases |entries|
  {
    if entries == [] then None
    else
      var e := entries[0];
      if e.phase == PreparePhase && TxnOf(Request(req.client, req.ts, e.x, e.y, e.amt, Unset)) == TxnOf(req)
      then Some(e.outcome)
      else PrepareOutcome(entries[1..], req)
  }

  /** A prepare record of these endpoints and this amount; client and time are not recorded. */
  predicate Records(e: Entry, req: Request) {
    e.phase == PreparePhase && e.x == req.x && e.y == req.y && e.amt == req.amt
  }

  /** The first record of the prepare has this outcome. */
  predicate FirstRecord(entries: seq<Entry>, req: Request, o: Outcome) {
    exists k :: 0 <= k < |entries| && Records(entries[k], req) && entries[k].outcome == o
      && forall j :: 0 <= j < k ==> !Records(entries[j], req)
  }

  predicate NoRecord(entries: seq<Entry>, req: Request) {
    forall e :: e in entries ==> !Records(e, req)
  }

  lemma FirstRecordCons(entries: seq<Entry>, req: Request, o: Outcome)
    requires entries != []
    ensures FirstRecord(entries, req, o) <==>
      if Records(entries[0], req) then entries[0].outcome == o else FirstRecord(entries[1..], req, o)
  {
    var rest := entries[1..];
    if !Records(entries[0], req) {
      if k :| 0 <= k < |rest| && Records(rest[k], req) && rest[k].outcome == o
              && forall j :: 0 <= j < k ==> !Records(rest[j], req) {
        assert Records(entries[k + 1], req) && entries[k + 1].outcome == o;
        assert forall j :: 0 <= j < k + 1 ==> entries[j] == if j == 0 then entries[0] else rest[j - 1];
      }
      if k :| 0 <= k < |entries| && Records(entries[k], req) && entries[k].outcome == o
              && forall j :: 0 <= j < k ==> !Records(entries[j], req) {
        assert Records(rest[k - 1], req) && rest[k - 1].outcome == o;
        assert forall j :: 0 <= j < k - 1 ==> rest[j] == entries[j + 1];
      }
    }
  }

  /** The scan returns the outcome of the first such record, and nothing exactly when there is none. */
  lemma {:induction false} ScanMeaning(entries: seq<Entry>, req: Request)
    ensures forall o :: PrepareOutcome(entries, req) == Some(o) <==> FirstRecord(entries, req, o)
    ensures PrepareOutcome(entries, req) == None <==> NoRecord(entries, req)
    decreases |entries|
  {
    if entries != [] {
      var e, rest := entries[0], entries[1..];
      ScanMeaning(rest, req);
      assert entries == [e] + rest;
      SameFields(e, req);
      forall o ensures PrepareOutcome(entries, req) == Some(o) <==> FirstRecord(entries, req, o) {
        FirstRecordCons(entries, req, o);
      }
    }
  }

  lemma SameFields(e: Entry, req: Request)
    ensures TxnOf(Request(req.client, req.ts, e.x, e.y, e.amt, Unset)) == TxnOf(req)
      <==> e.x == req.x && e.y == req.y && e.amt == req.amt
  {
  }

  function HandlePrepare(n: Node, m: Letter): Node
    requires n.Valid() && m.PrepareLetter?
  {
    var top, l := n.r.cfg.top, n.r.ledger;
    if !n.r.IsPrimary() then n
    else if !VerifyClusterCert(top, top.ClusterOf(m.req.x), m.cert, CommitSig, top.Quorum()) then n
    else if TxnOf(m.req) in l.wal then n.Post(ReplyLetter(ClientReq(m.req), Commit, m.cert))
    else
      match PrepareOutcome(l.entries, m.req)
      case Some(outcome) => n.Post(ReplyLetter(ClientReq(m.req), outcome, m.cert))
      case None =>
        n.Enqueue(m.req.(op := if l.IsLocked(m.req.y) then PartPrepareAbort else PartPrepareCommit))
  }

  function HandleCommit(n: Node, m: Letter): Node
    requires n.Valid() && m.DecisionLetter?
  {
    var top := n.r.cfg.top;
    if !n.r.IsPrimary() then n
    else if !VerifyClusterCert(top, top.ClusterOf(m.req.x), m.cert, CommitSig, top.Quorum()) then n
    else if m.outcome == Commit then n.Enqueue(m.req.(op := PartCommit))
    else if PrepareOutcome(n.r.ledger.entries, m.req) == Some(Abort) then n
    else n.Enqueue(m.req.(op := PartAbort))
  }

  // ---------------------------------------------------------------- everything a node does

  datatype NodeStep =
    | ClientIntra(req: Request)
    | ClientCross(req: Request)
    | Work(act: Agreement.Action)
    | Next(i: nat)
    | Prepare(letter: Letter)
    | Reply(letter: Letter)
    | Decide(letter: Letter)
    | TimeOut(req: Request)
    | Retry(req: Request)

  predicate Doable(n: Node, s: NodeStep) {
    && n.Valid()
    && match s
       case Work(a) => (a.TakePrepare? || a.TakeCommit? || a.GiveUp?) && (a.GiveUp? ==> a.seqNo in n.r.log)
       case Next(i) => i < |n.ingress|
       case Prepare(m) => m.PrepareLetter?
       case Reply(m) => m.ReplyLetter?
       case Decide(m) => m.DecisionLetter?
       case _ => true
  }

  function Act(n: Node, s: NodeStep): Node
    requires Doable(n, s)
  {
    match s
    case ClientIntra(req) => n.Enqueue(req)
    case ClientCross(req) => HandleClientRequest(n, req)
    case Work(a) => EngineStep(n, a)
    case Next(i) => Dequeue(n, i)
    case Prepare(m) => HandlePrepare(n, m)
    case Reply(m) => HandleParticipantReply(n, m)
    case Decide(m) => HandleCommit(n, m)
    case TimeOut(req) => Expire(n, req)
    case Retry(req) => RetryAbort(n, req)
  }
}
