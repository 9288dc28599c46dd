/** What execution owes to others, and that it is paid: clients are answered, and the other cluster is
    told (pbft/engine.go:590-779, twopc/coordinator.go:112-156, 313-330, twopc/participant.go:148-200). */
module Answers {
  import opened Types
  import opened Ledgers
  import opened Pbft
  import opened Micro
  import opened Agreement
  import opened Replication
  import opened TwoPC
  import opened Paths
  import CrossSlot
  import Proposer

  // ---------------------------------------------------------------- what is owed

  /** Operations that end with an answer to the client, and which. */
  function ReplyFor(op: Op): Option<Outcome> {
    match op
    case Intra => Some(Commit)
    case CoordCommit => Some(Commit)
    case CoordAbort => Some(Abort)
    case _ => None
  }

  /** Operations by which the participant votes. */
  function VoteFor(op: Op): Option<Outcome> {
    match op
    case PartPrepareCommit => Some(Commit)
    case PartPrepareAbort => Some(Abort)
    case _ => None
  }

  /** Operations by which the coordinator decides. */
  function DecisionFor(op: Op): Option<Outcome> {
    match op
    case CoordCommit => Some(Commit)
    case CoordAbort => Some(Abort)
    case _ => None
  }

  /** A call reports an execution, and reports it rightly. */
  predicate HookDue(done: seq<Executed>, h: Hook) {
    match h
    case Replied(req, s, o) => Executed(s, req) in done && ReplyFor(Normal(req.op)) == Some(o)
    case CoordPrepared(req, s, _) => Executed(s, req) in done && req.op == CoordPrepare
    case PartPrepared(req, s, _, o) => Executed(s, req) in done && VoteFor(req.op) == Some(o)
    case CoordFinal(req, s, _, o) => Executed(s, req) in done && DecisionFor(req.op) == Some(o)
    case _ => true
  }

  /** An execution was reported to everyone who has to know. */
  ghost predicate Reported(hooks: seq<Hook>, e: Executed) {
    && (ReplyFor(Normal(e.req.op)).Some? ==> Replied(e.req, e.seqNo, ReplyFor(Normal(e.req.op)).value) in hooks)
    && (e.req.op == CoordPrepare ==> exists cert :: CoordPrepared(e.req, e.seqNo, cert) in hooks)
    && (VoteFor(e.req.op).Some? ==> exists cert :: PartPrepared(e.req, e.seqNo, cert, VoteFor(e.req.op).value) in hooks)
    && (DecisionFor(e.req.op).Some? ==>
          exists cert :: CoordFinal(e.req, e.seqNo, cert, DecisionFor(e.req.op).value) in hooks)
  }

  /** The balance that the operation takes from covers it. */
  predicate Enough(l: Ledger, req: Request) { !Insufficient(l, req) }

  ghost predicate ReportedAt(r: Replica, i: nat)
    requires i < |r.executed|
  {
    Enough(ExecAll(Fresh(r.ledger.initial), Requests(r.executed)[..i], r.view), r.executed[i].req) ==>
      Reported(r.hooks, r.executed[i])
  }

  /** Calls and executions correspond, for everything that the balance covered. */
  ghost predicate Told(r: Replica) {
    && (forall h :: h in r.hooks ==> HookDue(r.executed, h))
    && (forall i :: 0 <= i < |r.executed| ==> ReportedAt(r, i))
  }

  // ---------------------------------------------------------------- every change keeps it

  lemma HooksAreDue(l: Ledger, req: Request, s: int, cert: Certificate)
    ensures forall h :: h in HooksOf(l, req, s, cert) ==> HookDue([Executed(s, req)], h)
    ensures Enough(l, req) ==> Reported(HooksOf(l, req, s, cert), Executed(s, req))
  {
    match Normal(req.op)
    case Intra =>
    case CoordPrepare => assert l.Bal(req.x) >= req.amt ==> CoordPrepared(req, s, cert) in HooksOf(l, req, s, cert);
    case PartPrepareCommit => assert PartPrepared(req, s, cert, Commit) in HooksOf(l, req, s, cert);
    case PartPrepareAbort => assert PartPrepared(req, s, cert, Abort) in HooksOf(l, req, s, cert);
    case CoordCommit => assert HooksOf(l, req, s, cert)[1] == CoordFinal(req, s, cert, Commit);
    case CoordAbort => assert HooksOf(l, req, s, cert)[1] == CoordFinal(req, s, cert, Abort);
    case _ =>
  }

  lemma DueStays(done: seq<Executed>, more: seq<Executed>, h: Hook)
    requires HookDue(done, h) || HookDue(more, h)
    ensures HookDue(done + more, h)
  {
  }

  lemma ReportStays(hooks: seq<Hook>, more: seq<Hook>, e: Executed)
    requires Reported(hooks, e) || Reported(more, e)
    ensures Reported(hooks + more, e)
  {
    if exists cert :: CoordPrepared(e.req, e.seqNo, cert) in hooks + more {
    }
    forall h | h in hooks || h in more ensures h in hooks + more {}
  }

  lemma SameEnough(r: Replica, req: Request)
    requires Replays(r)
    ensures Enough(r.ledger, req) <==> Enough(ExecAll(Fresh(r.ledger.initial), Requests(r.executed), r.view), req)
  {
    var l := ExecAll(Fresh(r.ledger.initial), Requests(r.executed), r.view);
    assert l.Core().Bal(req.x) == l.Bal(req.x) && r.ledger.Core().Bal(req.x) == r.ledger.Bal(req.x);
  }

  lemma ExecuteTells(r: Replica)
    requires r.cfg.Valid() && Replays(r) && Told(r) && CanExecute(r)
    ensures Told(ExecuteNext(r))
  {
    var q, s := ExecuteNext(r), r.execSeq;
    var req, cert := r.log[s].req, r.log[s].commitCert.value;
    var hs, e := HooksOf(r.ledger, req, s, cert), Executed(s, req);
    HooksAreDue(r.ledger, req, s, cert);
    ExecKeepsInitial(r.ledger, req, r.view);
    SameEnough(r, req);
    forall h | h in q.hooks ensures HookDue(q.executed, h) {
      DueStays(r.executed, [e], h);
    }
    forall i | 0 <= i < |q.executed| ensures ReportedAt(q, i) {
      if i < |r.executed| {
        assert ReportedAt(r, i) && Requests(q.executed)[..i] == Requests(r.executed)[..i];
        if Reported(r.hooks, r.executed[i]) {
          ReportStays(r.hooks, hs, r.executed[i]);
        }
      } else {
        assert Requests(q.executed)[..i] == Requests(r.executed);
        if Reported(hs, e) {
          ReportStays(r.hooks, hs, e);
        }
      }
    }
  }

  lemma OtherTells(r: Replica, c: Change)
    requires r.cfg.Valid() && Told(r) && Enabled(r, c) && !c.Execute?
    ensures Told(Apply(r, c))
  {
    var q := Apply(r, c);
    OtherReplays(r, c);
    assert q.ledger.Core().initial == r.ledger.Core().initial;
    var hs := if c.Note? then [c.hook] else [];
    assert q.hooks == r.hooks + hs;
    forall i | 0 <= i < |q.executed| ensures ReportedAt(q, i) {
      assert ReportedAt(r, i);
      if Reported(r.hooks, r.executed[i]) {
        ReportStays(r.hooks, hs, r.executed[i]);
      }
    }
  }

  lemma {:induction false} RunTells(r: Replica, cs: seq<Change>, q: Replica)
    requires r.cfg.Valid() && Runs(r, cs, q) && Replays(r) && InOrder(r) && Told(r)
    ensures Told(q)
    decreases |cs|
  {
    if cs != [] {
      ApplyKeepsConfig(r, cs[0]);
      ChangeReplays(r, cs[0]);
      if cs[0].Execute? {
        ExecuteTells(r);
      } else {
        OtherTells(r, cs[0]);
      }
      RunTells(Apply(r, cs[0]), cs[1..], q);
    }
  }

  // ---------------------------------------------------------------- letters

  /** The call has become the letter that it is for. */
  predicate Posted(n: Node, h: Hook) {
    match h
    case CoordPrepared(req, _, cert) => PrepareLetter(ClientReq(req), cert) in n.outbox && req in n.watched
    case PartPrepared(req, _, cert, o) => ReplyLetter(ClientReq(req), o, cert) in n.outbox
    case CoordFinal(req, _, cert, o) => DecisionLetter(ClientReq(req), o, cert) in n.outbox
    case _ => true
  }

  ghost predicate Mailed(n: Node) {
    Told(n.r) && forall h :: h in n.r.hooks ==> Posted(n, h)
  }

  lemma {:induction false} FireAllPosts(n: Node, hs: seq<Hook>)
    ensures var q := FireAll(n, hs);
      n.outbox <= q.outbox && n.watched <= q.watched && q.r == n.r && forall h :: h in hs ==> Posted(q, h)
    decreases |hs|
  {
    if hs != [] {
      var m := Fire(n, hs[0]);
      FireAllPosts(m, hs[1..]);
      assert Posted(m, hs[0]);
      assert forall h :: h in hs ==> h == hs[0] || h in hs[1..];
    }
  }

  lemma EngineMails(n: Node, a: Action)
    requires n.Valid() && Mailed(n) && Replays(n.r) && InOrder(n.r) && !a.Deliver? && (a.GiveUp? ==> a.seqNo in n.r.log)
    ensures Mailed(EngineStep(n, a))
  {
    var r := Lead(n.r, a);
    var cs := LeadIsChanges(n.r, a);
    RunTells(n.r, cs, r);
    RunHooks(n.r, cs, r);
    NewMails(n, r);
  }

  lemma NewMails(n: Node, r: Replica)
    requires Told(r) && n.r.hooks <= r.hooks && forall h :: h in n.r.hooks ==> Posted(n, h)
    ensures Mailed(AfterEngine(n, r))
  {
    var hs := r.hooks[|n.r.hooks|..];
    FireAllPosts(n.(r := r), hs);
    assert r.hooks == n.r.hooks + hs;
  }

  /** Steps other than the engine's post letters and refuse requests, and no more. */
  lemma OtherSteps(n: Node, s: NodeStep)
    requires Doable(n, s) && !s.Work? && !s.Next?
    ensures var q := Act(n, s);
      && n.outbox <= q.outbox && n.watched <= q.watched
      && (q.r == n.r || (s.ClientCross? && q.r == n.r.Call(Rejected(s.req))))
  {
  }

  lemma OtherMails(n: Node, q: Node, req: Request)
    requires n.Valid() && Mailed(n) && n.outbox <= q.outbox && n.watched <= q.watched
    requires q.r == n.r || q.r == n.r.Call(Rejected(req))
    ensures Mailed(q)
  {
    if q.r != n.r {
      OtherTells(n.r, Note(Rejected(req)));
    }
  }

  lemma ActMails(n: Node, s: NodeStep)
    requires Doable(n, s) && Replays(n.r) && InOrder(n.r) && Mailed(n)
    ensures Mailed(Act(n, s))
  {
    if s.Work? {
      EngineMails(n, s.act);
    } else if s.Next? {
      EngineMails(n.(ingress := Without(n.ingress, s.i)), Start(n.ingress[s.i]));
    } else {
      OtherSteps(n, s);
      OtherMails(n, Act(n, s), if s.ClientCross? then s.req else NoRequest);
    }
  }

  lemma {:induction false} ActsMail(n: Node, steps: seq<NodeStep>, q: Node)
    requires CrossSlot.NodeOk(n) && Mailed(n) && CrossSlot.Acts(n, steps, q)
    ensures CrossSlot.NodeOk(q) && Mailed(q)
    decreases |steps|
  {
    if steps != [] {
      var m := PathFirst(CrossSlot.ActStep, n, steps, q);
      ActMails(n, steps[0]);
      CrossSlot.ActOk(n, steps[0]);
      ActsMail(m, steps[1..], q);
    }
  }

  /** Of an executed operation: the client has its answer, the participant has the coordinator's letters,
      and the coordinator has the participant's vote, all under the outcome that was executed. */
  ghost predicate PaidUp(n: Node, e: Executed) {
    var req := ClientReq(e.req);
    && (ReplyFor(e.req.op).Some? ==> Replied(e.req, e.seqNo, ReplyFor(e.req.op).value) in n.r.hooks)
    && (e.req.op == CoordPrepare ==> e.req in n.watched && exists cert :: PrepareLetter(req, cert) in n.outbox)
    && (VoteFor(e.req.op).Some? ==> exists cert :: ReplyLetter(req, VoteFor(e.req.op).value, cert) in n.outbox)
    && (DecisionFor(e.req.op).Some? ==>
          exists cert :: DecisionLetter(req, DecisionFor(e.req.op).value, cert) in n.outbox)
  }

  lemma ReportedIsPaid(n: Node, e: Executed)
    requires Mailed(n) && Reported(n.r.hooks, e) && e.req.op != Unset
    ensures PaidUp(n, e)
  {
    var req := ClientReq(e.req);
    if e.req.op == CoordPrepare {
      var cert :| CoordPrepared(e.req, e.seqNo, cert) in n.r.hooks;
      assert Posted(n, CoordPrepared(e.req, e.seqNo, cert)) && PrepareLetter(req, cert) in n.outbox;
    }
    if VoteFor(e.req.op).Some? {
      var o := VoteFor(e.req.op).value;
      var cert :| PartPrepared(e.req, e.seqNo, cert, o) in n.r.hooks;
      assert Posted(n, PartPrepared(e.req, e.seqNo, cert, o)) && ReplyLetter(req, o, cert) in n.outbox;
    }
    if DecisionFor(e.req.op).Some? {
      var o := DecisionFor(e.req.op).value;
      var cert :| CoordFinal(e.req, e.seqNo, cert, o) in n.r.hooks;
      assert Posted(n, CoordFinal(e.req, e.seqNo, cert, o)) && DecisionLetter(req, o, cert) in n.outbox;
    }
  }

  /** In every run of a stable primary: whatever it executed it has answered and passed on, and a client is
      told of no outcome but one that was executed for it. */
  lemma EveryExecutionIsPaid(cfg: Config, steps: seq<NodeStep>, q: Node)
    requires cfg.Valid() && cfg.top.PrimaryOf(cfg.cluster, 0) == cfg.self
    requires CrossSlot.Acts(BootNode(cfg), steps, q)
    ensures forall e :: e in q.r.executed ==> PaidUp(q, e)
    ensures forall req, s, o :: Replied(req, s, o) in q.r.hooks <==>
      Executed(s, req) in q.r.executed && ReplyFor(req.op) == Some(o)
  {
    CrossSlot.BootOk(cfg, cfg.top.initialBalance);
    ActsMail(BootNode(cfg), steps, q);
    forall e | e in q.r.executed ensures e.req.op != Unset && PaidUp(q, e) {
      var i :| 0 <= i < |q.r.executed| && q.r.executed[i] == e;
      ExecutedIsPaid(q, i);
    }
    forall req, s, o | Replied(req, s, o) in q.r.hooks
      ensures Executed(s, req) in q.r.executed && ReplyFor(req.op) == Some(o)
    {
      assert HookDue(q.r.executed, Replied(req, s, o));
    }
  }

  lemma ExecutedIsPaid(n: Node, i: nat)
    requires CrossSlot.NodeOk(n) && Mailed(n) && i < |n.r.executed|
    ensures n.r.executed[i].req.op != Unset && PaidUp(n, n.r.executed[i])
  {
    assert LeadDid(n.r.log, n.r.executed[i]);
    assert Proposer.CoversAt(n.r.ledger.initial, Requests(n.r.executed), n.r.view, i) && ReportedAt(n.r, i);
    ReportedIsPaid(n, n.r.executed[i]);
  }
}
