/** Client timestamps and repeated requests (pbft/engine.go:600-610, 905-915, 965-975, 1010-1020): what a
    replica remembers of a client, and when a stable primary can execute one transfer twice. */
module Timestamps {
  import opened Types
  import opened Ledgers
  import opened Pbft
  import opened Micro
  import opened Agreement
  import opened Replication
  import opened Proposer
  import opened Paths

  // ---------------------------------------------------------------- the last stamp

  /** Executions that count for the client: covered intra-shard transfers and the coordinator's decisions. */
  predicate Stamps(l: Ledger, req: Request) {
    || (Normal(req.op) == Intra && l.Bal(req.x) >= req.amt)
    || req.op == CoordCommit || req.op == CoordAbort
  }

  predicate StampsAt(initial: int, log: seq<Request>, view: int, client: string, k: nat)
    requires k < |log|
  {
    log[k].client == client && Stamps(ExecAll(Fresh(initial), log[..k], view), log[k])
  }

  predicate LastStamp(initial: int, log: seq<Request>, view: int, client: string, k: int) {
    && 0 <= k < |log| && StampsAt(initial, log, view, client, k)
    && forall j :: k < j < |log| ==> !StampsAt(initial, log, view, client, j)
  }

  predicate NeverStamped(initial: int, log: seq<Request>, view: int, client: string) {
    forall k :: 0 <= k < |log| ==> !StampsAt(initial, log, view, client, k)
  }

  lemma StampOne(l: Ledger, req: Request, view: int, client: string)
    ensures Exec(l, req, view).TS(client) == if Stamps(l, req) && req.client == client then req.ts else l.TS(client)
  {
    match Normal(req.op)
    case Intra =>
    case CoordPrepare =>
    case PartPrepareCommit =>
    case PartPrepareAbort =>
    case CoordCommit =>
    case CoordAbort =>
    case PartCommit =>
    case PartAbort =>
    case _ =>
  }

  lemma StampInPrefix(initial: int, log: seq<Request>, view: int, client: string, n: nat, k: nat)
    requires k < n <= |log|
    ensures StampsAt(initial, log[..n], view, client, k) == StampsAt(initial, log, view, client, k)
  {
    assert log[..n][..k] == log[..k];
  }

  /** The last operation of the log stamps, or the last stamp is an earlier one. */
  lemma StampStep(initial: int, log: seq<Request>, view: int, client: string)
    requires log != []
    ensures var n := |log| - 1;
      && (forall k :: LastStamp(initial, log, view, client, k) <==>
            if StampsAt(initial, log, view, client, n) then k == n else LastStamp(initial, log[..n], view, client, k))
      && (NeverStamped(initial, log, view, client) <==>
            !StampsAt(initial, log, view, client, n) && NeverStamped(initial, log[..n], view, client))
  {
    var n := |log| - 1;
    forall k | 0 <= k < n
      ensures StampsAt(initial, log[..n], view, client, k) == StampsAt(initial, log, view, client, k)
    {
      StampInPrefix(initial, log, view, client, n, k);
    }
  }

  /** After any log the timestamp of a client is that of its last covered transfer or coordinator decision,
      whether or not an earlier one was higher; and it is zero while there was none. */
  lemma {:induction false} TimestampMeaning(initial: int, log: seq<Request>, view: int, client: string)
    ensures var ts := ExecAll(Fresh(initial), log, view).TS(client);
      && (forall k :: LastStamp(initial, log, view, client, k) ==> ts == log[k].ts)
      && (NeverStamped(initial, log, view, client) ==> ts == 0)
    ensures NeverStamped(initial, log, view, client) || exists k :: LastStamp(initial, log, view, client, k)
  {
    if log != [] {
      var n := |log| - 1;
      var l := ExecAll(Fresh(initial), log[..n], view);
      TimestampMeaning(initial, log[..n], view, client);
      StampOne(l, log[n], view, client);
      StampStep(initial, log, view, client);
      assert StampsAt(initial, log, view, client, n) <==> Stamps(l, log[n]) && log[n].client == client;
      if StampsAt(initial, log, view, client, n) {
        assert LastStamp(initial, log, view, client, n);
      } else if k :| LastStamp(initial, log[..n], view, client, k) {
        assert LastStamp(initial, log, view, client, k);
      }
    }
  }

  // ---------------------------------------------------------------- what a repeated transfer needs

  predicate SameTransfer(a: Request, b: Request) {
    a.op == Intra && b.op == Intra && TxnOf(a) == TxnOf(b)
  }

  /** After index `i` something of the client with a lower timestamp than `req` was stamped. */
  predicate Lowered(initial: int, log: seq<Request>, view: int, req: Request, i: int) {
    exists k :: i < k < |log| && k >= 0 && StampsAt(initial, log, view, req.client, k) && log[k].ts < req.ts
  }

  /** After each execution of the same transfer the timestamp went below its own. */
  predicate Overtaken(initial: int, log: seq<Request>, view: int, req: Request) {
    forall i :: 0 <= i < |log| && SameTransfer(log[i], req) ==> Lowered(initial, log, view, req, i)
  }

  predicate OvertakenAt(initial: int, log: seq<Request>, view: int, j: nat)
    requires j < |log|
  {
    log[j].op == Intra ==> Overtaken(initial, log[..j], view, log[j])
  }

  /** No two unfinished transfers are the same. */
  predicate Alone(log: map<int, Slot>) {
    forall s, u :: s in log && u in log && Live(log[s]) && Live(log[u]) && SameTransfer(log[s].req, log[u].req) ==>
      s == u
  }

  predicate Waiting(initial: int, done: seq<Request>, view: int, slot: Slot) {
    Live(slot) && slot.req.op == Intra ==> Overtaken(initial, done, view, slot.req)
  }

  ghost predicate Unrepeated(r: Replica) {
    var initial, done := r.ledger.initial, Requests(r.executed);
    && Alone(r.log)
    && (forall s :: s in r.log ==> Waiting(initial, done, r.view, r.log[s]))
    && (forall j :: 0 <= j < |done| ==> OvertakenAt(initial, done, r.view, j))
  }

  /** More executions do not matter to a transfer that is not among them. */
  lemma OvertakenMore(initial: int, log: seq<Request>, view: int, req: Request, next: Request)
    requires Overtaken(initial, log, view, req) && !SameTransfer(next, req)
    ensures Overtaken(initial, log + [next], view, req)
  {
    var more := log + [next];
    assert more[..|log|] == log;
    forall i | 0 <= i < |more| && SameTransfer(more[i], req) ensures Lowered(initial, more, view, req, i) {
      assert more[i] == log[i];
      assert Lowered(initial, log, view, req, i);
      var k :| i < k < |log| && k >= 0 && StampsAt(initial, log, view, req.client, k) && log[k].ts < req.ts;
      StampInPrefix(initial, more, view, req.client, |log|, k);
      assert more[k] == log[k];
    }
  }

  lemma ReplayedNext(initial: int, done: seq<Request>, view: int, req: Request)
    requires forall j :: 0 <= j < |done| ==> OvertakenAt(initial, done, view, j)
    requires req.op == Intra ==> Overtaken(initial, done, view, req)
    ensures forall j :: 0 <= j < |done + [req]| ==> OvertakenAt(initial, done + [req], view, j)
  {
    var more := done + [req];
    forall j | 0 <= j < |more| ensures OvertakenAt(initial, more, view, j) {
      if j < |done| {
        assert more[..j] == done[..j] && more[j] == done[j];
        assert OvertakenAt(initial, done, view, j);
      } else {
        assert more[..j] == done;
      }
    }
  }

  lemma ExecuteUnrepeated(r: Replica)
    requires r.cfg.Valid() && LeadInv(r) && Unrepeated(r) && CanExecute(r)
    ensures Unrepeated(ExecuteNext(r))
  {
    var q, s, done := ExecuteNext(r), r.execSeq, Requests(r.executed);
    var initial, req := r.ledger.initial, r.log[s].req;
    ExecKeepsInitial(r.ledger, req, r.view);
    assert LeadSlot(r.log[s], s >= r.nextSeq) && Waiting(initial, done, r.view, r.log[s]);
    assert Requests(q.executed) == done + [req];
    OthersWait(initial, done, r.view, r.log, s);
    ReplayedNext(initial, done, r.view, req);
  }

  lemma OthersWait(initial: int, done: seq<Request>, view: int, log: map<int, Slot>, s: int)
    requires Alone(log) && s in log && Live(log[s]) && forall u :: u in log ==> Waiting(initial, done, view, log[u])
    ensures var after := log[s := log[s].(executed := true)];
      Alone(after) && forall u :: u in after ==> Waiting(initial, done + [log[s].req], view, after[u])
  {
    forall u | u in log && u != s ensures Waiting(initial, done + [log[s].req], view, log[u]) {
      if Live(log[u]) && log[u].req.op == Intra {
        OvertakenMore(initial, done, view, log[u].req, log[s].req);
      }
    }
  }

  /** Other changes add no unfinished operation. */
  lemma OtherFrame(r: Replica, c: Change)
    requires r.cfg.Valid() && Enabled(r, c) && Leading(c) && !c.Execute? && !c.Offer?
    ensures var q := Apply(r, c);
      forall s :: s in q.log && Live(q.log[s]) ==> s in r.log && Live(r.log[s]) && q.log[s].req == r.log[s].req
  {
  }

  lemma OtherUnrepeated(r: Replica, c: Change)
    requires r.cfg.Valid() && Unrepeated(r) && Enabled(r, c) && Leading(c) && !c.Execute? && !c.Offer?
    ensures Unrepeated(Apply(r, c))
  {
    OtherFrame(r, c);
    OtherReplays(r, c);
    var q := Apply(r, c);
    assert q.ledger.Core().initial == q.ledger.initial && r.ledger.Core().initial == r.ledger.initial;
    forall s | s in q.log ensures Waiting(q.ledger.initial, Requests(q.executed), q.view, q.log[s]) {
      assert s in r.log ==> Waiting(r.ledger.initial, Requests(r.executed), r.view, r.log[s]);
    }
  }

  lemma {:induction false} RunUnrepeated(r: Replica, cs: seq<Change>, q: Replica)
    requires r.cfg.Valid() && r.IsPrimary() && LeadInv(r) && Unrepeated(r) && Runs(r, cs, q)
    requires forall c :: c in cs ==> Leading(c) && !c.Offer?
    ensures Unrepeated(q)
    decreases |cs|
  {
    if cs != [] {
      ApplyKeepsConfig(r, cs[0]);
      assert cs[0] in cs;
      LeadChanges(r, cs[0]);
      if cs[0].Execute? {
        ExecuteUnrepeated(r);
      } else {
        OtherUnrepeated(r, cs[0]);
      }
      RunUnrepeated(Apply(r, cs[0]), cs[1..], q);
    }
  }

  // ---------------------------------------------------------------- proposing

  /** What a primary remembers of a client is what its executed log says. */
  lemma RememberedStamp(r: Replica, client: string)
    requires Replays(r)
    ensures r.ledger.TS(client) == ExecAll(Fresh(r.ledger.initial), Requests(r.executed), r.view).TS(client)
  {
    var l := ExecAll(Fresh(r.ledger.initial), Requests(r.executed), r.view);
    assert l.Core().TS(client) == l.TS(client) && r.ledger.Core().TS(client) == r.ledger.TS(client);
  }

  /** A transfer whose timestamp is above the remembered one was overtaken since it was last executed. */
  lemma NewerIsOvertaken(initial: int, log: seq<Request>, view: int, req: Request)
    requires Covering(initial, log, view) && ExecAll(Fresh(initial), log, view).TS(req.client) < req.ts
    ensures Overtaken(initial, log, view, req)
  {
    TimestampMeaning(initial, log, view, req.client);
    forall i | 0 <= i < |log| && SameTransfer(log[i], req) ensures Lowered(initial, log, view, req, i) {
      assert CoversAt(initial, log, view, i);
      assert StampsAt(initial, log, view, req.client, i);
      var k :| LastStamp(initial, log, view, req.client, k);
      assert i < k;
    }
  }

  lemma OfferUnrepeated(r: Replica, req: Request)
    requires r.cfg.Valid() && r.IsPrimary() && Disciplined(r) && Unrepeated(r) && Enabled(r, Offer(req))
    ensures Unrepeated(Apply(r, Offer(req))) && LeadInv(Apply(r, Offer(req)))
  {
    if req.op == Intra {
      RememberedStamp(r, req.client);
      NewerIsOvertaken(r.ledger.initial, Requests(r.executed), r.view, req);
    }
    OfferWaits(r, req);
    LeadChanges(r, Offer(req));
  }

  lemma OfferWaits(r: Replica, req: Request)
    requires r.cfg.Valid() && Unrepeated(r) && Enabled(r, Offer(req))
    requires req.op == Intra ==> Overtaken(r.ledger.initial, Requests(r.executed), r.view, req)
    ensures Unrepeated(Apply(r, Offer(req)))
  {
    var q, s := Apply(r, Offer(req)), r.nextSeq;
    OtherReplays(r, Offer(req));
    assert q.ledger.Core().initial == r.ledger.Core().initial == r.ledger.initial;
    NewWaits(r.ledger.initial, Requests(r.executed), r.view, r.log, s, Proposed(SlotAt(r, s), DigestOf(req), req));
  }

  lemma NewWaits(initial: int, done: seq<Request>, view: int, log: map<int, Slot>, s: int, slot: Slot)
    requires Alone(log) && (forall u :: u in log ==> Waiting(initial, done, view, log[u]))
    requires slot.req.op == Intra ==>
      && Overtaken(initial, done, view, slot.req)
      && forall u :: u in log && Live(log[u]) ==> TxnOf(log[u].req) != TxnOf(slot.req)
    ensures var more := log[s := slot]; Alone(more) && forall u :: u in more ==> Waiting(initial, done, view, more[u])
  {
  }

  lemma StartUnrepeated(r: Replica, req0: Request)
    requires r.cfg.Valid() && r.IsPrimary() && Disciplined(r) && Unrepeated(r)
    ensures Unrepeated(StartConsensus(r, req0))
  {
    var cs := StartConsensusRuns(r, req0);
    StartingUnrepeated(r, req0.(op := Normal(req0.op)), cs, StartConsensus(r, req0));
  }

  lemma OfferThen(r: Replica, req: Request, cs: seq<Change>, q: Replica)
    requires r.cfg.Valid() && r.IsPrimary() && Enabled(r, Offer(req))
    requires LeadInv(Apply(r, Offer(req))) && Unrepeated(Apply(r, Offer(req)))
    requires Runs(r, cs, q) && cs != [] && cs[0] == Offer(req) && AllQuiet(cs[1..])
    ensures Unrepeated(q)
  {
    ApplyKeepsConfig(r, cs[0]);
    RunUnrepeated(Apply(r, cs[0]), cs[1..], q);
  }

  lemma StartingUnrepeated(r: Replica, req: Request, cs: seq<Change>, q: Replica)
    requires r.cfg.Valid() && r.IsPrimary() && Disciplined(r) && Unrepeated(r)
    requires Runs(r, cs, q) && Starting(r.nextSeq, req, cs)
    ensures Unrepeated(q)
  {
    if cs != [] && cs[0] == Offer(req) {
      OfferUnrepeated(r, req);
      OfferThen(r, req, cs, q);
    } else {
      assert forall c :: c in cs ==> c == cs[0] || c in cs[1..];
      RunUnrepeated(r, cs, q);
    }
  }

  lemma LeadUnrepeated(r: Replica, a: Action)
    requires r.cfg.Valid() && r.IsPrimary() && Disciplined(r) && Unrepeated(r) && Warranted(r, a)
    ensures Unrepeated(Lead(r, a))
  {
    if a.Start? {
      StartUnrepeated(r, a.req);
    } else {
      var cs := LeadIsChanges(r, a);
      RunUnrepeated(r, cs, Lead(r, a));
    }
  }

  lemma {:induction false} LedUnrepeated(r: Replica, acts: seq<Action>, q: Replica)
    requires r.cfg.Valid() && r.IsPrimary() && Disciplined(r) && Unrepeated(r) && Led(r, acts, q)
    ensures Unrepeated(q) && q.view == r.view && q.ledger.initial == r.ledger.initial
    decreases |acts|
  {
    if acts != [] {
      var _ := PathFirst(LedStep, r, acts, q);
      LeadUnrepeated(r, acts[0]);
      LeadDisciplined(r, acts[0]);
      LedUnrepeated(Lead(r, acts[0]), acts[1..], q);
    }
  }

  /** The replay law: a stable primary executes one intra-shard transfer a second time only after another
      request of that client, with a lower timestamp, was executed in between and took the place of the
      transfer's own timestamp. */
  lemma ReplayLaw(cfg: Config, initial: int, acts: seq<Action>, q: Replica, i: nat, j: nat)
    requires cfg.Valid() && cfg.top.PrimaryOf(cfg.cluster, 0) == cfg.self && Led(Boot(cfg, initial), acts, q)
    requires i < j < |q.executed| && SameTransfer(q.executed[i].req, q.executed[j].req)
    ensures exists k ::
      && i < k < j && q.executed[k].req.ts < q.executed[j].req.ts
      && StampsAt(initial, Requests(q.executed), 0, q.executed[j].req.client, k)
  {
    var log := Requests(q.executed);
    assert Requests(Boot(cfg, initial).executed) == [];
    LedUnrepeated(Boot(cfg, initial), acts, q);
    assert OvertakenAt(initial, log, 0, j) && log[..j][i] == log[i];
    assert Lowered(initial, log[..j], 0, log[j], i);
    var k :| i < k < j && k >= 0 && StampsAt(initial, log[..j], 0, log[j].client, k) && log[..j][k].ts < log[j].ts;
    StampInPrefix(initial, log, 0, log[j].client, j, k);
  }

  /** And what such a primary makes of a resent transfer: it proposes it again exactly when the client's
      last stamped request has a lower timestamp, none of the transaction waits for execution, the items
      are free and different, and the balance covers it. */
  lemma ResentIsOffered(cfg: Config, initial: int, acts: seq<Action>, q: Replica, req: Request, last: nat)
    requires cfg.Valid() && cfg.top.PrimaryOf(cfg.cluster, 0) == cfg.self && Led(Boot(cfg, initial), acts, q)
    requires req.op == Intra && LastStamp(initial, Requests(q.executed), 0, req.client, last)
    ensures ValidateForStart(q, req) && CanOffer(q, req) <==>
      && q.executed[last].req.ts < req.ts
      && (forall s :: s in q.log && Live(q.log[s]) ==> TxnOf(q.log[s].req) != TxnOf(req))
      && req.x !in q.ledger.locks && req.y !in q.ledger.locks && req.x != req.y
      && q.ledger.Bal(req.x) >= req.amt
  {
    LedRemembers(cfg, initial, acts, q, req.client, last);
    TransferLocks(q, req);
    assert TxnInFlight(q, req) <==> exists s :: s in q.log && Live(q.log[s]) && TxnOf(q.log[s].req) == TxnOf(req);
  }

  lemma LedRemembers(cfg: Config, initial: int, acts: seq<Action>, q: Replica, client: string, last: nat)
    requires cfg.Valid() && cfg.top.PrimaryOf(cfg.cluster, 0) == cfg.self && Led(Boot(cfg, initial), acts, q)
    requires LastStamp(initial, Requests(q.executed), 0, client, last)
    ensures q.ledger.TS(client) == q.executed[last].req.ts
  {
    LedDisciplined(Boot(cfg, initial), acts, q);
    RememberedStamp(q, client);
    TimestampMeaning(initial, Requests(q.executed), 0, client);
  }

  lemma TransferLocks(r: Replica, req: Request)
    requires req.op == Intra
    ensures CanAcquire(r.ledger, req) && CanOffer(r, req) <==>
      req.x !in r.ledger.locks && req.y !in r.ledger.locks && req.x != req.y
  {
    var l, items := r.ledger, LockItems(req);
    assert items == [req.x, req.y] && items[0] == req.x && items[1] == req.y;
    if req.x == req.y {
      SelfTransferNeverOffered(r, req);
    } else if req.x !in l.locks {
      assert items[1..] == [req.y];
      assert AcquireAll(l.Acquire(req.x, r.nextSeq), [req.y], r.nextSeq).1 <==> req.y !in l.locks;
    }
  }
}
