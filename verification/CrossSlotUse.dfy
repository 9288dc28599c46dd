/** The cross slot is never lost (twopc/coordinator.go:73-93, 112-156, pbft/engine.go:302-370, 1198-1260):
    while it is taken, a coordinator prepare is queued or waits for execution. */
module CrossSlotUse {
  import opened Types
  import opened Ledgers
  import opened Pbft
  import opened Micro
  import opened Agreement
  import opened Replication
  import opened Proposer
  import opened TwoPC
  import opened CrossSlot
  import opened Paths
  import Timestamps
  import Voting

  // ---------------------------------------------------------------- the engine's part

  predicate InUse(r: Replica, busy: bool) {
    busy ==> exists s :: s in r.log && Debiting(r.log[s])
  }

  /** Every coordinator prepare that waits still waits, or the slot was freed. */
  predicate KeepsUse(r: Replica, q: Replica) {
    && r.hooks <= q.hooks
    && ((exists h :: h in NewHooksOf(r, q) && Frees(h))
        || forall s :: s in r.log && Debiting(r.log[s]) ==> s in q.log && Debiting(q.log[s]))
  }

  lemma KeptUse(r: Replica, q: Replica, busy: bool)
    requires KeepsUse(r, q) && InUse(r, busy)
    ensures InUse(q, BusyAfter(busy, NewHooksOf(r, q)))
  {
  }

  lemma UseThen(r: Replica, m: Replica, q: Replica)
    requires KeepsUse(r, m) && KeepsUse(m, q)
    ensures KeepsUse(r, q)
  {
    assert NewHooksOf(r, q) == NewHooksOf(r, m) + NewHooksOf(m, q);
    if h :| h in NewHooksOf(r, m) && Frees(h) {
      assert h in NewHooksOf(r, q);
    } else if h :| h in NewHooksOf(m, q) && Frees(h) {
      assert h in NewHooksOf(r, q);
    }
  }

  lemma ExecuteUse(r: Replica)
    requires r.cfg.Valid() && Exclusive(r.cfg, r.log, r.ledger) && CanExecute(r)
    ensures KeepsUse(r, ExecuteNext(r))
  {
    var q, s := ExecuteNext(r), r.execSeq;
    var slot := r.log[s];
    assert SlotOk(r.cfg, r.ledger, s, slot);
    var hs := HooksOf(r.ledger, slot.req, s, slot.commitCert.value);
    assert NewHooksOf(r, q) == hs;
    if Debiting(slot) {
      assert hs[0] in hs && Frees(hs[0]);
    }
  }

  lemma CalmUse(r: Replica, c: Change)
    requires r.cfg.Valid() && Exclusive(r.cfg, r.log, r.ledger) && Enabled(r, c) && Calm(c)
    ensures KeepsUse(r, Apply(r, c))
  {
    if c.Execute? {
      ExecuteUse(r);
    }
  }

  lemma {:induction false} CalmsUse(r: Replica, cs: seq<Change>, q: Replica)
    requires r.cfg.Valid() && r.IsPrimary() && Disciplined(r) && Runs(r, cs, q) && AllCalm(cs)
    ensures KeepsUse(r, q)
    decreases |cs|
  {
    if cs != [] {
      ApplyKeepsConfig(r, cs[0]);
      assert cs[0] in cs;
      CalmUse(r, cs[0]);
      CalmDisciplined(r, cs[0]);
      CalmsUse(Apply(r, cs[0]), cs[1..], q);
      UseThen(r, Apply(r, cs[0]), q);
    }
  }

  lemma {:induction false} NotesUse(r: Replica, req: Request, cs: seq<Change>, q: Replica)
    requires r.cfg.Valid() && Runs(r, cs, q) && OnlyNotes(req, cs)
    ensures KeepsUse(r, q)
    decreases |cs|
  {
    if cs != [] {
      ApplyKeepsConfig(r, cs[0]);
      assert cs[0] in cs;
      assert KeepsUse(r, Apply(r, cs[0]));
      NotesUse(Apply(r, cs[0]), req, cs[1..], q);
      UseThen(r, Apply(r, cs[0]), q);
    }
  }

  // ---------------------------------------------------------------- starting and giving up

  lemma OpeningUse(r: Replica, s: int, cs: seq<Change>, q: Replica)
    requires r.cfg.Valid() && r.IsPrimary() && Disciplined(r) && s in r.log && Live(r.log[s])
    requires Runs(r, cs, q) && Opening(s, cs)
    ensures KeepsUse(r, q)
  {
    if cs != [] && cs[0] == LockSlot(s) {
      assert SlotOk(r.cfg, r.ledger, s, r.log[s]);
      EnsureHeld(r.ledger, LockItems(r.log[s].req), s);
      assert Apply(r, cs[0]) == r;
      CalmsUse(r, cs[1..], q);
    } else {
      assert forall c :: c in cs ==> c == cs[0] || c in cs[1..];
      CalmsUse(r, cs, q);
    }
  }

  lemma OfferUse(r: Replica, req: Request, cs: seq<Change>, q: Replica)
    requires r.cfg.Valid() && r.IsPrimary() && Disciplined(r) && Enabled(r, Offer(req)) && Proper(r, req)
    requires Apply(r, Offer(req)).cfg.Valid() && Runs(Apply(r, Offer(req)), cs, q) && Opening(r.nextSeq, cs)
    ensures KeepsUse(r, q)
    ensures IsDebit(req) ==> InUse(q, BusyAfter(true, NewHooksOf(r, q)))
  {
    var m := Apply(r, Offer(req));
    ApplyKeepsConfig(r, Offer(req));
    assert m.hooks == r.hooks;
    OfferFrame(r, req);
    OfferDisciplined(r, req);
    OpeningUse(m, r.nextSeq, cs, q);
    assert KeepsUse(r, m);
    UseThen(r, m, q);
    if IsDebit(req) {
      assert Debiting(m.log[r.nextSeq]);
      KeptUse(m, q, true);
      assert NewHooksOf(m, q) == NewHooksOf(r, q);
    }
  }

  lemma StartUse(r: Replica, req0: Request)
    requires r.cfg.Valid() && r.IsPrimary() && Disciplined(r) && Proper(r, req0.(op := Normal(req0.op)))
    ensures KeepsUse(r, StartConsensus(r, req0))
    ensures IsDebit(req0) ==> InUse(StartConsensus(r, req0), BusyAfter(true, NewHooksOf(r, StartConsensus(r, req0))))
  {
    var req, q := req0.(op := Normal(req0.op)), StartConsensus(r, req0);
    if Voting.Startable(r, req) {
      var cs := OfferRuns(r, req);
      ApplyKeepsConfig(r, cs[0]);
      OfferUse(r, req, cs[1..], q);
    } else {
      var cs := StartConsensusRuns(r, req0);
      StartingUse(r, req, cs, q);
      if IsDebit(req0) {
        Voting.RefusalIs(r, req0);
        assert Dropped(req) in NewHooksOf(r, q);
      }
    }
  }

  lemma StartingUse(r: Replica, req: Request, cs: seq<Change>, q: Replica)
    requires r.cfg.Valid() && r.IsPrimary() && Disciplined(r) && Proper(r, req)
    requires Runs(r, cs, q) && Starting(r.nextSeq, req, cs)
    ensures KeepsUse(r, q)
  {
    if OnlyNotes(req, cs) {
      NotesUse(r, req, cs, q);
    } else {
      ApplyKeepsConfig(r, cs[0]);
      if cs[0] == Offer(req) {
        OfferUse(r, req, cs[1..], q);
      } else {
        NotesUse(Apply(r, Burn), req, cs[1..], q);
        assert KeepsUse(r, Apply(r, Burn));
        UseThen(r, Apply(r, Burn), q);
      }
    }
  }

  lemma RetractUse(r: Replica, s: int)
    requires r.cfg.Valid() && Enabled(r, Discard(s)) && !r.log[s].discarded
    ensures KeepsUse(r, Retract(Apply(r, Discard(s)), s, r.log[s].req))
  {
    var r1, req := Apply(r, Discard(s)), r.log[s].req;
    var r2 := Retract(r1, s, req);
    RetractWithdraws(r1, s, req);
    var hs := if req.op == CoordPrepare then [Dropped(req)] else [];
    assert r2.hooks == r.hooks + hs && NewHooksOf(r, r2) == hs;
    if Debiting(r.log[s]) {
      assert hs[0] in hs && Frees(hs[0]);
    }
  }

  lemma ReclaimUse(r: Replica, s: int)
    requires r.cfg.Valid() && r.IsPrimary() && Disciplined(r) && s in r.log && !r.log[s].discarded
    ensures KeepsUse(r, Reclaim(r, s, r.log[s].req))
  {
    if CanReclaim(r, s) {
      var _, r2 := ReclaimSteps(r, s);
      RetractUse(r, s);
      var cs := ResumeRuns(r2, s);
      CalmsUse(r2, cs, TryExecute(SkipIfStuck(r2, s)));
      UseThen(r, r2, TryExecute(SkipIfStuck(r2, s)));
    }
  }

  // ---------------------------------------------------------------- the node

  /** While the slot is taken, somebody uses it. */
  ghost predicate SlotUsed(n: Node) {
    n.crossBusy ==> DebitQueued(n) || InUse(n.r, true)
  }

  lemma EngineUse(n: Node, r: Replica)
    requires SlotUsed(n) && KeepsUse(n.r, r)
    ensures SlotUsed(AfterEngine(n, r))
  {
    FireAllFrame(n.(r := r), NewHooksOf(n.r, r));
    if !DebitQueued(n) {
      KeptUse(n.r, r, n.crossBusy);
    }
  }

  lemma WorkUse(n: Node, a: Action)
    requires NodeOk(n) && Orderly(n, Work(a)) && SlotUsed(n)
    ensures SlotUsed(Act(n, Work(a)))
  {
    var q := Lead(n.r, a);
    match a {
      case TakePrepare(from, s, v, d, sig) =>
        var cs := OnPrepareRuns(n.r, from, s, v, d, sig);
        CalmsUse(n.r, cs, q);
      case TakeCommit(from, s, v, d, sig) =>
        var cs := OnCommitRuns(n.r, from, s, v, d, sig);
        CalmsUse(n.r, cs, q);
      case GiveUp(s) => ReclaimUse(n.r, s);
    }
    EngineUse(n, q);
  }

  lemma TakenOther(n: Node, i: nat)
    requires i < |n.ingress| && DebitQueued(n) && !IsDebit(n.ingress[i])
    ensures DebitQueued(n.(ingress := Without(n.ingress, i)))
  {
    var j :| 0 <= j < |n.ingress| && IsDebit(n.ingress[j]);
    assert Without(n.ingress, i)[if j < i then j else j - 1] == n.ingress[j];
  }

  lemma NextUse(n: Node, i: nat)
    requires NodeOk(n) && Orderly(n, Next(i)) && SlotUsed(n)
    ensures SlotUsed(Act(n, Next(i)))
  {
    var req := n.ingress[i];
    var m, q := n.(ingress := Without(n.ingress, i)), StartConsensus(n.r, req);
    StartUse(n.r, req);
    if IsDebit(req) {
      FireAllFrame(m.(r := q), NewHooksOf(n.r, q));
      assert Queued(n, Requests(n.r.executed), req);
    } else {
      if DebitQueued(n) {
        TakenOther(n, i);
      }
      EngineUse(m, q);
    }
  }

  lemma MoreQueued(n: Node, q: Node)
    requires SlotUsed(n) && q.r.log == n.r.log && n.ingress <= q.ingress
    requires q.crossBusy ==> n.crossBusy || DebitQueued(q)
    ensures SlotUsed(q)
  {
    if n.crossBusy && DebitQueued(n) {
      var j :| 0 <= j < |n.ingress| && IsDebit(n.ingress[j]);
      assert q.ingress[j] == n.ingress[j];
    }
  }

  lemma OtherUse(n: Node, s: NodeStep)
    requires Doable(n, s) && SlotUsed(n) && !s.Work? && !s.Next?
    ensures SlotUsed(Act(n, s))
  {
    var q := Act(n, s);
    if q.crossBusy && !n.crossBusy {
      assert IsDebit(q.ingress[|n.ingress|]);
    }
    MoreQueued(n, q);
  }

  lemma {:induction false} ActsUse(n: Node, steps: seq<NodeStep>, q: Node)
    requires NodeOk(n) && SlotUsed(n) && Acts(n, steps, q)
    ensures NodeOk(q) && SlotUsed(q)
    decreases |steps|
  {
    if steps != [] {
      var m := PathFirst(ActStep, n, steps, q);
      match steps[0] {
        case Work(a) => WorkUse(n, a);
        case Next(i) => NextUse(n, i);
        case _ => OtherUse(n, steps[0]);
      }
      ActOk(n, steps[0]);
      ActsUse(m, steps[1..], q);
    }
  }

  /** In every run of a stable coordinator primary the cross slot is taken exactly while a coordinator
      prepare is queued or waits for execution: whatever is refused, dropped or given up, it never stays
      taken for nothing, so the next transaction is let in. */
  lemma SlotNeverLeaks(cfg: Config, steps: seq<NodeStep>, q: Node)
    requires cfg.Valid() && cfg.top.PrimaryOf(cfg.cluster, 0) == cfg.self && Acts(BootNode(cfg), steps, q)
    ensures q.crossBusy <==>
      (exists i :: 0 <= i < |q.ingress| && IsDebit(q.ingress[i])) || (exists s :: s in q.r.log && Debiting(q.r.log[s]))
  {
    BootOk(cfg, cfg.top.initialBalance);
    ActsUse(BootNode(cfg), steps, q);
    SlotExclusive(q);
  }

  // ---------------------------------------------------------------- who is let in

  /** The timestamp of the client's last stamped request, or zero. */
  ghost predicate Remembered(n: Node, client: string, ts: int) {
    var initial, log, view := n.r.ledger.initial, Requests(n.r.executed), n.r.view;
    || (Timestamps.NeverStamped(initial, log, view, client) && ts == 0)
    || exists k :: Timestamps.LastStamp(initial, log, view, client, k) && log[k].ts == ts
  }

  lemma RememberedIs(n: Node, client: string, ts: int)
    requires Replays(n.r) && Remembered(n, client, ts)
    ensures n.r.ledger.TS(client) == ts
  {
    Timestamps.RememberedStamp(n.r, client);
    Timestamps.TimestampMeaning(n.r.ledger.initial, Requests(n.r.executed), n.r.view, client);
  }

  predicate Coming(n: Node) {
    || (exists i :: 0 <= i < |n.ingress| && IsDebit(n.ingress[i]))
    || (exists s :: s in n.r.log && Debiting(n.r.log[s]))
  }

  /** Everything that a cross-shard request needs but the balance. */
  ghost predicate Entitled(n: Node, req: Request, ts: int)
    requires n.Valid()
  {
    && n.r.cfg.top.ClusterOf(req.x) == n.r.cfg.cluster != n.r.cfg.top.ClusterOf(req.y)
    && ts < req.ts && TxnOf(req) !in n.commitStarted && !Coming(n) && req.x !in n.r.ledger.locks
    && forall s :: s in n.r.log && Live(n.r.log[s]) ==> TxnOf(n.r.log[s].req) != TxnOf(req)
  }

  /** In every run of a stable primary a client's cross-shard request is let in exactly when it starts in
      this cluster and ends in another, it is newer than the client's last stamped request, no decision of
      it was started and none of it waits for execution, no other coordinator prepare is on its way, and
      the item is free and covers the amount; if only the amount is not covered, the client is told so. */
  lemma IntakeIff(cfg: Config, steps: seq<NodeStep>, n: Node, req: Request, ts: int)
    requires cfg.Valid() && cfg.top.PrimaryOf(cfg.cluster, 0) == cfg.self && Acts(BootNode(cfg), steps, n)
    requires Remembered(n, req.client, ts)
    ensures n.Valid()
    ensures var q := HandleClientRequest(n, req);
      && (q.ingress == n.ingress + [req.(op := CoordPrepare)] <==>
            Entitled(n, req, ts) && n.r.ledger.Bal(req.x) >= req.amt)
      && (q.r.hooks == n.r.hooks + [Rejected(req)] <==> Entitled(n, req, ts) && n.r.ledger.Bal(req.x) < req.amt)
  {
    BootOk(cfg, cfg.top.initialBalance);
    ActsUse(BootNode(cfg), steps, n);
    SlotNeverLeaks(cfg, steps, n);
    assert Coming(n) <==> n.crossBusy;
    RememberedIs(n, req.client, ts);
    Intake(n, req);
  }

  lemma Intake(n: Node, req: Request)
    requires n.Valid() && n.r.IsPrimary() && (Coming(n) <==> n.crossBusy)
    ensures var q := HandleClientRequest(n, req);
      var entitled := Entitled(n, req, n.r.ledger.TS(req.client));
      && (q.ingress == n.ingress + [req.(op := CoordPrepare)] <==> entitled && n.r.ledger.Bal(req.x) >= req.amt)
      && (q.r.hooks == n.r.hooks + [Rejected(req)] <==> entitled && n.r.ledger.Bal(req.x) < req.amt)
  {
    assert TxnInFlight(n.r, req) <==>
      exists s :: s in n.r.log && Live(n.r.log[s]) && TxnOf(n.r.log[s].req) == TxnOf(req);
    assert |n.ingress + [req.(op := CoordPrepare)]| == |n.ingress| + 1;
    assert |n.r.hooks + [Rejected(req)]| == |n.r.hooks| + 1;
  }

  /** The end of the watch aborts exactly what is watched, has no reply and was not decided; and a retry
      queues the abort exactly while the debit is still open. */
  lemma TimerLaw(n: Node, req: Request)
    ensures var q := Expire(n, req);
      var over := req in n.watched && TxnOf(req) !in n.commitStarted
                  && forall m :: m in n.collected ==> TxnOf(m.req) != TxnOf(req);
      && q.expired == n.expired + (if over then {req} else {})
      && q.commitStarted == n.commitStarted + (if over then {TxnOf(req)} else {})
      && q.ingress == n.ingress && q.outbox == n.outbox
    ensures RetryAbort(n, req).ingress ==
      n.ingress + if req in n.expired && TxnOf(req) in n.r.ledger.wal then [req.(op := CoordAbort)] else []
  {
    assert HasReply(n, req) <==> exists m :: m in n.collected && TxnOf(m.req) == TxnOf(req);
  }
}
