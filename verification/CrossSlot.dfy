/** Exactly-once debit on one coordinator primary (twopc/coordinator.go:73-93, 112-156, 222-228,
    264-274, pbft/engine.go:950-989): the cross slot lets one coordinator prepare through at a time,
    and a transaction that was debited is not debited again. */
module CrossSlot {
  import opened Types
  import opened Ledgers
  import opened Pbft
  import opened Micro
  import opened Agreement
  import opened Replication
  import opened Proposer
  import opened TwoPC
  import opened Paths
  import Trace = Runs

  predicate IsDebit(req: Request) { req.op == CoordPrepare }

  /** A coordinator prepare that waits for execution. */
  predicate Debiting(slot: Slot) { Live(slot) && IsDebit(slot.req) }

  predicate CoordDecides(req: Request) { req.op == CoordCommit || req.op == CoordAbort }

  // ---------------------------------------------------------------- the engine's part

  predicate DoneOnce(done: seq<Request>) {
    forall i, j :: 0 <= i < j < |done| && IsDebit(done[i]) && IsDebit(done[j]) ==> TxnOf(done[i]) != TxnOf(done[j])
  }

  predicate Debited(done: seq<Request>, t: Digest) {
    exists q :: q in done && IsDebit(q) && TxnOf(q) == t
  }

  /** A debited transaction has its WAL entry or a decision was started for it. */
  predicate Accounted(l: Ledger, done: seq<Request>, started: set<Digest>) {
    forall q :: q in done && IsDebit(q) ==> TxnOf(q) in started || TxnOf(q) in l.wal
  }

  predicate SlotFresh(done: seq<Request>, started: set<Digest>, slot: Slot) {
    && (Debiting(slot) ==> !Debited(done, TxnOf(slot.req)))
    && (Live(slot) && CoordDecides(slot.req) ==> TxnOf(slot.req) in started)
  }

  /** At most one coordinator prepare waits for execution, and none does when the slot is free. */
  predicate Single(log: map<int, Slot>, busy: bool) {
    && (forall s, u :: s in log && u in log && Debiting(log[s]) && Debiting(log[u]) ==> s == u)
    && (forall s :: s in log && Debiting(log[s]) ==> busy)
  }

  ghost predicate Pipeline(r: Replica, started: set<Digest>, busy: bool) {
    var done := Requests(r.executed);
    && Single(r.log, busy) && DoneOnce(done) && Accounted(r.ledger, done, started)
    && forall s :: s in r.log ==> SlotFresh(done, started, r.log[s])
  }

  predicate Frees(h: Hook) { h.Dropped? || h.CoordPrepared? }

  function BusyAfter(busy: bool, hs: seq<Hook>): bool {
    busy && forall h :: h in hs ==> !Frees(h)
  }

  function NewHooksOf(r: Replica, q: Replica): seq<Hook> {
    if |r.hooks| <= |q.hooks| then q.hooks[|r.hooks|..] else []
  }

  /** Slots that keep what matters here. */
  lemma KeepSlots(r: Replica, q: Replica, started: set<Digest>, busy: bool)
    requires Pipeline(r, started, busy) && q.executed == r.executed && q.ledger.wal == r.ledger.wal
    requires forall s :: s in q.log && Live(q.log[s]) ==> s in r.log && Live(r.log[s]) && q.log[s].req == r.log[s].req
    ensures Pipeline(q, started, busy)
  {
    forall s | s in q.log ensures SlotFresh(Requests(q.executed), started, q.log[s]) {
      assert s in r.log ==> SlotFresh(Requests(r.executed), started, r.log[s]);
    }
  }

  lemma DebitedSnoc(done: seq<Request>, req: Request, t: Digest)
    ensures Debited(done + [req], t) <==> Debited(done, t) || (IsDebit(req) && TxnOf(req) == t)
  {
    assert forall q :: q in done + [req] <==> q in done || q == req;
    if IsDebit(req) && TxnOf(req) == t {
      assert req in done + [req];
    }
    if Debited(done, t) {
      var q :| q in done && IsDebit(q) && TxnOf(q) == t;
      assert q in done + [req];
    }
  }

  lemma ExecuteParts(r: Replica, started: set<Digest>, busy: bool)
    requires r.cfg.Valid() && CanExecute(r) && Live(r.log[r.execSeq]) && Pipeline(r, started, busy)
    requires Accounted(ExecuteNext(r).ledger, Requests(r.executed) + [r.log[r.execSeq].req], started)
    ensures Pipeline(ExecuteNext(r), started, BusyAfter(busy, NewHooksOf(r, ExecuteNext(r))))
  {
    var s, done := r.execSeq, Requests(r.executed);
    assert SlotFresh(done, started, r.log[s]);
    assert Requests(ExecuteNext(r).executed) == done + [r.log[s].req];
  }

  lemma ExecutePipeline(r: Replica, started: set<Digest>, busy: bool)
    requires r.cfg.Valid() && Disciplined(r) && Pipeline(r, started, busy) && CanExecute(r)
    ensures Pipeline(ExecuteNext(r), started, BusyAfter(busy, NewHooksOf(r, ExecuteNext(r))))
  {
    assert SlotOk(r.cfg, r.ledger, r.execSeq, r.log[r.execSeq]);
    assert SlotFresh(Requests(r.executed), started, r.log[r.execSeq]);
    var s, l := r.execSeq, r.ledger;
    var req := r.log[s].req;
    assert SlotOk(r.cfg, l, s, r.log[s]);
    if IsDebit(req) {
      ExecutePrepare(r.cfg, r.log, l, s, r.view);
    }
    forall t | t in l.wal && !(IsCommitPhaseOp(req.op) && t == TxnOf(req)) ensures t in ExecuteNext(r).ledger.wal {
      WalAfter(l, req, r.view, t);
    }
    ExecuteParts(r, started, busy);
  }

  lemma CalmFrame(r: Replica, c: Change)
    requires r.cfg.Valid() && Enabled(r, c) && Calm(c) && !c.Execute?
    ensures var q := Apply(r, c);
      && q.executed == r.executed && q.ledger == r.ledger
      && (forall s :: s in q.log && Live(q.log[s]) ==> s in r.log && Live(r.log[s]) && q.log[s].req == r.log[s].req)
      && r.hooks <= q.hooks && forall h :: h in NewHooksOf(r, q) ==> !Frees(h)
  {
  }

  lemma CalmPipeline(r: Replica, c: Change, started: set<Digest>, busy: bool)
    requires r.cfg.Valid() && Disciplined(r) && Pipeline(r, started, busy) && Enabled(r, c) && Calm(c)
    ensures Pipeline(Apply(r, c), started, BusyAfter(busy, NewHooksOf(r, Apply(r, c))))
    ensures r.hooks <= Apply(r, c).hooks
  {
    if c.Execute? {
      ExecutePipeline(r, started, busy);
    } else {
      CalmFrame(r, c);
      KeepSlots(r, Apply(r, c), started, busy);
    }
  }

  lemma JoinBusy(r: Replica, m: Replica, q: Replica, busy: bool)
    requires r.hooks <= m.hooks <= q.hooks
    ensures BusyAfter(BusyAfter(busy, NewHooksOf(r, m)), NewHooksOf(m, q)) == BusyAfter(busy, NewHooksOf(r, q))
  {
    assert NewHooksOf(r, q) == NewHooksOf(r, m) + NewHooksOf(m, q);
  }

  lemma {:induction false} CalmPipelines(r: Replica, cs: seq<Change>, q: Replica, started: set<Digest>, busy: bool)
    requires r.cfg.Valid() && r.IsPrimary() && Disciplined(r) && Pipeline(r, started, busy)
    requires Runs(r, cs, q) && AllCalm(cs)
    ensures r.hooks <= q.hooks && Pipeline(q, started, BusyAfter(busy, NewHooksOf(r, q)))
    decreases |cs|
  {
    if cs != [] {
      ApplyKeepsConfig(r, cs[0]);
      assert cs[0] in cs;
      CalmPipeline(r, cs[0], started, busy);
      CalmDisciplined(r, cs[0]);
      var m := Apply(r, cs[0]);
      CalmPipelines(m, cs[1..], q, started, BusyAfter(busy, NewHooksOf(r, m)));
      JoinBusy(r, m, q, busy);
    } else {
      assert NewHooksOf(r, q) == [];
    }
  }

  /** When nothing waits, dropping a coordinator prepare frees nobody else's slot. */
  lemma {:induction false} NotesPipeline(
    r: Replica, req: Request, cs: seq<Change>, q: Replica, started: set<Digest>, busy: bool)
    requires r.cfg.Valid() && Pipeline(r, started, busy) && Runs(r, cs, q) && OnlyNotes(req, cs)
    requires IsDebit(req) ==> forall s :: s in r.log ==> !Debiting(r.log[s])
    ensures r.hooks <= q.hooks && Pipeline(q, started, BusyAfter(busy, NewHooksOf(r, q)))
    ensures q.log == r.log
    decreases |cs|
  {
    if cs != [] {
      ApplyKeepsConfig(r, cs[0]);
      assert cs[0] in cs;
      var m := Apply(r, cs[0]);
      assert NewHooksOf(r, m) == [cs[0].hook];
      KeepSlots(r, m, started, busy);
      assert Pipeline(m, started, BusyAfter(busy, [cs[0].hook]));
      NotesPipeline(m, req, cs[1..], q, started, BusyAfter(busy, NewHooksOf(r, m)));
      JoinBusy(r, m, q, busy);
    } else {
      assert NewHooksOf(r, q) == [];
    }
  }

  // ---------------------------------------------------------------- starting and giving up

  /** What a queued request brings along. */
  predicate Fresh0(r: Replica, req: Request, started: set<Digest>, busy: bool) {
    && (IsDebit(req) ==> busy && !Debited(Requests(r.executed), TxnOf(req)))
    && (IsDebit(req) ==> forall s :: s in r.log ==> !Debiting(r.log[s]))
    && (CoordDecides(req) ==> TxnOf(req) in started)
  }

  lemma OfferFrame(r: Replica, req: Request)
    requires r.cfg.Valid() && LeadInv(r) && Enabled(r, Offer(req))
    ensures var q, s := Apply(r, Offer(req)), r.nextSeq;
      && q.executed == r.executed && q.ledger.wal == r.ledger.wal
      && q.log == r.log[s := q.log[s]] && q.log[s].req == req && (s in r.log ==> !Live(r.log[s]))
  {
    var s := r.nextSeq;
    assert s in r.log ==> LeadSlot(r.log[s], true);
    if !IsCommitPhaseOp(req.op) {
      AcquireAllTakes(r.ledger, LockItems(req), s);
    }
  }

  lemma AddSlot(r: Replica, q: Replica, s: int, req: Request, started: set<Digest>, busy: bool)
    requires Pipeline(r, started, busy) && Fresh0(r, req, started, busy)
    requires q.executed == r.executed && q.ledger.wal == r.ledger.wal
    requires s in q.log && q.log == r.log[s := q.log[s]] && q.log[s].req == req
    ensures Pipeline(q, started, busy)
  {
    forall u | u in q.log ensures SlotFresh(Requests(q.executed), started, q.log[u]) {
      assert u != s ==> q.log[u] == r.log[u] && SlotFresh(Requests(r.executed), started, r.log[u]);
    }
    forall u | u in q.log && Debiting(q.log[u]) ensures busy && (IsDebit(req) ==> u == s) {
      assert u != s ==> q.log[u] == r.log[u];
    }
  }

  /** From the change that takes the number on. */
  lemma NumberedPipeline(
    r: Replica, req: Request, cs: seq<Change>, q: Replica, started: set<Digest>, busy: bool)
    requires r.cfg.Valid() && r.IsPrimary() && Disciplined(r) && Pipeline(r, started, busy)
    requires Proper(r, req) && Fresh0(r, req, started, busy)
    requires Runs(r, cs, q) && Starting(r.nextSeq, req, cs) && !OnlyNotes(req, cs)
    ensures var m := Apply(r, cs[0]);
      m.hooks <= q.hooks && Pipeline(q, started, BusyAfter(busy, NewHooksOf(m, q)))
  {
    var m := Apply(r, cs[0]);
    ApplyKeepsConfig(r, cs[0]);
    if cs[0] == Offer(req) {
      OfferFrame(r, req);
      AddSlot(r, Apply(r, Offer(req)), r.nextSeq, req, started, busy);
      OfferDisciplined(r, req);
      if cs[1..] != [] && cs[1..][0] == LockSlot(r.nextSeq) {
        assert SlotOk(m.cfg, m.ledger, r.nextSeq, m.log[r.nextSeq]);
        EnsureHeld(m.ledger, LockItems(m.log[r.nextSeq].req), r.nextSeq);
        assert Apply(m, cs[1..][0]) == m;
        CalmPipelines(m, cs[1..][1..], q, started, busy);
      } else {
        assert forall c :: c in cs[1..] ==> c == cs[1..][0] || c in cs[1..][1..];
        CalmPipelines(m, cs[1..], q, started, busy);
      }
    } else {
      KeepSlots(r, m, started, busy);
      NotesPipeline(m, req, cs[1..], q, started, busy);
    }
  }

  lemma DiscardPipeline(r: Replica, s: int, started: set<Digest>, busy: bool)
    requires r.cfg.Valid() && Pipeline(r, started, busy) && Enabled(r, Discard(s))
    requires Exclusive(r.cfg, r.log, r.ledger) && !r.log[s].discarded
    ensures var r1, req := Apply(r, Discard(s)), r.log[s].req;
      var r2 := Retract(r1, s, req);
      && r.hooks <= r2.hooks && Pipeline(r2, started, BusyAfter(busy, NewHooksOf(r, r2)))
  {
    var r1, req := Apply(r, Discard(s)), r.log[s].req;
    var r2 := Retract(r1, s, req);
    assert SlotOk(r.cfg, r.ledger, s, r.log[s]);
    KeepSlots(r, r1, started, busy);
    RetractWithdraws(r1, s, req);
    assert r2.hooks == r.hooks + if req.op == CoordPrepare then [Dropped(req)] else [];
    KeepSlots(r1, r2, started, busy);
    assert req.op == CoordPrepare ==> forall u :: u in r2.log ==> !Debiting(r2.log[u]);
  }

  // ---------------------------------------------------------------- the coordinator's part

  /** At most one coordinator prepare is on its way - queued, or waiting for execution - and only while
      the cross slot is taken. */
  ghost predicate NodeOk(n: Node) {
    && n.Valid() && n.r.IsPrimary() && Disciplined(n.r) && Pipeline(n.r, n.commitStarted, n.crossBusy)
    && QueueOk(n)
  }

  ghost predicate QueueOk(n: Node) {
    && (forall i :: 0 <= i < |n.ingress| ==> Queued(n, Requests(n.r.executed), n.ingress[i]))
    && (forall i, j :: 0 <= i < j < |n.ingress| && IsDebit(n.ingress[i]) ==> !IsDebit(n.ingress[j]))
    && (forall req :: req in n.expired ==> TxnOf(req) in n.commitStarted)
  }

  predicate Queued(n: Node, done: seq<Request>, req: Request) {
    && (IsDebit(req) ==> n.crossBusy && !Debited(done, TxnOf(req)))
    && (IsDebit(req) ==> forall s :: s in n.r.log ==> !Debiting(n.r.log[s]))
    && (CoordDecides(req) ==> TxnOf(req) in n.commitStarted)
  }

  /** What is asked of a step: clients leave the operation unset, and two-phase commit owes the primary
      proper operations. */
  ghost predicate Orderly(n: Node, s: NodeStep) {
    && Doable(n, s)
    && match s
       case ClientIntra(req) => req.op == Unset
       case ClientCross(req) => req.op == Unset
       case Work(a) => a.GiveUp? ==> !n.r.log[a.seqNo].discarded
       case Next(i) => Proper(n.r, n.ingress[i].(op := Normal(n.ingress[i].op)))
       case _ => true
  }

  lemma {:induction false} FireAllFrame(n: Node, hs: seq<Hook>)
    ensures var q := FireAll(n, hs);
      && q.r == n.r && q.ingress == n.ingress && q.commitStarted == n.commitStarted && q.expired == n.expired
      && q.crossBusy == BusyAfter(n.crossBusy, hs)
    decreases |hs|
  {
    if hs != [] {
      var m := Fire(n, hs[0]);
      FireAllFrame(m, hs[1..]);
      assert m.crossBusy == (n.crossBusy && !Frees(hs[0]));
      assert hs == [hs[0]] + hs[1..];
      assert forall h :: h in hs <==> h == hs[0] || h in hs[1..];
      assert (forall h :: h in hs ==> !Frees(h)) <==> !Frees(hs[0]) && forall h :: h in hs[1..] ==> !Frees(h);
    }
  }

  /** Queueing something that is not a coordinator prepare. */
  lemma EnqueueOk(n: Node, req: Request, started: set<Digest>)
    requires NodeOk(n) && !IsDebit(req) && n.commitStarted <= started
    requires CoordDecides(req) ==> TxnOf(req) in started
    ensures NodeOk(n.(commitStarted := started).Enqueue(req))
  {
    var q := n.(commitStarted := started).Enqueue(req);
    var done := Requests(n.r.executed);
    MoreStarted(n.r, n.commitStarted, started, n.crossBusy);
    forall i | 0 <= i < |q.ingress| ensures Queued(q, done, q.ingress[i]) {
      assert i < |n.ingress| ==> Queued(n, done, n.ingress[i]);
    }
  }

  lemma MoreStarted(r: Replica, a: set<Digest>, b: set<Digest>, busy: bool)
    requires Pipeline(r, a, busy) && a <= b
    ensures Pipeline(r, b, busy)
  {
    forall s | s in r.log ensures SlotFresh(Requests(r.executed), b, r.log[s]) {
      assert SlotFresh(Requests(r.executed), a, r.log[s]);
    }
  }

  /** The checks of the intake: the item is free and no decision was started, so the transaction was
      never debited. */
  lemma NeverDebited(n: Node, req: Request)
    requires NodeOk(n) && n.r.cfg.top.ClusterOf(req.x) == n.r.cfg.cluster
    requires TxnOf(req) !in n.commitStarted && !n.r.ledger.IsLocked(req.x)
    ensures !Debited(Requests(n.r.executed), TxnOf(req))
  {
    var done := Requests(n.r.executed);
    assert Proposer.Entry(n.r.cfg, n.r.log, n.r.ledger, TxnOf(req));
    forall q | q in done && IsDebit(q) ensures TxnOf(q) != TxnOf(req) {
      assert TxnOf(q) in n.commitStarted || TxnOf(q) in n.r.ledger.wal;
    }
  }

  /** Taking the slot for a transaction that was never debited, while nothing else is on its way. */
  lemma IntakeQueue(n: Node, prep: Request)
    requires QueueOk(n) && !n.crossBusy && Single(n.r.log, false)
    requires IsDebit(prep) && !Debited(Requests(n.r.executed), TxnOf(prep))
    ensures QueueOk(n.(crossBusy := true).Enqueue(prep))
  {
    var q, done := n.(crossBusy := true).Enqueue(prep), Requests(n.r.executed);
    forall i | 0 <= i < |n.ingress| ensures !IsDebit(n.ingress[i]) && Queued(q, done, q.ingress[i]) {
      assert Queued(n, done, n.ingress[i]);
    }
  }

  lemma QueueKept(n: Node, q: Node)
    requires QueueOk(n) && q.ingress == n.ingress && q.expired == n.expired && q.crossBusy == n.crossBusy
    requires q.commitStarted == n.commitStarted && q.r.log == n.r.log && q.r.executed == n.r.executed
    ensures QueueOk(q)
  {
    forall i | 0 <= i < |q.ingress| ensures Queued(q, Requests(q.r.executed), q.ingress[i]) {
      assert Queued(n, Requests(n.r.executed), n.ingress[i]);
    }
  }

  // ---------------------------------------------------------------- the engine under the coordinator

  predicate NoDebiting(log: map<int, Slot>) {
    forall s :: s in log ==> !Debiting(log[s])
  }

  /** Between the two no coordinator prepare was offered, executed or dropped. */
  ghost predicate Idle(r: Replica, q: Replica) {
    && NoDebiting(q.log) && r.hooks <= q.hooks && (forall h :: h in NewHooksOf(r, q) ==> !Frees(h))
    && forall t :: Debited(Requests(q.executed), t) ==> Debited(Requests(r.executed), t)
  }

  lemma IdleThen(r: Replica, m: Replica, q: Replica)
    requires Idle(r, m) && Idle(m, q)
    ensures Idle(r, q)
  {
    assert NewHooksOf(r, q) == NewHooksOf(r, m) + NewHooksOf(m, q);
  }

  lemma IdleSame(r: Replica, q: Replica)
    requires NoDebiting(r.log) && q.executed == r.executed && r.hooks <= q.hooks
    requires forall h :: h in NewHooksOf(r, q) ==> !Frees(h)
    requires forall s :: s in q.log && Live(q.log[s]) ==>
      (s in r.log && Live(r.log[s]) && q.log[s].req == r.log[s].req) || !IsDebit(q.log[s].req)
    ensures Idle(r, q)
  {
  }

  lemma ExecuteIdle(r: Replica)
    requires r.cfg.Valid() && Exclusive(r.cfg, r.log, r.ledger) && NoDebiting(r.log) && CanExecute(r)
    ensures Idle(r, ExecuteNext(r))
  {
    var q, s := ExecuteNext(r), r.execSeq;
    var slot, done := r.log[s], Requests(r.executed);
    assert SlotOk(r.cfg, r.ledger, s, slot);
    assert NewHooksOf(r, q) == HooksOf(r.ledger, slot.req, s, slot.commitCert.value);
    assert Requests(q.executed) == done + [slot.req];
    forall t | Debited(Requests(q.executed), t) ensures Debited(done, t) {
      DebitedSnoc(done, slot.req, t);
    }
  }

  lemma {:induction false} CalmIdle(r: Replica, cs: seq<Change>, q: Replica)
    requires r.cfg.Valid() && r.IsPrimary() && Disciplined(r) && NoDebiting(r.log) && Runs(r, cs, q) && AllCalm(cs)
    ensures Idle(r, q)
    decreases |cs|
  {
    if cs == [] {
      assert NewHooksOf(r, q) == [];
    } else {
      var m := Apply(r, cs[0]);
      ApplyKeepsConfig(r, cs[0]);
      assert cs[0] in cs;
      CalmDisciplined(r, cs[0]);
      if cs[0].Execute? {
        ExecuteIdle(r);
      } else {
        CalmFrame(r, cs[0]);
        IdleSame(r, m);
      }
      CalmIdle(m, cs[1..], q);
      IdleThen(r, m, q);
    }
  }

  lemma {:induction false} NotesIdle(r: Replica, req: Request, cs: seq<Change>, q: Replica)
    requires r.cfg.Valid() && NoDebiting(r.log) && !IsDebit(req) && Runs(r, cs, q) && OnlyNotes(req, cs)
    ensures Idle(r, q)
    decreases |cs|
  {
    if cs == [] {
      assert NewHooksOf(r, q) == [];
    } else {
      var m := Apply(r, cs[0]);
      ApplyKeepsConfig(r, cs[0]);
      assert cs[0] in cs && (cs[0].hook.Dropped? || cs[0].hook.Rejected?);
      assert NewHooksOf(r, m) == [cs[0].hook];
      IdleSame(r, m);
      NotesIdle(m, req, cs[1..], q);
      IdleThen(r, m, q);
    }
  }

  lemma OpeningIdle(r: Replica, s: int, cs: seq<Change>, q: Replica)
    requires r.cfg.Valid() && r.IsPrimary() && Disciplined(r) && s in r.log && Live(r.log[s])
    requires NoDebiting(r.log) && Runs(r, cs, q) && Opening(s, cs)
    ensures Idle(r, q)
  {
    if cs != [] && cs[0] == LockSlot(s) {
      assert SlotOk(r.cfg, r.ledger, s, r.log[s]);
      EnsureHeld(r.ledger, LockItems(r.log[s].req), s);
      assert Apply(r, cs[0]) == r;
      CalmIdle(r, cs[1..], q);
    } else {
      assert forall c :: c in cs ==> c == cs[0] || c in cs[1..];
      CalmIdle(r, cs, q);
    }
  }

  lemma OfferIdle(r: Replica, req: Request, cs: seq<Change>, q: Replica)
    requires r.cfg.Valid() && r.IsPrimary() && Disciplined(r) && NoDebiting(r.log)
    requires Enabled(r, Offer(req)) && Proper(r, req) && !IsDebit(req)
    requires Apply(r, Offer(req)).cfg.Valid() && Runs(Apply(r, Offer(req)), cs, q) && Opening(r.nextSeq, cs)
    ensures Idle(r, q)
  {
    var m := Apply(r, Offer(req));
    ApplyKeepsConfig(r, Offer(req));
    assert m.hooks == r.hooks && NewHooksOf(r, m) == [];
    OfferFrame(r, req);
    IdleSame(r, m);
    OfferDisciplined(r, req);
    OpeningIdle(m, r.nextSeq, cs, q);
    IdleThen(r, m, q);
  }

  lemma StartIdle(r: Replica, req0: Request)
    requires r.cfg.Valid() && r.IsPrimary() && Disciplined(r) && NoDebiting(r.log)
    requires var req := req0.(op := Normal(req0.op)); Proper(r, req) && !IsDebit(req)
    ensures Idle(r, StartConsensus(r, req0))
  {
    var cs := StartConsensusRuns(r, req0);
    StartingIdle(r, req0.(op := Normal(req0.op)), cs, StartConsensus(r, req0));
  }

  lemma BurnIdle(r: Replica, req: Request, cs: seq<Change>, q: Replica)
    requires r.cfg.Valid() && NoDebiting(r.log) && !IsDebit(req)
    requires Apply(r, Burn).cfg.Valid() && Runs(Apply(r, Burn), cs, q) && OnlyNotes(req, cs)
    ensures Idle(r, q)
  {
    var m := Apply(r, Burn);
    assert m.hooks == r.hooks && NewHooksOf(r, m) == [];
    IdleSame(r, m);
    NotesIdle(m, req, cs, q);
    IdleThen(r, m, q);
  }

  lemma StartingIdle(r: Replica, req: Request, cs: seq<Change>, q: Replica)
    requires r.cfg.Valid() && r.IsPrimary() && Disciplined(r) && NoDebiting(r.log)
    requires Proper(r, req) && !IsDebit(req) && Runs(r, cs, q) && Starting(r.nextSeq, req, cs)
    ensures Idle(r, q)
  {
    if OnlyNotes(req, cs) {
      NotesIdle(r, req, cs, q);
    } else {
      ApplyKeepsConfig(r, cs[0]);
      if cs[0] == Offer(req) {
        OfferIdle(r, req, cs[1..], q);
      } else {
        BurnIdle(r, req, cs[1..], q);
      }
    }
  }

  lemma RetractIdle(r: Replica, s: int)
    requires r.cfg.Valid() && Exclusive(r.cfg, r.log, r.ledger) && NoDebiting(r.log)
    requires Enabled(r, Discard(s)) && !r.log[s].discarded
    ensures Idle(r, Retract(Apply(r, Discard(s)), s, r.log[s].req))
  {
    var r1, req := Apply(r, Discard(s)), r.log[s].req;
    var r2 := Retract(r1, s, req);
    assert SlotOk(r.cfg, r.ledger, s, r.log[s]);
    RetractWithdraws(r1, s, req);
    assert r2.hooks == r.hooks && NewHooksOf(r, r2) == [];
    IdleSame(r, r2);
  }

  lemma ReclaimIdle(r: Replica, s: int)
    requires r.cfg.Valid() && r.IsPrimary() && Disciplined(r) && NoDebiting(r.log)
    requires s in r.log && !r.log[s].discarded
    ensures Idle(r, Reclaim(r, s, r.log[s].req))
  {
    if CanReclaim(r, s) {
      var _, r2 := ReclaimSteps(r, s);
      RetractIdle(r, s);
      var cs := ResumeRuns(r2, s);
      CalmIdle(r2, cs, TryExecute(SkipIfStuck(r2, s)));
      IdleThen(r, r2, TryExecute(SkipIfStuck(r2, s)));
    } else {
      assert NewHooksOf(r, r) == [];
      IdleSame(r, r);
    }
  }

  // ---------------------------------------------------------------- every step of the node

  ghost predicate DebitQueued(n: Node) {
    exists i :: 0 <= i < |n.ingress| && IsDebit(n.ingress[i])
  }

  /** What an engine step owes the coordinator. */
  ghost predicate EngineStepFine(n: Node, r: Replica) {
    && n.Valid() && r.cfg == n.r.cfg && r.view == n.r.view && n.r.hooks <= r.hooks && Disciplined(r)
    && Pipeline(r, n.commitStarted, BusyAfter(n.crossBusy, NewHooksOf(n.r, r)))
    && (DebitQueued(n) ==> Idle(n.r, r))
  }

  lemma AfterEngineOk(n: Node, r: Replica)
    requires n.Valid() && n.r.IsPrimary() && QueueOk(n) && EngineStepFine(n, r)
    ensures NodeOk(AfterEngine(n, r))
  {
    FireAllFrame(n.(r := r), NewHooksOf(n.r, r));
  }

  lemma QueuedIsIdle(n: Node)
    requires QueueOk(n) && DebitQueued(n)
    ensures NoDebiting(n.r.log)
  {
    var i :| 0 <= i < |n.ingress| && IsDebit(n.ingress[i]);
    assert Queued(n, Requests(n.r.executed), n.ingress[i]);
  }

  /** What is left of a reclaim once the slot is withdrawn. */
  lemma ResumePipeline(r: Replica, s: int, started: set<Digest>, busy: bool)
    requires r.cfg.Valid() && r.IsPrimary() && Disciplined(r) && Pipeline(r, started, busy)
    requires s in r.log && r.log[s].discarded
    ensures var q := TryExecute(SkipIfStuck(r, s));
      r.hooks <= q.hooks && Pipeline(q, started, BusyAfter(busy, NewHooksOf(r, q)))
  {
    var cs := ResumeRuns(r, s);
    CalmPipelines(r, cs, TryExecute(SkipIfStuck(r, s)), started, busy);
  }

  lemma ReclaimPipeline(r: Replica, s: int, started: set<Digest>, busy: bool)
    requires r.cfg.Valid() && r.IsPrimary() && Disciplined(r) && Pipeline(r, started, busy)
    requires s in r.log && !r.log[s].discarded
    ensures var q := Reclaim(r, s, r.log[s].req);
      r.hooks <= q.hooks && Pipeline(q, started, BusyAfter(busy, NewHooksOf(r, q)))
  {
    if CanReclaim(r, s) {
      var _, r2 := ReclaimSteps(r, s);
      DiscardPipeline(r, s, started, busy);
      ResumePipeline(r2, s, started, BusyAfter(busy, NewHooksOf(r, r2)));
      JoinBusy(r, r2, TryExecute(SkipIfStuck(r2, s)), busy);
    } else {
      assert NewHooksOf(r, r) == [];
    }
  }

  lemma WorkOk(n: Node, a: Action)
    requires NodeOk(n) && Orderly(n, Work(a))
    ensures NodeOk(Act(n, Work(a)))
  {
    var q := Lead(n.r, a);
    LeadDisciplined(n.r, a);
    if DebitQueued(n) {
      QueuedIsIdle(n);
    }
    match a {
      case TakePrepare(from, s, v, d, sig) =>
        var cs := OnPrepareRuns(n.r, from, s, v, d, sig);
        CalmPipelines(n.r, cs, q, n.commitStarted, n.crossBusy);
        if DebitQueued(n) {
          CalmIdle(n.r, cs, q);
        }
      case TakeCommit(from, s, v, d, sig) =>
        var cs := OnCommitRuns(n.r, from, s, v, d, sig);
        CalmPipelines(n.r, cs, q, n.commitStarted, n.crossBusy);
        if DebitQueued(n) {
          CalmIdle(n.r, cs, q);
        }
      case GiveUp(s) =>
        ReclaimPipeline(n.r, s, n.commitStarted, n.crossBusy);
        if DebitQueued(n) {
          ReclaimIdle(n.r, s);
        }
    }
    AfterEngineOk(n, q);
  }

  lemma Dequeued(n: Node, i: nat)
    requires QueueOk(n) && i < |n.ingress|
    ensures QueueOk(n.(ingress := Without(n.ingress, i)))
    ensures IsDebit(n.ingress[i]) ==> !DebitQueued(n.(ingress := Without(n.ingress, i)))
    ensures DebitQueued(n.(ingress := Without(n.ingress, i))) ==> DebitQueued(n)
  {
    var rest := Without(n.ingress, i);
    forall j | 0 <= j < |rest| ensures rest[j] == n.ingress[if j < i then j else j + 1] {}
  }

  lemma StartPipeline(r: Replica, req0: Request, started: set<Digest>, busy: bool)
    requires r.cfg.Valid() && r.IsPrimary() && Disciplined(r) && Pipeline(r, started, busy)
    requires var req := req0.(op := Normal(req0.op)); Proper(r, req) && Fresh0(r, req, started, busy)
    ensures var q := StartConsensus(r, req0);
      r.hooks <= q.hooks && Pipeline(q, started, BusyAfter(busy, NewHooksOf(r, q)))
  {
    var cs := StartConsensusRuns(r, req0);
    StartingPipeline(r, req0.(op := Normal(req0.op)), cs, StartConsensus(r, req0), started, busy);
  }

  lemma StartingPipeline(
    r: Replica, req: Request, cs: seq<Change>, q: Replica, started: set<Digest>, busy: bool)
    requires r.cfg.Valid() && r.IsPrimary() && Disciplined(r) && Pipeline(r, started, busy)
    requires Proper(r, req) && Fresh0(r, req, started, busy)
    requires Runs(r, cs, q) && Starting(r.nextSeq, req, cs)
    ensures r.hooks <= q.hooks && Pipeline(q, started, BusyAfter(busy, NewHooksOf(r, q)))
  {
    if OnlyNotes(req, cs) {
      NotesPipeline(r, req, cs, q, started, busy);
    } else {
      var m := Apply(r, cs[0]);
      assert m.hooks == r.hooks && NewHooksOf(r, m) == [];
      NumberedPipeline(r, req, cs, q, started, busy);
      JoinBusy(r, m, q, busy);
    }
  }

  lemma NextOk(n: Node, i: nat)
    requires NodeOk(n) && Orderly(n, Next(i))
    ensures NodeOk(Act(n, Next(i)))
  {
    var req0 := n.ingress[i];
    var req, m := req0.(op := Normal(req0.op)), n.(ingress := Without(n.ingress, i));
    assert Queued(n, Requests(n.r.executed), req0);
    assert TxnOf(req) == TxnOf(req0) && IsDebit(req) == IsDebit(req0) && CoordDecides(req) == CoordDecides(req0);
    Dequeued(n, i);
    var q := StartConsensus(n.r, req0);
    StartDisciplined(n.r, req0);
    StartPipeline(n.r, req0, n.commitStarted, n.crossBusy);
    if DebitQueued(m) {
      QueuedIsIdle(n);
      StartIdle(n.r, req0);
    }
    AfterEngineOk(m, q);
  }

  lemma CollectOk(n: Node, m: Letter)
    requires NodeOk(n)
    ensures NodeOk(n.(collected := n.collected + [m])) && NodeOk(n.Post(m))
  {
    QueueKept(n, n.(collected := n.collected + [m]));
    QueueKept(n, n.Post(m));
  }

  lemma PrepareCases(n: Node, m: Letter)
    requires n.Valid() && m.PrepareLetter?
    ensures var q := HandlePrepare(n, m);
      || q == n
      || (exists outcome :: q == n.Post(ReplyLetter(ClientReq(m.req), outcome, m.cert)))
      || q == n.Enqueue(m.req.(op := PartPrepareCommit)) || q == n.Enqueue(m.req.(op := PartPrepareAbort))
  {
  }

  lemma PrepareLetterOk(n: Node, m: Letter)
    requires NodeOk(n) && m.PrepareLetter?
    ensures NodeOk(HandlePrepare(n, m))
  {
    var q := HandlePrepare(n, m);
    PrepareCases(n, m);
    if q == n.Enqueue(m.req.(op := PartPrepareCommit)) {
      EnqueueOk(n, m.req.(op := PartPrepareCommit), n.commitStarted);
    } else if q == n.Enqueue(m.req.(op := PartPrepareAbort)) {
      EnqueueOk(n, m.req.(op := PartPrepareAbort), n.commitStarted);
    } else if outcome :| q == n.Post(ReplyLetter(ClientReq(m.req), outcome, m.cert)) {
      CollectOk(n, ReplyLetter(ClientReq(m.req), outcome, m.cert));
    }
  }

  lemma DecisionLetterOk(n: Node, m: Letter)
    requires NodeOk(n) && m.DecisionLetter?
    ensures NodeOk(HandleCommit(n, m))
  {
    var q := HandleCommit(n, m);
    if q == n.Enqueue(m.req.(op := PartCommit)) {
      EnqueueOk(n, m.req.(op := PartCommit), n.commitStarted);
    } else if q == n.Enqueue(m.req.(op := PartAbort)) {
      EnqueueOk(n, m.req.(op := PartAbort), n.commitStarted);
    }
  }

  lemma ReplyOk(n: Node, m: Letter)
    requires NodeOk(n) && m.ReplyLetter?
    ensures NodeOk(HandleParticipantReply(n, m))
  {
    var n1 := n.(collected := n.collected + [m]);
    assert forall op :: TxnOf(m.req.(op := op)) == TxnOf(m.req);
    CollectOk(n, m);
    EnqueueOk(n1, m.req.(op := CoordCommit), n.commitStarted + {TxnOf(m.req)});
    EnqueueOk(n1, m.req.(op := CoordAbort), n.commitStarted + {TxnOf(m.req)});
    if TxnOf(m.req) in n.commitStarted {
      EnqueueOk(n1, m.req.(op := CoordAbort), n.commitStarted);
    }
  }

  lemma LetterOk(n: Node, s: NodeStep)
    requires NodeOk(n) && Orderly(n, s) && (s.Prepare? || s.Reply? || s.Decide?)
    ensures NodeOk(Act(n, s))
  {
    match s
    case Prepare(m) => PrepareLetterOk(n, m);
    case Reply(m) => ReplyOk(n, m);
    case Decide(m) => DecisionLetterOk(n, m);
  }

  lemma ClockOk(n: Node, s: NodeStep)
    requires NodeOk(n) && Orderly(n, s) && (s.TimeOut? || s.Retry?)
    ensures NodeOk(Act(n, s))
  {
    var q := n.(commitStarted := n.commitStarted + {TxnOf(s.req)}, expired := n.expired + {s.req});
    MoreStarted(n.r, n.commitStarted, q.commitStarted, n.crossBusy);
    forall i | 0 <= i < |q.ingress| ensures Queued(q, Requests(q.r.executed), q.ingress[i]) {
      assert Queued(n, Requests(n.r.executed), n.ingress[i]);
    }
    if s.req in n.expired {
      assert TxnOf(s.req.(op := CoordAbort)) == TxnOf(s.req);
      EnqueueOk(n, s.req.(op := CoordAbort), n.commitStarted);
    }
  }

  lemma IntakeOk(n: Node, req: Request)
    requires NodeOk(n) && req.op == Unset
    ensures NodeOk(Act(n, ClientCross(req)))
  {
    var q := HandleClientRequest(n, req);
    if q.r != n.r {
      RejectOk(n, req);
    } else if q != n {
      NeverDebited(n, req);
      assert TxnOf(req.(op := CoordPrepare)) == TxnOf(req);
      IntakeQueue(n, req.(op := CoordPrepare));
      TakeSlot(n.r, n.commitStarted);
    }
  }

  lemma TakeSlot(r: Replica, started: set<Digest>)
    requires Pipeline(r, started, false)
    ensures Pipeline(r, started, true)
  {
  }

  lemma RejectOk(n: Node, req: Request)
    requires NodeOk(n)
    ensures NodeOk(n.(r := n.r.Call(Rejected(req))))
  {
    var q := n.(r := n.r.Call(Rejected(req)));
    CalmDisciplined(n.r, Note(Rejected(req)));
    CalmPipeline(n.r, Note(Rejected(req)), n.commitStarted, n.crossBusy);
    assert NewHooksOf(n.r, q.r) == [Rejected(req)];
    QueueKept(n, q);
  }

  lemma ClientOk(n: Node, req: Request)
    requires NodeOk(n) && req.op == Unset
    ensures NodeOk(Act(n, ClientIntra(req)))
  {
    EnqueueOk(n, req, n.commitStarted);
  }

  lemma ActOk(n: Node, s: NodeStep)
    requires NodeOk(n) && Orderly(n, s)
    ensures NodeOk(Act(n, s))
  {
    match s
    case ClientIntra(req) => ClientOk(n, req);
    case ClientCross(req) => IntakeOk(n, req);
    case Work(a) => WorkOk(n, a);
    case Next(i) => NextOk(n, i);
    case TimeOut(_) => ClockOk(n, s);
    case Retry(_) => ClockOk(n, s);
    case _ => LetterOk(n, s);
  }

  ghost predicate ActStep(x: Node, a: NodeStep, y: Node) {
    Orderly(x, a) && y == Act(x, a)
  }

  /** The last node is reached from the first by orderly steps. */
  ghost predicate Acts(first: Node, steps: seq<NodeStep>, last: Node) {
    Path(ActStep, first, steps, last)
  }

  lemma {:induction false} AlwaysOk(n: Node, steps: seq<NodeStep>, q: Node)
    requires NodeOk(n) && Acts(n, steps, q)
    ensures NodeOk(q)
    decreases |steps|
  {
    if steps != [] {
      var _ := PathFirst(ActStep, n, steps, q);
      ActOk(n, steps[0]);
      AlwaysOk(Act(n, steps[0]), steps[1..], q);
    }
  }

  /** However often clients resend and letters are repeated: a stable coordinator primary executes at
      most one coordinator prepare for a transaction, and at any moment at most one coordinator prepare
      of any transaction is queued or waits for execution, and then the cross slot is taken. */
  lemma ExactlyOnceDebit(cfg: Config, steps: seq<NodeStep>, q: Node)
    requires cfg.Valid() && cfg.top.PrimaryOf(cfg.cluster, 0) == cfg.self && Acts(BootNode(cfg), steps, q)
    ensures forall i, j ::
      0 <= i < j < |q.r.executed| && IsDebit(q.r.executed[i].req) && IsDebit(q.r.executed[j].req)
      ==> TxnOf(q.r.executed[i].req) != TxnOf(q.r.executed[j].req)
    ensures forall i, j :: 0 <= i < j < |q.ingress| && IsDebit(q.ingress[i]) ==> !IsDebit(q.ingress[j])
    ensures forall s, u :: s in q.r.log && u in q.r.log && Debiting(q.r.log[s]) && Debiting(q.r.log[u]) ==> s == u
    ensures forall i, s :: 0 <= i < |q.ingress| && IsDebit(q.ingress[i]) && s in q.r.log ==> !Debiting(q.r.log[s])
    ensures !q.crossBusy ==> NoDebiting(q.r.log) && forall i :: 0 <= i < |q.ingress| ==> !IsDebit(q.ingress[i])
  {
    BootOk(cfg, cfg.top.initialBalance);
    AlwaysOk(BootNode(cfg), steps, q);
    DebitedOnce(q.r.executed);
    SlotExclusive(q);
  }

  /** A participant's prepare is the first thing its transaction does in the log. */
  predicate PartPreparesOnce(log: seq<Request>) {
    forall k {:trigger PreparesAt(log, k)} :: 0 <= k < |log| && !IsDebit(log[k]) ==> PreparesAt(log, k)
  }

  /** Before a transaction is decided, it was prepared. */
  lemma {:induction false} EntryWasPrepared(initial: int, log: seq<Request>, view: int, t: Digest)
    requires t in ExecAll(Fresh(initial), log, view).wal
    ensures exists p :: p in log && Trace.Holds(p.op) && TxnOf(p) == t
  {
    if log != [] {
      var n := |log| - 1;
      var l := ExecAll(Fresh(initial), log[..n], view);
      assert log == log[..n] + [log[n]];
      if t in l.wal {
        EntryWasPrepared(initial, log[..n], view, t);
        var p :| p in log[..n] && Trace.Holds(p.op) && TxnOf(p) == t;
        assert p in log;
      } else {
        WalGrows(l, log[n], view, t);
        assert log[n] in log;
      }
    }
  }

  /** A debit that is executed once is the first thing its transaction does: the other half of a
      transaction runs in another cluster, and nothing is decided that was not prepared. */
  lemma DebitIsFirst(cfg: Config, initial: int, log: seq<Request>, view: int, k: nat)
    requires cfg.Valid() && k < |log| && IsDebit(log[k]) && DoneOnce(log) && Covering(initial, log, view)
    requires forall q :: q in log ==> Sided(cfg, q)
    ensures PreparesAt(log, k)
  {
    var t := TxnOf(log[k]);
    assert log[k] in log;
    forall i | 0 <= i < k ensures !(Trace.IsPrepare(log[i].op) && TxnOf(log[i]) == t) {
      assert log[i] in log;
    }
    forall i | 0 <= i < k ensures !(IsCommitPhaseOp(log[i].op) && TxnOf(log[i]) == t) {
      assert CoversAt(initial, log, view, i);
      if IsCommitPhaseOp(log[i].op) && TxnOf(log[i]) == t {
        EntryWasPrepared(initial, log[..i], view, t);
      }
    }
    assert forall op :: TxnOf(Tagged(t, op)) == t;
  }

  /** What is left of premise P3 for the log of a stable primary that keeps its cross slot: it holds
      exactly when no participant prepare is repeated. */
  lemma NodeLogIsP3(cfg: Config, steps: seq<NodeStep>, q: Node)
    requires cfg.Valid() && cfg.top.PrimaryOf(cfg.cluster, 0) == cfg.self && Acts(BootNode(cfg), steps, q)
    ensures Trace.P3(Requests(q.r.executed)) <==> PartPreparesOnce(Requests(q.r.executed))
  {
    BootOk(cfg, cfg.top.initialBalance);
    AlwaysOk(BootNode(cfg), steps, q);
    OkLogIsP3(q);
  }

  lemma OkLogIsP3(q: Node)
    requires NodeOk(q)
    ensures Trace.P3(Requests(q.r.executed)) <==> PartPreparesOnce(Requests(q.r.executed))
  {
    var log, initial, view := Requests(q.r.executed), q.r.ledger.initial, q.r.view;
    P3IsPreparingOnce(initial, log, view);
    assert Recorded(q.r.cfg, q.r.ledger, log) && DoneOnce(log);
    if PartPreparesOnce(log) {
      forall k | 0 <= k < |log| ensures PreparesAt(log, k) {
        if IsDebit(log[k]) {
          DebitIsFirst(q.r.cfg, initial, log, view, k);
        }
      }
    }
  }

  lemma BootOk(cfg: Config, initial: int)
    requires cfg.Valid() && cfg.top.PrimaryOf(cfg.cluster, 0) == cfg.self
    ensures NodeOk(BootNode(cfg).(r := Boot(cfg, initial)))
  {
    assert Requests(Boot(cfg, initial).executed) == [];
  }

  lemma DebitedOnce(es: seq<Executed>)
    requires DoneOnce(Requests(es))
    ensures forall i, j :: 0 <= i < j < |es| && IsDebit(es[i].req) && IsDebit(es[j].req) ==>
      TxnOf(es[i].req) != TxnOf(es[j].req)
  {
    var done := Requests(es);
    assert forall i :: 0 <= i < |done| ==> done[i] == es[i].req;
  }

  lemma SlotExclusive(q: Node)
    requires NodeOk(q)
    ensures forall i, j :: 0 <= i < j < |q.ingress| && IsDebit(q.ingress[i]) ==> !IsDebit(q.ingress[j])
    ensures forall s, u :: s in q.r.log && u in q.r.log && Debiting(q.r.log[s]) && Debiting(q.r.log[u]) ==> s == u
    ensures forall i, s :: 0 <= i < |q.ingress| && IsDebit(q.ingress[i]) && s in q.r.log ==> !Debiting(q.r.log[s])
    ensures !q.crossBusy ==> NoDebiting(q.r.log) && forall i :: 0 <= i < |q.ingress| ==> !IsDebit(q.ingress[i])
  {
    assert Single(q.r.log, q.crossBusy);
    assert forall i :: 0 <= i < |q.ingress| ==> Queued(q, Requests(q.r.executed), q.ingress[i]);
  }
}
