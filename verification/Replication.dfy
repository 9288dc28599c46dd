/** The state of a replica is the replay of what it executed, and replicas that executed equally
    far are equal (pbft/engine.go:537-779). */
module Replication {
  import opened Types
  import opened Ledgers
  import opened Pbft
  import opened Micro
  import opened Agreement

  function Requests(es: seq<Executed>): seq<Request> {
    seq(|es|, i requires 0 <= i < |es| => es[i].req)
  }

  // ---------------------------------------------------------------- what every change keeps

  /** Balances, WAL, datastore and timestamps replay the executed requests in order. */
  predicate Replays(r: Replica) {
    r.ledger.Core() == ExecAll(Fresh(r.ledger.initial), Requests(r.executed), r.view).Core()
  }

  /** Numbers are executed in strictly increasing order, all of them behind the cursor. */
  predicate InOrder(r: Replica) {
    && (forall i :: 0 <= i < |r.executed| ==> r.executed[i].seqNo < r.execSeq)
    && (forall i, j :: 0 <= i < j < |r.executed| ==> r.executed[i].seqNo < r.executed[j].seqNo)
  }

  lemma {:induction false} LocksOnly(l: Ledger, items: seq<int>, s: int)
    ensures AcquireAll(l, items, s).0.Core() == l.Core() && EnsureAll(l, items, s).0.Core() == l.Core()
    decreases |items|
  {
    if items != [] {
      LocksOnly(l.Acquire(items[0], s), items[1..], s);
    }
  }

  lemma ExecKeepsInitial(l: Ledger, req: Request, view: int)
    ensures Exec(l, req, view).initial == l.initial
  {
  }

  lemma ExecuteReplays(r: Replica)
    requires Replays(r) && InOrder(r) && CanExecute(r)
    ensures Replays(ExecuteNext(r)) && InOrder(ExecuteNext(r)) && ExecuteNext(r).ledger.initial == r.ledger.initial
  {
    var q := ExecuteNext(r);
    var req := r.log[r.execSeq].req;
    var reqs := Requests(q.executed);
    ExecKeepsInitial(r.ledger, req, r.view);
    assert reqs[..|reqs| - 1] == Requests(r.executed);
    ExecIgnoresLocks(r.ledger, ExecAll(Fresh(r.ledger.initial), Requests(r.executed), r.view), req, r.view);
  }

  /** Everything else touches at most the locks of the ledger. */
  lemma OtherReplays(r: Replica, c: Change)
    requires r.cfg.Valid() && Enabled(r, c) && !c.Execute?
    ensures Apply(r, c).ledger.Core() == r.ledger.Core() && Apply(r, c).view == r.view
    ensures Apply(r, c).executed == r.executed && Apply(r, c).execSeq >= r.execSeq
  {
    match c
    case Offer(req) => LocksOnly(r.ledger, LockItems(req), r.nextSeq);
    case LockSlot(s) => LocksOnly(r.ledger, LockItems(r.log[s].req), s);
    case AdoptLocks(s) => LocksOnly(r.ledger, LockItems(r.log[s].req), s);
    case _ =>
  }

  lemma KeptReplays(r: Replica, q: Replica)
    requires Replays(r) && InOrder(r) && q.ledger.Core() == r.ledger.Core() && q.view == r.view
    requires q.executed == r.executed && q.execSeq >= r.execSeq
    ensures Replays(q) && InOrder(q) && q.ledger.initial == r.ledger.initial
  {
  }

  lemma ChangeReplays(r: Replica, c: Change)
    requires r.cfg.Valid() && Enabled(r, c) && Replays(r) && InOrder(r)
    ensures Replays(Apply(r, c)) && InOrder(Apply(r, c))
    ensures Apply(r, c).ledger.initial == r.ledger.initial
  {
    if c.Execute? {
      ExecuteReplays(r);
    } else {
      OtherReplays(r, c);
      KeptReplays(r, Apply(r, c));
    }
  }

  /** Whatever a replica does within a view - accept, execute, discard, reuse a number, adopt a
      re-proposal - its state stays the replay of its executed requests, in increasing order. */
  lemma {:induction false} RunReplays(r: Replica, cs: seq<Change>, q: Replica)
    requires r.cfg.Valid() && Runs(r, cs, q) && Replays(r) && InOrder(r)
    ensures Replays(q) && InOrder(q) && q.ledger.initial == r.ledger.initial
    decreases |cs|
  {
    if cs != [] {
      ApplyKeepsConfig(r, cs[0]);
      ChangeReplays(r, cs[0]);
      RunReplays(Apply(r, cs[0]), cs[1..], q);
    }
  }

  // ---------------------------------------------------------------- runs without reclaim

  predicate Steady(c: Change) {
    !c.Discard? && !c.Wipe? && !c.Rollback? && !c.Announce? && !c.Adopt? && !c.AdoptLocks?
  }

  /** Nothing was ever discarded, so the executed numbers are exactly 1, 2, ..., execSeq - 1. */
  predicate Gapless(r: Replica) {
    && (forall s :: s in r.log ==> !r.log[s].discarded)
    && (forall m :: m in r.sent ==> !m.DiscardMsg?)
    && |r.executed| == r.execSeq - 1
    && (forall i :: 0 <= i < |r.executed| ==> r.executed[i].seqNo == i + 1)
  }

  lemma {:induction false} RunGapless(r: Replica, cs: seq<Change>, q: Replica)
    requires r.cfg.Valid() && Runs(r, cs, q) && Gapless(r)
    requires forall c :: c in cs ==> Steady(c)
    ensures Gapless(q)
    decreases |cs|
  {
    if cs != [] {
      ApplyKeepsConfig(r, cs[0]);
      assert cs[0] in cs;
      RunGapless(Apply(r, cs[0]), cs[1..], q);
    }
  }

  ghost predicate Clean(r: Replica, initial: int) {
    Gapless(r) && Replays(r) && InOrder(r) && r.ledger.initial == initial
  }

  lemma SteadyRun(r: Replica, cs: seq<Change>, q: Replica, initial: int)
    requires r.cfg.Valid() && Clean(r, initial) && Runs(r, cs, q) && forall c :: c in cs ==> Steady(c)
    ensures Clean(q, initial)
  {
    RunGapless(r, cs, q);
    RunReplays(r, cs, q);
  }

  lemma LeadSteady(r: Replica, a: Action, initial: int)
    requires r.cfg.Valid() && r.IsPrimary() && Clean(r, initial) && !a.Deliver? && !a.GiveUp?
    ensures Clean(Lead(r, a), initial)
  {
    var cs := LeadIsChanges(r, a);
    forall c | c in cs ensures Steady(c) {
      assert Quiet(c) || c.Offer? || c.Burn?;
    }
    SteadyRun(r, cs, Lead(r, a), initial);
  }

  lemma FollowingSteady(view: int, m: Msg, cs: seq<Change>)
    requires !m.DiscardMsg?
    requires forall c :: c in cs ==> Following(view, {m}, c) && (c.Discard? ==> m.DiscardMsg?)
    ensures forall c :: c in cs ==> Steady(c)
  {
    forall c | c in cs ensures Steady(c) {
      assert Following(view, {m}, c);
    }
  }

  ghost predicate AllClean(c: Cluster, initial: int) {
    forall id :: id in c.replicas ==> Clean(c.replicas[id], initial)
  }

  lemma {:induction false} CleanAlways(c: Cluster, acts: seq<Action>, d: Cluster, initial: int)
    requires Inv(c) && Leads(c, acts, d) && AllClean(c, initial)
    requires forall a :: a in acts ==> !a.GiveUp?
    ensures Inv(d) && AllClean(d, initial)
    ensures d.primary == c.primary && d.replicas.Keys == c.replicas.Keys
    decreases |acts|
  {
    if acts != [] {
      var a := acts[0];
      assert a in acts;
      LeadsFirst(c, acts, d);
      var e := Do(c, a);
      InvHolds(c, a);
      if a.Deliver? {
        assert Clean(c.replicas[c.primary], initial);
        var cs := HandleRuns(c.replicas[a.to], a.msg);
        FollowingSteady(c.replicas[a.to].view, a.msg, cs);
        SteadyRun(c.replicas[a.to], cs, Handle(c.replicas[a.to], a.msg), initial);
      } else {
        LeadSteady(c.replicas[c.primary], a, initial);
      }
      CleanAlways(e, acts[1..], d, initial);
    }
  }

  /** Replica equality: in every run with an honest primary and without reclaim, executed lists are
      prefix-related, and replicas that executed equally far hold the same balances, WAL, datastore
      and client timestamps, whatever their lock tables hold. */
  lemma ReplicasEqual(c: Cluster, acts: seq<Action>, d: Cluster, p: int, q: int)
    requires Start0(c) && Leads(c, acts, d) && p in d.replicas && q in d.replicas
    requires forall a :: a in acts ==> !a.GiveUp?
    ensures var a, b := d.replicas[p], d.replicas[q];
      && (a.execSeq <= b.execSeq ==> a.executed <= b.executed)
      && (a.execSeq == b.execSeq ==>
            a.executed == b.executed && a.ledger.Core() == b.ledger.Core()
            && forall i :: a.ledger.Bal(i) == b.ledger.Bal(i))
  {
    var initial := c.replicas[c.primary].cfg.top.initialBalance;
    assert AllClean(c, initial);
    CleanAlways(c, acts, d, initial);
    Agree(c, acts, d);
  }

}
