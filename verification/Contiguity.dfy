/** The execution loop, and the gap check that feeds it (pbft/engine.go:372-404, 537-585, 829-846,
    1235-1268, pbft/viewchange.go:230-283). */
module Contiguity {
  import opened Ledgers
  import opened Pbft
  import opened Micro
  import opened Paths

  // ---------------------------------------------------------------- the loop

  /** A slot that the loop does not stop at. */
  predicate Passable(slot: Slot) {
    slot.discarded || (slot.commitCert.Some? && !slot.executed)
  }

  /** What runs of the numbers from `lo` up to `hi`: each one that was not discarded, in order. */
  function ToRun(log: map<int, Slot>, lo: int, hi: int): seq<Executed>
    requires lo <= hi && forall s :: lo <= s < hi ==> s in log
    decreases hi - lo
  {
    if lo == hi then []
    else (if log[lo].discarded then [] else [Executed(lo, log[lo].req)]) + ToRun(log, lo + 1, hi)
  }

  function ExecEach(l: Ledger, es: seq<Executed>, view: int): Ledger
    decreases |es|
  {
    if es == [] then l else ExecEach(Exec(l, es[0].req, view), es[1..], view)
  }

  lemma {:induction false} ToRunAgrees(a: map<int, Slot>, b: map<int, Slot>, lo: int, hi: int)
    requires lo <= hi && forall s :: lo <= s < hi ==> s in a && s in b
    requires forall s :: lo <= s < hi ==> a[s].discarded == b[s].discarded && a[s].req == b[s].req
    ensures ToRun(a, lo, hi) == ToRun(b, lo, hi)
    decreases hi - lo
  {
    if lo < hi {
      ToRunAgrees(a, b, lo + 1, hi);
    }
  }

  /** `q` is `r` run to the first number that is missing, executed or not yet committed: what was not
      discarded on the way is executed in increasing order, and no other slot changes. */
  ghost predicate RunTo(r: Replica, q: Replica) {
    && PassesTo(r.log, r.execSeq, q.log, q.execSeq)
    && q.executed == r.executed + ToRun(r.log, r.execSeq, q.execSeq)
    && q.ledger == ExecEach(r.ledger, ToRun(r.log, r.execSeq, q.execSeq), r.view)
    && q.cfg == r.cfg && q.view == r.view && q.nextSeq == r.nextSeq && q.sent == r.sent && q.signed == r.signed
  }

  predicate PassesTo(log: map<int, Slot>, lo: int, log2: map<int, Slot>, hi: int) {
    && lo <= hi
    && (forall s :: lo <= s < hi ==> s in log && Passable(log[s]))
    && (hi in log ==> !Passable(log[hi]))
    && log2.Keys == log.Keys
    && (forall s :: s in log ==> log2[s] == Ran(log[s], lo <= s < hi))
  }

  function Ran(slot: Slot, passed: bool): Slot {
    if passed && !slot.discarded then slot.(executed := true) else slot
  }

  lemma JoinPasses(log: map<int, Slot>, s: int, log2: map<int, Slot>, hi: int)
    requires s in log && !log[s].discarded && Passable(log[s])
    requires PassesTo(log[s := log[s].(executed := true)], s + 1, log2, hi)
    ensures PassesTo(log, s, log2, hi)
  {
    var mid := log[s := log[s].(executed := true)];
    forall t | s <= t < hi ensures t in log && Passable(log[t]) {
      assert t > s ==> t in mid && Passable(mid[t]);
    }
    forall t | t in log ensures log2[t] == Ran(log[t], s <= t < hi) {
      assert log2[t] == Ran(mid[t], s + 1 <= t < hi);
    }
  }

  lemma ExecCons(l: Ledger, e: Executed, es: seq<Executed>, view: int)
    ensures ExecEach(l, [e] + es, view) == ExecEach(Exec(l, e.req, view), es, view)
  {
    assert ([e] + es)[1..] == es;
  }

  /** One execution in front of a run. */
  lemma JoinRun(r: Replica, m: Replica, q: Replica)
    requires r.execSeq in r.log && !r.log[r.execSeq].discarded && Passable(r.log[r.execSeq])
    requires m.log == r.log[r.execSeq := r.log[r.execSeq].(executed := true)] && m.execSeq == r.execSeq + 1
    requires m.executed == r.executed + [Executed(r.execSeq, r.log[r.execSeq].req)]
    requires m.ledger == Exec(r.ledger, r.log[r.execSeq].req, r.view)
    requires m.cfg == r.cfg && m.view == r.view && m.nextSeq == r.nextSeq && m.sent == r.sent && m.signed == r.signed
    requires RunTo(m, q)
    ensures RunTo(r, q)
  {
    JoinPasses(r.log, r.execSeq, q.log, q.execSeq);
    ExecCons(r.ledger, Executed(r.execSeq, r.log[r.execSeq].req), ToRun(m.log, m.execSeq, q.execSeq), r.view);
    JoinEffects(r.log, r.execSeq, r.executed, r.ledger, r.view, q.execSeq, q.executed, q.ledger);
  }

  lemma RunsOne(log: map<int, Slot>, s: int, slot: Slot, hi: int)
    requires s < hi && s in log && !log[s].discarded && slot == log[s].(executed := true)
    requires forall t :: s <= t < hi ==> t in log
    ensures ToRun(log, s, hi) == [Executed(s, log[s].req)] + ToRun(log[s := slot], s + 1, hi)
  {
    ToRunAgrees(log[s := slot], log, s + 1, hi);
  }

  lemma JoinEffects(
    log: map<int, Slot>, s: int, done: seq<Executed>, l: Ledger, view: int, hi: int, done2: seq<Executed>, l2: Ledger)
    requires s < hi && s in log && !log[s].discarded && forall t :: s <= t < hi ==> t in log
    requires var e, rest := Executed(s, log[s].req), ToRun(log[s := log[s].(executed := true)], s + 1, hi);
      done2 == done + [e] + rest && l2 == ExecEach(l, [e] + rest, view)
    ensures done2 == done + ToRun(log, s, hi) && l2 == ExecEach(l, ToRun(log, s, hi), view)
  {
    var e, rest := Executed(s, log[s].req), ToRun(log[s := log[s].(executed := true)], s + 1, hi);
    RunsOne(log, s, log[s].(executed := true), hi);
    assert done + [e] + rest == done + ([e] + rest);
  }

  lemma ExecuteThenRun(r: Replica, q: Replica)
    requires CanExecute(r) && RunTo(ExecuteNext(r), q)
    ensures RunTo(r, q)
  {
    JoinRun(r, ExecuteNext(r), q);
  }

  /** What the loop computes. */
  lemma {:induction false} TryExecuteMeaning(r: Replica)
    ensures RunTo(r, TryExecute(r))
    decreases |Ahead(r)|
  {
    if CanSkip(r) {
      var m := r.(execSeq := r.execSeq + 1);
      assert Ahead(m) == Ahead(r) - {r.execSeq} && r.execSeq in Ahead(r);
      TryExecuteMeaning(m);
      assert ToRun(r.log, r.execSeq, TryExecute(r).execSeq) == ToRun(r.log, r.execSeq + 1, TryExecute(r).execSeq);
    } else if CanExecute(r) {
      var m := ExecuteNext(r);
      assert Ahead(m) == Ahead(r) - {r.execSeq} && r.execSeq in Ahead(r);
      TryExecuteMeaning(m);
      ExecuteThenRun(r, TryExecute(r));
    }
  }

  /** Running the loop again does nothing. */
  lemma Fixpoint(r: Replica)
    ensures TryExecute(TryExecute(r)) == TryExecute(r)
  {
    TryExecuteMeaning(r);
  }

  lemma {:induction false} ToRunIncreases(log: map<int, Slot>, lo: int, hi: int)
    requires lo <= hi && forall s :: lo <= s < hi ==> s in log
    ensures forall i :: 0 <= i < |ToRun(log, lo, hi)| ==> lo <= ToRun(log, lo, hi)[i].seqNo < hi
    ensures forall i, j :: 0 <= i < j < |ToRun(log, lo, hi)| ==>
      ToRun(log, lo, hi)[i].seqNo < ToRun(log, lo, hi)[j].seqNo
    ensures forall s :: lo <= s < hi ==> (Executed(s, log[s].req) in ToRun(log, lo, hi) <==> !log[s].discarded)
    decreases hi - lo
  {
    if lo < hi {
      ToRunIncreases(log, lo + 1, hi);
      var tail := ToRun(log, lo + 1, hi);
      assert forall e :: e in tail ==> lo + 1 <= e.seqNo < hi;
    }
  }

  // ---------------------------------------------------------------- no gaps

  predicate Filled(slot: Slot) { slot.prePrepare || slot.discarded }

  /** From the cursor to any slot beyond it every number has a slot, pre-prepared or discarded. */
  predicate Unbroken(log: map<int, Slot>, execSeq: int) {
    && execSeq >= 1
    && (forall s :: s in log && s >= execSeq ==> Filled(log[s]))
    && (forall s, t :: s in log && execSeq <= t < s ==> t in log)
  }

  /** Everything but proposing. */
  predicate Receiving(c: Change) { !c.Offer? }

  lemma FillUnbroken(r: Replica, s: int, slot: Slot)
    requires Unbroken(r.log, r.execSeq) && GapClear(r, s) && Filled(slot)
    ensures Unbroken(r.log[s := slot], r.execSeq)
  {
  }

  lemma {:induction false} RunUnbroken(r: Replica, cs: seq<Change>, q: Replica)
    requires r.cfg.Valid() && Runs(r, cs, q) && Unbroken(r.log, r.execSeq)
    requires forall c :: c in cs ==> Receiving(c)
    ensures Unbroken(q.log, q.execSeq) && q.cfg == r.cfg && q.view == r.view
    decreases |cs|
  {
    if cs != [] {
      ApplyKeepsConfig(r, cs[0]);
      assert cs[0] in cs;
      RunUnbroken(Apply(r, cs[0]), cs[1..], q);
    }
  }

  /** Any message, from anyone; and a NEW-VIEW, which moves the replica to a later view and brings
      proposals of that view. */
  datatype Input = Receive(msg: Msg) | EnterView(view: int, proposals: seq<Msg>)

  function MaxSeq(ps: seq<Msg>): int
    requires forall m :: m in ps ==> m.PrePrepareMsg?
  {
    if ps == [] then 0
    else
      assert ps[|ps| - 1] in ps && forall m :: m in ps[..|ps| - 1] ==> m in ps;
      var rest, s := MaxSeq(ps[..|ps| - 1]), ps[|ps| - 1].seqNo;
      if s > rest then s else rest
  }

  predicate Possible(input: Input) {
    input.EnterView? ==> forall m :: m in input.proposals ==> m.PrePrepareMsg? && m.view == input.view
  }

  function AcceptAll(r: Replica, ps: seq<Msg>): Replica
    requires r.cfg.Valid() && forall m :: m in ps ==> m.PrePrepareMsg? && m.view == r.view
    decreases |ps|
  {
    if ps == [] then r
    else
      assert ps[0] in ps;
      AcceptKeepsConfig(r, ps[0]);
      AcceptAll(AcceptNewView(r, ps[0]), ps[1..])
  }

  lemma AcceptKeepsConfig(r: Replica, m: Msg)
    requires r.cfg.Valid() && m.PrePrepareMsg? && m.view == r.view
    ensures AcceptNewView(r, m).cfg == r.cfg && AcceptNewView(r, m).view == r.view
  {
    var cs := AcceptNewViewRuns(r, m);
    RunsKeep(r, cs, AcceptNewView(r, m));
  }

  lemma {:induction false} RunsKeep(r: Replica, cs: seq<Change>, q: Replica)
    requires r.cfg.Valid() && Runs(r, cs, q)
    ensures q.cfg == r.cfg && q.view == r.view
    decreases |cs|
  {
    if cs != [] {
      ApplyKeepsConfig(r, cs[0]);
      RunsKeep(Apply(r, cs[0]), cs[1..], q);
    }
  }

  function Take(r: Replica, input: Input): Replica
    requires r.cfg.Valid() && Possible(input)
  {
    match input
    case EnterView(v, ps) =>
      if v <= r.view then r
      else
        var next := if MaxSeq(ps) >= r.nextSeq then MaxSeq(ps) + 1 else r.nextSeq;
        AcceptAll(r.(view := v, nextSeq := next), ps)
    case Receive(PrePrepareMsg(s, v, d, req)) => OnPrePrepare(r, s, v, d, req)
    case Receive(PrepareMsg(from, s, v, d, sig)) => OnPrepare(r, from, s, v, d, sig)
    case Receive(PrepareCertMsg(cert)) => OnPrepareCert(r, cert)
    case Receive(CommitMsg(from, s, v, d, sig)) => OnCommit(r, from, s, v, d, sig)
    case Receive(CommitCertMsg(cert)) => OnCommitCert(r, cert)
    case Receive(DiscardMsg(s, v)) => OnDiscard(r, s, v)
  }

  lemma {:induction false} AcceptAllUnbroken(r: Replica, ps: seq<Msg>)
    requires r.cfg.Valid() && (forall m :: m in ps ==> m.PrePrepareMsg? && m.view == r.view)
    requires Unbroken(r.log, r.execSeq)
    ensures var q := AcceptAll(r, ps); Unbroken(q.log, q.execSeq) && q.cfg == r.cfg
    decreases |ps|
  {
    if ps != [] {
      assert ps[0] in ps;
      var cs := AcceptNewViewRuns(r, ps[0]);
      RunUnbroken(r, cs, AcceptNewView(r, ps[0]));
      AcceptAllUnbroken(AcceptNewView(r, ps[0]), ps[1..]);
    }
  }

  lemma TakeUnbroken(r: Replica, input: Input)
    requires r.cfg.Valid() && Possible(input) && Unbroken(r.log, r.execSeq)
    ensures var q := Take(r, input); Unbroken(q.log, q.execSeq) && q.cfg == r.cfg
  {
    var q := Take(r, input);
    if input.EnterView? {
      if input.view > r.view {
        var next := if MaxSeq(input.proposals) >= r.nextSeq then MaxSeq(input.proposals) + 1 else r.nextSeq;
        AcceptAllUnbroken(r.(view := input.view, nextSeq := next), input.proposals);
      }
    } else {
      var cs := ReceiveRuns(r, input.msg);
      RunUnbroken(r, cs, q);
    }
  }

  lemma ReceiveRuns(r: Replica, m: Msg) returns (cs: seq<Change>)
    requires r.cfg.Valid()
    ensures Runs(r, cs, Take(r, Receive(m))) && forall c :: c in cs ==> Receiving(c)
  {
    match m {
      case PrePrepareMsg(s, v, d, req) => cs := OnPrePrepareRuns(r, s, v, d, req);
      case PrepareMsg(from, s, v, d, sig) => cs := OnPrepareRuns(r, from, s, v, d, sig);
      case PrepareCertMsg(cert) => cs := OnPrepareCertRuns(r, cert);
      case CommitMsg(from, s, v, d, sig) => cs := OnCommitRuns(r, from, s, v, d, sig);
      case CommitCertMsg(cert) => cs := OnCommitCertRuns(r, cert);
      case DiscardMsg(s, v) => cs := WipeRuns(r, s, v);
    }
    assert forall c :: c in cs ==> c == cs[0] || c in cs[1..];
  }

  ghost predicate TakeStep(x: Replica, a: Input, y: Replica) {
    x.cfg.Valid() && Possible(a) && y == Take(x, a)
  }

  /** `last` is what the replica becomes under the inputs. */
  ghost predicate Takes(first: Replica, inputs: seq<Input>, last: Replica) {
    Path(TakeStep, first, inputs, last)
  }

  lemma TakesFirst(first: Replica, inputs: seq<Input>, last: Replica)
    requires Takes(first, inputs, last) && inputs != []
    ensures first.cfg.Valid() && Possible(inputs[0])
    ensures Takes(Take(first, inputs[0]), inputs[1..], last)
  {
    var _ := PathFirst(TakeStep, first, inputs, last);
  }

  lemma {:induction false} TakesUnbroken(r: Replica, inputs: seq<Input>, q: Replica)
    requires r.cfg.Valid() && Takes(r, inputs, q) && Unbroken(r.log, r.execSeq)
    ensures Unbroken(q.log, q.execSeq)
    decreases |inputs|
  {
    if inputs != [] {
      TakesFirst(r, inputs, q);
      TakeUnbroken(r, inputs[0]);
      TakesUnbroken(Take(r, inputs[0]), inputs[1..], q);
    }
  }

  /** Log contiguity: on a replica that never proposes, whatever messages it gets, through discards
      and view changes, every number from the cursor to the highest slot has a slot, and each of
      these slots is pre-prepared or discarded. */
  lemma LogContiguity(cfg: Config, initial: int, inputs: seq<Input>, q: Replica)
    requires cfg.Valid() && Takes(Boot(cfg, initial), inputs, q)
    ensures forall s, t :: s in q.log && q.execSeq <= t <= s ==>
      t in q.log && (q.log[t].prePrepare || q.log[t].discarded)
  {
    TakesUnbroken(Boot(cfg, initial), inputs, q);
    forall s, t | s in q.log && q.execSeq <= t <= s ensures t in q.log && Filled(q.log[t]) {
      assert t == s || t in q.log;
    }
  }
}
