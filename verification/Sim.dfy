/** The repository's own sequential specification (simulate.py, class Sim). */
module Simulator {
  import opened Sums

  const F := 3
  const QUORUM := 7
  const CLUSTER_SIZE := 12
  const START_BALANCE := 10
  const CLUSTERS := 3

  /** `cluster_of` raises ValueError outside these bounds. */
  predicate Item(i: int) { 1 <= i <= 3000 }

  function ClusterOf(i: int): int
    requires Item(i)
  {
    if i <= 1000 then 1 else if i <= 2000 then 2 else 3
  }

  /** The integers above `lo` up to and including `hi`. */
  function Range(lo: int, hi: int): (r: set<int>)
    ensures forall s :: s in r <==> lo < s <= hi
    ensures lo <= hi ==> |r| == hi - lo
    decreases hi - lo
  {
    if hi <= lo then {} else Range(lo, hi - 1) + {hi}
  }

  function ClusterServers(c: int): set<int> {
    Range((c - 1) * CLUSTER_SIZE, c * CLUSTER_SIZE)
  }

  const AllServers: set<int> := Range(0, CLUSTERS * CLUSTER_SIZE)

  datatype Verdict =
    | Committed
    | AbortNoQuorum
    | SkipInsufficient
    | AbortNoQuorumCoord
    | SkipInsufficientCoord
    | AbortNoQuorumPart

  datatype Stage = IntraDone | CrossPrepare | CrossDone | CrossAborted

  datatype Record = Record(x: int, y: int, amt: int, stage: Stage)
  datatype Event = Event(x: int, y: int, amt: int, verdict: Verdict)

  /** One transaction of a test set, with the set's live and Byzantine servers. */
  datatype Job = Job(x: int, y: int, amt: int, live: set<int>, byz: set<int>)

  datatype State = State(balance: map<int, int>, datastore: map<int, seq<Record>>, events: seq<Event>)
  {
    function Bal(i: int): int { if i in balance then balance[i] else START_BALANCE }

    function SetBal(i: int, v: int): State { this.(balance := balance[i := v]) }

    function AppendEntry(c: int, live: set<int>, r: Record): State {
      this.(datastore := map s | s in datastore ::
        if s in ClusterServers(c) && s in live then datastore[s] + [r] else datastore[s])
    }

    function Log(x: int, y: int, amt: int, v: Verdict): State {
      this.(events := events + [Event(x, y, amt, v)])
    }
  }

  const Start := State(map[], map s | s in AllServers :: [], [])

  predicate CanCommit(c: int, live: set<int>, byz: set<int>) {
    var cs := ClusterServers(c);
    |cs * live| >= QUORUM && |cs * live| - |cs * byz| >= QUORUM
  }

  function IntraStep(s: State, j: Job, c: int): State {
    if !CanCommit(c, j.live, j.byz) then s.Log(j.x, j.y, j.amt, AbortNoQuorum)
    else if s.Bal(j.x) < j.amt then s.Log(j.x, j.y, j.amt, SkipInsufficient)
    else
      var s1 := s.SetBal(j.x, s.Bal(j.x) - j.amt);
      var s2 := s1.SetBal(j.y, s1.Bal(j.y) + j.amt);
      s2.AppendEntry(c, j.live, Record(j.x, j.y, j.amt, IntraDone)).Log(j.x, j.y, j.amt, Committed)
  }

  function CrossStep(s: State, j: Job, cx: int, cy: int): State {
    if !CanCommit(cx, j.live, j.byz) then s.Log(j.x, j.y, j.amt, AbortNoQuorumCoord)
    else if s.Bal(j.x) < j.amt then s.Log(j.x, j.y, j.amt, SkipInsufficientCoord)
    else
      var preX := s.Bal(j.x);
      var s1 := StartCross(s, j, cx);
      if !CanCommit(cy, j.live, j.byz) then
        UndoCross(s1, j, cx, preX)
      else
        FinishCross(s1, j, cx, cy)
  }

  function StartCross(s: State, j: Job, cx: int): State {
    s.SetBal(j.x, s.Bal(j.x) - j.amt).AppendEntry(cx, j.live, Record(j.x, j.y, j.amt, CrossPrepare))
  }

  function UndoCross(s: State, j: Job, cx: int, preX: int): State {
    s.SetBal(j.x, preX)
     .AppendEntry(cx, j.live, Record(j.x, j.y, j.amt, CrossAborted))
     .Log(j.x, j.y, j.amt, AbortNoQuorumPart)
  }

  function FinishCross(s: State, j: Job, cx: int, cy: int): State {
    s.SetBal(j.y, s.Bal(j.y) + j.amt)
     .AppendEntry(cy, j.live, Record(j.x, j.y, j.amt, CrossPrepare))
     .AppendEntry(cx, j.live, Record(j.x, j.y, j.amt, CrossDone))
     .AppendEntry(cy, j.live, Record(j.x, j.y, j.amt, CrossDone))
     .Log(j.x, j.y, j.amt, Committed)
  }

  predicate ValidJob(j: Job) { Item(j.x) && Item(j.y) }

  function Step(s: State, j: Job): State
    requires ValidJob(j)
  {
    if ClusterOf(j.x) == ClusterOf(j.y) then IntraStep(s, j, ClusterOf(j.x))
    else CrossStep(s, j, ClusterOf(j.x), ClusterOf(j.y))
  }

  function Run(s: State, jobs: seq<Job>): State
    requires forall j :: j in jobs ==> ValidJob(j)
  {
    if jobs == [] then s
    else Step(Run(s, jobs[..|jobs| - 1]), jobs[|jobs| - 1])
  }

  /** The mutable simulator of the source. */
  class Sim {
    var balance: map<int, int>
    var datastore: map<int, seq<Record>>
    var events: seq<Event>

    function Now(): State
      reads this
    {
      State(balance, datastore, events)
    }

    constructor ()
      ensures Now() == Start
    {
      balance, events := map[], [];
      datastore := map s | s in AllServers :: [];
    }

    method SetBal(i: int, v: int)
      modifies `balance
      ensures Now() == old(Now()).SetBal(i, v)
    {
      balance := balance[i := v];
    }

    method AppendEntry(c: int, live: set<int>, r: Record)
      modifies `datastore
      ensures Now() == old(Now()).AppendEntry(c, live, r)
    {
      ghost var was := datastore;
      var s := (c - 1) * CLUSTER_SIZE + 1;
      while s <= c * CLUSTER_SIZE
        invariant (c - 1) * CLUSTER_SIZE < s <= c * CLUSTER_SIZE + 1
        invariant datastore.Keys == was.Keys
        invariant forall k :: k in was ==>
          datastore[k] == if (c - 1) * CLUSTER_SIZE < k < s && k in live then was[k] + [r] else was[k]
      {
        if s in live && s in datastore {
          datastore := datastore[s := datastore[s] + [r]];
        }
        s := s + 1;
      }
      ghost var now := old(Now()).AppendEntry(c, live, r).datastore;
      assert datastore.Keys == now.Keys;
      assert forall k :: k in was ==> datastore[k] == now[k];
    }

    method Log(x: int, y: int, amt: int, v: Verdict)
      modifies `events
      ensures Now() == old(Now()).Log(x, y, amt, v)
    {
      events := events + [Event(x, y, amt, v)];
    }

    method DoIntra(j: Job, c: int)
      modifies this
      ensures Now() == IntraStep(old(Now()), j, c)
    {
      if !CanCommit(c, j.live, j.byz) {
        Log(j.x, j.y, j.amt, AbortNoQuorum);
        return;
      }
      if Now().Bal(j.x) < j.amt {
        Log(j.x, j.y, j.amt, SkipInsufficient);
        return;
      }
      SetBal(j.x, Now().Bal(j.x) - j.amt);
      SetBal(j.y, Now().Bal(j.y) + j.amt);
      AppendEntry(c, j.live, Record(j.x, j.y, j.amt, IntraDone));
      Log(j.x, j.y, j.amt, Committed);
    }

    method DoCross(j: Job, cx: int, cy: int)
      modifies this
      ensures Now() == CrossStep(old(Now()), j, cx, cy)
    {
      if !CanCommit(cx, j.live, j.byz) {
        Log(j.x, j.y, j.amt, AbortNoQuorumCoord);
        return;
      }
      if Now().Bal(j.x) < j.amt {
        Log(j.x, j.y, j.amt, SkipInsufficientCoord);
        return;
      }
      var preX := Now().Bal(j.x);
      DoStart(j, cx);
      if !CanCommit(cy, j.live, j.byz) {
        DoUndo(j, cx, preX);
      } else {
        DoFinish(j, cx, cy);
      }
    }

    method DoStart(j: Job, cx: int)
      modifies this
      ensures Now() == StartCross(old(Now()), j, cx)
    {
      SetBal(j.x, Now().Bal(j.x) - j.amt);
      AppendEntry(cx, j.live, Record(j.x, j.y, j.amt, CrossPrepare));
    }

    method DoUndo(j: Job, cx: int, preX: int)
      modifies this
      ensures Now() == UndoCross(old(Now()), j, cx, preX)
    {
      SetBal(j.x, preX);
      AppendEntry(cx, j.live, Record(j.x, j.y, j.amt, CrossAborted));
      Log(j.x, j.y, j.amt, AbortNoQuorumPart);
    }

    method DoFinish(j: Job, cx: int, cy: int)
      modifies this
      ensures Now() == FinishCross(old(Now()), j, cx, cy)
    {
      SetBal(j.y, Now().Bal(j.y) + j.amt);
      AppendEntry(cy, j.live, Record(j.x, j.y, j.amt, CrossPrepare));
      AppendEntry(cx, j.live, Record(j.x, j.y, j.amt, CrossDone));
      AppendEntry(cy, j.live, Record(j.x, j.y, j.amt, CrossDone));
      Log(j.x, j.y, j.amt, Committed);
    }

    method RunSet(jobs: seq<Job>)
      requires forall j :: j in jobs ==> ValidJob(j)
      modifies this
      ensures Now() == Run(old(Now()), jobs)
    {
      for k := 0 to |jobs|
        invariant Now() == Run(old(Now()), jobs[..k])
      {
        assert jobs[..k + 1][..k] == jobs[..k];
        var j := jobs[k];
        assert j in jobs;
        var cx, cy := ClusterOf(j.x), ClusterOf(j.y);
        if cx == cy {
          DoIntra(j, cx);
        } else {
          DoCross(j, cx, cy);
        }
      }
      assert jobs[..|jobs|] == jobs;
    }
  }

  // ---------------------------------------------------------------- what the simulator promises

  lemma FullClusterCommits(c: int, live: set<int>)
    requires ClusterServers(c) <= live
    ensures CanCommit(c, live, {})
  {
    var cs := ClusterServers(c);
    assert cs * live == cs && cs * {} == {};
  }

  lemma DeadClusterCannot(c: int, live: set<int>)
    requires ClusterServers(c) !! live
    ensures !CanCommit(c, live, {})
  {
    assert ClusterServers(c) * live == {};
  }

  /** What a step logged and how it moved balances. */
  ghost predicate StepEffect(s: State, j: Job, t: State, v: Verdict) {
    && t.events == s.events + [Event(j.x, j.y, j.amt, v)]
    && (v == Committed ==> s.Bal(j.x) >= j.amt)
    && (forall i :: t.Bal(i) == s.Bal(i) + if v == Committed then Moved(j, i) else 0)
  }

  /** What a committed job adds to an item; nothing at all when its endpoints are equal. */
  function Moved(j: Job, i: int): int {
    (if i == j.y then j.amt else 0) - (if i == j.x then j.amt else 0)
  }

  function IntraVerdict(s: State, j: Job, c: int): Verdict {
    if !CanCommit(c, j.live, j.byz) then AbortNoQuorum
    else if s.Bal(j.x) < j.amt then SkipInsufficient
    else Committed
  }

  function CrossVerdict(s: State, j: Job, cx: int, cy: int): Verdict {
    if !CanCommit(cx, j.live, j.byz) then AbortNoQuorumCoord
    else if s.Bal(j.x) < j.amt then SkipInsufficientCoord
    else if !CanCommit(cy, j.live, j.byz) then AbortNoQuorumPart
    else Committed
  }

  lemma IntraMeaning(s: State, j: Job, c: int)
    ensures StepEffect(s, j, IntraStep(s, j, c), IntraVerdict(s, j, c))
  {
  }

  lemma CrossMeaning(s: State, j: Job, cx: int, cy: int)
    ensures StepEffect(s, j, CrossStep(s, j, cx, cy), CrossVerdict(s, j, cx, cy))
  {
  }

  function StepVerdict(s: State, j: Job): Verdict
    requires ValidJob(j)
  {
    var cx, cy := ClusterOf(j.x), ClusterOf(j.y);
    if cx == cy then IntraVerdict(s, j, cx) else CrossVerdict(s, j, cx, cy)
  }

  /** A job commits exactly when the clusters of both endpoints have live quorums and the balance of x
      covers it; then money moves from x to y, and otherwise all balances stay as they were. */
  lemma StepMeaning(s: State, j: Job)
    requires ValidJob(j)
    ensures StepEffect(s, j, Step(s, j), StepVerdict(s, j))
    ensures StepVerdict(s, j) == Committed <==>
      CanCommit(ClusterOf(j.x), j.live, j.byz) && CanCommit(ClusterOf(j.y), j.live, j.byz) && s.Bal(j.x) >= j.amt
  {
    var cx, cy := ClusterOf(j.x), ClusterOf(j.y);
    if cx == cy {
      IntraMeaning(s, j, cx);
      assert Step(s, j) == IntraStep(s, j, cx);
    } else {
      CrossMeaning(s, j, cx, cy);
      assert Step(s, j) == CrossStep(s, j, cx, cy);
    }
  }

  /** The total is conserved by every step and balances never go negative. */
  lemma StepConserves(s: State, j: Job, items: seq<int>)
    requires ValidJob(j) && j.amt >= 0
    requires Distinct(items) && j.x in items && j.y in items
    requires forall i :: s.Bal(i) >= 0
    ensures Sum(items, i => Step(s, j).Bal(i)) == Sum(items, i => s.Bal(i))
    ensures forall i :: Step(s, j).Bal(i) >= 0
  {
    StepMeaning(s, j);
    var t := Step(s, j);
    var v := StepVerdict(s, j);
    var f := (i: int) => s.Bal(i);
    var g := (i: int) => t.Bal(i);
    if v == Committed {
      var m := (i: int) => if i == j.x then s.Bal(i) - j.amt else s.Bal(i);
      SumChange(items, f, m, j.x, -j.amt);
      SumChange(items, m, g, j.y, j.amt);
    } else {
      SumEqual(items, f, g);
    }
    SumEqual(items, g, i => Step(s, j).Bal(i));
    SumEqual(items, f, i => s.Bal(i));
  }
}
