/** The replicated bank against the repository's simulator: running simulate.py over the decided
    transactions, in the order of their decisions, gives the same verdicts and balances. */
module Oracle {
  import opened Runs
  import opened Serial
  import opened Refinement
  import opened Bank
  import Simulator
  import Topo = Topology

  /** The simulator's clusters are those of the default topology. */
  lemma SameClusters(i: int)
    requires Simulator.Item(i)
    ensures Topo.Default().Valid() && Topo.Default().ClusterOf(i) == Simulator.ClusterOf(i)
  {
    var top := Topo.Default();
    Topo.GoDivIs(top.totalItems, top.numClusters);
    Topo.GoDivIs(i - 1, top.ItemsPerCluster());
  }

  /** The run's servers as the simulator sees them: all live, but for an undone transaction whose
      participant cluster could not answer. */
  function JobOf(d: Decision): Simulator.Job
    requires Simulator.Item(d.t.x) && Simulator.Item(d.t.y)
  {
    var live := if d.verdict == Undone
                then Simulator.AllServers - Simulator.ClusterServers(Simulator.ClusterOf(d.t.y))
                else Simulator.AllServers;
    Simulator.Job(d.t.x, d.t.y, d.t.amt, live, {})
  }

  function VerdictOf(d: Decision): Simulator.Verdict
    requires Simulator.Item(d.t.x) && Simulator.Item(d.t.y)
  {
    match d.verdict
    case Done => Simulator.Committed
    case Undone => Simulator.AbortNoQuorumPart
    case Skipped =>
      if Simulator.ClusterOf(d.t.x) == Simulator.ClusterOf(d.t.y) then Simulator.SkipInsufficient
      else Simulator.SkipInsufficientCoord
  }

  predicate InItems(ds: seq<Decision>) {
    forall d :: d in ds ==> Simulator.Item(d.t.x) && Simulator.Item(d.t.y)
  }

  function Jobs(ds: seq<Decision>): (jobs: seq<Simulator.Job>)
    requires InItems(ds)
    ensures forall j :: j in jobs ==> Simulator.ValidJob(j)
  {
    if ds == [] then []
    else
      assert Last(ds) in ds;
      Jobs(Front(ds)) + [JobOf(Last(ds))]
  }

  function Events(ds: seq<Decision>): seq<Simulator.Event>
    requires InItems(ds)
  {
    if ds == [] then []
    else
      assert Last(ds) in ds;
      Events(Front(ds)) + [Simulator.Event(Last(ds).t.x, Last(ds).t.y, Last(ds).t.amt, VerdictOf(Last(ds)))]
  }

  lemma LiveQuorums(c: int, p: int)
    requires 1 <= c <= 3 && 1 <= p <= 3 && c != p
    ensures Simulator.CanCommit(c, Simulator.AllServers, {})
    ensures Simulator.CanCommit(c, Simulator.AllServers - Simulator.ClusterServers(p), {})
    ensures !Simulator.CanCommit(p, Simulator.AllServers - Simulator.ClusterServers(p), {})
  {
    Simulator.FullClusterCommits(c, Simulator.AllServers);
    Simulator.FullClusterCommits(c, Simulator.AllServers - Simulator.ClusterServers(p));
    Simulator.DeadClusterCannot(p, Simulator.AllServers - Simulator.ClusterServers(p));
  }

  /** One decision: the simulator reaches the same verdict from the same balances. */
  lemma StepAgrees(s: Simulator.State, d: Decision)
    requires Simulator.Item(d.t.x) && Simulator.Item(d.t.y) && d.t.x != d.t.y
    requires d.verdict == Undone ==> Simulator.ClusterOf(d.t.x) != Simulator.ClusterOf(d.t.y)
    requires d.verdict == Skipped <==> s.Bal(d.t.x) < d.t.amt
    ensures Simulator.StepEffect(s, JobOf(d), Simulator.Step(s, JobOf(d)), VerdictOf(d))
  {
    if Simulator.ClusterOf(d.t.x) == Simulator.ClusterOf(d.t.y) {
      var c := Simulator.ClusterOf(d.t.x);
      Simulator.FullClusterCommits(c, Simulator.AllServers);
      Simulator.IntraMeaning(s, JobOf(d), c);
      assert Simulator.Step(s, JobOf(d)) == Simulator.IntraStep(s, JobOf(d), c);
    } else {
      var cx, cy := Simulator.ClusterOf(d.t.x), Simulator.ClusterOf(d.t.y);
      LiveQuorums(cx, cy);
      LiveQuorums(cy, cx);
      Simulator.CrossMeaning(s, JobOf(d), cx, cy);
      assert Simulator.Step(s, JobOf(d)) == Simulator.CrossStep(s, JobOf(d), cx, cy);
    }
  }

  predicate Agrees(s: Simulator.State, ds: seq<Decision>)
    requires InItems(ds)
  {
    s.events == Events(ds)
  }

  ghost predicate SameBalances(s: Simulator.State, ds: seq<Decision>) {
    forall i :: s.Bal(i) == Settled(Simulator.START_BALANCE, ds, i)
  }

  lemma StepFollows(s: Simulator.State, ds: seq<Decision>, d: Decision)
    requires InItems(ds) && Agrees(s, ds) && SameBalances(s, ds)
    requires Simulator.Item(d.t.x) && Simulator.Item(d.t.y) && d.t.x != d.t.y
    requires d.verdict == Undone ==> Simulator.ClusterOf(d.t.x) != Simulator.ClusterOf(d.t.y)
    requires d.verdict == Skipped <==> Settled(Simulator.START_BALANCE, ds, d.t.x) < d.t.amt
    ensures InItems(ds + [d])
    ensures Agrees(Simulator.Step(s, JobOf(d)), ds + [d]) && SameBalances(Simulator.Step(s, JobOf(d)), ds + [d])
  {
    var t := Simulator.Step(s, JobOf(d));
    StepAgrees(s, d);
    assert Front(ds + [d]) == ds && Last(ds + [d]) == d;
    forall i ensures t.Bal(i) == Settled(Simulator.START_BALANCE, ds + [d], i) {
      SettledSnoc(Simulator.START_BALANCE, ds, d, i);
    }
  }

  /** The simulator on a justified list of decisions. */
  lemma {:induction false} SimulatorAgrees(ds: seq<Decision>, items: seq<int>)
    requires InItems(ds) && Justified(Simulator.START_BALANCE, ds)
    requires Topo.Default().Valid() && forall d :: d in ds ==> Proper(Topo.Default(), items, d)
    ensures var s := Simulator.Run(Simulator.Start, Jobs(ds)); Agrees(s, ds) && SameBalances(s, ds)
  {
    if ds != [] {
      var before, d := Front(ds), Last(ds);
      assert ds == before + [d];
      assert d in ds && forall q :: q in before ==> q in ds;
      JustifiedPrefix(Simulator.START_BALANCE, before, d);
      SimulatorAgrees(before, items);
      SameClusters(d.t.x);
      SameClusters(d.t.y);
      StepFollows(Simulator.Run(Simulator.Start, Jobs(before)), before, d);
    }
  }

  /** The repository's promise: over the default topology, every well-formed run of the replicated
      bank in which nothing is half done ends with the simulator's balances, and the simulator
      commits, skips and aborts exactly the transactions that the run did. */
  lemma BankMatchesSimulator(run: seq<Event>, items: seq<int>)
    requires Topo.Default().Valid() && WellFormed(Topo.Default(), Simulator.START_BALANCE, run)
    requires Lists(items, run) && forall i :: i in items ==> Simulator.Item(i)
    ensures var ds := Order(Simulator.START_BALANCE, run);
      && InItems(ds)
      && var s := Simulator.Run(Simulator.Start, Jobs(ds));
      && s.events == Events(ds)
      && (forall i :: Balanced(Topo.Default(), LedgerOf(Simulator.START_BALANCE, run, Topo.Default().ClusterOf(i)), i,
            s.Bal(i), Commits(run)))
      && (Quiescent(Simulator.START_BALANCE, run) ==>
            forall i :: BankBal(Topo.Default(), Simulator.START_BALANCE, run, i) == s.Bal(i))
  {
    var top, ds := Topo.Default(), Order(Simulator.START_BALANCE, run);
    SerialRefinement(top, Simulator.START_BALANCE, run);
    DecisionsProper(top, Simulator.START_BALANCE, run, items);
    SimulatorAgrees(ds, items);
    assert SameBalances(Simulator.Run(Simulator.Start, Jobs(ds)), ds);
    if Quiescent(Simulator.START_BALANCE, run) {
      QuiescentBank(top, Simulator.START_BALANCE, run, items);
    }
  }
}
