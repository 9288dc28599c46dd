/** What the serial meaning of a run says about money: conservation, the range of every balance, and
    what an undo gives back. */
module Bank {
  import opened Types
  import opened Ledgers
  import opened Sums
  import opened Runs
  import opened Serial
  import opened Refinement
  import Topo = Topology

  /** The balance of an item in the cluster that owns it. */
  function BankBal(top: Topo.Topology, initial: int, run: seq<Event>, i: int): int
    requires top.Valid()
  {
    LedgerOf(initial, run, top.ClusterOf(i)).Bal(i)
  }

  function Total(top: Topo.Topology, initial: int, run: seq<Event>, items: seq<int>): int
    requires top.Valid()
  {
    Sum(items, i => BankBal(top, initial, run, i))
  }

  /** `items` lists every item that the run names, once. */
  ghost predicate Lists(items: seq<int>, run: seq<Event>) {
    Distinct(items) && forall e :: e in run ==> e.req.x in items && e.req.y in items
  }

  /** No transaction is half done anywhere. */
  ghost predicate Quiescent(initial: int, run: seq<Event>) {
    forall c :: LedgerOf(initial, run, c).wal == map[]
  }

  // ---------------------------------------------------------------- decided transactions

  /** What a well-formed run makes of each decided transaction. */
  predicate Proper(top: Topo.Topology, items: seq<int>, d: Decision)
    requires top.Valid()
  {
    && d.t.op == Intra && d.t.amt >= 0 && d.t.x != d.t.y && d.t.x in items && d.t.y in items
    && (d.verdict == Undone ==> top.ClusterOf(d.t.x) != top.ClusterOf(d.t.y))
  }

  lemma {:induction false} DecisionsProper(top: Topo.Topology, initial: int, run: seq<Event>, items: seq<int>)
    requires top.Valid() && Lists(items, run)
    requires forall e :: e in run ==> Routed(top, e)
    ensures forall d :: d in Order(initial, run) ==> Proper(top, items, d)
  {
    if run != [] {
      var e := Last(run);
      assert e in run;
      RetaggedTxn(e.req);
      DecisionsProper(top, initial, Front(run), items);
    }
  }

  lemma SettledStep(initial: int, ds: seq<Decision>, d: Decision, items: seq<int>)
    requires Distinct(items) && d.t.x in items && d.t.y in items && d.t.x != d.t.y && d.t.amt >= 0
    requires d.verdict == Done ==> Settled(initial, ds, d.t.x) >= d.t.amt
    requires forall i :: Settled(initial, ds, i) >= 0
    ensures Sum(items, i => Settled(initial, ds + [d], i)) == Sum(items, i => Settled(initial, ds, i))
    ensures forall i :: Settled(initial, ds + [d], i) >= 0
  {
    var f, g := (i: int) => Settled(initial, ds, i), (i: int) => Settled(initial, ds + [d], i);
    forall i ensures g(i) == f(i) + if d.verdict == Done && i == d.t.x then -d.t.amt
      else if d.verdict == Done && i == d.t.y then d.t.amt else 0
    {
      SettledSnoc(initial, ds, d, i);
    }
    if d.verdict == Done {
      var m := (i: int) => if i == d.t.x then f(i) - d.t.amt else f(i);
      SumChange(items, f, m, d.t.x, -d.t.amt);
      SumChange(items, m, g, d.t.y, d.t.amt);
    } else {
      SumEqual(items, f, g);
    }
    SumEqual(items, f, i => Settled(initial, ds, i));
    SumEqual(items, g, i => Settled(initial, ds + [d], i));
  }

  /** Carrying decided transactions out in turn conserves the total and keeps it covered. */
  lemma {:induction false} SettledConserves(top: Topo.Topology, initial: int, ds: seq<Decision>, items: seq<int>)
    requires top.Valid() && Distinct(items) && initial >= 0 && Justified(initial, ds)
    requires forall d :: d in ds ==> Proper(top, items, d)
    ensures Sum(items, i => Settled(initial, ds, i)) == initial * |items|
    ensures forall i :: Settled(initial, ds, i) >= 0
  {
    if ds == [] {
      SumConstant(items, i => Settled(initial, ds, i), initial);
    } else {
      var before, d := Front(ds), Last(ds);
      assert ds == before + [d] && d in ds;
      assert forall q :: q in before ==> q in ds;
      JustifiedPrefix(initial, before, d);
      SettledConserves(top, initial, before, items);
      SettledStep(initial, before, d, items);
    }
  }

  lemma SettledRange(top: Topo.Topology, initial: int, run: seq<Event>, items: seq<int>, i: int)
    requires top.Valid() && WellFormed(top, initial, run) && Lists(items, run) && initial >= 0
    ensures Settled(initial, Order(initial, run), i) >= 0
    ensures i in items ==> Settled(initial, Order(initial, run), i) <= initial * |items|
  {
    var ds := Order(initial, run);
    SerialRefinement(top, initial, run);
    DecisionsProper(top, initial, run, items);
    SettledConserves(top, initial, ds, items);
    SumBounds(items, j => Settled(initial, ds, j), i);
  }

  // ---------------------------------------------------------------- range

  /** No prepared amount exceeds the money there is. */
  lemma DebitBounded(top: Topo.Topology, initial: int, run: seq<Event>, items: seq<int>, t: Digest)
    requires top.Valid() && WellFormed(top, initial, run) && Lists(items, run) && initial >= 0
    requires Debited(top, initial, run, t) && t.op == Intra
    ensures 0 <= t.amt <= initial * |items|
  {
    var c := top.ClusterOf(t.x);
    var k :| 0 <= k < |run| && run[k] == Event(c, Tagged(t, CoordPrepare))
      && LedgerOf(initial, run[..k], c).Bal(t.x) >= t.amt;
    var before := run[..k];
    RetaggedTxn(run[k].req);
    PrefixWellFormed(top, initial, run, k);
    assert run[k] in run && Routed(top, run[k]);
    assert Lists(items, before) by { assert forall e :: e in before ==> e in run; }
    SerialRefinement(top, initial, before);
    assert WalExact(top, LedgerOf(initial, before, c), LogOf(before, c), c);
    MovesUncovered(top, LedgerOf(initial, before, c), LogOf(before, c), c, run[k].req, t.x);
    assert Balanced(top, LedgerOf(initial, before, c), t.x, Settled(initial, Order(initial, before), t.x), Commits(before));
    SettledRange(top, initial, before, items, t.x);
  }

  lemma PrefixWellFormed(top: Topo.Topology, initial: int, run: seq<Event>, k: int)
    requires top.Valid() && WellFormed(top, initial, run) && 0 <= k < |run|
    ensures WellFormed(top, initial, run[..k]) && P3Next(LogOf(run[..k], run[k].c), run[k].req)
    decreases |run|
  {
    assert run == Front(run) + [Last(run)];
    Peel(top, initial, Front(run), Last(run));
    if k < |run| - 1 {
      PrefixWellFormed(top, initial, Front(run), k);
      assert Front(run)[..k] == run[..k];
    }
  }

  /** The theorem of serial refinement, at one item. */
  lemma RunAt(top: Topo.Topology, initial: int, run: seq<Event>, i: int)
    requires top.Valid() && WellFormed(top, initial, run)
    ensures var c := top.ClusterOf(i);
      && WalExact(top, LedgerOf(initial, run, c), LogOf(run, c), c)
      && Balanced(top, LedgerOf(initial, run, c), i, Settled(initial, Order(initial, run), i), Commits(run))
  {
    SerialRefinement(top, initial, run);
  }

  lemma ItemRange(
      top: Topo.Topology, l: Ledger, log: seq<Request>, i: int, settled: int, total: int, commits: set<Digest>)
    requires top.Valid() && WalExact(top, l, log, top.ClusterOf(i)) && Balanced(top, l, i, settled, commits)
    requires 0 <= settled <= total
    requires forall t :: t in l.wal && PartSide(top, top.ClusterOf(i), t) ==> t.amt <= total
    ensures 0 <= l.Bal(i) <= 2 * total
  {
    var c := top.ClusterOf(i);
    if Covered(top, l, c, i) {
      var t :| t in l.wal && Slot(top, c, t) == i;
      assert EntryExact(top, l, log, c, t);
    }
  }

  /** Every balance of every cluster stays between zero and twice the initial total. */
  lemma BalanceRange(top: Topo.Topology, initial: int, run: seq<Event>, items: seq<int>, i: int)
    requires top.Valid() && WellFormed(top, initial, run) && Lists(items, run) && initial >= 0
    requires i in items
    ensures 0 <= BankBal(top, initial, run, i) <= 2 * (initial * |items|)
  {
    var c := top.ClusterOf(i);
    RunAt(top, initial, run, i);
    SettledRange(top, initial, run, items, i);
    SerialRefinement(top, initial, run);
    forall t | t in LedgerOf(initial, run, c).wal && PartSide(top, c, t) ensures t.amt <= initial * |items| {
      assert WalExact(top, LedgerOf(initial, run, c), LogOf(run, c), c);
      assert EntryExact(top, LedgerOf(initial, run, c), LogOf(run, c), c, t);
      LogHas(run, top.ClusterOf(t.y), Tagged(t, PartPrepareCommit));
      CausalNow(top, initial, run, t);
      DebitBounded(top, initial, run, items, t);
    }
    ItemRange(top, LedgerOf(initial, run, c), LogOf(run, c), i,
      Settled(initial, Order(initial, run), i), initial * |items|, Commits(run));
  }

  /** A cluster's log grows with the run, so a replica that lags behind is where its cluster once was. */
  lemma {:induction false} LaggingReplica(initial: int, run: seq<Event>, c: int, k: nat) returns (j: nat)
    requires k <= |LogOf(run, c)|
    ensures j <= |run| && LogOf(run[..j], c) == LogOf(run, c)[..k]
    ensures LedgerOf(initial, run[..j], c) == ExecAll(Fresh(initial), LogOf(run, c)[..k], 0)
  {
    if k == |LogOf(run, c)| {
      j := |run|;
      assert run[..j] == run && LogOf(run, c)[..k] == LogOf(run, c);
      LedgerFromLog(initial, run, c);
    } else {
      var log := LogOf(Front(run), c);
      assert k <= |log| && LogOf(run, c)[..k] == log[..k];
      j := LaggingReplica(initial, Front(run), c, k);
      assert Front(run)[..j] == run[..j];
    }
  }

  /** The range holds of every replica, however far it has got in its cluster's log. */
  lemma ReplicaRange(top: Topo.Topology, initial: int, run: seq<Event>, items: seq<int>, i: int, k: nat)
    requires top.Valid() && WellFormed(top, initial, run) && Lists(items, run) && initial >= 0
    requires i in items && k <= |LogOf(run, top.ClusterOf(i))|
    ensures 0 <= ExecAll(Fresh(initial), LogOf(run, top.ClusterOf(i))[..k], 0).Bal(i) <= 2 * (initial * |items|)
  {
    var j := LaggingReplica(initial, run, top.ClusterOf(i), k);
    if j < |run| {
      PrefixWellFormed(top, initial, run, j);
    } else {
      assert run[..j] == run;
    }
    assert forall e :: e in run[..j] ==> e in run;
    BalanceRange(top, initial, run[..j], items, i);
  }

  /** Physical undo is logical undo: setting the pre-image back adds the tentative effect of the
      transaction to its own item and leaves every other item alone. */
  lemma UndoExact(top: Topo.Topology, initial: int, run: seq<Event>, c: int, t: Digest, i: int)
    requires top.Valid() && WellFormed(top, initial, run) && t in LedgerOf(initial, run, c).wal
    ensures var l := LedgerOf(initial, run, c);
      l.WalUndo(t).Bal(i) == l.Bal(i) + if i != Slot(top, c, t) then 0 else if CoordSide(top, c, t) then t.amt else -t.amt
  {
    SerialRefinement(top, initial, run);
    assert WalExact(top, LedgerOf(initial, run, c), LogOf(run, c), c);
    assert EntryExact(top, LedgerOf(initial, run, c), LogOf(run, c), c, t);
  }

  /** The engine adds in 64-bit integers: with a total below 2^62 a step's sums do not wrap. */
  lemma NoOverflow(top: Topo.Topology, initial: int, run: seq<Event>, items: seq<int>, e: Event, i: int)
    requires top.Valid() && WellFormed(top, initial, run + [e]) && Lists(items, run + [e]) && initial >= 0
    requires i in items && initial * |items| < 0x4000_0000_0000_0000
    ensures -0x8000_0000_0000_0000 <= BankBal(top, initial, run + [e], i) < 0x8000_0000_0000_0000
  {
    BalanceRange(top, initial, run + [e], items, i);
  }

  // ---------------------------------------------------------------- conservation

  /** When nothing is half done the bank holds exactly the settled balances and exactly the money it
      started with, and every transaction the coordinator committed is credited for good. */
  lemma QuiescentBank(top: Topo.Topology, initial: int, run: seq<Event>, items: seq<int>)
    requires top.Valid() && WellFormed(top, initial, run) && Lists(items, run) && initial >= 0
    requires Quiescent(initial, run)
    ensures forall i :: BankBal(top, initial, run, i) == Settled(initial, Order(initial, run), i)
    ensures Total(top, initial, run, items) == initial * |items|
  {
    var ds := Order(initial, run);
    SerialRefinement(top, initial, run);
    forall i ensures BankBal(top, initial, run, i) == Settled(initial, ds, i) {
      var c := top.ClusterOf(i);
      assert LedgerOf(initial, run, c).wal == map[];
      assert Balanced(top, LedgerOf(initial, run, c), i, Settled(initial, ds, i), Commits(run));
      assert !Covered(top, LedgerOf(initial, run, c), c, i);
    }
    DecisionsProper(top, initial, run, items);
    SettledConserves(top, initial, ds, items);
    SumEqual(items, i => BankBal(top, initial, run, i), i => Settled(initial, ds, i));
  }

  function XOf(t: Digest): int { t.x }

  function YOf(t: Digest): int { t.y }

  /** Debits that stand in some coordinator's WAL, still undecided there. */
  function OpenDebits(top: Topo.Topology, initial: int, run: seq<Event>): set<Digest>
    requires top.Valid()
  {
    set c, t | 1 <= c <= top.numClusters && t in LedgerOf(initial, run, c).wal && CoordSide(top, c, t) :: t
  }

  /** Credits that stand in some participant's WAL without a commit by the coordinator. */
  function OpenCredits(top: Topo.Topology, initial: int, run: seq<Event>): set<Digest>
    requires top.Valid()
  {
    set c, t | 1 <= c <= top.numClusters && t in LedgerOf(initial, run, c).wal && PartSide(top, c, t)
      && t !in Commits(run) :: t
  }

  lemma OpenMeaning(top: Topo.Topology, initial: int, run: seq<Event>, t: Digest)
    requires top.Valid()
    ensures var cx, cy := top.ClusterOf(t.x), top.ClusterOf(t.y);
      && (t in OpenDebits(top, initial, run) <==> cx != cy && t in LedgerOf(initial, run, cx).wal)
      && (t in OpenCredits(top, initial, run) <==>
            cx != cy && t in LedgerOf(initial, run, cy).wal && t !in Commits(run))
  {
  }

  /** Open transactions hold listed items, one each. */
  lemma OpenListed(top: Topo.Topology, initial: int, run: seq<Event>, items: seq<int>, c: int, t: Digest)
    requires top.Valid() && WellFormed(top, initial, run) && Lists(items, run)
    requires t in LedgerOf(initial, run, c).wal
    ensures t.x in items && t.y in items
    ensures forall u :: u in LedgerOf(initial, run, c).wal && Slot(top, c, u) == Slot(top, c, t) ==> u == t
  {
    SerialRefinement(top, initial, run);
    assert WalExact(top, LedgerOf(initial, run, c), LogOf(run, c), c);
    assert EntryExact(top, LedgerOf(initial, run, c), LogOf(run, c), c, t);
    LogHas(run, c, Tagged(t, CoordPrepare));
    LogHas(run, c, Tagged(t, PartPrepareCommit));
  }

  /** One item's balance is its settled one, less an open debit or plus an open credit on it. */
  lemma OpenItem(top: Topo.Topology, initial: int, run: seq<Event>, items: seq<int>, i: int)
    requires top.Valid() && WellFormed(top, initial, run) && Lists(items, run)
    ensures BankBal(top, initial, run, i) + Held(OpenDebits(top, initial, run), XOf, i)
         == Settled(initial, Order(initial, run), i) + Held(OpenCredits(top, initial, run), YOf, i)
  {
    var c := top.ClusterOf(i);
    var l := LedgerOf(initial, run, c);
    var ds, cs := OpenDebits(top, initial, run), OpenCredits(top, initial, run);
    RunAt(top, initial, run, i);
    forall t ensures t in ds && t.x == i ==> t in l.wal && Slot(top, c, t) == i && CoordSide(top, c, t)
      ensures t in cs && t.y == i ==> t in l.wal && Slot(top, c, t) == i && PartSide(top, c, t) && t !in Commits(run)
    {
      OpenMeaning(top, initial, run, t);
    }
    if Covered(top, l, c, i) {
      var t :| t in l.wal && Slot(top, c, t) == i;
      OpenMeaning(top, initial, run, t);
      assert EntryExact(top, l, LogOf(run, c), c, t);
    }
  }

  /** Conservation at every moment of every run: the balances, plus what is debited and not yet
      credited, less what is credited although its debit was undone, are the initial total. */
  lemma Conservation(top: Topo.Topology, initial: int, run: seq<Event>, items: seq<int>)
    requires top.Valid() && WellFormed(top, initial, run) && Lists(items, run) && initial >= 0
    ensures var ds, cs := OpenDebits(top, initial, run), OpenCredits(top, initial, run);
      Total(top, initial, run, items) + Amounts(ds - cs) - Amounts(cs - ds) == initial * |items|
  {
    var ds, cs := OpenDebits(top, initial, run), OpenCredits(top, initial, run);
    var sd, sc := XOf, YOf;
    var bal, settled := (i: int) => BankBal(top, initial, run, i), (i: int) => Settled(initial, Order(initial, run), i);
    var hd, hc := (i: int) => Held(ds, sd, i), (i: int) => Held(cs, sc, i);
    forall t | t in ds || t in cs ensures t.x in items && t.y in items {
      OpenMeaning(top, initial, run, t);
      OpenListed(top, initial, run, items, if t in ds then top.ClusterOf(t.x) else top.ClusterOf(t.y), t);
    }
    forall t, u | t in ds && u in ds && sd(t) == sd(u) ensures t == u {
      OpenMeaning(top, initial, run, t);
      OpenMeaning(top, initial, run, u);
      OpenListed(top, initial, run, items, top.ClusterOf(t.x), t);
    }
    forall t, u | t in cs && u in cs && sc(t) == sc(u) ensures t == u {
      OpenMeaning(top, initial, run, t);
      OpenMeaning(top, initial, run, u);
      OpenListed(top, initial, run, items, top.ClusterOf(t.y), t);
    }
    SumHeld(items, ds, sd);
    SumHeld(items, cs, sc);
    forall i ensures bal(i) + hd(i) == settled(i) + hc(i) {
      OpenItem(top, initial, run, items, i);
    }
    ConservedSum(top, initial, run, items, bal, settled, hd, hc);
    AmountsDifference(ds, cs);
    SumEqual(items, bal, i => BankBal(top, initial, run, i));
    SumEqual(items, hd, i => Held(ds, sd, i));
    SumEqual(items, hc, i => Held(cs, sc, i));
  }

  lemma ConservedSum(
      top: Topo.Topology, initial: int, run: seq<Event>, items: seq<int>,
      bal: int -> int, settled: int -> int, hd: int -> int, hc: int -> int)
    requires top.Valid() && WellFormed(top, initial, run) && Lists(items, run) && initial >= 0
    requires forall i :: settled(i) == Settled(initial, Order(initial, run), i)
    requires forall i :: bal(i) + hd(i) == settled(i) + hc(i)
    ensures Sum(items, bal) + Sum(items, hd) == initial * |items| + Sum(items, hc)
  {
    var both := (i: int) => bal(i) + hd(i);
    SumAdd(items, bal, hd, both);
    SumAdd(items, settled, hc, both);
    SerialRefinement(top, initial, run);
    DecisionsProper(top, initial, run, items);
    SettledConserves(top, initial, Order(initial, run), items);
    SumEqual(items, settled, i => Settled(initial, Order(initial, run), i));
  }
}
