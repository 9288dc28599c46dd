/** A primary as the program's own objects: what module CrossSlot proves of nodes holds of them at any
    time, because they start as a fresh node does and every step of theirs is a node's step. */
module Primaries {
  import opened Types
  import opened Pbft
  import opened TwoPC
  import opened CrossSlot
  import opened Proposer
  import Bridges
  import Engines
  import Stores
  import Ledgers

  /** A fresh primary. */
  method Start(cfg: Config) returns (b: Bridges.Bridge)
    requires cfg.Valid() && cfg.top.PrimaryOf(cfg.cluster, 0) == cfg.self
    ensures fresh(b) && fresh(b.collector) && fresh(b.engine) && fresh(b.engine.store)
    ensures b.Valid() && NodeOk(b.Value())
    ensures b.Value() == BootNode(cfg).(r := Boot(cfg, if cfg.top.initialBalance == 0 then 10 else cfg.top.initialBalance))
  {
    var store := new Stores.Store(cfg.top.initialBalance);
    var engine := new Engines.Engine(cfg, store);
    b := new Bridges.Bridge(engine);
    BootOk(cfg, if cfg.top.initialBalance == 0 then 10 else cfg.top.initialBalance);
  }

  method TakeLetter(b: Bridges.Bridge, s: NodeStep)
    requires b.Valid() && Doable(b.Value(), s) && (s.Prepare? || s.Reply? || s.Decide?)
    modifies b, b.collector
    ensures b.Valid() && b.Value() == Act(old(b.Value()), s)
  {
    match s
    case Prepare(m) => b.OnPrepareLetter(m);
    case Reply(m) => b.OnParticipantReply(m);
    case Decide(m) => b.OnDecisionLetter(m);
  }

  /** Whatever comes next, the objects do what a node does, and keep its invariant. */
  method Perform(b: Bridges.Bridge, s: NodeStep)
    requires b.Valid() && b.engine.Room(1) && NodeOk(b.Value()) && Orderly(b.Value(), s)
    modifies b, b.collector, b.engine, b.engine.store
    ensures b.Valid() && b.Value() == Act(old(b.Value()), s) && NodeOk(b.Value())
  {
    ActOk(b.Value(), s);
    match s
    case ClientIntra(req) => b.OnIntraRequest(req);
    case ClientCross(req) => b.OnClientRequest(req);
    case Work(a) => b.OnEngineInput(a);
    case Next(i) => b.TakeNext(i);
    case TimeOut(req) => b.OnDeadline(req);
    case Retry(req) => b.OnRetry(req);
    case _ => TakeLetter(b, s);
  }

  /** What that means for the objects: no transaction was debited twice, at most one debit is queued, and
      every lock belongs to an operation in the engine's log. */
  lemma ObjectsExclusive(b: Bridges.Bridge)
    requires b.Valid() && NodeOk(b.Value())
    ensures forall i, j ::
      0 <= i < j < |b.engine.executed| && IsDebit(b.engine.executed[i].req) && IsDebit(b.engine.executed[j].req)
      ==> TxnOf(b.engine.executed[i].req) != TxnOf(b.engine.executed[j].req)
    ensures forall i, j :: 0 <= i < j < |b.ingress| && IsDebit(b.ingress[i]) ==> !IsDebit(b.ingress[j])
    ensures forall i :: i in b.engine.store.locks ==>
      b.engine.store.locks[i] in b.engine.log && i in Ledgers.LockItems(b.engine.log[b.engine.store.locks[i]].req)
  {
    var n := b.Value();
    DebitedOnce(n.r.executed);
    SlotExclusive(n);
    forall i | i in n.r.ledger.locks
      ensures n.r.ledger.locks[i] in n.r.log && i in Ledgers.LockItems(n.r.log[n.r.ledger.locks[i]].req)
    {
      assert Owned(n.r.log, n.r.ledger, i);
    }
  }
}
