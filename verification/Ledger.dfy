/** The committed state of one replica as a value, and what executing each operation kind does to
    it (store/store.go and the execute* methods of pbft/engine.go). */
module Ledgers {
  import opened Types

  datatype TxnKind = IntraTxn | CrossTxn
  datatype Phase = PreparePhase | CommitPhase

  datatype Entry = Entry(
    seqNo: int, kind: TxnKind, phase: Phase, x: int, y: int, amt: int, viewSeq: int, outcome: Outcome)

  datatype Ledger = Ledger(
    initial: int,
    balances: map<int, int>,
    locks: map<int, int>,
    wal: map<Digest, map<int, int>>,
    entries: seq<Entry>,
    clientTS: map<string, int>)
  {
    /** Balances are created lazily: an untouched item holds the initial balance. */
    function Bal(item: int): int {
      if item in balances then balances[item] else initial
    }

    function TS(client: string): int {
      if client in clientTS then clientTS[client] else 0
    }

    predicate IsLocked(item: int) { item in locks }

    function LockSeq(item: int): int {
      if item in locks then locks[item] else 0
    }

    /** Both balances are read before either is written, so a self-transfer adds `amt`. */
    function Transfer(x: int, y: int, amt: int): Option<Ledger> {
      if Bal(x) < amt then None
      else Some(this.(balances := balances[x := Bal(x) - amt][y := Bal(y) + amt]))
    }

    function Debit(x: int, amt: int): Option<Ledger> {
      if Bal(x) < amt then None else Some(this.(balances := balances[x := Bal(x) - amt]))
    }

    function Credit(y: int, amt: int): Ledger {
      this.(balances := balances[y := Bal(y) + amt])
    }

    function Acquire(item: int, seqNo: int): Ledger {
      if item in locks then this else this.(locks := locks[item := seqNo])
    }

    function Release(item: int): Ledger { this.(locks := locks - {item}) }

    function Append(e: Entry): Ledger { this.(entries := entries + [e.(seqNo := |entries|)]) }

    function WalWrite(t: Digest, pre: map<int, int>): Ledger { this.(wal := wal[t := pre]) }

    /** Physical undo: every item of the pre-image is set back to the recorded balance. */
    function WalUndo(t: Digest): Ledger {
      if t in wal then this.(balances := balances + wal[t]) else this
    }

    function WalDelete(t: Digest): Ledger { this.(wal := wal - {t}) }

    function SetTS(client: string, ts: int): Ledger { this.(clientTS := clientTS[client := ts]) }

    /** Everything that execution decides on: all but the lock table. */
    function Core(): Ledger { this.(locks := map[]) }
  }

  function Fresh(initial: int): Ledger {
    Ledger(initial, map[], map[], map[], [], map[])
  }

  function MakeEntry(req: Request, kind: TxnKind, phase: Phase, view: int, outcome: Outcome): Entry {
    Entry(0, kind, phase, req.x, req.y, req.amt, view, outcome)
  }

  /** The items whose locks an operation takes. */
  function LockItems(req: Request): seq<int> {
    match req.op
    case Intra => [req.x, req.y]
    case Unset => [req.x, req.y]
    case CoordPrepare => [req.x]
    case PartPrepareCommit => [req.y]
    case _ => []
  }

  function ReleaseAll(l: Ledger, items: seq<int>): Ledger {
    l.(locks := l.locks - (set i | i in items))
  }

  function ExecIntra(l: Ledger, req: Request, view: int): Ledger {
    match l.Transfer(req.x, req.y, req.amt)
    case None => ReleaseAll(l, LockItems(req))
    case Some(m) =>
      ReleaseAll(
        m.Append(MakeEntry(req, IntraTxn, CommitPhase, view, Commit)).SetTS(req.client, req.ts),
        LockItems(req))
  }

  function ExecCoordPrepare(l: Ledger, req: Request, view: int): Ledger {
    match l.Debit(req.x, req.amt)
    case None => l.Release(req.x)
    case Some(m) =>
      m.WalWrite(TxnOf(req), map[req.x := l.Bal(req.x)])
       .Append(MakeEntry(req, CrossTxn, PreparePhase, view, Commit))
  }

  function ExecPartPrepare(l: Ledger, req: Request, view: int, outcome: Outcome): Ledger {
    var m :=
      if outcome == Commit && TxnOf(req) !in l.wal
      then l.Credit(req.y, req.amt).WalWrite(TxnOf(req), map[req.y := l.Bal(req.y)])
      else l;
    m.Append(MakeEntry(req, CrossTxn, PreparePhase, view, outcome))
  }

  function ExecCoordCommit(l: Ledger, req: Request, view: int): Ledger {
    l.Append(MakeEntry(req, CrossTxn, CommitPhase, view, Commit))
     .WalDelete(TxnOf(req)).Release(req.x).SetTS(req.client, req.ts)
  }

  function ExecCoordAbort(l: Ledger, req: Request, view: int): Ledger {
    l.WalUndo(TxnOf(req)).WalDelete(TxnOf(req))
     .Append(MakeEntry(req, CrossTxn, CommitPhase, view, Abort))
     .Release(req.x).SetTS(req.client, req.ts)
  }

  function ExecPartCommit(l: Ledger, req: Request, view: int): Ledger {
    l.Append(MakeEntry(req, CrossTxn, CommitPhase, view, Commit))
     .WalDelete(TxnOf(req)).Release(req.y)
  }

  function ExecPartAbort(l: Ledger, req: Request, view: int): Ledger {
    l.WalUndo(TxnOf(req)).WalDelete(TxnOf(req))
     .Append(MakeEntry(req, CrossTxn, CommitPhase, view, Abort))
     .Release(req.y)
  }

  /** The dispatch of the execution loop. */
  function Exec(l: Ledger, req: Request, view: int): Ledger {
    match Normal(req.op)
    case Intra => ExecIntra(l, req, view)
    case CoordPrepare => ExecCoordPrepare(l, req, view)
    case PartPrepareCommit => ExecPartPrepare(l, req, view, Commit)
    case PartPrepareAbort => ExecPartPrepare(l, req, view, Abort)
    case CoordCommit => ExecCoordCommit(l, req, view)
    case CoordAbort => ExecCoordAbort(l, req, view)
    case PartCommit => ExecPartCommit(l, req, view)
    case PartAbort => ExecPartAbort(l, req, view)
    case _ => ReleaseAll(l, LockItems(req))
  }

  /** Executing a whole log in order. */
  function ExecAll(l: Ledger, log: seq<Request>, view: int): Ledger {
    if log == [] then l
    else Exec(ExecAll(l, log[..|log| - 1], view), log[|log| - 1], view)
  }

  // ---------------------------------------------------------------- what execution depends on

  /** Execution never reads a lock to decide a balance, a WAL entry, a record or a timestamp. */
  lemma ExecIgnoresLocks(a: Ledger, b: Ledger, req: Request, view: int)
    requires a.Core() == b.Core()
    ensures Exec(a, req, view).Core() == Exec(b, req, view).Core()
  {
    ExecCore(a, req, view);
    ExecCore(b, req, view);
  }

  lemma ExecCore(a: Ledger, req: Request, view: int)
    ensures Exec(a, req, view).Core() == Exec(a.Core(), req, view).Core()
  {
    if IsCommitPhaseOp(req.op) {
      DecisionCore(a, req, view);
    } else if req.op in {PartPrepareCommit, PartPrepareAbort} {
      PartPrepareCore(a, req, view);
    } else {
      match Normal(req.op)
      case Intra =>
      case CoordPrepare =>
      case _ =>
    }
  }

  lemma PartPrepareCore(a: Ledger, req: Request, view: int)
    requires req.op in {PartPrepareCommit, PartPrepareAbort}
    ensures Exec(a, req, view).Core() == Exec(a.Core(), req, view).Core()
  {
  }

  lemma DecisionCore(a: Ledger, req: Request, view: int)
    requires IsCommitPhaseOp(req.op)
    ensures Exec(a, req, view).Core() == Exec(a.Core(), req, view).Core()
  {
    match req.op
    case CoordCommit =>
    case CoordAbort =>
    case PartCommit =>
    case PartAbort =>
  }

  lemma {:induction false} ExecAllIgnoresLocks(a: Ledger, b: Ledger, log: seq<Request>, view: int)
    requires a.Core() == b.Core()
    ensures ExecAll(a, log, view).Core() == ExecAll(b, log, view).Core()
  {
    if log != [] {
      var init := log[..|log| - 1];
      ExecAllIgnoresLocks(a, b, init, view);
      ExecIgnoresLocks(ExecAll(a, init, view), ExecAll(b, init, view), log[|log| - 1], view);
    }
  }

  // ---------------------------------------------------------------- what each operation changes

  /** The three operations that move money. */
  predicate Moves(op: Op) { Normal(op) in {Intra, CoordPrepare, PartPrepareCommit} }

  function Touched(req: Request): set<int> {
    match Normal(req.op)
    case Intra => {req.x, req.y}
    case CoordPrepare => {req.x}
    case CoordCommit => {req.x}
    case CoordAbort => {req.x}
    case PartPrepareCommit => {req.y}
    case PartCommit => {req.y}
    case PartAbort => {req.y}
    case _ => {}
  }

  /** With no premise at all: a decision whose WAL entry is gone moves no money, a duplicate
      participant prepare credits nothing while the entry exists, and an intra-shard transfer or a
      coordinator prepare that is not covered by the balance changes nothing but locks. */
  lemma NoEffect(l: Ledger, req: Request, view: int)
    requires
      || (IsCommitPhaseOp(req.op) && TxnOf(req) !in l.wal)
      || (req.op == PartPrepareCommit && TxnOf(req) in l.wal)
      || (Normal(req.op) in {Intra, CoordPrepare} && l.Bal(req.x) < req.amt)
      || Normal(req.op) !in {Intra, CoordPrepare, PartPrepareCommit, CoordCommit, CoordAbort, PartCommit, PartAbort}
    ensures Exec(l, req, view).balances == l.balances
    ensures Exec(l, req, view).wal == l.wal
    ensures Exec(l, req, view).initial == l.initial
    ensures Normal(req.op) in {Intra, CoordPrepare} ==>
      Exec(l, req, view).entries == l.entries && Exec(l, req, view).clientTS == l.clientTS
  {
    match Normal(req.op)
    case CoordCommit => assert l.wal - {TxnOf(req)} == l.wal;
    case CoordAbort => assert l.wal - {TxnOf(req)} == l.wal;
    case PartCommit => assert l.wal - {TxnOf(req)} == l.wal;
    case PartAbort => assert l.wal - {TxnOf(req)} == l.wal;
    case Intra =>
    case CoordPrepare =>
    case PartPrepareCommit =>
    case PartPrepareAbort =>
    case _ =>
  }

  /** A successful intra-shard transfer between different items moves exactly `amt`. */
  lemma IntraEffect(l: Ledger, req: Request, view: int)
    requires Normal(req.op) == Intra && l.Bal(req.x) >= req.amt && req.x != req.y
    ensures var m := Exec(l, req, view);
      && m.wal == l.wal && m.initial == l.initial
      && (forall i :: m.Bal(i) ==
            if i == req.x then l.Bal(i) - req.amt else if i == req.y then l.Bal(i) + req.amt else l.Bal(i))
  {
  }

  /** On one item the same code creates money: the balance changes by `amt`, so a covered transfer
      preserves the total exactly when its endpoints differ or it moves nothing. */
  lemma SelfTransferCreatesMoney(l: Ledger, x: int, y: int, amt: int)
    requires l.Bal(x) >= amt
    ensures l.Transfer(x, y, amt).Some?
    ensures var m := l.Transfer(x, y, amt).value;
      (if x == y then m.Bal(x) == l.Bal(x) else m.Bal(x) + m.Bal(y) == l.Bal(x) + l.Bal(y))
      <==> x != y || amt == 0
  {
  }

  lemma CoordPrepareEffect(l: Ledger, req: Request, view: int)
    requires req.op == CoordPrepare && l.Bal(req.x) >= req.amt
    ensures var m := Exec(l, req, view);
      && m.wal == l.wal[TxnOf(req) := map[req.x := l.Bal(req.x)]] && m.initial == l.initial
      && m.locks == l.locks
      && forall i :: m.Bal(i) == if i == req.x then l.Bal(i) - req.amt else l.Bal(i)
  {
  }

  lemma PartPrepareEffect(l: Ledger, req: Request, view: int)
    requires req.op == PartPrepareCommit && TxnOf(req) !in l.wal
    ensures var m := Exec(l, req, view);
      && m.wal == l.wal[TxnOf(req) := map[req.y := l.Bal(req.y)]] && m.initial == l.initial
      && m.locks == l.locks
      && forall i :: m.Bal(i) == if i == req.y then l.Bal(i) + req.amt else l.Bal(i)
  {
  }

  lemma CommitEffect(l: Ledger, req: Request, view: int)
    requires req.op in {CoordCommit, PartCommit}
    ensures var m := Exec(l, req, view);
      && m.wal == l.wal - {TxnOf(req)} && m.initial == l.initial && m.balances == l.balances
  {
  }

  /** An abort sets the items of the pre-image back and touches no other item. */
  lemma AbortEffect(l: Ledger, req: Request, view: int)
    requires req.op in {CoordAbort, PartAbort} && TxnOf(req) in l.wal
    ensures var m := Exec(l, req, view);
      && m.wal == l.wal - {TxnOf(req)} && m.initial == l.initial
      && forall i :: m.Bal(i) == if i in l.wal[TxnOf(req)] then l.wal[TxnOf(req)][i] else l.Bal(i)
  {
  }

  /** Every operation leaves the balances of items it does not name alone, unless it undoes. */
  lemma ExecFrame(l: Ledger, req: Request, view: int, i: int)
    requires i !in Touched(req)
    requires req.op in {CoordAbort, PartAbort} && TxnOf(req) in l.wal ==> i !in l.wal[TxnOf(req)]
    ensures Exec(l, req, view).Bal(i) == l.Bal(i)
  {
  }

  /** Operations that do nothing but give their locks back. */
  predicate Fails(l: Ledger, req: Request) {
    match Normal(req.op)
    case Intra => l.Bal(req.x) < req.amt
    case CoordPrepare => l.Bal(req.x) < req.amt
    case Unset => true
    case Unknown(_) => true
    case _ => false
  }

  /** The record that an operation leaves tells its endpoints and amount, whether it was intra-shard,
      whether it was a prepare, and its outcome. */
  predicate Tells(e: Entry, req: Request, view: int) {
    && e.x == req.x && e.y == req.y && e.amt == req.amt && e.viewSeq == view
    && (e.kind == IntraTxn <==> Normal(req.op) == Intra)
    && (e.phase == PreparePhase <==> req.op in {CoordPrepare, PartPrepareCommit, PartPrepareAbort})
    && (e.outcome == Abort <==> req.op in {PartPrepareAbort, CoordAbort, PartAbort})
  }

  lemma DecisionRecord(l: Ledger, req: Request, view: int)
    requires IsCommitPhaseOp(req.op)
    ensures var e := Entry(|l.entries|, CrossTxn, CommitPhase, req.x, req.y, req.amt, view,
                           if req.op == CoordAbort || req.op == PartAbort then Abort else Commit);
      Exec(l, req, view).entries == l.entries + [e]
  {
  }

  lemma ActiveRecord(l: Ledger, req: Request, view: int)
    requires !IsCommitPhaseOp(req.op) && !Fails(l, req)
    ensures var op := Normal(req.op);
      var e := Entry(|l.entries|, if op == Intra then IntraTxn else CrossTxn,
                     if op == Intra then CommitPhase else PreparePhase, req.x, req.y, req.amt, view,
                     if op == PartPrepareAbort then Abort else Commit);
      Exec(l, req, view).entries == l.entries + [e]
  {
  }

  /** A failed operation leaves no record, and every other one leaves exactly one, under the next number. */
  lemma RecordMeaning(l: Ledger, req: Request, view: int)
    ensures var es, k := Exec(l, req, view).entries, |l.entries|;
      if Fails(l, req) then es == l.entries
      else |es| == k + 1 && es[..k] == l.entries && es[k].seqNo == k && Tells(es[k], req, view)
  {
    if IsCommitPhaseOp(req.op) {
      DecisionRecord(l, req, view);
    } else if !Fails(l, req) {
      ActiveRecord(l, req, view);
    } else {
      assert Exec(l, req, view).entries == l.entries;
    }
  }

  /** A successful prepare keeps its lock and an abort vote holds none; every other operation, failed ones
      included, frees its items and no others, and none takes a lock. */
  lemma LocksAfter(l: Ledger, req: Request, view: int)
    ensures Exec(l, req, view).locks ==
      if req.op in {CoordPrepare, PartPrepareCommit} && !Fails(l, req) then l.locks else l.locks - Touched(req)
  {
    if Touched(req) == {} {
      assert l.locks - Touched(req) == l.locks == ReleaseAll(l, LockItems(req)).locks;
    }
    assert IsCommitPhaseOp(req.op) ==> Exec(l, req, view).locks == l.locks - Touched(req);
  }
}
