/** The persistent store of one replica (store/store.go, store/snapshot.go): buckets that are changed
    in place, and a datastore whose keys are 8-byte big-endian numbers, read back in byte order. */
module Stores {
  import opened Types
  import opened Ledgers
  import opened Ordering

  // ---------------------------------------------------------------- byte keys

  type byte = b: int | 0 <= b < 256

  type Key = seq<byte>

  /** The order in which a bucket is read. */
  predicate Before(a: Key, b: Key)
    decreases |a|
  {
    b != [] && (a == [] || a[0] < b[0] || (a[0] == b[0] && Before(a[1..], b[1..])))
  }

  function Power(width: nat): (p: nat)
    ensures p >= 1
  {
    if width == 0 then 1 else 256 * Power(width - 1)
  }

  function BigEndian(n: nat, width: nat): (k: Key)
    ensures |k| == width
  {
    if width == 0 then [] else BigEndian(n / 256, width - 1) + [n % 256]
  }

  function FromBigEndian(k: Key): nat {
    if k == [] then 0 else FromBigEndian(k[..|k| - 1]) * 256 + k[|k| - 1]
  }

  const LIMIT: nat := 0x1_0000_0000_0000_0000

  const BYTES: nat := 8

  function SeqKey(n: nat): Key { BigEndian(n, BYTES) }

  const SEQ: Key := [115, 101, 113]

  lemma LimitIsPower()
    ensures Power(8) == LIMIT
  {
    assert Power(2) == 0x1_0000;
    assert Power(4) == 0x1_0000 * Power(2);
    assert Power(6) == 0x1_0000 * Power(4);
    assert Power(8) == 0x1_0000 * Power(6);
  }

  lemma {:induction false} DecodeEncode(n: nat, width: nat)
    requires n < Power(width)
    ensures FromBigEndian(BigEndian(n, width)) == n
  {
    if width > 0 {
      DecodeEncode(n / 256, width - 1);
      var k := BigEndian(n, width);
      assert k[..width - 1] == BigEndian(n / 256, width - 1);
    }
  }

  lemma {:induction false} BeforeSnoc(x: Key, a: byte, y: Key, b: byte)
    requires |x| == |y|
    ensures Before(x + [a], y + [b]) <==> Before(x, y) || (x == y && a < b)
    decreases |x|
  {
    if x == [] {
      assert (x + [a])[1..] == [] && (y + [b])[1..] == [];
    } else {
      BeforeSnoc(x[1..], a, y[1..], b);
      assert (x + [a])[1..] == x[1..] + [a] && (y + [b])[1..] == y[1..] + [b];
      assert x == [x[0]] + x[1..] && y == [y[0]] + y[1..];
    }
  }

  /** Byte order of big-endian keys of one width is numeric order. */
  lemma {:induction false} BigEndianOrder(m: nat, n: nat, width: nat)
    requires m < Power(width) && n < Power(width)
    ensures Before(BigEndian(m, width), BigEndian(n, width)) <==> m < n
    ensures BigEndian(m, width) == BigEndian(n, width) <==> m == n
  {
    if width > 0 {
      var x, y := BigEndian(m / 256, width - 1), BigEndian(n / 256, width - 1);
      BigEndianOrder(m / 256, n / 256, width - 1);
      BeforeSnoc(x, m % 256, y, n % 256);
      DecodeEncode(m, width);
      DecodeEncode(n, width);
    }
  }

  lemma SeqKeyOrder(m: nat, n: nat)
    requires m < LIMIT && n < LIMIT
    ensures Before(SeqKey(m), SeqKey(n)) <==> m < n
    ensures SeqKey(m) == SeqKey(n) <==> m == n
  {
    LimitIsPower();
    BigEndianOrder(m, n, 8);
  }

  lemma SeqKeyDecodes(n: nat)
    requires n < LIMIT
    ensures FromBigEndian(SeqKey(n)) == n
  {
    LimitIsPower();
    DecodeEncode(n, 8);
  }

  lemma {:induction false} BeforeTotal(a: Key, b: Key)
    ensures Before(a, b) || a == b || Before(b, a)
    decreases |a|
  {
    if a != [] && b != [] {
      BeforeTotal(a[1..], b[1..]);
      assert a == [a[0]] + a[1..] && b == [b[0]] + b[1..];
    }
  }

  lemma {:induction false} BeforeTransitive(a: Key, b: Key, c: Key)
    requires Before(a, b) && Before(b, c)
    ensures Before(a, c)
    decreases |a|
  {
    if a != [] && a[0] == b[0] == c[0] {
      BeforeTransitive(a[1..], b[1..], c[1..]);
    }
  }

  predicate First(k: Key, keys: set<Key>) {
    k in keys && forall j :: j in keys ==> j == k || Before(k, j)
  }

  lemma {:induction false} FirstExists(keys: set<Key>)
    requires keys != {}
    ensures exists k :: First(k, keys)
    decreases |keys|
  {
    var x :| x in keys;
    var rest := keys - {x};
    if rest == {} {
      assert keys == {x};
      assert First(x, keys);
    } else {
      FirstExists(rest);
      var m :| First(m, rest);
      BeforeTotal(x, m);
      if Before(x, m) {
        forall j | j in keys ensures j == x || Before(x, j) {
          if j in rest && j != m {
            BeforeTransitive(x, m, j);
          }
        }
        assert First(x, keys);
      } else {
        assert First(m, keys);
      }
    }
  }

  // ---------------------------------------------------------------- 64-bit values

  function ToUnsigned(v: int): nat
    requires -0x8000_0000_0000_0000 <= v < 0x8000_0000_0000_0000
  {
    if v >= 0 then v else v + LIMIT
  }

  function ToSigned(u: nat): int
    requires u < LIMIT
  {
    if u < 0x8000_0000_0000_0000 then u else u - LIMIT
  }

  function Int64ToBytes(v: int): Key
    requires -0x8000_0000_0000_0000 <= v < 0x8000_0000_0000_0000
  {
    BigEndian(ToUnsigned(v), 8)
  }

  lemma {:induction false} DecodeBounded(k: Key)
    ensures FromBigEndian(k) < Power(|k|)
  {
    if k != [] {
      DecodeBounded(k[..|k| - 1]);
    }
  }

  lemma {:induction false} PowerGrows(a: nat, b: nat)
    requires a <= b
    ensures Power(a) <= Power(b)
    decreases b
  {
    if a < b {
      PowerGrows(a, b - 1);
    }
  }

  /** A value that is shorter than eight bytes is read as if padded with zeros. */
  function BytesToInt64(k: Key): int
    requires |k| <= 8
  {
    DecodeBounded(k);
    PowerGrows(|k|, 8);
    LimitIsPower();
    ToSigned(FromBigEndian(k))
  }

  /** Every 64-bit value survives being stored. */
  lemma Int64RoundTrip(v: int)
    requires -0x8000_0000_0000_0000 <= v < 0x8000_0000_0000_0000
    ensures BytesToInt64(Int64ToBytes(v)) == v
  {
    LimitIsPower();
    DecodeEncode(ToUnsigned(v), 8);
  }

  // ---------------------------------------------------------------- the store

  datatype Cell = Record(entry: Entry) | Mark(key: Key)

  datatype Snapshot = Snapshot(balances: map<int, int>, clientTS: map<string, int>, entries: seq<Entry>, seqNo: nat)

  /** The bucket holds the entries numbered from `first` to `next - 1`, under their keys. */
  ghost predicate Holds(ds: map<Key, Cell>, first: nat, next: nat) {
    && first <= next <= LIMIT
    && (forall i :: first <= i < next ==>
          SeqKey(i) in ds && ds[SeqKey(i)].Record? && ds[SeqKey(i)].entry.seqNo == i)
    && (forall k :: k in ds ==> k == SEQ || exists i :: first <= i < next && k == SeqKey(i))
  }

  ghost function Listed(ds: map<Key, Cell>, first: nat, next: nat): (es: seq<Entry>)
    requires Holds(ds, first, next)
    ensures |es| == next - first
    ensures forall i :: 0 <= i < |es| ==> es[i] == ds[SeqKey(first + i)].entry && es[i].seqNo == first + i
  {
    seq(next - first, i requires 0 <= i < next - first => ds[SeqKey(first + i)].entry)
  }

  lemma SeqKeyIsNotMark(i: nat)
    ensures SeqKey(i) != SEQ
  {
    assert |SeqKey(i)| == 8 && |SEQ| == 3;
  }

  lemma HoldsNext(before: map<Key, Cell>, after: map<Key, Cell>, first: nat, next: nat, e: Entry)
    requires Holds(before, first, next) && next < LIMIT && e.seqNo == next
    requires after == before[SeqKey(next) := Record(e)][SEQ := Mark(SeqKey(next))]
    ensures Holds(after, first, next + 1)
    ensures Listed(after, first, next + 1) == Listed(before, first, next) + [e]
  {
    SeqKeyIsNotMark(next);
    forall i | first <= i < next ensures SeqKey(i) in after && after[SeqKey(i)] == before[SeqKey(i)] {
      SeqKeyIsNotMark(i);
      SeqKeyOrder(i, next);
    }
    forall k | k in after ensures k == SEQ || exists i :: first <= i < next + 1 && k == SeqKey(i) {
      if k in before && k != SEQ {
        var i :| first <= i < next && k == SeqKey(i);
      }
    }
  }

  /** What is still to be read: the entries from `m` on, and perhaps the counter. */
  ghost predicate Remaining(left: set<Key>, m: nat, next: nat) {
    && m <= next <= LIMIT
    && (forall i :: m <= i < next ==> SeqKey(i) in left)
    && (forall k :: k in left ==> k == SEQ || exists i :: m <= i < next && k == SeqKey(i))
  }

  /** The first key in byte order is the counter, or the next entry. */
  lemma NextInOrder(left: set<Key>, k: Key, m: nat, next: nat)
    requires Remaining(left, m, next) && First(k, left)
    ensures k != SEQ ==> m < next && k == SeqKey(m) && Remaining(left - {k}, m + 1, next)
    ensures k == SEQ ==> Remaining(left - {k}, m, next)
  {
    if k == SEQ {
      forall i | m <= i < next ensures SeqKey(i) in left - {k} {
        SeqKeyIsNotMark(i);
      }
    } else {
      var i :| m <= i < next && k == SeqKey(i);
      SeqKeyOrder(m, i);
      SeqKeyOrder(i, m);
      assert SeqKey(m) in left;
      assert i == m;
      forall j | m < j < next ensures SeqKey(j) in left - {k} {
        SeqKeyOrder(j, m);
      }
      forall x | x in left - {k} ensures x == SEQ || exists j :: m < j < next && x == SeqKey(j) {
        if x != SEQ {
          var j :| m <= j < next && x == SeqKey(j);
        }
      }
    }
  }

  class Store {
    const initial: int
    var balances: map<int, int>
    var locks: map<int, int>
    var wal: map<Digest, map<int, int>>
    var datastore: map<Key, Cell>
    var clientTS: map<string, int>
    ghost var first: nat

    /** The number that the next entry gets. */
    function Next(): nat
      reads this
    {
      if SEQ in datastore && datastore[SEQ].Mark? then FromBigEndian(datastore[SEQ].key) + 1 else 0
    }

    ghost predicate Valid()
      reads this
    {
      && Holds(datastore, first, Next())
      && (SEQ in datastore ==> datastore[SEQ].Mark?)
      && (first > 0 ==> SEQ in datastore)
    }

    ghost function Entries(): seq<Entry>
      reads this
      requires Valid()
    {
      Listed(datastore, first, Next())
    }

    /** The committed state and the locks as a value. */
    ghost function Value(): Ledger
      reads this
      requires Valid()
    {
      Ledger(initial, balances, locks, wal, Entries(), clientTS)
    }

    constructor (initialBalance: int)
      ensures Valid() && Value() == Fresh(if initialBalance == 0 then 10 else initialBalance) && first == 0
    {
      initial := if initialBalance == 0 then 10 else initialBalance;
      balances, locks, wal, datastore, clientTS := map[], map[], map[], map[], map[];
      first := 0;
    }

    method GetBalance(item: int) returns (bal: int)
      requires Valid()
      ensures bal == Value().Bal(item)
    {
      if item in balances {
        bal := balances[item];
      } else {
        bal := initial;
      }
    }

    /** Reads both balances before it writes either. */
    method ApplyTransfer(x: int, y: int, amt: int) returns (ok: bool)
      requires Valid()
      modifies this`balances
      ensures Valid()
      ensures match old(Value()).Transfer(x, y, amt)
        case None => !ok && Value() == old(Value())
        case Some(l) => ok && Value() == l
    {
      var xBal := GetBalance(x);
      var yBal := GetBalance(y);
      if xBal < amt {
        return false;
      }
      balances := balances[x := xBal - amt];
      balances := balances[y := yBal + amt];
      ok := true;
    }

    method ApplyDebitOnly(x: int, amt: int) returns (ok: bool)
      requires Valid()
      modifies this`balances
      ensures Valid()
      ensures match old(Value()).Debit(x, amt)
        case None => !ok && Value() == old(Value())
        case Some(l) => ok && Value() == l
    {
      var bal := GetBalance(x);
      if bal < amt {
        return false;
      }
      balances := balances[x := bal - amt];
      ok := true;
    }

    method ApplyCreditOnly(y: int, amt: int)
      requires Valid()
      modifies this`balances
      ensures Valid() && Value() == old(Value()).Credit(y, amt)
    {
      var bal := GetBalance(y);
      balances := balances[y := bal + amt];
    }

    method AcquireLock(item: int, seqNo: int) returns (ok: bool)
      requires Valid()
      modifies this`locks
      ensures Valid() && Value() == old(Value()).Acquire(item, seqNo) && ok == !old(Value()).IsLocked(item)
    {
      if item in locks {
        return false;
      }
      locks := locks[item := seqNo];
      ok := true;
    }

    /** Succeeds when the lock is free, or already this sequence number's. */
    method AcquireLockForSeq(item: int, seqNo: int) returns (ok: bool)
      requires Valid()
      modifies this`locks
      ensures Valid() && Value() == old(Value()).Acquire(item, seqNo)
      ensures ok == (!old(Value()).IsLocked(item) || old(Value()).LockSeq(item) == seqNo)
    {
      if item in locks {
        return locks[item] == seqNo;
      }
      ok := AcquireLock(item, seqNo);
    }

    method ReleaseLock(item: int)
      requires Valid()
      modifies this`locks
      ensures Valid() && Value() == old(Value()).Release(item)
    {
      locks := locks - {item};
    }

    /** The counter is read, the entry stored under its key, and the counter written back. */
    method AppendDatastore(e: Entry)
      requires Valid() && Next() < LIMIT
      modifies this`datastore
      ensures Valid() && Next() == old(Next()) + 1
      ensures Entries() == old(Entries()) + [e.(seqNo := old(Next()))]
      ensures first == 0 ==> Value() == old(Value()).Append(e)
    {
      var next := Next();
      ghost var before, old_ := datastore, Entries();
      SeqKeyDecodes(next);
      datastore := datastore[SeqKey(next) := Record(e.(seqNo := next))];
      datastore := datastore[SEQ := Mark(SeqKey(next))];
      HoldsNext(before, datastore, first, next, e.(seqNo := next));
      assert Entries() == old_ + [e.(seqNo := next)];
    }

    method WALWrite(t: Digest, pre: map<int, int>)
      requires Valid()
      modifies this`wal
      ensures Valid() && Value() == old(Value()).WalWrite(t, pre)
    {
      wal := wal[t := pre];
    }

    /** Puts the recorded balances back in one transaction. */
    method WALUndo(t: Digest) returns (ok: bool)
      requires Valid()
      modifies this`balances
      ensures Valid() && ok == (t in wal) && Value() == old(Value()).WalUndo(t)
    {
      if t !in wal {
        return false;
      }
      balances := PutBack(balances, wal[t]);
      ok := true;
    }

    method WALDelete(t: Digest)
      requires Valid()
      modifies this`wal
      ensures Valid() && Value() == old(Value()).WalDelete(t)
    {
      wal := wal - {t};
    }

    method SetClientTS(client: string, ts: int)
      requires Valid()
      modifies this`clientTS
      ensures Valid() && Value() == old(Value()).SetTS(client, ts)
    {
      clientTS := clientTS[client := ts];
    }

    /** All records, in the order in which they were appended, and numbered in that order. */
    method Datastore() returns (entries: seq<Entry>)
      requires Valid()
      ensures entries == Entries()
      ensures forall i :: 0 <= i < |entries| ==> entries[i].seqNo == first + i
    {
      entries := ReadBucket(datastore, first, Next());
    }

    // -------------------------------------------------------------- snapshots

    /** Balances, records and timestamps are copied; locks and the WAL are not. */
    method ExportSnapshot() returns (snap: Snapshot)
      requires Valid()
      ensures snap.balances == balances && snap.clientTS == clientTS && snap.entries == Entries()
      ensures snap.seqNo == if SEQ in datastore then Next() - 1 else 0
    {
      var entries := Datastore();
      snap := Snapshot(balances, clientTS, entries, if SEQ in datastore then FromBigEndian(datastore[SEQ].key) else 0);
    }

    /** The buckets are emptied and refilled; the counter is always written. */
    method ImportSnapshot(snap: Snapshot)
      requires snap.seqNo < LIMIT
      modifies this
      ensures balances == snap.balances && clientTS == snap.clientTS && locks == map[] && wal == map[]
      ensures Next() == snap.seqNo + 1
      ensures Numbered(snap) ==> Valid() && Entries() == snap.entries && first == snap.seqNo + 1 - |snap.entries|
    {
      ReplaceBuckets(snap);
      Imported(snap);
    }

    method ReplaceBuckets(snap: Snapshot)
      requires snap.seqNo < LIMIT
      modifies this
      ensures balances == snap.balances && clientTS == snap.clientTS && locks == map[] && wal == map[]
      ensures datastore == Filled(map[SEQ := Mark(SeqKey(snap.seqNo))], snap.entries)
      ensures first == if Numbered(snap) then snap.seqNo + 1 - |snap.entries| else 0
    {
      locks, wal := map[], map[];
      datastore := Refill(snap);
      balances, clientTS := snap.balances, snap.clientTS;
      first := if Numbered(snap) then snap.seqNo + 1 - |snap.entries| else 0;
    }

    lemma Imported(snap: Snapshot)
      requires snap.seqNo < LIMIT && datastore == Filled(map[SEQ := Mark(SeqKey(snap.seqNo))], snap.entries)
      requires Numbered(snap) ==> first == snap.seqNo + 1 - |snap.entries|
      ensures Next() == snap.seqNo + 1
      ensures Numbered(snap) ==> Valid() && Entries() == snap.entries
    {
      SeqKeyDecodes(snap.seqNo);
      Refilled(snap);
    }
  }

  /** Reads a bucket in byte order, leaving the counter out. */
  method ReadBucket(ds: map<Key, Cell>, ghost first: nat, ghost next: nat) returns (entries: seq<Entry>)
    requires Holds(ds, first, next)
    ensures entries == Listed(ds, first, next)
  {
    entries := [];
    var left := ds.Keys;
    ghost var m, all := first, Listed(ds, first, next);
    while left != {}
      invariant first <= m <= next && entries == all[..m - first]
      invariant left <= ds.Keys && Remaining(left, m, next)
      decreases |left|
    {
      FirstExists(left);
      var k :| First(k, left);
      NextInOrder(left, k, m, next);
      if k != SEQ {
        assert ds[k].Record? && ds[k].entry == all[m - first];
        assert all[..m + 1 - first] == all[..m - first] + [all[m - first]];
        entries := entries + [ds[k].entry];
        m := m + 1;
      }
      left := left - {k};
    }
    NothingRemains(left, m, next);
  }

  lemma NothingRemains(left: set<Key>, m: nat, next: nat)
    requires Remaining(left, m, next) && left == {}
    ensures m == next
  {
    var here := SeqKey(m);
    assert here !in left;
  }

  /** One item at a time, in any order. */
  method PutBack(balances: map<int, int>, pre: map<int, int>) returns (restored: map<int, int>)
    ensures restored == balances + pre
  {
    restored := balances;
    var done: set<int> := {};
    while done != pre.Keys
      invariant done <= pre.Keys
      invariant restored == balances + (map i | i in done :: pre[i])
      decreases |pre.Keys - done|
    {
      SomeMissing(done, pre.Keys);
      var item :| item in pre.Keys - done;
      restored := restored[item := pre[item]];
      done := done + {item};
    }
    assert (map i | i in done :: pre[i]) == pre;
  }

  /** Putting records under the keys of their numbers, one after another. */
  function Filled(ds: map<Key, Cell>, es: seq<Entry>): map<Key, Cell> {
    if es == [] then ds
    else
      var e := es[|es| - 1];
      Filled(ds, es[..|es| - 1])[SeqKey(e.seqNo % LIMIT) := Record(e)]
  }

  lemma {:induction false} FilledKeepsMark(ds: map<Key, Cell>, es: seq<Entry>)
    requires SEQ in ds
    ensures SEQ in Filled(ds, es) && Filled(ds, es)[SEQ] == ds[SEQ]
  {
    if es != [] {
      FilledKeepsMark(ds, es[..|es| - 1]);
      SeqKeyIsNotMark(es[|es| - 1].seqNo % LIMIT);
    }
  }

  /** Records with consecutive numbers fill the bucket from the first to the last. */
  lemma {:induction false} FilledHolds(base: map<Key, Cell>, es: seq<Entry>, lo: nat, k: nat)
    requires base.Keys == {SEQ} && k <= |es|
    requires lo + |es| <= LIMIT && forall i :: 0 <= i < |es| ==> es[i].seqNo == lo + i
    ensures Holds(Filled(base, es[..k]), lo, lo + k)
    ensures Listed(Filled(base, es[..k]), lo, lo + k) == es[..k]
    decreases k
  {
    if k > 0 {
      FilledHolds(base, es, lo, k - 1);
      FilledKeepsMark(base, es[..k - 1]);
      assert es[..k] == es[..k - 1] + [es[k - 1]];
      assert (es[..k - 1] + [es[k - 1]])[..|es[..k - 1]|] == es[..k - 1];
      assert es[k - 1].seqNo % LIMIT == es[k - 1].seqNo;
      PutNext(Filled(base, es[..k - 1]), Filled(base, es[..k]), lo, lo + (k - 1), es[k - 1]);
    }
  }

  /** What a refilled bucket holds. */
  lemma Refilled(snap: Snapshot)
    requires snap.seqNo < LIMIT
    ensures var ds := Filled(map[SEQ := Mark(SeqKey(snap.seqNo))], snap.entries);
      && SEQ in ds && ds[SEQ] == Mark(SeqKey(snap.seqNo))
      && (Numbered(snap) ==>
            var lo := snap.seqNo + 1 - |snap.entries|;
            Holds(ds, lo, snap.seqNo + 1) && Listed(ds, lo, snap.seqNo + 1) == snap.entries)
  {
    var base := map[SEQ := Mark(SeqKey(snap.seqNo))];
    FilledKeepsMark(base, snap.entries);
    if Numbered(snap) {
      FilledHolds(base, snap.entries, snap.seqNo + 1 - |snap.entries|, |snap.entries|);
      assert snap.entries[..|snap.entries|] == snap.entries;
    }
  }

  method Refill(snap: Snapshot) returns (ds: map<Key, Cell>)
    requires snap.seqNo < LIMIT
    ensures ds == Filled(map[SEQ := Mark(SeqKey(snap.seqNo))], snap.entries)
  {
    ds := map[SEQ := Mark(SeqKey(snap.seqNo))];
    for i := 0 to |snap.entries|
      invariant ds == Filled(map[SEQ := Mark(SeqKey(snap.seqNo))], snap.entries[..i])
    {
      var e := snap.entries[i];
      ds := ds[SeqKey(e.seqNo % LIMIT) := Record(e)];
      assert snap.entries[..i + 1][..i] == snap.entries[..i];
    }
    assert snap.entries[..|snap.entries|] == snap.entries;
  }

  /** The records of a snapshot carry consecutive numbers up to the counter. */
  predicate Numbered(snap: Snapshot) {
    && |snap.entries| <= snap.seqNo + 1
    && forall i :: 0 <= i < |snap.entries| ==> snap.entries[i].seqNo == snap.seqNo + 1 - |snap.entries| + i
  }

  lemma PutNext(before: map<Key, Cell>, after: map<Key, Cell>, first: nat, next: nat, e: Entry)
    requires Holds(before, first, next) && next < LIMIT && e.seqNo == next && SEQ in before
    requires after == before[SeqKey(next) := Record(e)]
    ensures Holds(after, first, next + 1) && after[SEQ] == before[SEQ]
    ensures Listed(after, first, next + 1) == Listed(before, first, next) + [e]
  {
    SeqKeyIsNotMark(next);
    forall i | first <= i < next ensures SeqKey(i) in after && after[SeqKey(i)] == before[SeqKey(i)] {
      SeqKeyIsNotMark(i);
      SeqKeyOrder(i, next);
    }
    forall k | k in after ensures k == SEQ || exists i :: first <= i < next + 1 && k == SeqKey(i) {
      if k in before && k != SEQ {
        var i :| first <= i < next && k == SeqKey(i);
      }
    }
  }

  /** A snapshot taken from one store and loaded into another carries every balance, timestamp and
      record over, drops locks and WAL, and continues the numbering of records exactly when there was
      something to number. */
  method CopyState(source: Store, target: Store)
    requires source != target && source.Valid() && source.initial == target.initial
    modifies target
    ensures source.Valid() && target.Valid()
    ensures target.Value() == source.Value().(locks := map[], wal := map[])
    ensures forall i :: target.Value().Bal(i) == source.Value().Bal(i)
    ensures forall c :: target.Value().TS(c) == source.Value().TS(c)
    ensures target.Next() == source.Next() <==> SEQ in source.datastore
    ensures source.first == 0 ==> (SEQ in source.datastore <==> source.Entries() != [])
  {
    var snap := source.ExportSnapshot();
    target.ImportSnapshot(snap);
  }
}
