/** The SmallBank layout of accounts over the items of the clusters (smallbank/schema.go,
    smallbank/txns.go). */
module Accounts {
  import opened Types
  import Topo = Topology

  datatype Schema = Schema(top: Topo.Topology, perCluster: int) {
    predicate Valid() { top.Valid() && perCluster >= 1 }

    function Customers(): int { perCluster * top.numClusters }

    function Base(cluster: int): int
      requires Valid()
    {
      (cluster - 1) * top.ItemsPerCluster() + 1
    }

    function CustCluster(cust: int): int
      requires Valid()
    {
      if cust < 1 || cust > Customers() then 1 else Topo.GoDiv(cust - 1, perCluster) + 1
    }

    function SavingsItem(cust: int): int
      requires Valid()
    {
      Base(CustCluster(cust)) + Topo.GoMod(cust - 1, perCluster) * 2
    }

    function CheckingItem(cust: int): int
      requires Valid()
    {
      SavingsItem(cust) + 1
    }

    function TreasuryItem(cluster: int): int
      requires Valid()
    {
      Base(cluster) + top.ItemsPerCluster() - 1
    }

    predicate Customer(cust: int) { 1 <= cust <= Customers() }

    /** Room for two items a customer and a treasury. */
    predicate Roomy()
      requires Valid()
    {
      top.ItemsPerCluster() > 2 * perCluster
    }
  }

  /** The item at an offset of a cluster's block. */
  function At(s: Schema, cluster: int, offset: int): int
    requires s.Valid()
  {
    s.Base(cluster) + offset
  }

  lemma DivLess(a: int, b: int, n: int)
    requires 0 <= a < b * n && b > 0
    ensures a / b < n
  {
    var q := a / b;
    assert q * b <= a;
    if q >= n {
      MulMonotone(n, q, b);
    }
  }

  lemma MulMonotone(a: int, b: int, n: int)
    requires a <= b && n > 0
    ensures a * n <= b * n && n * a == a * n
  {
    assert (b - a) * n >= 0;
  }

  lemma BlockEnds(s: Schema, cluster: int)
    requires s.Valid() && 1 <= cluster <= s.top.numClusters
    ensures 0 <= (cluster - 1) * s.top.ItemsPerCluster()
    ensures (cluster - 1) * s.top.ItemsPerCluster() + s.top.ItemsPerCluster() <= s.top.totalItems
  {
    var per, n, total := s.top.ItemsPerCluster(), s.top.numClusters, s.top.totalItems;
    Topo.GoDivIs(total, n);
    MulMonotone(0, cluster - 1, per);
    MulMonotone(cluster, n, per);
    assert total == n * (total / n) + total % n;
    assert cluster * per == (cluster - 1) * per + per;
  }

  /** A block belongs to its cluster, lies in the item range and meets no other block. */
  lemma Block(s: Schema, cluster: int, offset: int)
    requires s.Valid() && 1 <= cluster <= s.top.numClusters && 0 <= offset < s.top.ItemsPerCluster()
    ensures s.top.ClusterOf(At(s, cluster, offset)) == cluster
    ensures 1 <= At(s, cluster, offset) <= s.top.totalItems
  {
    var per := s.top.ItemsPerCluster();
    Topo.GoDivIs(At(s, cluster, offset) - 1, per);
    Topo.ModUnique(At(s, cluster, offset) - 1, per, cluster - 1, offset);
    BlockEnds(s, cluster);
  }

  lemma BlocksApart(s: Schema, c: int, o: int, d: int, p: int)
    requires s.Valid() && 1 <= c <= s.top.numClusters && 1 <= d <= s.top.numClusters
    requires 0 <= o < s.top.ItemsPerCluster() && 0 <= p < s.top.ItemsPerCluster()
    ensures At(s, c, o) == At(s, d, p) <==> c == d && o == p
  {
    Block(s, c, o);
    Block(s, d, p);
  }

  /** Where a customer is: in a cluster, at a place of its own. */
  lemma Place(s: Schema, cust: int) returns (cluster: int, local: int)
    requires s.Valid() && s.Customer(cust)
    ensures 1 <= cluster <= s.top.numClusters && 0 <= local < s.perCluster
    ensures cust - 1 == (cluster - 1) * s.perCluster + local
    ensures cluster == s.CustCluster(cust)
    ensures s.SavingsItem(cust) == At(s, cluster, 2 * local) && s.CheckingItem(cust) == At(s, cluster, 2 * local + 1)
  {
    var q, r := (cust - 1) / s.perCluster, (cust - 1) % s.perCluster;
    assert cust - 1 == q * s.perCluster + r;
    Topo.GoDivIs(cust - 1, s.perCluster);
    DivLess(cust - 1, s.perCluster, s.top.numClusters);
    cluster, local := q + 1, r;
  }

  /** Every customer's place is somebody's. */
  lemma Occupant(s: Schema, cluster: int, local: int) returns (cust: int)
    requires s.Valid() && 1 <= cluster <= s.top.numClusters && 0 <= local < s.perCluster
    ensures s.Customer(cust)
    ensures s.SavingsItem(cust) == At(s, cluster, 2 * local) && s.CheckingItem(cust) == At(s, cluster, 2 * local + 1)
  {
    cust := (cluster - 1) * s.perCluster + local + 1;
    InRange(s, cluster, local);
    var c, l := Place(s, cust);
    Topo.ModUnique(cust - 1, s.perCluster, cluster - 1, local);
    Topo.ModUnique(cust - 1, s.perCluster, c - 1, l);
  }

  lemma InRange(s: Schema, cluster: int, local: int)
    requires s.Valid() && 1 <= cluster <= s.top.numClusters && 0 <= local < s.perCluster
    ensures s.Customer((cluster - 1) * s.perCluster + local + 1)
  {
    MulMonotone(0, cluster - 1, s.perCluster);
    MulMonotone(cluster, s.top.numClusters, s.perCluster);
    assert cluster * s.perCluster == (cluster - 1) * s.perCluster + s.perCluster;
    MulMonotone(s.top.numClusters, s.top.numClusters, s.perCluster);
  }

  lemma SamePlace(s: Schema, a: int, b: int)
    requires s.Valid() && s.Customer(a) && s.Customer(b)
    ensures (s.CustCluster(a) == s.CustCluster(b)
             && Topo.GoMod(a - 1, s.perCluster) == Topo.GoMod(b - 1, s.perCluster)) <==> a == b
  {
    var c, l := Place(s, a);
    var d, m := Place(s, b);
    Topo.ModUnique(a - 1, s.perCluster, c - 1, l);
    Topo.ModUnique(b - 1, s.perCluster, d - 1, m);
  }

  // ---------------------------------------------------------------- the tracked items

  /** A tracked item: an account of a customer, or the treasury of a cluster. */
  datatype Account = Savings(cust: int) | Checking(cust: int) | Treasury(cluster: int)

  predicate Tracked(s: Schema, a: Account) {
    match a
    case Savings(cust) => s.Customer(cust)
    case Checking(cust) => s.Customer(cust)
    case Treasury(c) => 1 <= c <= s.top.numClusters
  }

  function ItemOf(s: Schema, a: Account): int
    requires s.Valid()
  {
    match a
    case Savings(cust) => s.SavingsItem(cust)
    case Checking(cust) => s.CheckingItem(cust)
    case Treasury(c) => s.TreasuryItem(c)
  }

  function OwnerOf(s: Schema, a: Account): int
    requires s.Valid()
  {
    if a.Treasury? then a.cluster else s.CustCluster(a.cust)
  }

  /** The offset of an account in its cluster's block. */
  lemma OffsetOf(s: Schema, a: Account) returns (offset: int)
    requires s.Valid() && Tracked(s, a) && s.Roomy()
    ensures 1 <= OwnerOf(s, a) <= s.top.numClusters && 0 <= offset < s.top.ItemsPerCluster()
    ensures ItemOf(s, a) == At(s, OwnerOf(s, a), offset)
    ensures match a
      case Savings(cust) => offset == 2 * Topo.GoMod(cust - 1, s.perCluster) < 2 * s.perCluster
      case Checking(cust) => offset == 2 * Topo.GoMod(cust - 1, s.perCluster) + 1 < 2 * s.perCluster
      case Treasury(c) => offset == s.top.ItemsPerCluster() - 1
  {
    if a.Treasury? {
      offset := s.top.ItemsPerCluster() - 1;
    } else {
      var c, l := Place(s, a.cust);
      Topo.ModUnique(a.cust - 1, s.perCluster, c - 1, l);
      offset := if a.Savings? then 2 * l else 2 * l + 1;
    }
  }

  /** With room for them, all tracked accounts lie in range, belong to the right cluster and are pairwise
      different items. */
  lemma AccountsApart(s: Schema, a: Account, b: Account)
    requires s.Valid() && s.Roomy() && Tracked(s, a) && Tracked(s, b)
    ensures 1 <= ItemOf(s, a) <= s.top.totalItems && s.top.ClusterOf(ItemOf(s, a)) == OwnerOf(s, a)
    ensures ItemOf(s, a) == ItemOf(s, b) <==> a == b
  {
    var o := OffsetOf(s, a);
    var p := OffsetOf(s, b);
    Block(s, OwnerOf(s, a), o);
    BlocksApart(s, OwnerOf(s, a), o, OwnerOf(s, b), p);
    if !a.Treasury? && !b.Treasury? {
      SamePlace(s, a.cust, b.cust);
    }
  }

  /** Without that room some customer's account is the treasury: the layout has no duplicates exactly
      when a cluster owns more than two items a customer. */
  lemma RoomIsNeeded(s: Schema)
    requires s.Valid()
    ensures s.Roomy() <==>
      forall a, b :: Tracked(s, a) && Tracked(s, b) && ItemOf(s, a) == ItemOf(s, b) ==> a == b
  {
    if s.Roomy() {
      forall a, b | Tracked(s, a) && Tracked(s, b) && ItemOf(s, a) == ItemOf(s, b) ensures a == b {
        AccountsApart(s, a, b);
      }
    } else {
      var last := s.top.ItemsPerCluster() - 1;
      var cust := Occupant(s, 1, last / 2);
      var a := if last % 2 == 0 then Savings(cust) else Checking(cust);
      assert Tracked(s, a) && Tracked(s, Treasury(1)) && ItemOf(s, a) == ItemOf(s, Treasury(1));
    }
  }

  /** The account listed at a position: every customer's savings and checking, then the treasuries. */
  function Listed(s: Schema, k: int): Account {
    if k < 2 * s.Customers() then (if k % 2 == 0 then Savings(k / 2 + 1) else Checking(k / 2 + 1))
    else Treasury(k - 2 * s.Customers() + 1)
  }

  /** The loop over customers. */
  method AccountItems(s: Schema) returns (items: seq<int>)
    requires s.Valid()
    ensures |items| == 2 * s.Customers()
    ensures forall k :: 0 <= k < |items| ==> items[k] == ItemOf(s, Listed(s, k))
  {
    items := [];
    var total := s.Customers();
    MulMonotone(0, s.top.numClusters, s.perCluster);
    for cust := 1 to total + 1
      invariant |items| == 2 * (cust - 1)
      invariant forall k :: 0 <= k < |items| ==> items[k] == ItemOf(s, Listed(s, k))
    {
      items := items + [s.SavingsItem(cust), s.CheckingItem(cust)];
    }
  }

  /** With room, the list of all tracked items has no duplicates. */
  method AllTrackedItems(s: Schema) returns (items: seq<int>)
    requires s.Valid()
    ensures |items| == 2 * s.Customers() + s.top.numClusters
    ensures forall k :: 0 <= k < |items| ==> items[k] == ItemOf(s, Listed(s, k))
    ensures s.Roomy() ==> forall i, j :: 0 <= i < j < |items| ==> items[i] != items[j]
  {
    items := AccountItems(s);
    MulMonotone(0, s.top.numClusters, s.perCluster);
    for c := 1 to s.top.numClusters + 1
      invariant |items| == 2 * s.Customers() + c - 1
      invariant forall k :: 0 <= k < |items| ==> items[k] == ItemOf(s, Listed(s, k))
    {
      items := items + [s.TreasuryItem(c)];
    }
    if s.Roomy() {
      forall i, j | 0 <= i < j < |items| ensures items[i] != items[j] {
        AccountsApart(s, Listed(s, i), Listed(s, j));
      }
    }
  }

  // ---------------------------------------------------------------- operations

  /** Makes the requests of SmallBank operations, with growing timestamps. */
  class Generator {
    const schema: Schema
    const client: string
    var last: int

    constructor (schema_: Schema, client_: string)
      requires schema_.Valid()
      ensures schema == schema_ && client == client_ && last == 0
    {
      schema, client, last := schema_, client_, 0;
    }

    method NextReq(x: int, y: int, amt: int) returns (req: Request)
      modifies this`last
      ensures last == old(last) + 1 && req == Request(client, last, x, y, amt, Unset)
    {
      last := last + 1;
      req := Request(client, last, x, y, amt, Unset);
    }

    /** The customer exists and both its accounts lie in one cluster. */
    predicate Accepted(cust: int)
      requires schema.Valid()
    {
      schema.Customer(cust) && schema.top.SameCluster(schema.SavingsItem(cust), schema.CheckingItem(cust))
    }

    method DepositChecking(cust: int, amt: int) returns (req: Option<Request>)
      requires schema.Valid()
      modifies this`last
      ensures req.Some? <==> Accepted(cust)
      ensures req.Some? ==> req.value.amt == amt && req.value.ts == last == old(last) + 1
      ensures req.Some? && schema.Roomy() ==> Local(schema, req.value) && req.value.y == schema.CheckingItem(cust)
    {
      if !Accepted(cust) {
        return None;
      }
      LocalPair(schema, Treasury(schema.CustCluster(cust)), Checking(cust));
      var r := NextReq(schema.TreasuryItem(schema.CustCluster(cust)), schema.CheckingItem(cust), amt);
      req := Some(r);
    }

    /** A negative amount is withdrawn to the treasury. */
    method TransactSavings(cust: int, amt: int) returns (req: Option<Request>)
      requires schema.Valid()
      modifies this`last
      ensures req.Some? <==> Accepted(cust)
      ensures req.Some? ==> req.value.amt == (if amt >= 0 then amt else -amt) && req.value.ts == last == old(last) + 1
      ensures req.Some? && schema.Roomy() ==> Local(schema, req.value)
      ensures req.Some? ==> (if amt >= 0 then req.value.y else req.value.x) == schema.SavingsItem(cust)
    {
      if !Accepted(cust) {
        return None;
      }
      var treasury, sav := schema.TreasuryItem(schema.CustCluster(cust)), schema.SavingsItem(cust);
      LocalPair(schema, Treasury(schema.CustCluster(cust)), Savings(cust));
      var r;
      if amt >= 0 {
        r := NextReq(treasury, sav, amt);
      } else {
        r := NextReq(sav, treasury, -amt);
      }
      req := Some(r);
    }

    method WriteCheck(cust: int, amt: int) returns (req: Option<Request>)
      requires schema.Valid()
      modifies this`last
      ensures req.Some? <==> Accepted(cust)
      ensures req.Some? ==> req.value.amt == amt && req.value.ts == last == old(last) + 1
      ensures req.Some? && schema.Roomy() ==> Local(schema, req.value) && req.value.x == schema.CheckingItem(cust)
    {
      if !Accepted(cust) {
        return None;
      }
      LocalPair(schema, Treasury(schema.CustCluster(cust)), Checking(cust));
      var r := NextReq(schema.CheckingItem(cust), schema.TreasuryItem(schema.CustCluster(cust)), amt);
      req := Some(r);
    }
  }

  /** Within one cluster, between different items. */
  predicate Local(s: Schema, req: Request)
    requires s.Valid()
  {
    s.top.SameCluster(req.x, req.y) && req.x != req.y
  }

  lemma LocalPair(s: Schema, a: Account, b: Account)
    requires s.Valid() && a != b && OwnerOf(s, a) == OwnerOf(s, b)
    ensures s.Roomy() && Tracked(s, a) && Tracked(s, b) ==>
      ItemOf(s, a) != ItemOf(s, b) && s.top.SameCluster(ItemOf(s, a), ItemOf(s, b))
    ensures !a.Treasury? && s.Customer(a.cust) ==> 1 <= s.CustCluster(a.cust) <= s.top.numClusters
    ensures !b.Treasury? && s.Customer(b.cust) ==> 1 <= s.CustCluster(b.cust) <= s.top.numClusters
  {
    if !a.Treasury? && s.Customer(a.cust) {
      var _, _ := Place(s, a.cust);
    }
    if !b.Treasury? && s.Customer(b.cust) {
      var _, _ := Place(s, b.cust);
    }
    if s.Roomy() && Tracked(s, a) && Tracked(s, b) {
      AccountsApart(s, a, b);
      AccountsApart(s, b, a);
    }
  }
}
