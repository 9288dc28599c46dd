/** The static topology (config/topology.go). */
module Topology {

  /** A product whose factors are both variable, kept as repeated addition. */
  function Times(k: int, n: int): int
    decreases if k < 0 then -k else k
  {
    if k == 0 then 0 else if k > 0 then Times(k - 1, n) + n else Times(k + 1, n) - n
  }

  /** Go's integer division truncates toward zero. */
  function GoDiv(a: int, b: int): int
    requires b > 0
    decreases if a < 0 then -a else a
  {
    if a >= b then GoDiv(a - b, b) + 1 else if a <= -b then GoDiv(a + b, b) - 1 else 0
  }

  /** The remainder has the sign of the dividend. */
  function GoMod(a: int, b: int): int
    requires b > 0
    decreases if a < 0 then -a else a
  {
    if a >= b then GoMod(a - b, b) else if a <= -b then GoMod(a + b, b) else a
  }

  lemma {:induction false} GoDivPositive(a: int, b: int)
    requires b > 0
    ensures a >= 0 ==> GoDiv(a, b) >= 0
    ensures a >= b ==> GoDiv(a, b) >= 1
    decreases if a < 0 then -a else a
  {
    if a >= b {
      GoDivPositive(a - b, b);
    }
  }

  lemma {:induction false} TimesIs(k: int, n: int)
    ensures Times(k, n) == k * n
    decreases if k < 0 then -k else k
  {
    if k > 0 {
      TimesIs(k - 1, n);
    } else if k < 0 {
      TimesIs(k + 1, n);
    }
  }

  lemma {:induction false} GoDivSplits(a: int, b: int)
    requires b > 0
    ensures a == GoDiv(a, b) * b + GoMod(a, b)
    ensures if a >= 0 then 0 <= GoMod(a, b) < b else -b < GoMod(a, b) <= 0
    decreases if a < 0 then -a else a
  {
    if a >= b {
      GoDivSplits(a - b, b);
      var q := GoDiv(a - b, b);
      assert (q + 1) * b == q * b + b;
    } else if a <= -b {
      GoDivSplits(a + b, b);
      var q := GoDiv(a + b, b);
      assert (q - 1) * b == q * b - b;
    }
  }

  /** In closed form. */
  lemma GoDivIs(a: int, b: int)
    requires b > 0
    ensures a == GoDiv(a, b) * b + GoMod(a, b)
    ensures if a >= 0 then 0 <= GoMod(a, b) < b && GoDiv(a, b) == a / b
      else -b < GoMod(a, b) <= 0 && GoDiv(a, b) == -((-a) / b)
  {
    GoDivSplits(a, b);
    var q, r := GoDiv(a, b), GoMod(a, b);
    if a >= 0 {
      ModUnique(a, b, q, r);
    } else {
      assert (-q) * b == -(q * b);
      ModUnique(-a, b, -q, -r);
    }
  }

  datatype Server = Server(id: int, cluster: int, port: int)

  datatype Topology = Topology(
    numClusters: int, clusterSize: int, totalItems: int, basePort: int, initialBalance: int)
  {
    /** What the source divides by, and what it indexes, must be there. */
    predicate Valid() {
      0 < numClusters <= totalItems && 0 < clusterSize
    }

    function F(): (f: int)
      ensures clusterSize >= 1 ==> f >= 0
    {
      GoDivPositive(clusterSize - 1, 3);
      GoDiv(clusterSize - 1, 3)
    }

    function Quorum(): int { 2 * F() + 1 }

    function CollectorQuorum(): int { clusterSize - F() }

    function ItemsPerCluster(): (per: int)
      requires Valid()
      ensures per >= 1
    {
      GoDivPositive(totalItems, numClusters);
      GoDiv(totalItems, numClusters)
    }

    function ClusterOf(item: int): (c: int)
      requires Valid()
      ensures 1 <= c <= numClusters
    {
      var idx := GoDiv(item - 1, ItemsPerCluster());
      if idx < 0 then 1
      else if idx >= numClusters then numClusters
      else idx + 1
    }

    predicate SameCluster(x: int, y: int)
      requires Valid()
    {
      ClusterOf(x) == ClusterOf(y)
    }

    function PrimaryOf(cluster: int, view: int): int
      requires Valid()
    {
      Times(cluster - 1, clusterSize) + GoMod(GoMod(view, clusterSize) + clusterSize, clusterSize) + 1
    }

    /** The contiguous block of server ids that `New` gives to a cluster. */
    predicate Member(id: int, cluster: int) {
      1 <= cluster <= numClusters && Times(cluster - 1, clusterSize) < id <= Times(cluster, clusterSize)
    }
  }

  /** The benchmark layout: three clusters of twelve, a thousand items each, ten units an item. */
  function Default(): Topology {
    Topology(3, 12, 3000, 9000, 10)
  }

  /** The largest f with 3f+1 <= n. */
  lemma FaultBound(t: Topology)
    requires t.Valid()
    ensures 3 * t.F() + 1 <= t.clusterSize <= 3 * t.F() + 3
    ensures t.Quorum() <= t.CollectorQuorum() <= t.clusterSize
  {
    GoDivIs(t.clusterSize - 1, 3);
  }

  lemma MulStrict(a: int, b: int, n: int)
    requires n > 0 && a < b
    ensures a * n + n <= b * n
  {
    assert (b - a - 1) * n >= 0;
  }

  lemma MemberIs(t: Topology, id: int, cluster: int)
    ensures t.Member(id, cluster) <==>
      1 <= cluster <= t.numClusters && (cluster - 1) * t.clusterSize < id <= cluster * t.clusterSize
  {
    TimesIs(cluster - 1, t.clusterSize);
    TimesIs(cluster, t.clusterSize);
  }

  /** A server belongs to at most one cluster. */
  lemma MemberUnique(t: Topology, id: int, a: int, b: int)
    requires t.Valid() && t.Member(id, a) && t.Member(id, b)
    ensures a == b
  {
    MemberIs(t, id, a);
    MemberIs(t, id, b);
    if a < b {
      MulStrict(a, b, t.clusterSize);
    } else if b < a {
      MulStrict(b, a, t.clusterSize);
    }
  }

  lemma MemberRange(t: Topology, id: int, cluster: int)
    requires t.Valid() && t.Member(id, cluster)
    ensures 1 <= id <= Times(t.numClusters, t.clusterSize)
  {
    MemberIs(t, id, cluster);
    TimesIs(t.numClusters, t.clusterSize);
    assert (cluster - 1) * t.clusterSize >= 0;
    assert (t.numClusters - cluster) * t.clusterSize >= 0;
  }

  /** The primary of every view is a member of the cluster, and it rotates through all of it:
      primaries of two views coincide exactly when the views are congruent. */
  lemma PrimaryRotates(t: Topology, cluster: int, v: int, w: int)
    requires t.Valid() && 1 <= cluster <= t.numClusters
    ensures t.Member(t.PrimaryOf(cluster, v), cluster)
    ensures t.PrimaryOf(cluster, v) == t.PrimaryOf(cluster, w) <==> (v - w) % t.clusterSize == 0
  {
    GoModIsMod(v, t.clusterSize);
    GoModIsMod(w, t.clusterSize);
    var q := (v / t.clusterSize) - (w / t.clusterSize);
    var d := v % t.clusterSize - w % t.clusterSize;
    assert v - w == q * t.clusterSize + d;
    if d >= 0 {
      ModUnique(v - w, t.clusterSize, q, d);
    } else {
      assert v - w == (q - 1) * t.clusterSize + (d + t.clusterSize);
      ModUnique(v - w, t.clusterSize, q - 1, d + t.clusterSize);
    }
    assert t.PrimaryOf(cluster, v) == Times(cluster - 1, t.clusterSize) + v % t.clusterSize + 1;
    assert Times(cluster - 1, t.clusterSize) + t.clusterSize == Times(cluster, t.clusterSize);
  }

  lemma GoModIsMod(v: int, n: int)
    requires n > 0
    ensures GoMod(GoMod(v, n) + n, n) == v % n
  {
    var q, r := GoDiv(v, n), GoMod(v, n);
    GoDivIs(v, n);
    GoDivIs(r + n, n);
    assert -n < r < n;
    assert (r + n) == GoDiv(r + n, n) * n + GoMod(r + n, n);
    var k := q - 1 + GoDiv(r + n, n);
    assert v == k * n + GoMod(r + n, n) by {
      assert k * n == q * n - n + GoDiv(r + n, n) * n;
    }
    ModUnique(v, n, k, GoMod(r + n, n));
  }

  lemma ModUnique(v: int, n: int, k: int, r: int)
    requires n > 0 && 0 <= r < n && v == k * n + r
    ensures v % n == r && v / n == k
  {
    var q := v / n;
    assert v == q * n + v % n;
    if q > k {
      MulStrict(k, q, n);
    } else if q < k {
      MulStrict(q, k, n);
    }
  }

  /** The loop that materialises the server list: ids run 1..N in cluster blocks. */
  method New(t: Topology) returns (servers: seq<Server>)
    requires t.Valid()
    ensures |servers| == Times(t.numClusters, t.clusterSize)
    ensures forall k :: 0 <= k < |servers| ==>
      servers[k].id == k + 1 && servers[k].port == t.basePort + k + 1 && t.Member(k + 1, servers[k].cluster)
  {
    servers := [];
    var n := t.clusterSize;
    var c := 0;
    while c < t.numClusters
      invariant 0 <= c <= t.numClusters
      invariant |servers| == Times(c, n)
      invariant forall k :: 0 <= k < |servers| ==>
        servers[k].id == k + 1 && servers[k].port == t.basePort + k + 1 && t.Member(k + 1, servers[k].cluster)
    {
      var i := 0;
      while i < n
        invariant 0 <= i <= n
        invariant |servers| == Times(c, n) + i
        invariant forall k :: 0 <= k < |servers| ==>
          servers[k].id == k + 1 && servers[k].port == t.basePort + k + 1 && t.Member(k + 1, servers[k].cluster)
      {
        var id := c * n + i + 1;
        TimesIs(c, n);
        assert Times(c + 1, n) == Times(c, n) + n;
        servers := servers + [Server(id, c + 1, t.basePort + id)];
        i := i + 1;
      }
      assert Times(c + 1, n) == Times(c, n) + n;
      c := c + 1;
    }
  }

  /** The members of a cluster, in id order. */
  method ServersInCluster(t: Topology, servers: seq<Server>, cluster: int) returns (out: seq<Server>)
    requires t.Valid()
    requires forall k :: 0 <= k < |servers| ==> servers[k].id == k + 1 && t.Member(k + 1, servers[k].cluster)
    requires |servers| == Times(t.numClusters, t.clusterSize)
    ensures forall s :: s in out <==> s in servers && s.cluster == cluster
    ensures forall i, j :: 0 <= i < j < |out| ==> out[i].id < out[j].id
    ensures forall s :: s in out ==> t.Member(s.id, cluster)
  {
    out := [];
    for k := 0 to |servers|
      invariant forall s :: s in out <==> s in servers[..k] && s.cluster == cluster
      invariant forall i, j :: 0 <= i < j < |out| ==> out[i].id < out[j].id
      invariant forall i :: 0 <= i < |out| ==> out[i].id <= k && t.Member(out[i].id, cluster)
    {
      assert servers[..k + 1] == servers[..k] + [servers[k]];
      if servers[k].cluster == cluster {
        out := out + [servers[k]];
      }
    }
    assert servers[..|servers|] == servers;
  }
}
