/** Building and checking quorum certificates (pbft/engine.go:426-461, 1042-1092, twopc/cert.go). */
module Certificates {
  import opened Types
  import opened Ordering
  import opened Pbft
  import opened Micro
  import opened Agreement
  import Topo = Topology

  function Ids(entries: seq<SigEntry>): seq<int> {
    seq(|entries|, i requires 0 <= i < |entries| => entries[i].server)
  }

  /** `entries` lists exactly the signatures of `src`, by strictly increasing signer. */
  predicate Lists(entries: seq<SigEntry>, src: map<int, Signature>) {
    && Increasing(Ids(entries))
    && (forall e :: e in entries ==> e.server in src && src[e.server] == e.sig)
    && (forall id :: id in src ==> SigEntry(id, src[id]) in entries)
  }

  lemma ListsCons(src: map<int, Signature>, id: int, tail: seq<SigEntry>)
    requires id in src && Lists(tail, src - {id}) && forall k :: k in src ==> id <= k
    ensures Lists([SigEntry(id, src[id])] + tail, src)
  {
    var head := SigEntry(id, src[id]);
    var all := [head] + tail;
    assert Ids(all) == [id] + Ids(tail);
    forall k | k in Ids(tail) ensures id < k {
      IdsCover(tail, src - {id}, k);
    }
    forall k | k in src ensures SigEntry(k, src[k]) in all {
      assert k != id ==> k in src - {id} && SigEntry(k, (src - {id})[k]) in tail;
      assert all[0] == head;
    }
  }

  lemma {:induction false} SortedLists(src: map<int, Signature>)
    ensures Lists(Sorted(src), src)
    decreases |src|
  {
    if src != map[] {
      var id := Least(src.Keys);
      assert |src - {id}| < |src| by { assert (src - {id}).Keys == src.Keys - {id}; }
      SortedLists(src - {id});
      ListsCons(src, id, Sorted(src - {id}));
    }
  }

  /** There is only one such listing, so the order in which a map is read does not show. */
  lemma ListingUnique(a: seq<SigEntry>, b: seq<SigEntry>, src: map<int, Signature>)
    requires Lists(a, src) && Lists(b, src)
    ensures a == b
  {
    forall k ensures k in Ids(a) <==> k in Ids(b) {
      IdsCover(a, src, k);
      IdsCover(b, src, k);
    }
    IncreasingUnique(Ids(a), Ids(b));
    assert |a| == |Ids(a)| == |b|;
    forall i | 0 <= i < |a| ensures a[i] == b[i] {
      assert a[i] in a && b[i] in b && Ids(a)[i] == Ids(b)[i];
    }
  }

  lemma IdsCover(entries: seq<SigEntry>, src: map<int, Signature>, k: int)
    requires Lists(entries, src)
    ensures k in Ids(entries) <==> k in src
  {
    if k in Ids(entries) {
      var i :| 0 <= i < |entries| && Ids(entries)[i] == k;
      assert entries[i] in entries;
    }
    if k in src {
      var i :| 0 <= i < |entries| && entries[i] == SigEntry(k, src[k]);
      assert Ids(entries)[i] == k;
    }
  }

  // ---------------------------------------------------------------- the collector's loops

  predicate SameEntries(entries: seq<SigEntry>, src: map<int, Signature>) {
    && (forall e :: e in entries ==> e.server in src && src[e.server] == e.sig)
    && (forall id :: id in src ==> SigEntry(id, src[id]) in entries)
    && DistinctServers(entries)
  }

  predicate DistinctServers(entries: seq<SigEntry>) {
    forall i, j :: 0 <= i < j < |entries| ==> entries[i].server != entries[j].server
  }

  /** Reads the map in any order. */
  method CollectEntries(src: map<int, Signature>) returns (entries: seq<SigEntry>)
    ensures SameEntries(entries, src) && |entries| == |src|
  {
    entries := [];
    var left := src.Keys;
    while left != {}
      invariant left <= src.Keys && |entries| + |left| == |src|
      invariant forall e :: e in entries ==> e.server in src.Keys - left && src[e.server] == e.sig
      invariant forall id :: id in src.Keys - left ==> SigEntry(id, src[id]) in entries
      invariant DistinctServers(entries)
      decreases |left|
    {
      EmptyWithout(left);
      var id :| id in left;
      forall i | 0 <= i < |entries| ensures entries[i].server != id {
        assert entries[i] in entries;
      }
      entries := entries + [SigEntry(id, src[id])];
      left := left - {id};
    }
  }

  /** Every entry before `i` precedes every later one. */
  predicate Settled(entries: seq<SigEntry>, i: nat) {
    forall p, q :: 0 <= p < i && p < q < |entries| ==> entries[p].server < entries[q].server
  }

  function Swapped(entries: seq<SigEntry>, i: nat, j: nat): seq<SigEntry>
    requires i < j < |entries|
  {
    entries[i := entries[j]][j := entries[i]]
  }

  /** The entry at `i` precedes those between it and `j`. */
  predicate LeastUpTo(entries: seq<SigEntry>, i: nat, j: nat)
    requires i < j <= |entries|
  {
    forall q :: i < q < j ==> entries[i].server < entries[q].server
  }

  lemma SwapKeeps(entries: seq<SigEntry>, i: nat, j: nat)
    requires i < j < |entries| && Settled(entries, i) && DistinctServers(entries) && LeastUpTo(entries, i, j)
    requires entries[j].server < entries[i].server
    ensures var swapped := Swapped(entries, i, j);
      && Settled(swapped, i) && DistinctServers(swapped) && LeastUpTo(swapped, i, j + 1)
      && multiset(swapped) == multiset(entries)
  {
  }

  /** The exchange sort: after round `i` the first `i` entries are the smallest, in order. */
  method SortEntries(a: array<SigEntry>)
    requires DistinctServers(a[..])
    modifies a
    ensures multiset(a[..]) == multiset(old(a[..]))
    ensures Increasing(Ids(a[..]))
  {
    var i := 0;
    while i < a.Length
      invariant 0 <= i <= a.Length
      invariant multiset(a[..]) == multiset(old(a[..]))
      invariant DistinctServers(a[..]) && Settled(a[..], i)
    {
      SettleOne(a, i);
      i := i + 1;
    }
  }

  /** The inner loop of round `i`. */
  method SettleOne(a: array<SigEntry>, i: nat)
    requires i < a.Length && DistinctServers(a[..]) && Settled(a[..], i)
    modifies a
    ensures multiset(a[..]) == multiset(old(a[..]))
    ensures DistinctServers(a[..]) && Settled(a[..], i + 1)
  {
    var j := i + 1;
    while j < a.Length
      invariant i < j <= a.Length
      invariant multiset(a[..]) == multiset(old(a[..]))
      invariant DistinctServers(a[..]) && Settled(a[..], i) && LeastUpTo(a[..], i, j)
    {
      ghost var before := a[..];
      assert before[i].server != before[j].server;
      if a[j].server < a[i].server {
        a[i], a[j] := a[j], a[i];
        assert a[..] == Swapped(before, i, j);
        SwapKeeps(before, i, j);
      }
      j := j + 1;
    }
  }

  /** Collecting in map order, sorting in place and counting gives the certificate of the slot. */
  method BuildCertificate(ghost r: Replica, quorum: int, s: int, view: int, slot: Slot, src: map<int, Signature>)
    returns (cert: Option<Certificate>)
    requires slot.digest.Some? && quorum == r.cfg.Quorum() && view == r.view
    ensures cert == BuildCert(r, s, slot, src)
  {
    var entries := CollectEntries(src);
    var a := new SigEntry[|entries|](i requires 0 <= i < |entries| => entries[i]);
    assert a[..] == entries;
    SortEntries(a);
    forall e ensures e in entries <==> e in a[..] {
      assert e in entries <==> e in multiset(entries);
      assert e in a[..] <==> e in multiset(a[..]);
    }
    SortedLists(src);
    ListingUnique(a[..], Sorted(src), src);
    cert := if a.Length < quorum then None else Some(Certificate(s, view, slot.digest.value, a[..]));
  }

  // ---------------------------------------------------------------- checking

  method CheckCert(cfg: Config, cert: Certificate, phase: SigPhase) returns (ok: bool)
    ensures ok == VerifyCert(cfg, cert, phase)
  {
    if |cert.sigs| < cfg.Quorum() {
      return false;
    }
    var seen: set<int> := {};
    for k := 0 to |cert.sigs|
      invariant seen == set i | 0 <= i < k :: cert.sigs[i].server
      invariant forall i, j :: 0 <= i < j < k ==> cert.sigs[i].server != cert.sigs[j].server
      invariant forall i :: 0 <= i < k ==>
        && cfg.Known(cert.sigs[i].server)
        && Verifies(cert.sigs[i].server, phase, cert.seqNo, cert.view, cert.digest, cert.sigs[i].sig)
    {
      var ent := cert.sigs[k];
      if ent.server in seen {
        return false;
      }
      seen := seen + {ent.server};
      if !cfg.Known(ent.server) {
        return false;
      }
      if !Verifies(ent.server, phase, cert.seqNo, cert.view, cert.digest, ent.sig) {
        return false;
      }
    }
    ok := true;
  }

  /** What another cluster demands of a certificate: members only, each once, all signatures good. */
  predicate VerifyClusterCert(top: Topo.Topology, cluster: int, cert: Certificate, phase: SigPhase, quorum: int) {
    && |cert.sigs| >= quorum
    && (forall i, j :: 0 <= i < j < |cert.sigs| ==> cert.sigs[i].server != cert.sigs[j].server)
    && (forall i :: 0 <= i < |cert.sigs| ==>
          && top.Member(cert.sigs[i].server, cluster)
          && Verifies(cert.sigs[i].server, phase, cert.seqNo, cert.view, cert.digest, cert.sigs[i].sig))
  }

  method CheckClusterCert(
    top: Topo.Topology, cluster: int, cert: Certificate, phase: SigPhase, quorum: int) returns (ok: bool)
    requires top.Valid()
    ensures ok == VerifyClusterCert(top, cluster, cert, phase, quorum)
  {
    if |cert.sigs| < quorum {
      return false;
    }
    var allowed := AllowedIds(top, cluster);
    var seen: set<int> := {};
    for k := 0 to |cert.sigs|
      invariant seen == set i | 0 <= i < k :: cert.sigs[i].server
      invariant forall i, j :: 0 <= i < j < k ==> cert.sigs[i].server != cert.sigs[j].server
      invariant forall i :: 0 <= i < k ==>
        && top.Member(cert.sigs[i].server, cluster)
        && Verifies(cert.sigs[i].server, phase, cert.seqNo, cert.view, cert.digest, cert.sigs[i].sig)
    {
      var ent := cert.sigs[k];
      if ent.server !in allowed {
        return false;
      }
      if ent.server in seen {
        return false;
      }
      seen := seen + {ent.server};
      if !Verifies(ent.server, phase, cert.seqNo, cert.view, cert.digest, ent.sig) {
        return false;
      }
    }
    ok := true;
  }

  method AllowedIds(top: Topo.Topology, cluster: int) returns (allowed: set<int>)
    requires top.Valid()
    ensures forall id :: id in allowed <==> top.Member(id, cluster)
  {
    var servers := Topo.New(top);
    var members := Topo.ServersInCluster(top, servers, cluster);
    allowed := {};
    for k := 0 to |members|
      invariant allowed == set i | 0 <= i < k :: members[i].id
    {
      allowed := allowed + {members[k].id};
    }
    forall id ensures id in allowed <==> top.Member(id, cluster) {
      if top.Member(id, cluster) {
        Topo.MemberRange(top, id, cluster);
        assert servers[id - 1].id == id;
        Topo.MemberUnique(top, id, cluster, servers[id - 1].cluster);
        assert servers[id - 1] in members;
      }
      if id in allowed {
        var i :| 0 <= i < |members| && members[i].id == id;
        assert members[i] in members;
      }
    }
  }

  // ---------------------------------------------------------------- what an accepted certificate means

  function Signers(cert: Certificate): set<int> {
    set i | 0 <= i < |cert.sigs| :: cert.sigs[i].server
  }

  lemma {:induction false} DistinctCount(ids: seq<int>)
    requires forall i, j :: 0 <= i < j < |ids| ==> ids[i] != ids[j]
    ensures |(set i | 0 <= i < |ids| :: ids[i])| == |ids|
  {
    if ids != [] {
      var n := |ids| - 1;
      DistinctCount(ids[..n]);
      assert (set i | 0 <= i < |ids| :: ids[i]) == (set i | 0 <= i < n :: ids[..n][i]) + {ids[n]};
    }
  }

  /** An accepted certificate carries a quorum of different signers, each of whom signed exactly
      this phase, number, view and digest. */
  lemma AcceptedHasQuorum(cfg: Config, cert: Certificate, phase: SigPhase)
    requires VerifyCert(cfg, cert, phase)
    ensures |Signers(cert)| == |cert.sigs| >= cfg.Quorum()
    ensures forall id :: id in Signers(cert) ==>
      cfg.Known(id) && SigEntry(id, Signature(id, phase, cert.seqNo, cert.view, cert.digest)) in cert.sigs
  {
    var ids := Ids(cert.sigs);
    DistinctCount(ids);
    var listed := set i | 0 <= i < |ids| :: ids[i];
    forall x ensures x in Signers(cert) <==> x in listed {
      if x in Signers(cert) {
        var i :| 0 <= i < |cert.sigs| && cert.sigs[i].server == x;
        assert ids[i] == x;
      }
    }
    assert Signers(cert) == listed;
    forall id | id in Signers(cert)
      ensures cfg.Known(id) && SigEntry(id, Signature(id, phase, cert.seqNo, cert.view, cert.digest)) in cert.sigs
    {
      var i :| 0 <= i < |cert.sigs| && cert.sigs[i].server == id;
      assert cert.sigs[i] == SigEntry(id, Signature(id, phase, cert.seqNo, cert.view, cert.digest));
    }
  }

  /** The cluster check is the replica's own check plus membership of every signer. */
  lemma ClusterCheckIsMembership(cfg: Config, cluster: int, cert: Certificate, phase: SigPhase)
    requires cfg.Valid()
    ensures VerifyClusterCert(cfg.top, cluster, cert, phase, cfg.Quorum())
      <==> VerifyCert(cfg, cert, phase) && forall id :: id in Signers(cert) ==> cfg.top.Member(id, cluster)
  {
    if VerifyClusterCert(cfg.top, cluster, cert, phase, cfg.Quorum()) {
      forall i | 0 <= i < |cert.sigs| ensures cfg.Known(cert.sigs[i].server) {
        Topo.MemberRange(cfg.top, cert.sigs[i].server, cluster);
      }
    }
    assert forall i :: 0 <= i < |cert.sigs| ==> cert.sigs[i].server in Signers(cert);
  }

  /** A certificate that one cluster vouches for never passes for another cluster's. */
  lemma OneCluster(top: Topo.Topology, a: int, b: int, cert: Certificate, phase: SigPhase)
    requires top.Valid()
    requires VerifyClusterCert(top, a, cert, phase, top.Quorum())
    requires VerifyClusterCert(top, b, cert, phase, top.Quorum())
    ensures a == b
  {
    Topo.FaultBound(top);
    assert cert.sigs[0] in cert.sigs;
    Topo.MemberUnique(top, cert.sigs[0].server, a, b);
  }

  // ---------------------------------------------------------------- built certificates verify

  predicate VotesOk(cfg: Config, view: int, s: int, slot: Slot, votes: map<int, Signature>, phase: SigPhase) {
    forall id :: id in votes ==>
      cfg.Known(id) && slot.digest.Some? && Verifies(id, phase, s, view, slot.digest.value, votes[id])
  }

  /** A certificate as the collector of `cfg`'s cluster makes them. */
  predicate Sound(cfg: Config, view: int, cert: Certificate, phase: SigPhase) {
    cert.view == view && Increasing(Ids(cert.sigs)) && VerifyCert(cfg, cert, phase)
  }

  lemma ListedVerify(
    cfg: Config, view: int, s: int, d: Digest, votes: map<int, Signature>, es: seq<SigEntry>, phase: SigPhase)
    requires Lists(es, votes)
    requires forall id :: id in votes ==> cfg.Known(id) && Verifies(id, phase, s, view, d, votes[id])
    requires |es| >= cfg.Quorum()
    ensures Sound(cfg, view, Certificate(s, view, d, es), phase)
  {
    forall i | 0 <= i < |es| ensures cfg.Known(es[i].server) && Verifies(es[i].server, phase, s, view, d, es[i].sig) {
      assert es[i] in es;
    }
    forall i, j | 0 <= i < j < |es| ensures es[i].server != es[j].server {
      assert Ids(es)[i] < Ids(es)[j];
    }
  }

  /** The certificate that is built from valid votes is their strictly id-sorted permutation, and it
      passes the check of every replica that knows the same servers. */
  lemma BuiltVerifies(r: Replica, s: int, slot: Slot, votes: map<int, Signature>, phase: SigPhase)
    requires VotesOk(r.cfg, r.view, s, slot, votes, phase)
    ensures BuildCert(r, s, slot, votes).Some? <==> |votes| >= r.cfg.Quorum() && slot.digest.Some?
    ensures BuildCert(r, s, slot, votes).Some? ==>
      var cert := BuildCert(r, s, slot, votes).value;
      && Sound(r.cfg, r.view, cert, phase)
      && Lists(cert.sigs, votes) && cert.seqNo == s && slot.digest == Some(cert.digest)
  {
    if BuildCert(r, s, slot, votes).Some? {
      SortedLists(votes);
      ListedVerify(r.cfg, r.view, s, slot.digest.value, votes, Sorted(votes), phase);
    }
  }

  predicate SlotVotesOk(cfg: Config, view: int, s: int, slot: Slot) {
    && VotesOk(cfg, view, s, slot, slot.prepares, PrepareSig)
    && VotesOk(cfg, view, s, slot, slot.commits, CommitSig)
    && (!slot.prePrepare ==> slot.prepares == map[] && slot.commits == map[])
  }

  predicate SoundMsg(cfg: Config, view: int, m: Msg) {
    match m
    case PrepareCertMsg(cert) => Sound(cfg, view, cert, PrepareSig)
    case CommitCertMsg(cert) => Sound(cfg, view, cert, CommitSig)
    case _ => true
  }

  predicate CollectorInv(r: Replica) {
    && (forall s :: s in r.log ==> SlotVotesOk(r.cfg, r.view, s, r.log[s]))
    && (forall m :: m in r.sent ==> SoundMsg(r.cfg, r.view, m))
  }

  lemma CollectorPut(r: Replica, q: Replica, s: int)
    requires CollectorInv(r) && s in q.log && q.log == r.log[s := q.log[s]]
    requires q.cfg == r.cfg && q.view == r.view && SlotVotesOk(q.cfg, q.view, s, q.log[s])
    requires forall m :: m in q.sent && m !in r.sent ==> SoundMsg(q.cfg, q.view, m)
    ensures CollectorInv(q)
  {
  }

  lemma CollectorVotes(r: Replica, c: Change)
    requires r.cfg.Valid() && r.IsPrimary() && LeadInv(r) && CollectorInv(r) && Enabled(r, c)
    requires c.Vote? || c.CommitVote?
    ensures CollectorInv(Apply(r, c))
  {
    assert SlotVotesOk(r.cfg, r.view, c.s, r.log[c.s]) && LeadSlot(r.log[c.s], c.s >= r.nextSeq);
    CollectorPut(r, Apply(r, c), c.s);
  }

  lemma CollectorCertifies(r: Replica, c: Change)
    requires r.cfg.Valid() && r.IsPrimary() && CollectorInv(r) && Enabled(r, c)
    requires c.CertifyPrepare? || c.CertifyCommit?
    ensures CollectorInv(Apply(r, c))
  {
    var slot := r.log[c.s];
    assert SlotVotesOk(r.cfg, r.view, c.s, slot);
    if c.CertifyPrepare? {
      BuiltVerifies(r, c.s, slot, slot.prepares, PrepareSig);
    } else {
      BuiltVerifies(r, c.s, slot, slot.commits, CommitSig);
    }
    CollectorPut(r, Apply(r, c), c.s);
  }

  lemma CollectorChanges(r: Replica, c: Change)
    requires r.cfg.Valid() && r.IsPrimary() && LeadInv(r) && CollectorInv(r) && Enabled(r, c) && Leading(c)
    ensures CollectorInv(Apply(r, c))
  {
    var q := Apply(r, c);
    match c
    case CertifyPrepare(s, cert) => CollectorCertifies(r, c);
    case CertifyCommit(s, cert) => CollectorCertifies(r, c);
    case Vote(s, _, _) => CollectorVotes(r, c);
    case CommitVote(s, _, _) => CollectorVotes(r, c);
    case Execute =>
      assert SlotVotesOk(r.cfg, r.view, r.execSeq, r.log[r.execSeq]);
      CollectorPut(r, q, r.execSeq);
    case Discard(s) => CollectorPut(r, q, s);
    case Offer(req) =>
    case _ =>
  }

  lemma {:induction false} CollectorRuns(r: Replica, cs: seq<Change>, q: Replica)
    requires r.cfg.Valid() && r.IsPrimary() && LeadInv(r) && CollectorInv(r) && Runs(r, cs, q)
    requires forall c :: c in cs ==> Leading(c)
    ensures CollectorInv(q)
    decreases |cs|
  {
    if cs != [] {
      ApplyKeepsConfig(r, cs[0]);
      assert cs[0] in cs;
      LeadChanges(r, cs[0]);
      CollectorChanges(r, cs[0]);
      CollectorRuns(Apply(r, cs[0]), cs[1..], q);
    }
  }

  lemma {:induction false} CollectorAlways(c: Cluster, acts: seq<Action>, d: Cluster)
    requires Inv(c) && Leads(c, acts, d) && CollectorInv(c.replicas[c.primary])
    ensures Inv(d) && CollectorInv(d.replicas[d.primary])
    decreases |acts|
  {
    if acts != [] {
      LeadsFirst(c, acts, d);
      InvHolds(c, acts[0]);
      if !acts[0].Deliver? {
        var p := c.replicas[c.primary];
        var cs := LeadIsChanges(p, acts[0]);
        CollectorRuns(p, cs, Lead(p, acts[0]));
      }
      CollectorAlways(Do(c, acts[0]), acts[1..], d);
    }
  }

  /** In every run of a view, with slots given up and reused, every certificate the primary sends is
      strictly sorted by signer and passes the check of every replica of the cluster; it passes
      another cluster's check exactly when its signers are members. */
  lemma BuildVerifyAgree(c: Cluster, acts: seq<Action>, d: Cluster, id: int, m: Msg)
    requires Start0(c) && Leads(c, acts, d)
    requires d.Configured() && id in d.replicas && m in d.Net() && (m.PrepareCertMsg? || m.CommitCertMsg?)
    ensures var phase := if m.PrepareCertMsg? then PrepareSig else CommitSig;
      var cfg := d.replicas[id].cfg;
      && Increasing(Ids(m.cert.sigs))
      && m.cert.view == d.replicas[id].view
      && VerifyCert(cfg, m.cert, phase)
      && (VerifyClusterCert(cfg.top, cfg.cluster, m.cert, phase, cfg.Quorum())
          <==> forall x :: x in Signers(m.cert) ==> cfg.top.Member(x, cfg.cluster))
  {
    CollectorAlways(c, acts, d);
    var phase := if m.PrepareCertMsg? then PrepareSig else CommitSig;
    ClusterCheckIsMembership(d.replicas[id].cfg, d.replicas[id].cfg.cluster, m.cert, phase);
  }
}
