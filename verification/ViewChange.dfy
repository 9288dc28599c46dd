/** Changing the primary (pbft/viewchange.go): how a NEW-VIEW is put together from VIEW-CHANGE
    messages.  Maps are read in any order, so everything here holds for every order. */
module ViewChanges {
  import opened Types
  import opened Ledgers
  import opened Ordering
  import opened Pbft
  import Quorums

  datatype PreparedEntry = PreparedEntry(seqNo: int, view: int, digest: Digest, req: Request)

  datatype ViewChange = ViewChange(newView: int, latestStable: int, prepared: seq<PreparedEntry>, pending: seq<Request>)

  datatype NewView = NewView(newView: int, proposals: seq<Msg>, viewChanges: seq<ViewChange>)

  // ---------------------------------------------------------------- reporting

  /** A slot that is reported: proposed and not yet executed. */
  predicate Reportable(slot: Slot) {
    slot.prePrepare && !slot.executed && slot.digest.Some?
  }

  /** A message that asks for the view after `view` and reports every such slot once, what was executed,
      and the requests waited for. */
  ghost predicate AsksNext(vc: ViewChange, view: int, execSeq: int, log: map<int, Slot>, pending: map<Digest, Request>) {
    && vc.newView == view + 1 && (vc.latestStable == if execSeq - 1 < 0 then 0 else execSeq - 1)
    && (forall pe :: pe in vc.prepared <==>
          pe.seqNo in log && Reportable(log[pe.seqNo])
          && pe == PreparedEntry(pe.seqNo, view, log[pe.seqNo].digest.value, log[pe.seqNo].req))
    && (forall i, j :: 0 <= i < j < |vc.prepared| ==> vc.prepared[i].seqNo != vc.prepared[j].seqNo)
    && (forall req :: req in vc.pending <==> req in pending.Values)
  }

  /** What a replica sends when it suspects the primary. */
  method BuildViewChange(view: int, execSeq: int, log: map<int, Slot>, pending: map<Digest, Request>)
    returns (vc: ViewChange)
    ensures AsksNext(vc, view, execSeq, log, pending)
  {
    var prepared: seq<PreparedEntry> := [];
    var left := log.Keys;
    while left != {}
      invariant left <= log.Keys
      invariant forall pe :: pe in prepared <==>
        pe.seqNo in log && pe.seqNo !in left && Reportable(log[pe.seqNo])
        && pe == PreparedEntry(pe.seqNo, view, log[pe.seqNo].digest.value, log[pe.seqNo].req)
      invariant forall i :: 0 <= i < |prepared| ==> prepared[i].seqNo in log.Keys - left
      invariant forall i, j :: 0 <= i < j < |prepared| ==> prepared[i].seqNo != prepared[j].seqNo
      decreases |left|
    {
      EmptyWithout(left);
      var s :| s in left;
      if Reportable(log[s]) {
        prepared := prepared + [PreparedEntry(s, view, log[s].digest.value, log[s].req)];
      }
      left := left - {s};
    }
    var reqs := ListValues(pending);
    vc := ViewChange(view + 1, if execSeq - 1 < 0 then 0 else execSeq - 1, prepared, reqs);
  }

  method ListValues(pending: map<Digest, Request>) returns (reqs: seq<Request>)
    ensures forall req :: req in reqs <==> req in pending.Values
  {
    reqs := [];
    var left := pending.Keys;
    while left != {}
      invariant left <= pending.Keys
      invariant forall req :: req in reqs <==> exists d :: d in pending && d !in left && pending[d] == req
      decreases |left|
    {
      var d :| d in left;
      ghost var before := reqs;
      reqs := reqs + [pending[d]];
      left := left - {d};
      forall req ensures req in reqs <==> exists e :: e in pending && e !in left && pending[e] == req {
        if req in reqs {
          assert req in before || req == pending[d];
        }
      }
    }
  }

  // ---------------------------------------------------------------- folding the reports

  function Elements<T>(s: seq<T>): set<T> { set x | x in s }

  lemma ElementsSnoc<T>(a: seq<T>, x: T, b: seq<T>)
    requires b == a + [x]
    ensures Elements(b) == Elements(a) + {x}
  {
  }

  /** Everything that the senders report. */
  ghost function Reported(vcs: map<int, ViewChange>, ids: set<int>): set<PreparedEntry>
    requires ids <= vcs.Keys
  {
    set id, pe | id in ids && pe in vcs[id].prepared :: pe
  }

  ghost function Wanted(vcs: map<int, ViewChange>, ids: set<int>): set<Request>
    requires ids <= vcs.Keys
  {
    set id, req | id in ids && req in vcs[id].pending :: req
  }

  /** One report: below the highest stable number seen so far it is left out, and of two reports for
      one number that of the later view stays, the newest if they tie. */
  function Keep(prepared: map<int, PreparedEntry>, stable: int, pe: PreparedEntry): map<int, PreparedEntry> {
    if pe.seqNo <= stable then prepared
    else if pe.seqNo !in prepared || pe.view >= prepared[pe.seqNo].view then prepared[pe.seqNo := pe]
    else prepared
  }

  /** What is kept was reported, and above the stable number it is of the highest view reported. */
  ghost predicate Best(prepared: map<int, PreparedEntry>, stable: int, reports: set<PreparedEntry>) {
    && (forall s :: s in prepared ==> prepared[s].seqNo == s && prepared[s] in reports)
    && (forall pe :: pe in reports && pe.seqNo > stable ==>
          pe.seqNo in prepared && pe.view <= prepared[pe.seqNo].view)
  }

  function KeepAll(prepared: map<int, PreparedEntry>, stable: int, es: seq<PreparedEntry>): map<int, PreparedEntry> {
    if es == [] then prepared else Keep(KeepAll(prepared, stable, es[..|es| - 1]), stable, es[|es| - 1])
  }

  /** The reports folded in one order: the stable number so far goes with each message. */
  function Fold(order: seq<ViewChange>): (int, map<int, PreparedEntry>) {
    if order == [] then (0, map[])
    else
      var vc := order[|order| - 1];
      var (before, prepared) := Fold(order[..|order| - 1]);
      var stable := if vc.latestStable > before then vc.latestStable else before;
      (stable, KeepAll(prepared, stable, vc.prepared))
  }

  ghost predicate ByDigest(pending: map<Digest, Request>, wanted: set<Request>) {
    && (forall d :: d in pending ==> DigestOf(pending[d]) == d && pending[d] in wanted)
    && (forall req :: req in wanted ==> DigestOf(req) in pending)
  }

  method FoldEntries(prepared0: map<int, PreparedEntry>, stable: int, es: seq<PreparedEntry>, ghost reports: set<PreparedEntry>)
    returns (prepared: map<int, PreparedEntry>)
    requires Best(prepared0, stable, reports)
    ensures Best(prepared, stable, reports + Elements(es)) && prepared == KeepAll(prepared0, stable, es)
  {
    prepared := prepared0;
    assert reports + Elements(es[..0]) == reports;
    for j := 0 to |es|
      invariant Best(prepared, stable, reports + Elements(es[..j])) && prepared == KeepAll(prepared0, stable, es[..j])
    {
      assert es[..j + 1][..j] == es[..j];
      assert Best(Keep(prepared, stable, es[j]), stable, (reports + Elements(es[..j])) + {es[j]});
      ElementsSnoc(es[..j], es[j], es[..j + 1]);
      assert reports + Elements(es[..j]) + {es[j]} == reports + Elements(es[..j + 1]);
      prepared := Keep(prepared, stable, es[j]);
    }
    assert es[..|es|] == es;
  }

  method FoldPending(pending0: map<Digest, Request>, reqs: seq<Request>, ghost wanted: set<Request>)
    returns (pending: map<Digest, Request>)
    requires ByDigest(pending0, wanted)
    ensures ByDigest(pending, wanted + Elements(reqs))
  {
    pending := pending0;
    assert wanted + Elements(reqs[..0]) == wanted;
    for j := 0 to |reqs|
      invariant ByDigest(pending, wanted + Elements(reqs[..j]))
    {
      ElementsSnoc(reqs[..j], reqs[j], reqs[..j + 1]);
      assert wanted + Elements(reqs[..j]) + {reqs[j]} == wanted + Elements(reqs[..j + 1]);
      pending := pending[DigestOf(reqs[j]) := reqs[j]];
    }
    assert reqs[..|reqs|] == reqs;
  }

  /** The highest number that these senders call stable. */
  ghost predicate StableOf(stable: int, vcs: map<int, ViewChange>, ids: set<int>)
    requires ids <= vcs.Keys
  {
    && stable >= 0 && (forall id :: id in ids ==> vcs[id].latestStable <= stable)
    && (stable == 0 || exists id :: id in ids && vcs[id].latestStable == stable)
  }

  /** The messages of all senders, each once, in some order. */
  ghost predicate Listing(all: seq<ViewChange>, ids: seq<int>, vcs: map<int, ViewChange>) {
    && |all| == |ids| && (forall i :: 0 <= i < |ids| ==> ids[i] in vcs && all[i] == vcs[ids[i]])
    && (forall i, j :: 0 <= i < j < |ids| ==> ids[i] != ids[j])
    && (forall id :: id in vcs ==> id in ids)
  }

  lemma FoldSnoc(order: seq<ViewChange>, vc: ViewChange)
    ensures var (before, prepared) := Fold(order);
      var stable := if vc.latestStable > before then vc.latestStable else before;
      Fold(order + [vc]) == (stable, KeepAll(prepared, stable, vc.prepared))
  {
    assert (order + [vc])[..|order|] == order;
  }

  lemma StableMore(stable: int, vcs: map<int, ViewChange>, ids: set<int>, id: int)
    requires ids <= vcs.Keys && id in vcs && StableOf(stable, vcs, ids)
    ensures StableOf(if vcs[id].latestStable > stable then vcs[id].latestStable else stable, vcs, ids + {id})
  {
    assert id in ids + {id};
  }

  method FoldReports(vcs: map<int, ViewChange>)
    returns (all: seq<ViewChange>, stable: int, prepared: map<int, PreparedEntry>, pending: map<Digest, Request>,
             ghost ids: seq<int>)
    ensures |all| == |vcs| && Listing(all, ids, vcs)
    ensures StableOf(stable, vcs, vcs.Keys) && (stable, prepared) == Fold(all)
    ensures Best(prepared, stable, Reported(vcs, vcs.Keys))
    ensures ByDigest(pending, Wanted(vcs, vcs.Keys))
  {
    all, stable, prepared, pending, ids := [], 0, map[], map[], [];
    var done: set<int> := {};
    while done != vcs.Keys
      invariant done <= vcs.Keys && |all| == |done| && Listed(all, ids, vcs, done)
      invariant StableOf(stable, vcs, done) && (stable, prepared) == Fold(all)
      invariant Best(prepared, stable, Reported(vcs, done)) && ByDigest(pending, Wanted(vcs, done))
      decreases |vcs.Keys - done|
    {
      SomeMissing(done, vcs.Keys);
      var id :| id in vcs.Keys - done;
      var vc := vcs[id];
      FoldSnoc(all, vc);
      ListedMore(all, ids, vcs, done, id);
      all := all + [vc];
      StableMore(stable, vcs, done, id);
      if vc.latestStable > stable {
        stable := vc.latestStable;
      }
      prepared := FoldEntries(prepared, stable, vc.prepared, Reported(vcs, done));
      pending := FoldPending(pending, vc.pending, Wanted(vcs, done));
      OneMoreSender(vcs, done, id);
      ids := ids + [id];
      done := done + {id};
    }
    assert |done| == |vcs.Keys|;
  }

  ghost predicate Listed(all: seq<ViewChange>, ids: seq<int>, vcs: map<int, ViewChange>, done: set<int>) {
    && |all| == |ids| && (forall i :: 0 <= i < |ids| ==> ids[i] in vcs && all[i] == vcs[ids[i]])
    && (forall i, j :: 0 <= i < j < |ids| ==> ids[i] != ids[j])
    && (forall i :: 0 <= i < |ids| ==> ids[i] in done) && (forall id :: id in done ==> id in ids)
  }

  lemma ListedMore(all: seq<ViewChange>, ids: seq<int>, vcs: map<int, ViewChange>, done: set<int>, id: int)
    requires Listed(all, ids, vcs, done) && id in vcs && id !in done
    ensures Listed(all + [vcs[id]], ids + [id], vcs, done + {id})
  {
    assert (ids + [id])[|ids|] == id;
  }

  lemma OneMoreSender(vcs: map<int, ViewChange>, ids: set<int>, id: int)
    requires ids <= vcs.Keys && id in vcs
    ensures Reported(vcs, ids + {id}) == Reported(vcs, ids) + Elements(vcs[id].prepared)
    ensures Wanted(vcs, ids + {id}) == Wanted(vcs, ids) + Elements(vcs[id].pending)
  {
  }

  // ---------------------------------------------------------------- numbering the proposals

  method MaxSeq(stable: int, prepared: map<int, PreparedEntry>) returns (m: int)
    ensures m >= stable && forall s :: s in prepared ==> s <= m
    ensures m == stable || m in prepared
  {
    m := stable;
    var left := prepared.Keys;
    while left != {}
      invariant left <= prepared.Keys && m >= stable && (m == stable || m in prepared)
      invariant forall s :: s in prepared && s !in left ==> s <= m
      decreases |left|
    {
      EmptyWithout(left);
      var s :| s in left;
      if s > m {
        m := s;
      }
      left := left - {s};
    }
  }

  predicate Proposes(m: Msg, view: int, s: int, pe: PreparedEntry) {
    m == PrePrepareMsg(s, view, pe.digest, pe.req)
  }

  /** One proposal for each entry. */
  ghost predicate Again(again: seq<Msg>, view: int, prepared: map<int, PreparedEntry>) {
    && (forall i :: 0 <= i < |again| ==>
          && again[i].PrePrepareMsg? && again[i].seqNo in prepared
          && Proposes(again[i], view, again[i].seqNo, prepared[again[i].seqNo]))
    && (forall i, j :: 0 <= i < j < |again| ==> again[i].seqNo != again[j].seqNo)
    && (forall s :: s in prepared ==> exists i :: 0 <= i < |again| && again[i].seqNo == s)
  }

  /** What is left of the pending requests when the entries are proposed. */
  predicate Remains(left: map<Digest, Request>, pending: map<Digest, Request>, prepared: map<int, PreparedEntry>) {
    && (forall d :: d in left ==> d in pending && left[d] == pending[d])
    && (forall d :: d in pending ==> (d in left <==> forall s :: s in prepared ==> prepared[s].digest != d))
  }

  /** One proposal for each kept entry; what is re-proposed is no longer pending. */
  method Repropose(view: int, prepared: map<int, PreparedEntry>, pending0: map<Digest, Request>)
    returns (again: seq<Msg>, pending: map<Digest, Request>)
    ensures |again| == |prepared| && Again(again, view, prepared) && Remains(pending, pending0, prepared)
  {
    again, pending := [], pending0;
    var left := prepared.Keys;
    while left != {}
      invariant left <= prepared.Keys && |again| + |left| == |prepared|
      invariant forall i :: 0 <= i < |again| ==>
        again[i].PrePrepareMsg? && again[i].seqNo in prepared.Keys - left
        && Proposes(again[i], view, again[i].seqNo, prepared[again[i].seqNo])
      invariant forall i, j :: 0 <= i < j < |again| ==> again[i].seqNo != again[j].seqNo
      invariant forall s :: s in prepared && s !in left ==> exists i :: 0 <= i < |again| && again[i].seqNo == s
      invariant forall d :: d in pending <==>
        d in pending0 && forall s :: s in prepared && s !in left ==> prepared[s].digest != d
      invariant forall d :: d in pending ==> pending[d] == pending0[d]
      decreases |left|
    {
      EmptyWithout(left);
      var s :| s in left;
      ghost var before := again;
      again := again + [PrePrepareMsg(s, view, prepared[s].digest, prepared[s].req)];
      pending := pending - {prepared[s].digest};
      left := left - {s};
      forall t | t in prepared && t !in left ensures exists i :: 0 <= i < |again| && again[i].seqNo == t {
        if t == s {
          assert again[|before|].seqNo == s;
        } else {
          var i :| 0 <= i < |before| && before[i].seqNo == t;
          assert again[i].seqNo == t;
        }
      }
    }
  }

  /** The client has not been served yet, and can pay. */
  predicate Serviceable(l: Ledger, req: Request) {
    l.TS(req.client) < req.ts && l.Bal(req.x) >= req.amt
  }

  /** Consecutive proposals for exactly the pending requests that can still be served, one for each. */
  ghost predicate Added(added: seq<Msg>, view: int, start: int, pending: map<Digest, Request>, l: Ledger) {
    && (forall i :: 0 <= i < |added| ==>
          && added[i].PrePrepareMsg? && added[i].view == view && added[i].seqNo == start + i
          && added[i].digest in pending && added[i].req == pending[added[i].digest] && Serviceable(l, added[i].req))
    && (forall i, j :: 0 <= i < j < |added| ==> added[i].digest != added[j].digest)
    && Served(added, pending, {}, l)
  }

  /** New numbers for pending requests that can still be served. */
  method Number(view: int, start: int, pending: map<Digest, Request>, l: Ledger) returns (added: seq<Msg>)
    requires forall d :: d in pending ==> DigestOf(pending[d]) == d
    ensures Added(added, view, start, pending, l)
  {
    added := [];
    var left := pending.Keys;
    while left != {}
      invariant AddedSoFar(added, view, start, pending, left, l)
      decreases |left|
    {
      var d :| d in left;
      if Serviceable(l, pending[d]) {
        var m := PrePrepareMsg(start + |added|, view, d, pending[d]);
        assert left - {d} + {d} == left;
        ServedMore(added, m, pending, left - {d}, d, l);
      }
      left := left - {d};
      var req := pending[d];
      if l.TS(req.client) >= req.ts {
        continue;
      }
      if l.Bal(req.x) < req.amt {
        continue;
      }
      added := added + [PrePrepareMsg(start + |added|, view, DigestOf(req), req)];
    }
  }

  ghost predicate AddedSoFar(
    added: seq<Msg>, view: int, start: int, pending: map<Digest, Request>, left: set<Digest>, l: Ledger)
  {
    && left <= pending.Keys
    && (forall i :: 0 <= i < |added| ==>
          && added[i].PrePrepareMsg? && added[i].view == view && added[i].seqNo == start + i
          && added[i].digest in pending.Keys - left
          && added[i].req == pending[added[i].digest] && Serviceable(l, added[i].req))
    && (forall i, j :: 0 <= i < j < |added| ==> added[i].digest != added[j].digest)
    && Served(added, pending, left, l)
  }

  /** Each request that is through and can be served has its proposal. */
  ghost predicate Served(added: seq<Msg>, pending: map<Digest, Request>, left: set<Digest>, l: Ledger)
    requires forall i :: 0 <= i < |added| ==> added[i].PrePrepareMsg?
  {
    forall d :: d in pending && d !in left && Serviceable(l, pending[d]) ==>
      exists i :: 0 <= i < |added| && added[i].digest == d
  }

  lemma ServedMore(added: seq<Msg>, m: Msg, pending: map<Digest, Request>, left: set<Digest>, d: Digest, l: Ledger)
    requires m.PrePrepareMsg? && m.digest == d && forall i :: 0 <= i < |added| ==> added[i].PrePrepareMsg?
    requires Served(added, pending, left + {d}, l)
    ensures Served(added + [m], pending, left, l)
  {
    var more := added + [m];
    forall e | e in pending && e !in left && Serviceable(l, pending[e])
      ensures exists i :: 0 <= i < |more| && more[i].digest == e
    {
      if e == d {
        assert more[|added|].digest == d;
      } else {
        var i :| 0 <= i < |added| && added[i].digest == e;
        assert more[i].digest == e;
      }
    }
  }

  // ---------------------------------------------------------------- the NEW-VIEW

  /** A NEW-VIEW that lists all messages, whose first `k` proposals repeat reports - those that folding
      the messages in this order keeps - and whose others serve pending requests. */
  ghost predicate Composed(
    nv: NewView, k: nat, vcs: map<int, ViewChange>, own: map<Digest, Request>, nextSeq: int, l: Ledger)
  {
    && k <= |nv.proposals| && |nv.viewChanges| == |vcs| && (exists ids :: Listing(nv.viewChanges, ids, vcs))
    && (forall m :: m in nv.proposals ==> m.PrePrepareMsg? && m.view == nv.newView)
    && Echoes(nv.proposals[..k], Fold(nv.viewChanges).1)
    && Numbered(nv.proposals, k, vcs, nextSeq)
    && Repeats(nv.proposals[..k], vcs)
    && Serves(nv.proposals[k..], nv.proposals[..k], vcs, own, l)
  }

  /** Exactly the kept entries, one proposal each. */
  predicate Echoes(again: seq<Msg>, prepared: map<int, PreparedEntry>)
    requires forall m :: m in again ==> m.PrePrepareMsg?
  {
    && (forall m :: m in again ==> m.seqNo in prepared && Proposes(m, m.view, m.seqNo, prepared[m.seqNo]))
    && (forall s :: s in prepared ==> exists m :: m in again && m.seqNo == s)
  }

  ghost predicate WellComposed(
    nv: NewView, vcs: map<int, ViewChange>, own: map<Digest, Request>, nextSeq: int, l: Ledger)
  {
    exists k :: Composed(nv, k, vcs, own, nextSeq, l)
  }

  /** Numbers are pairwise distinct; new ones are consecutive, beyond every repeated number and every
      stable number, and not before the issuer's own next number. */
  predicate Numbered(ps: seq<Msg>, k: nat, vcs: map<int, ViewChange>, nextSeq: int)
    requires k <= |ps| && forall m :: m in ps ==> m.PrePrepareMsg?
  {
    && (forall i, j :: 0 <= i < j < |ps| ==> ps[i].seqNo != ps[j].seqNo)
    && (forall j :: k <= j < |ps| ==>
          && ps[j].seqNo == ps[k].seqNo + (j - k) && ps[j].seqNo >= nextSeq
          && (forall i :: 0 <= i < k ==> ps[j].seqNo > ps[i].seqNo)
          && (forall id :: id in vcs ==> ps[j].seqNo > vcs[id].latestStable))
  }

  /** Every repeated proposal was reported, and above all stable numbers every reported number is
      repeated, with the entry of the highest view reported for it. */
  ghost predicate Repeats(again: seq<Msg>, vcs: map<int, ViewChange>)
    requires forall m :: m in again ==> m.PrePrepareMsg?
  {
    && (forall m :: m in again ==>
          exists pe :: pe in Reported(vcs, vcs.Keys) && Proposes(m, m.view, pe.seqNo, pe))
    && (forall pe :: pe in Reported(vcs, vcs.Keys) && AboveStable(vcs, pe.seqNo) ==>
          RepeatsHighest(again, vcs, pe.seqNo))
  }

  ghost predicate RepeatsHighest(again: seq<Msg>, vcs: map<int, ViewChange>, s: int) {
    exists m, best ::
      && m in again && best in Reported(vcs, vcs.Keys)
      && m.PrePrepareMsg? && best.seqNo == s && Proposes(m, m.view, s, best) && Highest(vcs, best)
  }

  ghost predicate Highest(vcs: map<int, ViewChange>, best: PreparedEntry) {
    forall pe :: pe in Reported(vcs, vcs.Keys) && pe.seqNo == best.seqNo ==> pe.view <= best.view
  }

  predicate AboveStable(vcs: map<int, ViewChange>, s: int) {
    s > 0 && forall id :: id in vcs ==> s > vcs[id].latestStable
  }

  /** New proposals carry different digests, none of them repeated ones, of pending requests that can be
      served; and every such request that is not repeated gets one. */
  ghost predicate Serves(
    added: seq<Msg>, again: seq<Msg>, vcs: map<int, ViewChange>, own: map<Digest, Request>, l: Ledger)
    requires forall m :: m in added ==> m.PrePrepareMsg?
    requires forall m :: m in again ==> m.PrePrepareMsg?
  {
    && (forall i, j :: 0 <= i < j < |added| ==> added[i].digest != added[j].digest)
    && (forall m :: m in added ==>
          && m.digest == DigestOf(m.req) && Serviceable(l, m.req)
          && (m.req in Wanted(vcs, vcs.Keys) || m.req in own.Values)
          && forall a :: a in again ==> a.digest != m.digest)
    && (forall d :: Pending(vcs, own, l, d) && (forall a :: a in again ==> a.digest != d) ==>
          exists m :: m in added && m.digest == d)
  }

  /** Every request that is pending under this digest can be served. */
  ghost predicate Pending(vcs: map<int, ViewChange>, own: map<Digest, Request>, l: Ledger, d: Digest) {
    && (exists req :: (req in Wanted(vcs, vcs.Keys) || req in own.Values) && DigestOf(req) == d)
    && (forall req :: (req in Wanted(vcs, vcs.Keys) || req in own.Values) && DigestOf(req) == d ==> Serviceable(l, req))
  }

  lemma RepeatsBest(again: seq<Msg>, vcs: map<int, ViewChange>, prepared: map<int, PreparedEntry>, stable: int, view: int)
    requires Best(prepared, stable, Reported(vcs, vcs.Keys)) && StableOf(stable, vcs, vcs.Keys)
    requires Again(again, view, prepared)
    ensures Repeats(again, vcs)
  {
    forall m | m in again
      ensures exists pe :: pe in Reported(vcs, vcs.Keys) && Proposes(m, m.view, pe.seqNo, pe)
    {
      var pe := prepared[m.seqNo];
      assert pe in Reported(vcs, vcs.Keys) && Proposes(m, m.view, pe.seqNo, pe);
    }
    forall pe | pe in Reported(vcs, vcs.Keys) && AboveStable(vcs, pe.seqNo)
      ensures RepeatsHighest(again, vcs, pe.seqNo)
    {
      assert pe.seqNo > stable;
      var i :| 0 <= i < |again| && again[i].seqNo == pe.seqNo;
      var best := prepared[pe.seqNo];
      assert Highest(vcs, best);
      assert again[i] in again && Proposes(again[i], again[i].view, pe.seqNo, best);
    }
  }

  lemma ServesPending(
    added: seq<Msg>, again: seq<Msg>, vcs: map<int, ViewChange>, own: map<Digest, Request>, l: Ledger,
    all: map<Digest, Request>, left: map<Digest, Request>, view: int, start: int)
    requires ByDigest(all, Wanted(vcs, vcs.Keys) + own.Values)
    requires forall m :: m in again ==> m.PrePrepareMsg?
    requires forall d :: d in left <==> d in all && forall a :: a in again ==> a.digest != d
    requires forall d :: d in left ==> left[d] == all[d]
    requires Added(added, view, start, left, l)
    ensures Serves(added, again, vcs, own, l)
  {
    forall d | Pending(vcs, own, l, d) && (forall a :: a in again ==> a.digest != d)
      ensures exists m :: m in added && m.digest == d
    {
      assert d in left && Serviceable(l, left[d]);
      var i :| 0 <= i < |added| && added[i].digest == d;
      assert added[i] in added;
    }
  }

  lemma NumbersApart(
    again: seq<Msg>, added: seq<Msg>, vcs: map<int, ViewChange>, top: int, start: int, nextSeq: int)
    requires forall i :: 0 <= i < |again| ==> again[i].PrePrepareMsg? && again[i].seqNo <= top
    requires forall i, j :: 0 <= i < j < |again| ==> again[i].seqNo != again[j].seqNo
    requires forall i :: 0 <= i < |added| ==> added[i].PrePrepareMsg? && added[i].seqNo == start + i
    requires start > top && start >= nextSeq && forall id :: id in vcs ==> vcs[id].latestStable <= top
    ensures forall m :: m in again + added ==> m.PrePrepareMsg?
    ensures Numbered(again + added, |again|, vcs, nextSeq)
  {
    var ps, k := again + added, |again|;
    forall j | 0 <= j < |ps| ensures ps[j] == if j < k then again[j] else added[j - k] {}
    forall i, j | 0 <= i < j < |ps| ensures ps[i].seqNo != ps[j].seqNo {
    }
  }

  /** Puts a NEW-VIEW together, reading every map in whatever order it comes. */
  method BuildNewView(
    view: int, vcs: map<int, ViewChange>, own: map<Digest, Request>, nextSeq: int, l: Ledger)
    returns (nv: NewView, ghost k: nat)
    requires forall d :: d in own ==> DigestOf(own[d]) == d
    ensures nv.newView == view && Composed(nv, k, vcs, own, nextSeq, l)
  {
    var all, stable, prepared, reported, ids := FoldReports(vcs);
    var top := MaxSeq(stable, prepared);
    var start := if top + 1 < nextSeq then nextSeq else top + 1;
    nv, k := Assemble(view, vcs, own, nextSeq, l, all, ids, stable, prepared, reported + own, top, start);
  }

  lemma RepeatsEcho(again: seq<Msg>, prepared: map<int, PreparedEntry>, view: int)
    requires Again(again, view, prepared)
    ensures (forall m :: m in again ==> m.PrePrepareMsg?) && Echoes(again, prepared)
  {
    forall s | s in prepared ensures exists m :: m in again && m.seqNo == s {
      var i :| 0 <= i < |again| && again[i].seqNo == s;
      assert again[i] in again;
    }
  }

  /** The last two loops: repeating, then numbering what is still pending. */
  method Assemble(
    view: int, ghost vcs: map<int, ViewChange>, ghost own: map<Digest, Request>, ghost nextSeq: int, l: Ledger,
    all: seq<ViewChange>, ghost ids: seq<int>, ghost stable: int, prepared: map<int, PreparedEntry>,
    pending: map<Digest, Request>, ghost top: int, start: int)
    returns (nv: NewView, ghost k: nat)
    requires |all| == |vcs| && Listing(all, ids, vcs) && prepared == Fold(all).1
    requires Best(prepared, stable, Reported(vcs, vcs.Keys)) && StableOf(stable, vcs, vcs.Keys) && stable <= top
    requires (forall s :: s in prepared ==> s <= top) && start > top && start >= nextSeq
    requires ByDigest(pending, Wanted(vcs, vcs.Keys) + own.Values)
    ensures nv.newView == view && Composed(nv, k, vcs, own, nextSeq, l)
  {
    var again, left := Repropose(view, prepared, pending);
    var added := Number(view, start, left, l);
    nv, k := NewView(view, again + added, all), |again|;
    assert Serves(added, again, vcs, own, l) by {
      StillPending(again, prepared, view, pending, left);
      ServesPending(added, again, vcs, own, l, pending, left, view, start);
    }
    assert Repeats(again, vcs) by {
      RepeatsBest(again, vcs, prepared, stable, view);
    }
    assert Echoes(again, prepared) by {
      RepeatsEcho(again, prepared, view);
    }
    assert Numbered(again + added, |again|, vcs, nextSeq) by {
      NumbersApart(again, added, vcs, top, start, nextSeq);
    }
    Compose(nv, again, added, ids, vcs, own, nextSeq, l);
  }

  lemma Compose(
    nv: NewView, again: seq<Msg>, added: seq<Msg>, ids: seq<int>, vcs: map<int, ViewChange>,
    own: map<Digest, Request>, nextSeq: int, l: Ledger)
    requires nv.proposals == again + added && |nv.viewChanges| == |vcs| && Listing(nv.viewChanges, ids, vcs)
    requires forall m :: m in again ==> m.PrePrepareMsg? && m.view == nv.newView
    requires forall m :: m in added ==> m.PrePrepareMsg? && m.view == nv.newView
    requires Echoes(again, Fold(nv.viewChanges).1)
    requires Numbered(again + added, |again|, vcs, nextSeq) && Repeats(again, vcs) && Serves(added, again, vcs, own, l)
    ensures Composed(nv, |again|, vcs, own, nextSeq, l)
  {
    assert nv.proposals[..|again|] == again && nv.proposals[|again|..] == added;
  }

  lemma StillPending(
    again: seq<Msg>, prepared: map<int, PreparedEntry>, view: int, pending: map<Digest, Request>, left: map<Digest, Request>)
    requires Again(again, view, prepared) && Remains(left, pending, prepared)
    ensures forall m :: m in again ==> m.PrePrepareMsg?
    ensures forall d :: d in left <==> d in pending && forall a :: a in again ==> a.digest != d
  {
    forall d | d in pending
      ensures (forall s :: s in prepared ==> prepared[s].digest != d) <==> (forall a :: a in again ==> a.digest != d)
    {
      if forall a :: a in again ==> a.digest != d {
        forall s | s in prepared ensures prepared[s].digest != d {
          var i :| 0 <= i < |again| && again[i].seqNo == s;
          assert again[i] in again;
        }
      }
    }
  }

  // ---------------------------------------------------------------- issuing

  function SendersIn(changes: map<int, map<int, ViewChange>>, v: int): map<int, ViewChange> {
    if v in changes then changes[v] else map[]
  }

  /** A sender's first message for a view is the one that counts. */
  function Counted(changes: map<int, map<int, ViewChange>>, from: int, vc: ViewChange): map<int, map<int, ViewChange>> {
    var before := SendersIn(changes, vc.newView);
    if from in before then changes else changes[vc.newView := before[from := vc]]
  }

  /** What a replica keeps about view changes: messages by view and sender, the views it asked for and the
      NEW-VIEWs it issued, and the client requests it waits for as a backup. */
  class ViewManager {
    const cfg: Config
    var view: int
    var nextSeq: int
    var changes: map<int, map<int, ViewChange>>
    var asked: set<int>
    var issued: set<int>
    var pending: map<Digest, Request>
    var changesSent: seq<ViewChange>
    var newViews: seq<NewView>

    /** A view is asked for once; a NEW-VIEW is issued once for a view, by its primary, on a quorum of
        senders. */
    ghost predicate Valid()
      reads this
    {
      && cfg.Valid() && (forall d :: d in pending ==> DigestOf(pending[d]) == d)
      && (forall i :: 0 <= i < |newViews| ==>
            && newViews[i].newView in issued
            && cfg.top.PrimaryOf(cfg.cluster, newViews[i].newView) == cfg.self
            && |newViews[i].viewChanges| >= cfg.Quorum())
      && (forall i, j :: 0 <= i < j < |newViews| ==> newViews[i].newView != newViews[j].newView)
      && (forall i :: 0 <= i < |changesSent| ==> changesSent[i].newView in asked)
      && (forall i, j :: 0 <= i < j < |changesSent| ==> changesSent[i].newView != changesSent[j].newView)
    }

    constructor (cfg_: Config)
      requires cfg_.Valid()
      ensures Valid() && cfg == cfg_ && view == 0 && newViews == [] && changes == map[] && changesSent == [] && asked == {}
    {
      cfg, view, nextSeq := cfg_, 0, 1;
      changes, asked, issued, pending, changesSent, newViews := map[], {}, {}, map[], [], [];
    }

    /** A backup remembers a request that it could serve, and starts its timer. */
    method OnBackupClientRequest(req: Request, l: Ledger)
      requires Valid()
      modifies this`pending
      ensures Valid()
      ensures pending == if Normal(req.op) == Intra && cfg.top.SameCluster(req.x, req.y) && Serviceable(l, req)
        then old(pending)[DigestOf(req) := req] else old(pending)
    {
      if req.op != Unset && req.op != Intra {
        return;
      }
      if !cfg.top.SameCluster(req.x, req.y) {
        return;
      }
      if l.TS(req.client) >= req.ts {
        return;
      }
      if l.Bal(req.x) < req.amt {
        return;
      }
      pending := pending[DigestOf(req) := req];
    }

    predicate MayIssue(v: int)
      requires cfg.Valid()
    {
      cfg.top.PrimaryOf(cfg.cluster, v) == cfg.self && !cfg.byzantineLeader
    }

    function Senders(v: int): map<int, ViewChange>
      reads this
    {
      SendersIn(changes, v)
    }

    /** The primary of the view issues it once, from what was recorded, and enters it. */
    method TryIssueNewView(v: int, l: Ledger)
      requires Valid() && |Senders(v)| >= cfg.Quorum()
      modifies this`view, this`nextSeq, this`pending, this`issued, this`newViews
      ensures Valid()
      ensures var go := MayIssue(v) && v !in old(issued);
        if !go then newViews == old(newViews) && issued == old(issued)
        else
          && issued == old(issued) + {v} && |newViews| == |old(newViews)| + 1 && newViews[..|newViews| - 1] == old(newViews)
          && newViews[|newViews| - 1].newView == v
          && WellComposed(newViews[|newViews| - 1], old(Senders(v)), old(pending), old(nextSeq), l)
    {
      if !MayIssue(v) || v in issued {
        return;
      }
      var nv, k := BuildNewView(v, Senders(v), pending, nextSeq, l);
      issued := issued + {v};
      newViews := newViews + [nv];
      EnterView(nv);
    }

    /** A later view replaces the present one, and its highest number the next one to assign. */
    method EnterView(nv: NewView)
      requires Valid() && forall m :: m in nv.proposals ==> m.PrePrepareMsg?
      modifies this`view, this`nextSeq, this`pending
      ensures Valid() && view == if nv.newView > old(view) then nv.newView else old(view)
      ensures nv.newView > old(view) ==>
        pending == map[] && nextSeq >= old(nextSeq) && forall m :: m in nv.proposals ==> nextSeq > m.seqNo
      ensures nv.newView <= old(view) ==> pending == old(pending) && nextSeq == old(nextSeq)
    {
      if nv.newView <= view {
        return;
      }
      view, pending := nv.newView, map[];
      var max := 0;
      for i := 0 to |nv.proposals|
        invariant forall j :: 0 <= j < i ==> nv.proposals[j].seqNo <= max
      {
        if nv.proposals[i].seqNo > max {
          max := nv.proposals[i].seqNo;
        }
      }
      if max >= nextSeq {
        nextSeq := max + 1;
      }
    }

    /** Stores one message for each view and sender. */
    method Store(from: int, vc: ViewChange) returns (isNew: bool)
      requires Valid()
      modifies this`changes
      ensures Valid() && isNew == (vc.newView > view && from !in old(Senders(vc.newView)))
      ensures changes == if vc.newView > view then Counted(old(changes), from, vc) else old(changes)
    {
      isNew := vc.newView > view && from !in Senders(vc.newView);
      if isNew {
        changes := changes[vc.newView := Senders(vc.newView)[from := vc]];
      }
    }

    /** Composes and sends the message. */
    method Ask(log: map<int, Slot>, execSeq: int) returns (vc: ViewChange)
      requires Valid() && view + 1 !in asked
      modifies this`asked, this`changesSent
      ensures Valid() && asked == old(asked) + {view + 1}
      ensures changesSent == old(changesSent) + [vc] && AsksNext(vc, view, execSeq, log, pending)
    {
      vc := BuildViewChange(view, execSeq, log, pending);
      asked := asked + {view + 1};
      changesSent := changesSent + [vc];
    }

    /** Asks for the next view, once, and counts its own message like any other; with it the quorum may
        be there. */
    method TriggerViewChange(log: map<int, Slot>, execSeq: int, l: Ledger)
      requires Valid()
      modifies this
      ensures Valid() && old(newViews) <= newViews && old(issued) <= issued
      ensures asked == old(asked) + {old(view) + 1}
      ensures old(view) + 1 in old(asked) ==>
        && changesSent == old(changesSent) && changes == old(changes) && newViews == old(newViews)
        && issued == old(issued) && view == old(view) && nextSeq == old(nextSeq) && pending == old(pending)
      ensures var v := old(view) + 1; v !in old(asked) ==>
        && |changesSent| == |old(changesSent)| + 1 && changesSent[..|changesSent| - 1] == old(changesSent)
        && AsksNext(changesSent[|changesSent| - 1], old(view), execSeq, log, old(pending))
        && changes == Counted(old(changes), cfg.self, changesSent[|changesSent| - 1])
    {
      var v := view + 1;
      if v in asked {
        return;
      }
      var vc := Ask(log, execSeq);
      var isNew := Store(cfg.self, vc);
      if isNew && |Senders(v)| >= cfg.Quorum() {
        TryIssueNewView(v, l);
      }
    }

    /** Asking because f+1 peers asked. */
    method Amplify(v: int, log: map<int, Slot>, execSeq: int, l: Ledger)
      requires Valid()
      modifies this
      ensures Valid() && old(newViews) <= newViews && old(issued) <= issued
      ensures |old(Senders(v))| == cfg.top.F() + 1 && v !in old(asked) ==> old(view) + 1 in asked
      ensures |Senders(v)| >= |old(Senders(v))|
      ensures forall id :: id in old(Senders(v)) ==> id in Senders(v) && Senders(v)[id] == old(Senders(v))[id]
    {
      if |Senders(v)| == cfg.top.F() + 1 && v !in asked {
        TriggerViewChange(log, execSeq, l);
      }
    }

    /** What the number of senders calls for. */
    method React(v: int, log: map<int, Slot>, execSeq: int, l: Ledger)
      requires Valid()
      modifies this
      ensures Valid() && old(newViews) <= newViews && old(issued) <= issued
      ensures |old(Senders(v))| == cfg.top.F() + 1 && v !in old(asked) ==> old(view) + 1 in asked
      ensures |old(Senders(v))| >= cfg.Quorum() && MayIssue(v) ==> v in issued
      ensures forall id :: id in old(Senders(v)) ==> id in Senders(v) && Senders(v)[id] == old(Senders(v))[id]
    {
      var count := |Senders(v)|;
      Amplify(v, log, execSeq, l);
      if count >= cfg.Quorum() {
        TryIssueNewView(v, l);
      }
    }

    /** A VIEW-CHANGE from a peer: f+1 of them make a replica that has not asked yet ask too, and a quorum
        makes the primary of the view issue its NEW-VIEW. */
    method OnViewChange(from: int, vc: ViewChange, log: map<int, Slot>, execSeq: int, l: Ledger)
      requires Valid()
      modifies this
      ensures Valid() && old(newViews) <= newViews && old(issued) <= issued
      ensures vc.newView <= old(view) || from in old(Senders(vc.newView)) ==>
        changes == old(changes) && newViews == old(newViews) && asked == old(asked) && changesSent == old(changesSent)
      ensures vc.newView > old(view) && from !in old(Senders(vc.newView)) ==>
        var count := |old(Senders(vc.newView))| + 1;
        && from in Senders(vc.newView) && Senders(vc.newView)[from] == vc
        && (count == cfg.top.F() + 1 && vc.newView !in old(asked) ==> old(view) + 1 in asked)
        && (count >= cfg.Quorum() && MayIssue(vc.newView) ==> vc.newView in issued)
    {
      var isNew := Store(from, vc);
      if !isNew {
        return;
      }
      React(vc.newView, log, execSeq, l);
    }
  }

}
