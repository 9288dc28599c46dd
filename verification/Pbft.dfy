/** The consensus engine of one replica as functions on its state (pbft/engine.go).

    A handler is one atomic step; a wait loop is the test it waits for.  ed25519 signatures are
    ideal: a signature is the value that names its signer and what was signed. */
module Pbft {
  import opened Types
  import opened Ledgers
  import opened Ordering
  import Topo = Topology

  datatype SigPhase = PrepareSig | CommitSig

  datatype Signature = Signature(signer: int, phase: SigPhase, seqNo: int, view: int, digest: Digest)

  datatype SigEntry = SigEntry(server: int, sig: Signature)

  datatype Certificate = Certificate(seqNo: int, view: int, digest: Digest, sigs: seq<SigEntry>)

  datatype Slot = Slot(
    digest: Option<Digest>,
    req: Request,
    prePrepare: bool,
    discarded: bool,
    prepares: map<int, Signature>,
    prepareCert: Option<Certificate>,
    commits: map<int, Signature>,
    commitCert: Option<Certificate>,
    executed: bool)

  datatype Msg =
    | PrePrepareMsg(seqNo: int, view: int, digest: Digest, req: Request)
    | PrepareMsg(from: int, seqNo: int, view: int, digest: Digest, sig: Signature)
    | PrepareCertMsg(cert: Certificate)
    | CommitMsg(from: int, seqNo: int, view: int, digest: Digest, sig: Signature)
    | CommitCertMsg(cert: Certificate)
    | DiscardMsg(seqNo: int, view: int)

  /** Calls into the cross-shard hooks and replies to clients, in the order they are made. */
  datatype Hook =
    | Dropped(req: Request)
    | Rejected(req: Request)
    | CoordPrepared(req: Request, seqNo: int, cert: Certificate)
    | PartPrepared(req: Request, seqNo: int, cert: Certificate, outcome: Outcome)
    | CoordFinal(req: Request, seqNo: int, cert: Certificate, outcome: Outcome)
    | PartFinal(req: Request, seqNo: int, cert: Certificate, outcome: Outcome)
    | Replied(req: Request, seqNo: int, outcome: Outcome)

  datatype Executed = Executed(seqNo: int, req: Request)

  /** What a replica is configured with: its identity, the topology, the fault switches of the test
      runner, and the number of live honest members (0 means all). */
  datatype Config = Config(
    self: int, cluster: int, top: Topo.Topology,
    byzantineLeader: bool, byzantineBackup: bool, honestLive: int)
  {
    predicate Valid() { top.Valid() && top.Member(self, cluster) }

    function Quorum(): int { top.Quorum() }

    /** The key ring knows every server of every cluster. */
    predicate Known(id: int) { 1 <= id <= Topo.Times(top.numClusters, top.clusterSize) }

    function HonestLive(): int { if honestLive <= 0 then top.clusterSize else honestLive }
  }

  /** `sent`, `signed`, `executed` and `hooks` record what the replica did; no handler reads them. */
  datatype Replica = Replica(
    cfg: Config,
    view: int,
    nextSeq: int,
    execSeq: int,
    log: map<int, Slot>,
    ledger: Ledger,
    sent: set<Msg>,
    signed: set<Signature>,
    executed: seq<Executed>,
    hooks: seq<Hook>)
  {
    predicate IsPrimary()
      requires cfg.Valid()
    {
      cfg.top.PrimaryOf(cfg.cluster, view) == cfg.self
    }

    function Send(m: Msg): Replica { this.(sent := sent + {m}) }

    function Sign(sig: Signature): Replica { this.(signed := signed + {sig}) }

    function Call(h: Hook): Replica { this.(hooks := hooks + [h]) }

    function Put(s: int, slot: Slot): Replica { this.(log := log[s := slot]) }
  }

  const NoRequest := Request("", 0, 0, 0, 0, Unset)

  const EmptySlot := Slot(None, NoRequest, false, false, map[], None, map[], None, false)

  function Boot(cfg: Config, initial: int): Replica {
    Replica(cfg, 0, 1, 1, map[], Fresh(initial), {}, {}, [], [])
  }

  // ---------------------------------------------------------------- signatures and certificates

  predicate Verifies(from: int, phase: SigPhase, s: int, view: int, d: Digest, sig: Signature) {
    sig == Signature(from, phase, s, view, d)
  }

  predicate VerifyCert(cfg: Config, cert: Certificate, phase: SigPhase) {
    && |cert.sigs| >= cfg.Quorum()
    && (forall i, j :: 0 <= i < j < |cert.sigs| ==> cert.sigs[i].server != cert.sigs[j].server)
    && (forall i :: 0 <= i < |cert.sigs| ==>
          && cfg.Known(cert.sigs[i].server)
          && Verifies(cert.sigs[i].server, phase, cert.seqNo, cert.view, cert.digest, cert.sigs[i].sig))
  }

  /** Signature entries in increasing order of server id. */
  function Sorted(src: map<int, Signature>): (entries: seq<SigEntry>)
    ensures |entries| == |src|
    decreases |src|
  {
    if src == map[] then []
    else
      var id := Least(src.Keys);
      assert |src - {id}| < |src| by { assert (src - {id}).Keys == src.Keys - {id}; }
      [SigEntry(id, src[id])] + Sorted(src - {id})
  }

  function BuildCert(r: Replica, s: int, slot: Slot, src: map<int, Signature>): Option<Certificate> {
    if |src| < r.cfg.Quorum() || slot.digest == None then None
    else Some(Certificate(s, r.view, slot.digest.value, Sorted(src)))
  }

  // ---------------------------------------------------------------- locks and validation

  predicate LocksHeldForCommitOp(l: Ledger, req: Request) {
    match req.op
    case CoordCommit => l.IsLocked(req.x)
    case CoordAbort => l.IsLocked(req.x)
    case PartCommit => l.IsLocked(req.y)
    case PartAbort => l.IsLocked(req.y)
    case _ => true
  }

  predicate CanAcquire(l: Ledger, req: Request) {
    forall i :: i in LockItems(req) ==> !l.IsLocked(i)
  }

  /** Taking the locks one by one stops at the first one that is held. */
  function AcquireAll(l: Ledger, items: seq<int>, s: int): (Ledger, bool)
    decreases |items|
  {
    if items == [] then (l, true)
    else if l.IsLocked(items[0]) then (l, false)
    else AcquireAll(l.Acquire(items[0], s), items[1..], s)
  }

  /** As above, but a lock that this sequence number already holds is fine. */
  function EnsureAll(l: Ledger, items: seq<int>, s: int): (Ledger, bool)
    decreases |items|
  {
    if items == [] then (l, true)
    else if l.IsLocked(items[0]) && l.LockSeq(items[0]) != s then (l, false)
    else EnsureAll(l.Acquire(items[0], s), items[1..], s)
  }

  predicate TxnInFlight(r: Replica, req: Request) {
    exists s :: s in r.log && !r.log[s].discarded && !r.log[s].executed && r.log[s].prePrepare
      && TxnOf(r.log[s].req) == TxnOf(req)
  }

  predicate ValidateForStart(r: Replica, req: Request) {
    var l := r.ledger;
    match Normal(req.op)
    case Intra =>
      l.TS(req.client) < req.ts && !TxnInFlight(r, req) && CanAcquire(l, req) && l.Bal(req.x) >= req.amt
    case CoordPrepare => !TxnInFlight(r, req) && CanAcquire(l, req) && l.Bal(req.x) >= req.amt
    case PartPrepareCommit => CanAcquire(l, req)
    case PartPrepareAbort => true
    case CoordCommit => l.IsLocked(req.x) && TxnOf(req) in l.wal
    case CoordAbort => l.IsLocked(req.x)
    case PartCommit => l.IsLocked(req.y) && TxnOf(req) in l.wal
    case PartAbort => true
    case _ => false
  }

  predicate Insufficient(l: Ledger, req: Request) {
    Normal(req.op) in {Intra, CoordPrepare} && l.Bal(req.x) < req.amt
  }

  predicate LocksReady(l: Ledger, s: int, req: Request) {
    forall i :: i in LockItems(req) ==> !l.IsLocked(i) || l.LockSeq(i) == s
  }

  predicate ValidateRequest(l: Ledger, req: Request, s: int) {
    && (Normal(req.op) == Intra ==> l.TS(req.client) < req.ts)
    && !Insufficient(l, req)
    && if req.op == PartPrepareAbort || IsCommitPhaseOp(req.op) then LocksHeldForCommitOp(l, req)
       else LocksReady(l, s, req)
  }

  predicate OpMatchesCluster(cfg: Config, req: Request)
    requires cfg.Valid()
  {
    match Normal(req.op)
    case Intra => cfg.top.SameCluster(req.x, req.y)
    case CoordPrepare => cfg.top.ClusterOf(req.x) == cfg.cluster
    case CoordCommit => cfg.top.ClusterOf(req.x) == cfg.cluster
    case CoordAbort => cfg.top.ClusterOf(req.x) == cfg.cluster
    case PartPrepareCommit => cfg.top.ClusterOf(req.y) == cfg.cluster
    case PartPrepareAbort => cfg.top.ClusterOf(req.y) == cfg.cluster
    case PartCommit => cfg.top.ClusterOf(req.y) == cfg.cluster
    case PartAbort => cfg.top.ClusterOf(req.y) == cfg.cluster
    case _ => false
  }

  /** No hole between the execution cursor and `s`: every slot is pre-prepared or discarded. */
  predicate GapClear(r: Replica, s: int) {
    forall i :: 1 <= i < s && i >= r.execSeq ==> i in r.log && (r.log[i].discarded || r.log[i].prePrepare)
  }

  function SlotAt(r: Replica, s: int): Slot {
    if s in r.log then r.log[s] else EmptySlot
  }

  /** The slot of a new proposal; a discarded slot is wiped before it is used again. */
  function Proposed(old_: Slot, d: Digest, req: Request): Slot {
    var s := if old_.discarded
             then old_.(discarded := false, prepares := map[], commits := map[],
                        prepareCert := None, commitCert := None, executed := false)
             else old_;
    s.(digest := Some(d), req := req, prePrepare := true)
  }

  // ---------------------------------------------------------------- execution

  /** The hook and reply that executing a request makes. */
  function HooksOf(l: Ledger, req: Request, s: int, cert: Certificate): seq<Hook> {
    match Normal(req.op)
    case Intra => if l.Bal(req.x) < req.amt then [] else [Replied(req, s, Commit)]
    case CoordPrepare => if l.Bal(req.x) < req.amt then [] else [CoordPrepared(req, s, cert)]
    case PartPrepareCommit => [PartPrepared(req, s, cert, Commit)]
    case PartPrepareAbort => [PartPrepared(req, s, cert, Abort)]
    case CoordCommit => [Replied(req, s, Commit), CoordFinal(req, s, cert, Commit)]
    case CoordAbort => [Replied(req, s, Abort), CoordFinal(req, s, cert, Abort)]
    case PartCommit => [PartFinal(req, s, cert, Commit)]
    case PartAbort => [PartFinal(req, s, cert, Abort)]
    case _ => []
  }

  predicate CanExecute(r: Replica) {
    r.execSeq in r.log && !r.log[r.execSeq].discarded && !r.log[r.execSeq].executed
      && r.log[r.execSeq].commitCert.Some?
  }

  function ExecuteNext(r: Replica): Replica
    requires CanExecute(r)
  {
    var slot, s := r.log[r.execSeq], r.execSeq;
    r.(log := r.log[s := slot.(executed := true)],
       execSeq := s + 1,
       ledger := Exec(r.ledger, slot.req, r.view),
       executed := r.executed + [Executed(s, slot.req)],
       hooks := r.hooks + HooksOf(r.ledger, slot.req, s, slot.commitCert.value))
  }

  predicate CanSkip(r: Replica) {
    r.execSeq in r.log && r.log[r.execSeq].discarded
  }

  function Ahead(r: Replica): set<int> {
    set k | k in r.log && k >= r.execSeq
  }

  function TryExecute(r: Replica): Replica
    decreases |Ahead(r)|
  {
    if CanSkip(r) then
      var q := r.(execSeq := r.execSeq + 1);
      assert Ahead(q) == Ahead(r) - {r.execSeq} && r.execSeq in Ahead(r);
      TryExecute(q)
    else if CanExecute(r) then
      assert Ahead(ExecuteNext(r)) == Ahead(r) - {r.execSeq} && r.execSeq in Ahead(r);
      TryExecute(ExecuteNext(r))
    else r
  }

  // ---------------------------------------------------------------- the agreement phases

  function OnCommitCert(r: Replica, cert: Certificate): Replica {
    if cert.view != r.view || !VerifyCert(r.cfg, cert, CommitSig) then r
    else if cert.seqNo !in r.log then r
    else
      var slot := r.log[cert.seqNo];
      if !slot.prePrepare || slot.digest != Some(cert.digest) then r
      else TryExecute(r.Put(cert.seqNo, slot.(commitCert := Some(cert))))
  }

  function OnCommit(r: Replica, from: int, s: int, view: int, d: Digest, sig: Signature): Replica
    requires r.cfg.Valid()
  {
    if !r.IsPrimary() || view != r.view || s !in r.log then r
    else
      var slot := r.log[s];
      if slot.prepareCert == None || slot.digest != Some(d) then r
      else if !Verifies(from, CommitSig, s, view, d, sig) || !r.cfg.Known(from) || from in slot.commits then r
      else
        var slot1 := slot.(commits := slot.commits[from := sig]);
        if |slot1.commits| >= r.cfg.Quorum() && slot1.commitCert == None then
          CommitReady(r, s, slot1)
        else r.Put(s, slot1)
  }

  function CommitReady(r: Replica, s: int, slot: Slot): Replica {
    match BuildCert(r, s, slot, slot.commits)
    case None => r.Put(s, slot)
    case Some(cert) =>
      OnCommitCert(r.Put(s, slot.(commitCert := Some(cert))).Send(CommitCertMsg(cert)), cert)
  }

  function SendCommit(r: Replica, s: int, view: int, d: Digest): Replica
    requires r.cfg.Valid()
  {
    var sig := Signature(r.cfg.self, CommitSig, s, view, d);
    if r.IsPrimary() then OnCommit(r.Sign(sig), r.cfg.self, s, view, d, sig)
    else r.Sign(sig).Send(CommitMsg(r.cfg.self, s, view, d, sig))
  }

  function OnPrepareCert(r: Replica, cert: Certificate): Replica
    requires r.cfg.Valid()
  {
    if cert.view != r.view || !VerifyCert(r.cfg, cert, PrepareSig) then r
    else if cert.seqNo !in r.log then r
    else
      var slot := r.log[cert.seqNo];
      if !slot.prePrepare || slot.digest != Some(cert.digest) then r
      else SendCommit(r.Put(cert.seqNo, slot.(prepareCert := Some(cert))), cert.seqNo, cert.view, cert.digest)
  }

  function OnPrepare(r: Replica, from: int, s: int, view: int, d: Digest, sig: Signature): Replica
    requires r.cfg.Valid()
  {
    if !r.IsPrimary() || view != r.view || s !in r.log then r
    else
      var slot := r.log[s];
      if !slot.prePrepare || slot.digest != Some(d) then r
      else if !Verifies(from, PrepareSig, s, view, d, sig) || !r.cfg.Known(from) || from in slot.prepares then r
      else
        var slot1 := slot.(prepares := slot.prepares[from := sig]);
        if |slot1.prepares| >= r.cfg.Quorum() && slot1.prepareCert == None then
          PrepareReady(r, s, slot1)
        else r.Put(s, slot1)
  }

  function PrepareReady(r: Replica, s: int, slot: Slot): Replica
    requires r.cfg.Valid()
  {
    match BuildCert(r, s, slot, slot.prepares)
    case None => r.Put(s, slot)
    case Some(cert) =>
      OnPrepareCert(r.Put(s, slot.(prepareCert := Some(cert))).Send(PrepareCertMsg(cert)), cert)
  }

  function SendPrepare(r: Replica, s: int, view: int, d: Digest): Replica
    requires r.cfg.Valid()
  {
    var sig := Signature(r.cfg.self, PrepareSig, s, view, d);
    if r.cfg.byzantineBackup && !r.IsPrimary() then r
    else if r.IsPrimary() then OnPrepare(r.Sign(sig), r.cfg.self, s, view, d, sig)
    else r.Sign(sig).Send(PrepareMsg(r.cfg.self, s, view, d, sig))
  }

  function ProcessPrePrepare(r: Replica, s: int, view: int, d: Digest, req: Request): Replica
    requires r.cfg.Valid()
  {
    if r.cfg.byzantineBackup && !r.IsPrimary() then r
    else if !ValidateRequest(r.ledger, req, s) then
      if r.IsPrimary() && Insufficient(r.ledger, req) then r.Call(Rejected(req)) else r
    else if IsCommitPhaseOp(req.op) then
      if LocksHeldForCommitOp(r.ledger, req) then SendPrepare(r, s, view, d) else r
    else
      var (l, ok) := EnsureAll(r.ledger, LockItems(req), s);
      if ok then SendPrepare(r.(ledger := l), s, view, d) else r.(ledger := l)
  }

  function OnPrePrepare(r: Replica, s: int, view: int, d: Digest, req: Request): Replica
    requires r.cfg.Valid()
  {
    if view != r.view || !OpMatchesCluster(r.cfg, req) || !GapClear(r, s) then r
    else if s in r.log && r.log[s].prePrepare && !r.log[s].discarded then r
    else ProcessPrePrepare(r.Put(s, Proposed(SlotAt(r, s), d, req)), s, view, d, req)
  }

  // ---------------------------------------------------------------- proposing

  function DropCrossPrepare(r: Replica, req: Request): Replica {
    if req.op == CoordPrepare then r.Call(Dropped(req)) else r
  }

  function Refuse(r: Replica, req: Request): Replica
    requires r.cfg.Valid()
  {
    var q := if r.IsPrimary() && Insufficient(r.ledger, req) then r.Call(Rejected(req)) else r;
    DropCrossPrepare(q, req)
  }

  /** The slot, the locks and the broadcast of a new proposal, under the next sequence number. */
  function Propose(r: Replica, req: Request, l: Ledger): Replica {
    var s, d := r.nextSeq, DigestOf(req);
    var q := r.Put(s, Proposed(SlotAt(r, s), d, req)).(nextSeq := s + 1, ledger := l);
    if r.cfg.byzantineLeader then q else q.Send(PrePrepareMsg(s, r.view, d, req))
  }

  function StartConsensus(r: Replica, req0: Request): Replica
    requires r.cfg.Valid()
  {
    var req := req0.(op := Normal(req0.op));
    if r.IsPrimary() && !IsCommitPhaseOp(req.op) && r.cfg.HonestLive() < r.cfg.Quorum() then
      DropCrossPrepare(r, req)
    else if !ValidateForStart(r, req) then
      if r.IsPrimary() then Refuse(r, req) else r
    else Admit(r, req)
  }

  /** The lock table that the next number proposes under, and whether it gets that far. */
  function OfferLedger(r: Replica, req: Request): Ledger {
    if IsCommitPhaseOp(req.op) then r.ledger else AcquireAll(r.ledger, LockItems(req), r.nextSeq).0
  }

  predicate CanOffer(r: Replica, req: Request) {
    if IsCommitPhaseOp(req.op) then LocksHeldForCommitOp(r.ledger, req)
    else AcquireAll(r.ledger, LockItems(req), r.nextSeq).1
  }

  /** A validated request takes a number, then its locks. */
  function Admit(r: Replica, req: Request): Replica
    requires r.cfg.Valid()
  {
    if CanOffer(r, req)
    then ProcessPrePrepare(Propose(r, req, OfferLedger(r, req)), r.nextSeq, r.view, DigestOf(req), req)
    else Burned(r, req)
  }

  /** The number is lost when the locks are not to be had after all. */
  function Burned(r: Replica, req: Request): Replica {
    var q := r.(nextSeq := r.nextSeq + 1);
    if IsCommitPhaseOp(req.op) then q
    else DropCrossPrepare(q.(ledger := ReleaseAll(OfferLedger(r, req), LockItems(req))), req)
  }

  // ---------------------------------------------------------------- discarding a slot

  function Discarded(slot: Slot): Slot {
    slot.(discarded := true, prePrepare := false, prepares := map[], commits := map[],
          prepareCert := None, commitCert := None)
  }

  function SkipIfStuck(r: Replica, s: int): Replica {
    if r.execSeq == s then r.(execSeq := s + 1) else r
  }

  function OnDiscard(r: Replica, s: int, view: int): Replica {
    if view != r.view || s !in r.log || r.log[s].executed || r.log[s].commitCert.Some? then r
    else
      var slot := r.log[s];
      TryExecute(SkipIfStuck(
        r.Put(s, Discarded(slot)).(ledger := ReleaseAll(r.ledger, LockItems(slot.req))), s))
  }

  /** A proposal that gathered too few prepares is given up by the primary. */
  predicate CanReclaim(r: Replica, s: int)
    requires r.cfg.Valid()
  {
    && r.IsPrimary() && s in r.log
    && !r.log[s].executed && r.log[s].commitCert == None && r.log[s].prepareCert == None
    && |r.log[s].prepares| < r.cfg.Quorum()
  }

  /** The number is given back when it was the last one assigned. */
  function RolledBack(r: Replica, s: int): Replica {
    if r.nextSeq == s + 1 then r.(nextSeq := s) else r
  }

  function Reclaim(r: Replica, s: int, req: Request): Replica
    requires r.cfg.Valid()
  {
    if !CanReclaim(r, s) then r
    else
      var r1 := r.Put(s, Discarded(r.log[s])).(ledger := ReleaseAll(r.ledger, LockItems(req)));
      var r2 := DropCrossPrepare(SkipIfStuck(r1, s), req);
      OnDiscard(RolledBack(r2, s).Send(DiscardMsg(s, r.view)), s, r.view)
  }

  // ---------------------------------------------------------------- entering a new view

  function AcceptNewView(r: Replica, m: Msg): Replica
    requires r.cfg.Valid() && m.PrePrepareMsg?
  {
    if !r.cfg.top.SameCluster(m.req.x, m.req.y) || !GapClear(r, m.seqNo) then r
    else
      var slot := SlotAt(r, m.seqNo);
      if slot.prePrepare && slot.digest == Some(m.digest) then r.Put(m.seqNo, slot)
      else
        Adopted(r.Put(m.seqNo, slot.(digest := Some(m.digest), req := m.req, prePrepare := true)), m)
  }

  function Adopted(q: Replica, m: Msg): Replica
    requires q.cfg.Valid() && m.PrePrepareMsg?
  {
    if !q.IsPrimary() then ProcessPrePrepare(q, m.seqNo, m.view, m.digest, m.req)
    else if !CanAcquire(q.ledger, m.req) then q
    else
      var (l, ok) := AcquireAll(q.ledger, LockItems(m.req), m.seqNo);
      if ok then ProcessPrePrepare(q.(ledger := l), m.seqNo, m.view, m.digest, m.req)
      else q.(ledger := ReleaseAll(l, LockItems(m.req)))
  }
}
