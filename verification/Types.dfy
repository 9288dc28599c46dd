/** Requests, digests and outcomes shared by every layer (pbft/messages.go, store/types.go).

    SHA-256 is taken to be injective: a digest is the tuple of the fields that are hashed. */
module Types {

  datatype Option<+T> = None | Some(value: T)

  /** The operation tag of a request.  Clients leave it `Unset`; `Unknown` is any other string. */
  datatype Op =
    | Unset
    | Intra
    | CoordPrepare
    | PartPrepareCommit
    | PartPrepareAbort
    | CoordCommit
    | CoordAbort
    | PartCommit
    | PartAbort
    | Unknown(name: string)

  datatype Request = Request(client: string, ts: int, x: int, y: int, amt: int, op: Op)

  datatype Digest = Digest(client: string, op: Op, ts: int, x: int, y: int, amt: int)

  datatype Outcome = Commit | Abort

  function Normal(op: Op): Op {
    if op == Unset then Intra else op
  }

  function DigestOf(req: Request): Digest {
    Digest(req.client, Normal(req.op), req.ts, req.x, req.y, req.amt)
  }

  function ClientReq(req: Request): Request {
    req.(op := Unset)
  }

  /** The key of a transaction's WAL entry: the digest of its client-facing request. */
  function TxnOf(req: Request): Digest {
    DigestOf(ClientReq(req))
  }

  /** The request that carries transaction `t` through consensus under operation `op`. */
  function Tagged(t: Digest, op: Op): Request {
    Request(t.client, t.ts, t.x, t.y, t.amt, op)
  }

  predicate IsCommitPhaseOp(op: Op) {
    op in {CoordCommit, CoordAbort, PartCommit, PartAbort}
  }

  /** Two requests have one digest exactly when they agree on everything except that an unset
      operation reads as an intra-shard one; a transaction key ignores the operation altogether. */
  lemma DigestMeaning(a: Request, b: Request)
    ensures DigestOf(a) == DigestOf(b) <==> a.(op := Normal(a.op)) == b.(op := Normal(b.op))
    ensures TxnOf(a) == TxnOf(b) <==> ClientReq(a) == ClientReq(b)
  {
  }
}
