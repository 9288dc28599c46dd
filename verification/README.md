# ByzBank, verified

ByzBank is a bank over a sharded key space.  Each cluster of servers orders its operations with a
collector-style PBFT, and transfers between clusters run a two-phase commit between the clusters' logs.
This project models the bank in layers and proves that the layers add up: what the primaries of a whole
bank hold, after any run with lost, repeated and reordered messages, is what a sequential bank would hold.

- **Ledger** - `Ledger.dfy` is the committed state of a replica as a value and the meaning of the eight
  operation kinds; `Store.dfy` is the store as an object, with its byte-ordered datastore and snapshots.
- **Serial meaning** - `Runs.dfy`, `Serial.dfy`, `Refinement.dfy`, `Bank.dfy` and `Sums.dfy` relate an
  interleaving of the clusters' logs to the sequential order of decisions; `Sim.dfy` is the repository's own
  sequential simulator and `Oracle.dfy` shows that it agrees.
- **Consensus** - `Pbft.dfy` gives every handler of the engine as a function on a replica's state and
  `Engine.dfy` the engine as the object whose methods compute these functions; `Micro.dfy` breaks handlers
  into elementary changes, against which `Agreement.dfy`, `Replication.dfy`, `Quorums.dfy`, `Proposer.dfy`
  and `Contiguity.dfy` prove their invariants.  `Voting.dfy` and `Progress.dfy` prove that a
  cluster can always serve the next request, and `Timestamps.dfy` when one can be served twice.
  `Certificates.dfy` and `ViewChange.dfy` hold the loops that
  build and check certificates and NEW-VIEW messages, and `ReportOrder.dfy` says what the order of
  VIEW-CHANGE messages decides.
- **Two-phase commit** - `TwoPC.dfy` gives the handlers of coordinator and participant as functions on a
  node and `Bridge.dfy` the objects that compute them; `TwoPhase.dfy` proves the order of commitment over all
  clusters, `CrossSlot.dfy` that a debit happens once, `CrossSlotUse.dfy` who is let in, `Participant.dfy`
  what each letter starts, `Answers.dfy` that whatever is executed is answered, `Primary.dfy` that the debit
  results hold of the objects, `Composition.dfy` puts the nodes' results together for the bank, and
  `Outcomes.dfy` shows that transfers can be carried through and called off.
- `Topology.dfy`, `Types.dfy`, `Ordering.dfy`, `Paths.dfy` and `Accounts.dfy` hold the static layout, the
  messages, the order of finite sets, runs of a step relation, and the SmallBank accounts.

`dafny verify dfyconfig.toml` checks all of it.

## Premises

- Each handler is one atomic step; a wait loop is the test it waits for, and a timeout may strike whenever
  its guard holds.
- Runs stay in the initial view, except where a result is about entering views.
- SHA-256 is injective and signatures cannot be forged: a digest is the tuple of the hashed fields, a
  signature the value naming its signer and what it signed.
- Clients leave the operation unset, move no negative amounts, and send an intra-shard request to the
  cluster that owns it (a backup checks only that both endpoints share a cluster).
- A backup takes PRE-PREPARE, certificates and DISCARD from its primary, and a primary is sent none of them,
  since only it sends them and a broadcast leaves out its sender.  The receivers do not check any of this, and
  nobody recomputes a proposal's digest (`Quorums.BackupsDisagree`).  `Agreement`, `Replication`,
  `Certificates` and `Proposer` take the primary as honest and assume both halves; `Quorums` assumes neither.
- What `Quorums` asks instead is that a primary offers requests only under numbers that hold nothing or that
  very proposal.  The engine does not ensure it: a primary accepts anyone's PRE-PREPARE for its next number
  (`Quorums.PrimarySignsTwice`).  It would be enough to take PRE-PREPAREs only for numbers already assigned
  (`Quorums.ReceiverCheckIsEnough`).
- Signers of a cluster's certificates are its members; a replica's own check only asks that they are known.
- Letters between clusters are those that primaries sent; a certificate's digest is not compared with the
  request of the letter it comes in.
- **P3**, where a result names it: in each log a transaction is prepared first and once, its decisions are of
  one kind, and nothing moves money on an item between its prepare and its first decision.
  `Proposer.PrimaryLogIsP3` and `CrossSlot.NodeLogIsP3` say how much of P3 the engine and the cross slot give
  on their own, `TwoPhase.RepeatedReply` and `Proposer.DecisionSafety` why the rest has to be assumed, and
  `Composition` what is left of it for the whole bank.
- For these two and for `Proposer`, `CrossSlot` and `Composition` throughout: a decision that the primary would
  propose is for a transaction that has its WAL entry and no other decision under way.  This is what two-phase
  commit owes a stable primary.  Whatever the primary refuses is free, such as a commit that is repeated once
  the first has executed.  What breaks the premise is a decision repeated before that and, at any time, a
  repeated abort or one for a transaction that was never prepared, because aborts are proposed without looking
  at the WAL (`Composition.OrderlyIff`).
- Fewer than 2^64 records are appended to a store.

Where the code departs from what its documentation says, the model follows the code: a transfer from an item
to itself would create money (`Ledgers.SelfTransferCreatesMoney`), an imported empty snapshot makes numbering
start at one (`Stores.CopyState`), an earlier prepare is looked up by endpoints and amount only
(`Bridges.Bridge.FindPrepare`, so another client's abort
of the same transfer suppresses an undo: `Participant.DecisionLetterLaw`), a client's timestamp is overwritten
by older requests so that a transfer can execute twice (`Outcomes.TransferRepeats`), and a repeated prepare reply carries a certificate that the coordinator rejects.

## Model

| member | source | states |
|---|---|---|
| Refinement.SerialRefinement | ByzBank/internal/pbft/engine.go:587-779 | in every well-formed run the balances of every cluster are those of carrying the decided transactions out one after another, up to the tentative effect that each WAL entry records, and each verdict (done, skipped, undone) is the one that order justifies |
| Oracle.BankMatchesSimulator | ByzBank/simulate.py:96-154 | on the default topology the sequential simulator, given the decided transactions in decision order, returns the same verdict for each and the same balances; its live servers are chosen by the run's verdicts: all of them, but for an undone transaction, whose participant cluster is down |
| Bank.Conservation | ByzBank/internal/store/store.go:145-194 | at every moment of a well-formed run: balances, plus amounts debited and not credited, less amounts credited whose debit was undone, equal the initial total |
| Bank.QuiescentBank | ByzBank/internal/pbft/engine.go:619-779 | with no WAL entry anywhere, every balance is the settled one and the sum is exactly the initial total |
| Bank.BalanceRange | ByzBank/internal/store/store.go:145-194 | under P3 every balance stays between zero and twice the initial total |
| Bank.ReplicaRange | ByzBank/internal/pbft/engine.go:537-585 | the same range for a replica that has executed any prefix of its cluster's log |
| Bank.NoOverflow | ByzBank/internal/store/store.go:145-194 | with a total below 2^62 no step leaves the signed 64-bit range |
| Bank.UndoExact | ByzBank/internal/store/store.go:344-363 | undoing a WAL entry adds its tentative effect back to its own item and touches no other |
| Serial.WalStep | ByzBank/internal/pbft/engine.go:619-779 | every operation that P3 admits keeps each WAL entry exact: it belongs to a prepared undecided transaction and its pre-image is the balance with the tentative effect taken back |
| Serial.CausalNow | ByzBank/internal/twopc/participant.go:105-128 | read off a whole run: commits follow credits, credits follow debits, participants finalise as the coordinator did |
| Serial.OneKind | ByzBank/internal/pbft/engine.go:673-779 | a log that satisfies P3 never decides a transaction both ways |
| Ledgers.NoEffect | ByzBank/internal/pbft/engine.go:644-779 | with no premise: a decision without a WAL entry moves no money, a repeated participant prepare credits nothing while the entry exists, an uncovered debit changes only locks |
| Ledgers.ExecAllIgnoresLocks | ByzBank/internal/pbft/engine.go:537-779 | execution never reads a lock to decide a balance, a WAL entry, a record or a timestamp |
| Ledgers.SelfTransferCreatesMoney | ByzBank/internal/store/store.go:145-165 | both balances are read before either is written: a covered transfer preserves the total exactly when its endpoints differ or it moves nothing |
| Ledgers.IntraEffect | ByzBank/internal/pbft/engine.go:587-617 | a covered transfer between different items moves exactly the amount |
| Ledgers.CoordPrepareEffect | ByzBank/internal/pbft/engine.go:619-642 | a covered coordinator prepare debits x, records x's old balance and keeps the lock |
| Ledgers.PartPrepareEffect | ByzBank/internal/pbft/engine.go:644-671 | a participant prepare credits y, records y's old balance and keeps the lock |
| Ledgers.CommitEffect | ByzBank/internal/pbft/engine.go:673-701 | a commit drops the pre-image and moves no money |
| Ledgers.AbortEffect | ByzBank/internal/pbft/engine.go:703-736 | an abort sets the items of the pre-image back and touches no other balance |
| Ledgers.ExecFrame | ByzBank/internal/pbft/engine.go:587-779 | no operation changes the balance of an item it does not name, unless a pre-image does |
| Ledgers.RecordMeaning | ByzBank/internal/pbft/engine.go:587-779 | an uncovered operation leaves no record; every other one leaves exactly one, under the next number, that tells its endpoints, amount and view, whether it was intra-shard, whether it was a prepare, and its outcome |
| Ledgers.LocksAfter | ByzBank/internal/pbft/engine.go:587-779 | a successful prepare keeps its lock; every other operation, failed ones included, frees its own items and no others; none takes a lock |
| Timestamps.TimestampMeaning | ByzBank/internal/store/store.go:420-427 | after any log the timestamp of a client is that of its last covered intra-shard transfer or coordinator decision, even when an earlier one was higher, and zero when there was none |
| Timestamps.ReplayLaw | ByzBank/internal/pbft/engine.go:965-1005 | in every run of a stable primary one intra-shard transfer executes a second time only after another request of that client with a lower timestamp was stamped in between |
| Timestamps.ResentIsOffered | ByzBank/internal/pbft/engine.go:908-1005 | when such a primary proposes a transfer, sent again or not: exactly when the client's last stamped request has a lower timestamp, none of the transaction waits, the items are free and different and the balance covers it |
| Agreement.Agree | ByzBank/internal/pbft/engine.go:372-585 | with an honest primary in one view that is sent only votes, under loss, repetition, reordering and arbitrary votes, and with numbers given up and reused: all certificates for one number carry one digest, and no two replicas execute different requests at it |
| Agreement.LeadRuns | ByzBank/internal/pbft/engine.go:302-370 | what a primary keeps over any sequence of changes: a certified slot never changes its digest, everything it announced or executed is certified, numbers not yet assigned carry nothing |
| Agreement.FollowKeeps | ByzBank/internal/pbft/engine.go:372-404 | what a backup keeps when it handles a message of the primary: its certificates and executions are ones the primary announced |
| Replication.ReplicasEqual | ByzBank/internal/pbft/engine.go:537-779 | without reclaim, executed lists are prefix-related and replicas that executed equally far hold equal balances, WAL, datastore and timestamps |
| Replication.RunReplays | ByzBank/internal/pbft/engine.go:537-585 | whatever a replica does within a view, its state is the replay of its executed requests, executed in strictly increasing order |
| Micro.StartConsensusRuns | ByzBank/internal/pbft/engine.go:302-370 | starting a request is an offer under the next number, the loss of that number, or only an answer |
| Micro.OnPrePrepareRuns | ByzBank/internal/pbft/engine.go:372-424 | a backup accepts a proposal and goes on from it, or ignores the message |
| Micro.OnPrepareRuns | ByzBank/internal/pbft/engine.go:426-461 | a prepare vote is stored, and a quorum is certified, stored and answered, in that order |
| Micro.OnCommitRuns | ByzBank/internal/pbft/engine.go:482-516 | a commit vote is stored, and a quorum is certified, stored and executed |
| Micro.OnPrepareCertRuns | ByzBank/internal/pbft/engine.go:463-480 | a prepare certificate is stored, then endorsed |
| Micro.OnCommitCertRuns | ByzBank/internal/pbft/engine.go:518-535 | a commit certificate is stored, then executed as far as possible |
| Micro.ReclaimRuns | ByzBank/internal/pbft/engine.go:1198-1233 | giving a proposal up is a discard, a skip, a call, a rollback, an announcement and nothing else |
| Micro.OnDiscardRuns | ByzBank/internal/pbft/engine.go:1235-1260 | a discard wipes the slot, releases its locks and lets execution go on |
| Micro.AcceptNewViewRuns | ByzBank/internal/pbft/viewchange.go:255-285 | adopting a re-proposal overwrites a slot, takes its locks at the primary and goes on as for a proposal |
| Voting.Started | ByzBank/internal/pbft/engine.go:302-424 | at a primary with nothing under way, a request that passes the start checks opens a round with the primary's own prepare vote, or is through at once in a cluster whose quorum is one |
| Voting.PrepareVoted | ByzBank/internal/pbft/engine.go:426-480 | a member's new prepare vote is counted; the one that completes a quorum is turned into a certificate that is sent and checks, and the primary votes to commit |
| Voting.CommitVoted | ByzBank/internal/pbft/engine.go:482-585 | a member's new commit vote is counted; the one that completes a quorum is certified, the certificate is sent and passes every cluster's check, and the request executes with its calls made |
| Progress.EveryReplicaExecutes | ByzBank/internal/pbft/engine.go:302-585 | progress: from every caught-up cluster of honest members there is a run, in which only votes are collected that the replicas sent, after which every replica has executed the request under the next number |
| Progress.NewClusterServes | ByzBank/internal/pbft/engine.go:302-585 | the same for the first covered transfer in a new cluster: afterwards every replica holds exactly its balances and its timestamp, and no lock |
| Progress.ProposesIff | ByzBank/internal/pbft/engine.go:302-370 | a primary announces a request under its next number exactly when it is due - field by field for each operation - with enough members alive and no fault switch on, and answers a refused one exactly when it is an uncovered debit |
| Progress.BackupVotesIff | ByzBank/internal/pbft/engine.go:372-424 | a backup stores a proposal exactly when it concerns the cluster and its view, its number is free and no earlier one is missing, and sends its prepare vote exactly when moreover timestamp, balance and locks pass, field by field for each operation |
| Progress.AdoptionVotesIff | ByzBank/internal/pbft/viewchange.go:255-285 | a backup takes a re-proposal over exactly when it stays within a cluster and leaves no gap, and votes for it exactly when its slot held another digest and the checks pass |
| Progress.AdoptionAtPrimary | ByzBank/internal/pbft/viewchange.go:255-285 | the new primary signs a transfer that it takes over exactly when its slot held another digest, timestamp and balance pass, and the items are different and free |
| Quorums.CertificatesAgree | ByzBank/internal/pbft/engine.go:1073-1092 | any two valid certificates of one cluster for one view and number have one digest as long as at most 4f+1-n members signed two |
| Quorums.ToleranceIsTight | ByzBank/internal/config/topology.go:90-97 | in every topology one more such member - none when the bound is negative - makes two accepted certificates disagree |
| Quorums.ToleranceMeaning | ByzBank/internal/config/topology.go:90-97 | the bound is f exactly when n = 3f+1 and one at n = 12; quorums of n-f share at least f+1 members |
| Quorums.SignsOneDigest | ByzBank/internal/pbft/engine.go:372-516 | a member that follows the engine, whatever it is sent and without discards, signs at most one digest for a number, over both phases, as long as a primary offers only under numbers that hold nothing or this very proposal |
| Quorums.OneDigestIffNoClash | ByzBank/internal/pbft/engine.go:302-404 | over every run without discards, whatever a member is sent: it signs one digest for every number exactly when no step of the run clashed, that is, offered a request under a number that it had signed for another digest |
| Quorums.PrimarySignsTwice | ByzBank/internal/pbft/engine.go:302-404 | the engine does that: a fresh primary signs a PRE-PREPARE that anyone sends it for its first number, and then its own next request under the same number |
| Quorums.OfferKeepsExecuted | ByzBank/internal/pbft/engine.go:336-357 | an offer under a taken number replaces digest and request of a slot that stays marked as executed |
| Quorums.ReceiverCheckIsEnough | ByzBank/internal/pbft/engine.go:372-404 | a primary that takes PRE-PREPAREs only for numbers it has assigned already never comes to that, in any run without discards |
| Quorums.FaultyAgree | ByzBank/internal/pbft/engine.go:463-535 | with at most 4f+1-n faulty members, two correct members execute a number under one digest, whatever a faulty primary sends; a correct primary offers only under unclaimed numbers |
| Quorums.ExecutesWhatItAccepted | ByzBank/internal/pbft/engine.go:372-404 | in the same runs a member accepts one proposal for a number, and what it executes is that proposal's request, under the digest of the slot |
| Quorums.SameRequestIffSameProposal | ByzBank/internal/pbft/engine.go:372-404 | two correct members that execute a number execute the same request exactly when the proposals they accepted for it carry the same request |
| Quorums.SameDigestSameRequest | ByzBank/internal/pbft/engine.go:372-404 | when the proposals they accepted carry their own digests - the comparison a backup leaves out - agreement on the digest is agreement on the request |
| Quorums.FaultyRequestsAgree | ByzBank/internal/pbft/engine.go:372-535 | so with at most 4f+1-n faulty members, and such proposals, two correct members execute one request at a number |
| Quorums.DigestIsNotChecked | ByzBank/internal/pbft/engine.go:372-404 | nobody recomputes a proposal's digest: a fresh backup executes whatever request it was sent under a certified digest |
| Quorums.BackupsDisagree | ByzBank/internal/pbft/engine.go:372-404 | one certificate makes two backups that were sent different requests under its digest execute different requests at number one |
| Certificates.BuildVerifyAgree | ByzBank/internal/pbft/engine.go:426-516 | in every run of an honest primary that is sent only votes, slots given up and reused, every certificate it sends is strictly sorted by signer, passes every replica's check, and passes another cluster's check exactly when its signers are members |
| Certificates.BuiltVerifies | ByzBank/internal/pbft/engine.go:1042-1071 | a certificate is built exactly from a quorum of votes; built from valid votes it is their strictly sorted permutation and verifies |
| Certificates.BuildCertificate | ByzBank/internal/pbft/engine.go:1042-1071 | the collecting loop, in any map order, and the exchange sort in place give that certificate |
| Certificates.SortEntries | ByzBank/internal/pbft/engine.go:1050-1056 | the exchange sort orders entries of distinct signers strictly and loses none |
| Certificates.ListingUnique | ByzBank/internal/pbft/engine.go:1042-1071 | a set of signatures has only one strictly sorted listing, so map order does not show |
| Certificates.CheckCert | ByzBank/internal/pbft/engine.go:1073-1092 | the checking loop accepts exactly a quorum of pairwise distinct known signers with valid signatures |
| Certificates.CheckClusterCert | ByzBank/internal/twopc/cert.go:10-37 | the loop over a foreign certificate accepts exactly a quorum of pairwise distinct members with valid signatures |
| Certificates.ClusterCheckIsMembership | ByzBank/internal/twopc/cert.go:10-37 | the cluster check is the replica's own check plus membership of every signer |
| Certificates.AcceptedHasQuorum | ByzBank/internal/pbft/engine.go:1073-1092 | an accepted certificate has at least a quorum of different signers, each of whom signed exactly this phase, number, view and digest |
| Certificates.OneCluster | ByzBank/internal/twopc/cert.go:10-37 | a certificate never verifies for two clusters |
| Proposer.ProposerExclusivity | ByzBank/internal/pbft/engine.go:302-370 | in every run of a stable primary, reclaim included: each lock belongs to exactly one unfinished operation, every WAL entry's item is locked and its pre-image exact, unfinished operations share no item |
| Proposer.StableSufficiency | ByzBank/internal/pbft/engine.go:965-1005 | what was checked at proposal still covers at execution, so the failure branches are not reached; no executed transfer has equal endpoints; nothing moves money on an item between a prepare and its decision |
| Proposer.SelfTransferNeverOffered | ByzBank/internal/pbft/engine.go:926-933 | a transfer from an item to itself cannot take its second lock and is never proposed |
| Proposer.DecisionSafety | ByzBank/internal/store/store.go:225-231 | releasing without an owner check: executing a decision leaves every other operation its locks exactly when its transaction has a WAL entry or its item is free |
| Proposer.PrimaryLogIsP3 | ByzBank/internal/pbft/engine.go:302-370 | the executed log of a stable primary satisfies P3 exactly when no transaction is prepared again |
| Proposer.P3IsPreparingOnce | ByzBank/internal/pbft/engine.go:537-779 | of logs with the exclusion clause whose decisions are for prepared transactions, P3 asks only that |
| Proposer.NoSharedItem | ByzBank/internal/pbft/engine.go:865-948 | an operation that waits for execution shares no item with another unfinished one |
| Proposer.GiveUpLaw | ByzBank/internal/pbft/engine.go:1198-1260 | giving a proposal up discards it exactly when it is neither executed nor certified and too few voted for it; then the discard is announced, its items are free, and its number is taken back if it was the last |
| Proposer.DiscardLaw | ByzBank/internal/pbft/engine.go:1235-1260 | at any replica a discard of its view takes a known slot out, and frees its items, exactly when the slot has neither executed nor a commit certificate; otherwise it changes nothing |
| TwoPhase.CommitOrder | ByzBank/internal/twopc/coordinator.go:246-311 | in every run of the bank - letters lost, repeated, reordered, timeouts at any moment - credits follow debits, the coordinator commits only after the credit, the participant finalises only as the coordinator has |
| TwoPhase.NeverDiffer | ByzBank/internal/twopc/participant.go:105-128 | under P3 the two clusters never finalise a transaction differently, nor one of them both ways |
| TwoPhase.RunsAreWellFormed | ByzBank/internal/twopc/coordinator.go:164-311 | under P3 the trace of every run of the bank is well-formed, so all results about well-formed runs hold of it |
| TwoPhase.PrimariesRefineSerial | ByzBank/internal/pbft/engine.go:587-779 | the balances the primaries hold are the bank's and refine the serial ones |
| TwoPhase.SettledBank | ByzBank/internal/pbft/engine.go:587-779 | once no primary has a WAL entry the balances are exactly the serial ones, with the initial total |
| TwoPhase.RepeatedReply | ByzBank/internal/twopc/coordinator.go:264-293 | an accepted reply delivered twice queues a decision of the other kind exactly when it says commit |
| TwoPhase.WorldStep | ByzBank/internal/twopc/coordinator.go:112-311 | every step of every node keeps: letters say what happened, queued and proposed operations are ones two-phase commit allows |
| CrossSlot.ExactlyOnceDebit | ByzBank/internal/twopc/coordinator.go:112-156 | however often clients resend, at most one coordinator prepare executes for a transaction, and at most one of any transaction is queued or waits for execution, while the cross slot is taken |
| CrossSlot.NeverDebited | ByzBank/internal/twopc/coordinator.go:112-156 | the intake's checks - item free, no decision started - imply the transaction was never debited |
| CrossSlot.NodeLogIsP3 | ByzBank/internal/twopc/coordinator.go:112-156 | the log of a stable primary that keeps its cross slot satisfies P3 exactly when no participant prepare is repeated |
| CrossSlotUse.SlotNeverLeaks | ByzBank/internal/twopc/coordinator.go:73-162 | in every run the cross slot is taken exactly while a coordinator prepare is queued or waits for execution, whatever is refused, dropped or given up |
| CrossSlotUse.IntakeIff | ByzBank/internal/twopc/coordinator.go:112-156 | a cross-shard request is let in exactly when it leaves this cluster, is newer than the client's last stamped request, was not decided and does not wait, no other coordinator prepare is on its way, and the item is free and covers it; it is answered with a refusal exactly when only the balance is missing |
| CrossSlotUse.TimerLaw | ByzBank/internal/twopc/coordinator.go:195-239 | the end of the watch starts an abort exactly for what is watched, undecided and without a reply, and a retry queues it exactly while the debit is open |
| Answers.EveryExecutionIsPaid | ByzBank/internal/pbft/engine.go:587-779 | in every run of a stable primary each executed operation has its answer to the client, its letters and its votes out, under the outcome that was executed, and a client is told an outcome exactly when it was executed |
| TwoPC.ScanMeaning | ByzBank/internal/twopc/participant.go:130-146 | the scan returns an outcome exactly when the first prepare record with these endpoints and this amount has it, and nothing exactly when there is none |
| Participant.PrepareLetterLaw | ByzBank/internal/twopc/participant.go:58-102 | an accepted PREPARE letter queues a commit vote exactly when neither entry nor record is there and the item is free, an abort vote exactly when it is locked instead, and otherwise nothing: it is answered with the recorded outcome |
| Participant.DecisionLetterLaw | ByzBank/internal/twopc/participant.go:105-128 | an accepted abort letter queues the undo exactly when the first record of the endpoints and amount is not an abort, an accepted commit letter always queues the final commit, any other letter nothing |
| Participant.PreparedNeverAgain | ByzBank/internal/twopc/participant.go:58-102 | in every run of the bank, once a participant prepare of a transaction has executed, its PREPARE letter never queues anything again |
| Outcomes.CanSettle | ByzBank/internal/twopc/coordinator.go:112-311 | from every world whose two primaries have nothing under way, a covered transfer between free items has a run that commits it and one that aborts it: four operations in order, the balances moved or not, and entries and locks as before |
| Outcomes.EveryTransferCanEnd | ByzBank/internal/twopc/coordinator.go:112-311 | the same from every new bank: afterwards no entry is open and no lock is held anywhere |
| Outcomes.CanBeVotedDown | ByzBank/internal/twopc/participant.go:87-102 | with the participant's item locked there is a run in which it votes to abort, the coordinator takes its debit back, and balances, entries and locks are as before; the decision letter finds nothing to undo |
| Outcomes.TransferRepeats | ByzBank/internal/pbft/engine.go:673-701 | the exception of the replay law occurs: the commit of an older cross-shard transfer sets the client's timestamp back, and a newer intra-shard transfer sent again executes a second time |
| Composition.OrderlyIff | ByzBank/internal/twopc/coordinator.go:275-311 | which steps of the bank are orderly: all but giving up a slot twice and proposing a disputed decision - an abort without a WAL entry, such as the one re-driven after a commit, or a decision while another one of its transaction waits |
| Composition.BankIsWellFormed | ByzBank/internal/twopc/coordinator.go:112-311 | in every run of the bank that is orderly at each primary, the logs satisfy P3, and the trace is well-formed, exactly when no participant prepare is repeated |
| Composition.OrderlyBank | ByzBank/internal/pbft/engine.go:587-779 | while none is, the primaries hold the serial balances up to open entries, and with nothing open exactly these and the initial total - P3 is not assumed |
| Composition.OrderlyNeverDiffer | ByzBank/internal/twopc/participant.go:105-128 | nor do two clusters then finalise a transaction differently |
| Contiguity.TryExecuteMeaning | ByzBank/internal/pbft/engine.go:537-585 | the loop runs to the first number that is missing, executed or uncommitted, executes what was not discarded on the way in order, and changes no other slot |
| Contiguity.Fixpoint | ByzBank/internal/pbft/engine.go:537-585 | running the loop again does nothing |
| Contiguity.ToRunIncreases | ByzBank/internal/pbft/engine.go:537-585 | it executes strictly increasing numbers and passes over exactly the discarded ones |
| Contiguity.LogContiguity | ByzBank/internal/pbft/engine.go:829-846 | on a replica that never proposes, through discards and view changes, every number from the cursor to the highest slot has a slot, pre-prepared or discarded |
| ViewChanges.BuildNewView | ByzBank/internal/pbft/viewchange.go:153-228 | for every map order: all messages are listed; what folding them in that order keeps is repeated, entry by entry; distinct numbers; new ones consecutive, beyond every repeated and every stable number and not before the issuer's next; no new digest repeats; above all stable numbers the entry of the highest reported view is repeated; every serviceable pending request is served |
| ViewChanges.FoldReports | ByzBank/internal/pbft/viewchange.go:154-180 | reading every sender's message once, in any order, keeps above the stable number the highest view reported for each number |
| ReportOrder.FoldMeaning | ByzBank/internal/pbft/viewchange.go:166-176 | in a given order a number is kept exactly when some message reports it before any message read so far calls it stable, with the entry of the last such message of the highest view |
| ReportOrder.KeptInOrders | ByzBank/internal/pbft/viewchange.go:170-173 | some order of the messages keeps a number exactly when one reports it beyond its own stable number; every order does exactly when one reports it and none calls it stable |
| ReportOrder.TiesFallToTheLast | ByzBank/internal/pbft/viewchange.go:174-176 | where none calls the number stable, each report of the highest view is taken over by some order, so the order decides nothing exactly when those reports agree |
| ReportOrder.OrderMatters | ByzBank/internal/pbft/viewchange.go:166-176 | for any set of messages and any number: when exactly the order in which they are read decides nothing |
| ViewChanges.Repropose | ByzBank/internal/pbft/viewchange.go:192-201 | one proposal for each kept entry, and its digest is no longer pending |
| ViewChanges.Number | ByzBank/internal/pbft/viewchange.go:203-221 | consecutive numbers for exactly the pending requests that can be served |
| ViewChanges.BuildViewChange | ByzBank/internal/pbft/viewchange.go:70-97 | a VIEW-CHANGE reports exactly the proposed, unexecuted slots, each once |
| ViewChanges.ViewManager.TryIssueNewView | ByzBank/internal/pbft/viewchange.go:130-151 | only the view's primary issues, once for each view, on a quorum of senders |
| ViewChanges.ViewManager.OnViewChange | ByzBank/internal/pbft/viewchange.go:99-128 | repeated and late messages change nothing; f+1 make a replica ask too, a quorum makes the primary issue |
| ViewChanges.ViewManager.TriggerViewChange | ByzBank/internal/pbft/viewchange.go:53-68 | a view that was asked for already leaves everything unchanged; otherwise one message is sent, reporting exactly the proposed unexecuted slots, and it counts like a peer's |
| ViewChanges.ViewManager.EnterView | ByzBank/internal/pbft/viewchange.go:230-253 | entering a later view clears pending requests and moves the next number beyond every proposal |
| ViewChanges.ViewManager.OnBackupClientRequest | ByzBank/internal/pbft/viewchange.go:13-35 | a backup remembers exactly the intra-shard requests it could serve |
| Stores.SeqKeyOrder | ByzBank/internal/store/store.go:466-470 | byte order of 8-byte big-endian keys is numeric order |
| Stores.Int64RoundTrip | ByzBank/internal/store/store.go:472-484 | every 64-bit value survives being stored |
| Stores.Store.constructor | ByzBank/internal/store/store.go:52-90 | an initial balance of zero reads as ten |
| Stores.Store.GetBalance | ByzBank/internal/store/store.go:108-138 | an untouched item holds the initial balance |
| Stores.Store.ApplyTransfer | ByzBank/internal/store/store.go:145-165 | all or nothing: refuses an uncovered transfer and leaves the store alone |
| Stores.Store.ApplyDebitOnly | ByzBank/internal/store/store.go:168-181 | refuses an uncovered debit and leaves the store alone |
| Stores.Store.ApplyCreditOnly | ByzBank/internal/store/store.go:184-194 | credits one item |
| Stores.Store.AcquireLock | ByzBank/internal/store/store.go:205-222 | takes a free lock and no other |
| Stores.Store.AcquireLockForSeq | ByzBank/internal/store/store.go:197-202 | also succeeds when this number holds the lock |
| Stores.Store.ReleaseLock | ByzBank/internal/store/store.go:225-231 | removes a lock, whoever holds it |
| Stores.Store.AppendDatastore | ByzBank/internal/store/store.go:261-281 | appends one record under the next number |
| Stores.Store.Datastore | ByzBank/internal/store/store.go:284-303 | returns exactly the appended records, in append order and numbered in that order |
| Stores.Store.WALUndo | ByzBank/internal/store/store.go:344-363 | puts every recorded balance back, in any order, and keeps the entry |
| Stores.Store.ExportSnapshot | ByzBank/internal/store/snapshot.go:21-69 | copies balances, records, timestamps and the counter |
| Stores.Store.ImportSnapshot | ByzBank/internal/store/snapshot.go:72-111 | replaces the state, clears locks and WAL and always writes the counter |
| Stores.CopyState | ByzBank/internal/store/snapshot.go:21-111 | export then import preserves every balance, timestamp and record, and continues the numbering exactly when there was a record to number |
| Engines.Engine.StartConsensusNow | ByzBank/internal/pbft/engine.go:302-370 | the handler on the object computes its function |
| Engines.Engine.OnPrePrepareMsg | ByzBank/internal/pbft/engine.go:372-404 | the handler on the object computes its function |
| Engines.Engine.ProcessPrePrepareMsg | ByzBank/internal/pbft/engine.go:406-424 | the handler on the object computes its function |
| Engines.Engine.OnPrepareMsg | ByzBank/internal/pbft/engine.go:426-461 | the handler on the object computes its function |
| Engines.Engine.OnPrepareCertificate | ByzBank/internal/pbft/engine.go:463-480 | the handler on the object computes its function |
| Engines.Engine.OnCommitMsg | ByzBank/internal/pbft/engine.go:482-516 | the handler on the object computes its function |
| Engines.Engine.OnCommitCertificate | ByzBank/internal/pbft/engine.go:518-535 | the handler on the object computes its function |
| Engines.Engine.TryExecuteAll | ByzBank/internal/pbft/engine.go:537-585 | the loop over the fields computes its function and terminates |
| Engines.Engine.ExecuteOp | ByzBank/internal/pbft/engine.go:558-583 | the dispatch over store calls changes the store as the operation's value semantics say and makes its calls in order |
| Engines.Engine.ReclaimSeq | ByzBank/internal/pbft/engine.go:1198-1233 | the handler on the object computes its function |
| Engines.Engine.OnDiscardMsg | ByzBank/internal/pbft/engine.go:1235-1260 | the handler on the object computes its function |
| Engines.Engine.AcceptNewViewPrePrepare | ByzBank/internal/pbft/viewchange.go:255-285 | the handler on the object computes its function |
| Engines.Engine.GapClearLocked | ByzBank/internal/pbft/engine.go:829-846 | the walk over all lower numbers decides whether none from the cursor on is missing |
| Engines.Engine.ClientTxnInFlight | ByzBank/internal/pbft/engine.go:950-963 | the scan in any order finds a live instance of the transaction exactly when there is one |
| Engines.Engine.AcquireLocksForOp | ByzBank/internal/pbft/engine.go:926-933 | takes locks one by one and stops at the first that is held |
| Bridges.Bridge.OnClientRequest | ByzBank/internal/twopc/coordinator.go:112-156 | the intake on the object computes its function |
| Bridges.Bridge.OnParticipantReply | ByzBank/internal/twopc/coordinator.go:246-293 | the handler on the object computes its function |
| Bridges.Bridge.OnDeadline | ByzBank/internal/twopc/coordinator.go:195-226 | the end of the watch on the object computes its function |
| Bridges.Bridge.OnPrepareLetter | ByzBank/internal/twopc/participant.go:58-102 | the handler on the object computes its function |
| Bridges.Bridge.OnDecisionLetter | ByzBank/internal/twopc/participant.go:105-128 | the handler on the object computes its function |
| Bridges.Bridge.FindPrepare | ByzBank/internal/twopc/participant.go:130-146 | the loop returns an outcome exactly when the first prepare record with the same endpoints and amount has it, and nothing exactly when there is no such record |
| Primaries.Perform | ByzBank/internal/twopc/coordinator.go:73-311 | whatever comes next - requests, votes, timers, letters - the objects of a primary do what the node does and keep its invariant, starting from a fresh primary |
| Primaries.ObjectsExclusive | ByzBank/internal/twopc/coordinator.go:112-156 | of the objects themselves: no transaction was debited twice, at most one debit is queued, every lock in the store belongs to an operation in the engine's log |
| Bridges.PreparedCollector.Has | ByzBank/internal/twopc/collector.go:30-39 | finds a reply for the client transaction exactly when one was recorded |
| Bridges.PreparedCollector.Matching | ByzBank/internal/twopc/collector.go:49-59 | returns exactly the recorded replies for the transaction with the outcome |
| Bridges.SameTxnIsSameKey | ByzBank/internal/twopc/collector.go:73-75 | two requests are one client transaction exactly when they share the WAL key |
| Topology.GoDivIs | ByzBank/internal/config/topology.go:102-124 | division and remainder, by repeated subtraction, are those of Go: truncated toward zero, the remainder with the sign of the dividend |
| Topology.FaultBound | ByzBank/internal/config/topology.go:88-97 | F is the largest f with 3f+1 <= n, and the quorums are ordered |
| Topology.PrimaryRotates | ByzBank/internal/config/topology.go:118-124 | the primary is a member, and two views share it exactly when they are congruent |
| Topology.MemberUnique | ByzBank/internal/config/topology.go:60-83 | a server belongs to one cluster |
| Topology.New | ByzBank/internal/config/topology.go:60-83 | ids run from one in cluster blocks |
| Topology.ServersInCluster | ByzBank/internal/config/topology.go:126-135 | exactly the members, in id order |
| Types.DigestMeaning | ByzBank/internal/pbft/messages.go:114-137 | digests agree exactly on everything but an unset operation reading as intra-shard; transaction keys ignore the operation |
| Simulator.Sim.RunSet | ByzBank/simulate.py:87-94 | the loop over a set of jobs is the sequential run |
| Simulator.Sim.DoIntra | ByzBank/simulate.py:96-114 | the method on the fields computes its step |
| Simulator.Sim.DoCross | ByzBank/simulate.py:116-154 | the method on the fields computes its step |
| Simulator.StepMeaning | ByzBank/simulate.py:96-154 | the verdict of a step: it commits exactly when both clusters have live quorums and the balance covers, and then moves the amount, otherwise nothing |
| Simulator.StepConserves | ByzBank/simulate.py:96-154 | no step changes the total or makes a balance negative, equal endpoints included |
| Accounts.AccountsApart | ByzBank/internal/smallbank/schema.go:33-62 | with room, all accounts and treasuries are pairwise different items, in range and owned by the right cluster |
| Accounts.RoomIsNeeded | ByzBank/internal/smallbank/schema.go:33-62 | the layout has no duplicates exactly when a cluster owns more than two items a customer |
| Accounts.AllTrackedItems | ByzBank/internal/smallbank/schema.go:64-80 | the loops list every account and treasury, without duplicates when there is room |
| Accounts.Generator.DepositChecking | ByzBank/internal/smallbank/txns.go:76-90 | a deposit is intra-shard with different endpoints, and timestamps grow |
| Accounts.Generator.TransactSavings | ByzBank/internal/smallbank/txns.go:93-112 | a savings transaction is intra-shard with different endpoints, withdrawing when negative |
| Accounts.Generator.WriteCheck | ByzBank/internal/smallbank/txns.go:136-161 | a check is intra-shard with different endpoints |

## Left out

- Agreement across views and replica equality with reclaim: the code does not establish them.
- TwoPhase.NeverDiffer: assumes P3, because a late reply re-drives an abort after a commit.
- Replication.ReplicasEqual: assumes no reclaim, because a number that was given up may be skipped by some replicas.
- Quorums.SignsOneDigest: assumes no discards, because a discarded slot takes a new digest under the same number, and that a primary offers under unclaimed numbers, without which it fails (`Quorums.OneDigestIffNoClash`).
- Quorums.FaultyAgree: assumes the same of every correct member.
- Agreement.Agree: assumes that the primary is sent only votes, because a PRE-PREPARE for its next number would be accepted.
- CrossSlot.ExactlyOnceDebit: speaks of one span between resets; the reset of the coordinator is not a step.
- CrossSlotUse.SlotNeverLeaks: the queue of a primary is unbounded; the code's holds 512 requests, and one whose context ends while it is full is lost together with the slot.
- Progress.EveryReplicaExecutes: says that a run exists, not that every fair run makes progress; likewise Outcomes.CanSettle.
- Liveness under a scheduler, wall-clock time, tickers and tunables: a timeout is a step that may or may not be taken.
- Acknowledgements of the final decision: they only stop a retry, and a retry is a repeated delivery.
- The transport, envelopes, key files, command line, HTTP and gRPC: the network is a set of messages.
- BoltDB pages and transactions: a bucket is a map, read in byte order where that matters.
- JSON encodings, text renderings of records and oracle lines: identity, or easy.
- The two ingress channels of a primary: queued requests are started in any order.
- ViewChanges.ViewManager: the NEW-VIEW it issues is handed to the engine's accept loop in `Contiguity.Take` and `Engines.Engine.AcceptNewViewPrePrepare`, not in one method.
- SmallBank payments between customers, amalgamation, the penalty counter and random choice of customers: easy members.
- Recovery of a replica by replaying or fetching a log, resets between test sets and fault injection beyond the three switches.
