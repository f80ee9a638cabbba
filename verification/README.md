# Verified model of the babit ledger

babit records the actions of autonomous agents: every action is bound to a signed chain of
delegations, sealed by a notary, logged append-only, committed to a Merkle root and anchored, and
handed out as a receipt that can be checked offline. This project models the Go code behind those
claims in Dafny and proves them, from the bytes that are hashed up to whole runs of interleaved
operations.

## How it is built

- `bytestrings.dfy`, `crypto.dfy`, `records.dfy`: fixed-width integers, the abstract digest and
  signature scheme, the records.
- `merkle.dfy`, `merkle_digests.dfy`, `merkle_binding.dfy`, `root_binding.dfy`: the Merkle tree, what it
  hashes byte for byte, completeness, and what a root binds of leaves, lists and lengths.
- `canon.dfy`, `canon_layout.dfy`, `canon_decoding.dfy`, `seal.dfy`: canonical bytes, their layout and
  parser, sealing.
- `graph.dfy`, `grant_table.dfy`: chain verification, attenuation, the grant forest.
- `event_table.dfy`, `ledger_state.dfy`, `operations.dfy`: the tables, what holds of them, and the
  operations as functions of the state.
- `stores.dfy`, `services.dfy`: the stores and services as classes, proved against the operations.
- `outcomes.dfy`: when each operation succeeds and what it leaves, from the request and the tables.
- `runs.dfy`, `lossless_runs.dfy`, `revocation.dfy`: runs of non-overlapping operations.
- `machine.dfy`, `split_reads.dfy`, `store_calls.dfy`, `concurrency.dfy`: operations cut into steps, down
  to single store calls, that interleave and may stop anywhere, and how the steps relate to the
  operations.
- `interleavings.dfy`, `growth.dfy`: what every interleaving keeps and only adds to.
- `hash_clashes.dfy`, `overlap.dfy`, `link_history.dfy`, `exclusive.dfy`: exactly when interleavings keep
  the hash chain and the anchor.
- `late_rows.dfy`, `late_inserts.dfy`: exactly when a row can still come under a revoked grant.
- `races.dfy`, `witnesses.dfy`: reachable states on the other side of the exact conditions.
- `receipt.dfy`, `receipt_proofs.dfy`, `proof_reads.dfy`, `tampering.dfy`: the two verifiers, soundness,
  completeness, proofs read among other operations, and receipts with one part changed.
- `paging.dfy`: cursor paging.

## Assumptions

- SHA-256 is an arbitrary function to 32 bytes. Nothing assumes that it is injective: each soundness
  result names a function that computes evidence, and proves that it is genuine whenever the claim
  fails: two byte strings that differ and have the same digest, or one whose digest is 32 zero bytes.
- Ed25519 (section 5.1 of RFC 8032) is an arbitrary check that accepts what the notary signs.
- The id generator does not return the id of a stored grant or the empty string
  (`GrantTable.ReusedIdLoops` shows what a repeated id would do). Event ids may repeat: the insert
  then fails.
- Clock readings, project access and failing store calls are inputs (`Operations.Context`); a failing
  call changes nothing.
- Rows of grants and events are kept in the order of insertion; queries are defined with the ordering
  their SQL states. Text is its bytes; id collation is any strict total order with the empty string
  first.

## What the proofs say about the code

- The content hash does not cover the previous hash, so a receipt is sound about its event, not about
  the history before it (`ReceiptProofs.HistoryIsNotChecked`). `docs/architecture.md:175` describes `chain_intact` as unbroken
  `prev_hash` links; `internal/service/verify.go:29-30` recomputes the content hash only, and the model
  follows the code.
- `VerifyProof` answers valid without looking at the Merkle path or the anchor
  (`internal/service/verify.go:41`); `Receipts.VerifyProof` states how its answers add up to the
  offline verdict.
- An empty capability list is unrestricted, also below a parent that has a list:
  `Graph.AttenuationExact` gives the exact condition under which authority only shrinks, and the service
  stores an accepted chain that does not meet it (`Witnesses.EmptyListWidens`).
- Links and anchors need turns. An insert keeps a session's log linked exactly when no row of the
  session came since the last event was read and none has a higher number
  (`Overlap.InsertKeepsLinkedExactly`); a stored anchor is current exactly when no row of the session
  came since the rows were read (`Overlap.PublishAnchorsExactly`). A log is linked in the end exactly when
  every insert of its session was current (`LinkHistory.LinkedExactly`). Two overlapping recordings break
  both (`Races.OverlapBreaksChainAndAnchor`), and one recording overlapping an `EndSession` is enough
  to leave a stale anchor (`Races.EndOverlapBreaksAnchor`). One operation per session at a time is
  enough to keep both, whatever other sessions do (`Exclusive.ExclusiveSessionIsChained`,
  `Exclusive.ExclusiveSessionIsAnchored`). Distinct numbers and anchors that are past roots need nothing.
- A revocation does not stop every recording that is past its check of the grant. A row can still come
  under the grant exactly when some such recording has no revoked grant ahead of it in its chain, is
  allowed its action, has a number to take, and, once it has an event id, one that no row has
  (`LateInserts.LateRowsExactly`; a reachable case is `Races.RevokedGrantRecords`). Each adds at most one
  row, and no other recording adds any (`LateRows.OneLateRowEach`, `LateRows.LateRowWasChecked`).
- A number consumed by a failed insert shifts all later leaf positions: `ReceiptProofs.ProofConvincesExactly`
  says exactly which proofs still verify, and `Witnesses.LostNumberLosesProof` reaches an event that has
  none. The four reads of `GetInclusionProof` may see four states: an anchor newer than the rows makes
  a proof that does not verify (`ProofReads.InterleavedProofExactly`).
- `RecordAction` does not look at `ended_at` (`Runs.EndingIsNotLookedAt`), so an ended session can still
  grow (`Races.EndedSessionRecords`).

## Model

| member | source | states |
|---|---|---|
| `Merkle.HashLeaves` | internal/core/merkle/merkle.go:35-38 | the loop fills the leaf level with the prefixed hash of every leaf |
| `Merkle.ReduceLevel` | internal/core/merkle/merkle.go:45-55 | the loop yields one parent per pair of neighbours, an odd last node paired with itself |
| `Merkle.Root` | internal/core/merkle/merkle.go:31-43 | terminates with the top of the repeatedly reduced leaf level, and with 32 zero bytes for no leaves |
| `MerkleDigests.RootIsDigest` | internal/core/merkle/merkle.go:16-55 | the root of every list is its digest read from the top down with the prefixes 0x00 and 0x01 written out, a missing right half replaced by the left one, and 32 zero bytes for no leaves |
| `MerkleDigests.RootOfHalves` | internal/core/merkle/merkle.go:23-55 | for 2^(k+1) leaves the root hashes 0x01 and the roots of the two halves |
| `MerkleDigests.RootOfThree` | internal/core/merkle/merkle.go:16-55 | for three leaves the third node is hashed with itself |
| `MerkleDigests.RootOfOne` | internal/core/merkle/merkle.go:16-21 | for one leaf the root hashes 0x00 and the leaf |
| `Merkle.PickSibling` | internal/core/merkle/merkle.go:68-77 | the neighbour by parity, the node itself at the end of an odd level |
| `Merkle.Path` | internal/core/merkle/merkle.go:57-83 | succeeds exactly for indices in range and then returns the siblings met level by level |
| `Merkle.Verify` | internal/core/merkle/merkle.go:85-105 | true exactly when climbing from the leaf along any path at any integer index reaches the root |
| `MerkleDigests.VerifiesNoStep` | internal/core/merkle/merkle.go:85-105 | with an empty path exactly the hash of 0x00 and the leaf is accepted |
| `MerkleDigests.VerifiesOneStep` | internal/core/merkle/merkle.go:85-105 | with one sibling exactly the hash of 0x01, the two digests, the sibling right of an even index and left of an odd one |
| `MerkleDigests.VerifiesLastStep` | internal/core/merkle/merkle.go:85-105 | with one step more, the side given by the index halved toward zero once per step |
| `Merkle.PathVerifies` | internal/core/merkle/merkle.go:31-105 | completeness: the path of every index of every nonempty list verifies against its root |
| `Merkle.PathLengthBounds` | internal/core/merkle/merkle.go:57-83 | path length 0 for one leaf, otherwise the k with 2^(k-1) < n <= 2^k |
| `MerkleBinding.RootBindsLeaf` | internal/core/merkle/merkle.go:85-105 | binding: whatever path and index verify, the leaf is in the list, at that index if it is in range, with the tree's path length, or the computed pair is a collision |
| `RootBinding.RootBindsList` | internal/core/merkle/merkle.go:31-43 | equally long lists with equal roots are equal, or the computed pair is a collision |
| `RootBinding.RootBindsLeaves` | internal/core/merkle/merkle.go:31-55 | any two nonempty lists with equal roots have the same leaves, one being a prefix of the other, and are equal if no leaf repeats, or the computed pair is a collision |
| `RootBinding.RootBindsLengthsExactly` | internal/core/merkle/merkle.go:31-55 | for lengths m and n of at least 1, equal roots force equal lists or a computed collision if and only if m and n are equal or their paths differ in length |
| `MerkleBinding.EmptyRootNeedsPreimage` | internal/core/merkle/merkle.go:31-34 | what verifies under the root of no leaves gives a preimage of 32 zero bytes |
| `RootBinding.RootOfOddListRepeatsLastLeaf` | internal/core/merkle/merkle.go:45-55 | the smallest instance of lengths that a root does not tell apart: three leaves and the same with the last repeated |
| `Canon.WriteBytes` | internal/core/canon/canon.go:45-50 | appends the length modulo 2^32 in four big-endian bytes and the bytes |
| `Canon.WriteInt64` | internal/core/canon/canon.go:52-56 | appends the two's-complement value in eight big-endian bytes |
| `Canon.WriteInt32` | internal/core/canon/canon.go:58-62 | appends the two's-complement value in four big-endian bytes |
| `Canon.Event` | internal/core/canon/canon.go:11-25 | the buffer ends up holding exactly the specified encoding of the event |
| `Canon.Grant` | internal/core/canon/canon.go:27-43 | the buffer ends up holding exactly the specified encoding of the grant |
| `CanonLayout.EventLayoutExact` | internal/core/canon/canon.go:11-25 | a byte string is an event's encoding if and only if each field stands at its place in order, after its length by weights, the numbers by weights, and the last eight bytes are worth the time in nanoseconds, or zero |
| `CanonLayout.GrantLayoutExact` | internal/core/canon/canon.go:27-43 | the same for a grant: ids, capabilities, globs, and value, depth and expiry by weights in the last 20 bytes |
| `CanonDecoding.ParseEventBack` | internal/core/canon/canon.go:11-25 | a parser inverts the encoding of every event with field lengths below 2^32 |
| `CanonDecoding.EventBytesDetermineCore` | internal/core/canon/canon.go:11-25 | unique decoding: equal bytes if and only if all eleven canonical fields are equal |
| `CanonDecoding.LongFieldsAreAmbiguous` | internal/core/canon/canon.go:45-50 | the length bound is needed: with a 2^32-byte id two different events have the same bytes |
| `CanonDecoding.ParseGrantBack` | internal/core/canon/canon.go:27-43 | a parser recovers from a grant's bytes its ids, the one list of names and the limits |
| `CanonDecoding.GrantBytesDetermineKernel` | internal/core/canon/canon.go:27-43 | exact kernel: equal bytes if and only if equal ids, equal capabilities followed by globs, equal limits and expiry nanoseconds |
| `CanonDecoding.StoreKeepsEventBytes` | internal/adapters/store/events.go:105-123 | the row mapping keeps canonical bytes exactly for whole microseconds |
| `CanonDecoding.StoreKeepsGrantBytes` | internal/adapters/store/grants.go:137-154 | the same for grants and their expiry, a nil scope included |
| `Seal.Seal` | internal/core/seal/seal.go:32-42 | sets content hash, previous hash and signature and nothing else |
| `Seal.SealKeepsFields` | internal/core/seal/seal.go:32-42 | the other fields are unchanged and the previous hash is that of the given event or zero |
| `Seal.VerifyLink` | internal/core/seal/seal.go:44-57 | no fault exactly when the content hash is the digest of the canonical bytes, the previous hash is that of the given event or 32 zero bytes, and the key verifies the signature over both; otherwise the first of the three faults |
| `Seal.SealedEventIsLinked` | internal/core/seal/seal.go:32-57 | what is sealed after an event passes `VerifyLink` against it |
| `Graph.CheckNonWidening` | internal/core/graph/graph.go:64-78 | true exactly when the parent's list is empty or contains the child's |
| `Graph.VerifyChain` | internal/core/graph/graph.go:22-51 | returns the first fault in the order of the code; without fault no expiry has passed and every grant is linked to the one before |
| `Graph.ChainVerdictExact` | internal/core/graph/graph.go:22-62 | no fault exactly for chains meeting the declarative specification |
| `Graph.ChainVerdictMeans` | internal/core/graph/graph.go:22-78 | no fault exactly, from the fields: a parentless root, the depth within the root's limit, no expiry before now, each grant naming the one before, listing nothing new below a list, and signed under "nal-notary-1" |
| `Graph.AcceptedUntilExpiry` | internal/core/graph/graph.go:53-62 | an accepted chain is accepted later if and only if no expiry has passed |
| `Graph.ExpiryIsInclusive` | internal/core/graph/graph.go:53-62 | at the earliest expiry the chain is accepted, a nanosecond later it is not |
| `Graph.FirstFaultIs` | internal/core/graph/graph.go:34-49 | with grants in order before i, the fault reported is i's expiry, then its parent, then a wider list, then its signature |
| `Graph.HasCapability` | internal/core/graph/graph.go:95-102 | membership in the list |
| `Graph.MatchesResource` | internal/core/graph/graph.go:104-111 | some glob matches |
| `Graph.MatchGlob` | internal/core/graph/graph.go:113-126 | the four branches amount to prefix matching for patterns ending in a star and equality otherwise |
| `Graph.Authorizes` | internal/core/graph/graph.go:80-93 | no fault exactly when capability, resource and value are all allowed by the grant's list, globs and amount, otherwise the first refusal |
| `Graph.PrefixHolds` | internal/core/graph/graph.go:22-62 | a prefix of an accepted chain is accepted at every time no later if and only if it is in depth, which all prefixes are for chains of at most 2^31 grants |
| `Graph.LongChainEscapesDepth` | internal/core/graph/graph.go:29-32 | beyond that the 32-bit comparison wraps: a chain of 2^31 + 1 signed grants is accepted at all times under a limit of one, and its prefixes of three grants or more are refused |
| `Graph.ExtensionHolds` | internal/core/graph/graph.go:22-62 | one more grant keeps a chain accepted if and only if it is unexpired, linked, signed, non-widening and in depth |
| `Graph.AttenuationExact` | internal/core/graph/graph.go:64-93 | along an accepted chain authority only shrinks if and only if no empty list hangs below a nonempty one |
| `Graph.LeafCapabilityInEveryAncestor` | internal/core/graph/graph.go:64-93 | with lists on all non-root grants, what the leaf authorizes is listed by every ancestor that has a list |
| `GrantTable.IssuedGrows` | internal/service/delegation.go:26-80 | storing a grant that the service builds under a fresh id appends it and keeps the forest |
| `GrantTable.ChainIsDelegated` | internal/service/delegation.go:26-80 | a stored grant's chain is nonempty, root-first, linked, of one project, principals the parents' subjects, all signed, ending at the grant |
| `GrantTable.GenerationsAreTheChain` | db/sqlc/grants.sql.go:39-54 | the recursive query adds the chain row by row and then stops |
| `GrantTable.QueryEndsExactly` | db/sqlc/grants.sql.go:39-54 | on any table the query ends if and only if it ends within as many rounds as there are rows |
| `GrantTable.IssuedQueryEnds` | db/sqlc/grants.sql.go:39-54 | on tables built by the delegation service every query ends |
| `GrantTable.AncestorChainIsPrefix` | db/sqlc/grants.sql.go:39-54 | the chain of each ancestor is the prefix ending at it |
| `GrantTable.StoredChainVerdict` | internal/core/graph/graph.go:22-62 | for stored grants only depth and capability lists decide, at all times alike |
| `GrantTable.AncestorChainsVerify` | internal/core/graph/graph.go:22-62 | when a stored grant's chain verifies, each ancestor's does, at any time, if and only if it is in depth, which holds for chains of at most 2^31 grants |
| `GrantTable.ReusedIdLoops` | db/sqlc/grants.sql.go:182-201 | an upsert under the parent's own id makes the recursion endless |
| `EventTable.BySessionMembers` | db/sqlc/events.sql.go:63-67 | the query returns the session's rows and no others |
| `EventTable.BySessionAscends` | db/sqlc/events.sql.go:63-67 | in strictly ascending order of sequence |
| `EventTable.SequenceGap` | internal/service/capture.go:75-96 | the i-th row carries sequence i + 1 plus the number of lower sequences without a row |
| `Stores.SessionStore.NextSequence` | db/sqlc/sessions.sql.go:148-160 | increments the counter in place and returns it, changing nothing on failure |
| `Stores.SessionStore.End` | db/sqlc/sessions.sql.go:47-52 | sets only the end time of an existing session, in whole microseconds, and returns the row |
| `Stores.GrantStore.Put` | internal/adapters/store/grants.go:24-46 | upserts the row with its defaults filled in |
| `Stores.GrantStore.Chain` | internal/adapters/store/grants.go:56-69 | on every table on which the query ends, follows parent ids over the whole table and returns the rows root first, not found when there is none |
| `Stores.EventStore.Append` | internal/adapters/store/events.go:15-36 | appends one row at the end, or fails and changes nothing when a key is taken |
| `Stores.EventStore.Last` | internal/adapters/store/events.go:46-52 | the session's row with the highest sequence, an error when there is none |
| `Stores.AnchorStore.Put` | internal/adapters/anchor/anchor.go:24-35 | overwrites the session's anchor only |
| `Services.NotaryCore.Checkpoint` | internal/service/notary.go:41-52 | stores the root of the session's content hashes in sequence order |
| `Services.NotaryCore.Notarize` | internal/service/notary.go:23-39 | seals after the last event, any failing read counting as none, appends and checkpoints |
| `Services.Capture.BeginSession` | internal/service/capture.go:29-48 | has exactly the effect and result of the operation `Begin` |
| `Services.Capture.EnsureNotRevoked` | internal/service/capture.go:118-129 | the loop refuses exactly when some grant of the chain is revoked |
| `Services.Capture.Authorize` | internal/service/capture.go:50-74 | the checks before the first write, in order, with their errors |
| `Services.Capture.RecordAction` | internal/service/capture.go:50-98 | has exactly the effect and result of the operation `Record`, which `Outcomes.RecordSucceedsExactly` and `Runs.RecordedEventIsStored` pin down |
| `Services.Capture.EndSession` | internal/service/capture.go:100-116 | has exactly the effect and result of the operation `End` |
| `Services.Delegation.Sign` | internal/service/delegation.go:121-128 | sets the signature over the canonical bytes |
| `Services.Delegation.IssueRootGrant` | internal/service/delegation.go:26-47 | has exactly the effect and result of the operation `IssueRoot` |
| `Services.Delegation.Delegate` | internal/service/delegation.go:49-80 | has exactly the effect and result of the operation `Delegate` |
| `Services.Delegation.Revoke` | internal/service/delegation.go:91-103 | records the revocation of an existing grant and changes nothing else |
| `Services.LedgerService.GetInclusionProof` | internal/service/ledger.go:32-67 | assembles the proof, index sequence - 1, anchor and chain left empty when their reads fail |
| `Runs.RunIsSound` | internal/service/capture.go:29-129 | every run with fresh ids keeps the forest, unique keys, sealed events under accepted chains of their own project, and past anchors |
| `Runs.RecordedEventIsStored` | internal/service/capture.go:50-98 | the returned event is the last row of table and session, says what was requested, and is of the clock's time cut to whole microseconds |
| `Outcomes.RecordSucceedsExactly` | internal/service/capture.go:50-98 | in a reachable state a recording succeeds if and only if its calls do, session and grant are there, of one project and accessible, the chain is in depth, widens nothing and is unrevoked, the leaf allows action, resource and amount, a number is left and the event id is new |
| `Outcomes.ForeignGrantIsRefused` | internal/service/capture.go:62-64 | a grant of another project is refused as permission denied with nothing changed |
| `Outcomes.RecordRefusals` | internal/service/capture.go:51-70 | a missing session or grant is not found; no access, an expired or a revoked grant is permission denied; nothing is changed |
| `Outcomes.RowBelongs` | internal/service/capture.go:62-91 | each row has its session's project and surface and the project of every grant of its chain |
| `Outcomes.RunKeepsProjects` | internal/service/capture.go:62-64 | after every run each row's project is its grant's |
| `Outcomes.InterleavingKeepsProjects` | internal/service/capture.go:62-64 | so it is after every interleaving |
| `Outcomes.IssueRootMeans` | internal/service/delegation.go:26-47 | succeeds exactly with access and a successful write, and stores a signed grant of the requested project, principal and scope |
| `Outcomes.DelegateMeans` | internal/service/delegation.go:49-80 | succeeds exactly for a stored, accessible, unrevoked parent, and stores a signed grant of its project, from its subject, with the requested subject, capabilities and scope |
| `Outcomes.DelegateRefusals` | internal/service/delegation.go:49-63 | a missing parent is not found, no access is permission denied, a revoked parent a failed precondition |
| `Outcomes.RevokeMeans` | internal/service/delegation.go:91-103 | succeeds exactly for a stored, accessible grant, records the reason, and changes nothing else |
| `Outcomes.BeginMeans` | internal/service/capture.go:29-48 | succeeds exactly for a stored, accessible grant and a new id, and opens an empty session of its project on the requested surface |
| `Outcomes.EndMeans` | internal/service/capture.go:100-116 | succeeds exactly for a stored, accessible session, and sets its end time and the anchor of its present rows with the time of anchoring |
| `Outcomes.ProofRefusals` | internal/service/ledger.go:32-47 | a missing event is not found, a failed read or an index outside the log is an internal error, otherwise there is a proof of the event |
| `Runs.RecordAppendsAtEnd` | internal/service/notary.go:23-39 | a session's log only gains the new event at its end |
| `Runs.RunAppends` | db/sqlc/events.sql.go:63-67 | over any run each session's log only grows at its end |
| `Runs.EndingIsNotLookedAt` | internal/service/capture.go:50-98 | whether and when a session ended changes neither the result nor the effect of a recording |
| `Runs.RecordLinksExactly` | internal/service/notary.go:23-39 | one recording keeps a linked log linked if and only if it read the last event, or there was none, or its hash is zero |
| `Runs.RunIsHashChained` | internal/service/notary.go:23-39 | in runs of whole operations whose last-event reads fail only on empty sessions, every event passes `VerifyLink` against its predecessor; `Exclusive.ExclusiveSessionIsChained` is the same per session with other sessions overlapping |
| `Runs.DelegationExtendsChain` | internal/service/delegation.go:49-80 | a delegated grant's chain is its parent's and itself, with the requested subject and capabilities |
| `LosslessRuns.LosslessRecordIsWhole` | internal/service/capture.go:75-97 | without losses a recording changes nothing or stores number, event and the anchor of all rows |
| `LosslessRuns.RunIsComplete` | internal/service/capture.go:50-116 | after lossless runs of whole operations sequences are exactly 1 to n and the anchor is the present root, in every session; `Interleavings.QuiescentSessionCount` and `Exclusive.ExclusiveSessionIsAnchored` are the same per session with other sessions overlapping |
| `LosslessRuns.CompletedOperationAnchors` | internal/service/notary.go:41-52 | a completed recording or ending leaves the root of the session's present rows, whatever failed before |
| `Revocation.NothingRecordedUnderRevoked` | internal/service/capture.go:55-70 | once g is revoked, no later operation of any run records under a chain that contains g |
| `Concurrency.LateRecordingIsBlocked` | internal/service/capture.go:118-129 | in every interleaving a recording started after the revocation never passes its check |
| `LateRows.LateRowWasChecked` | internal/service/capture.go:66-94 | in every interleaving each further row under a revoked g is the insert of an operation past its check of g when g was revoked and in flight ever since |
| `LateRows.OneLateRowEach` | internal/service/capture.go:66-94 | each such operation inserts at most one such row |
| `LateRows.NothingInFlightNothingLate` | internal/service/capture.go:66-94 | in particular, if none was past its check, no later row of any interleaving comes under g; `LateInserts.LateRowsExactly` is the exact condition |
| `LateInserts.LateRowsExactly` | internal/service/capture.go:50-98 | with g revoked, some interleaving adds a row under g if and only if a recording in flight is past its check of g, has no revoked grant ahead, is allowed its action, has a number to take, and, once it has its event id, no row has that id |
| `LateInserts.InsertsWhenAlone` | internal/service/capture.go:75-96 | taken alone from there, such a recording inserts the next row |
| `Concurrency.UninterruptedRecordingIsRecord` | internal/service/capture.go:50-98 | the steps of one recording without interruption have exactly the effect of `Record` |
| `Concurrency.UninterruptedEndIsEnd` | internal/service/capture.go:100-116 | the steps of one ending without interruption have exactly the effect of `End` |
| `Concurrency.UninterruptedDelegateIsDelegate` | internal/service/delegation.go:49-80 | the steps of one delegation without interruption have exactly the effect of `Delegate` |
| `SplitReads.RecordReadsMerge` | internal/service/capture.go:51-65 | a session read earlier than the chain gives the same admission and draft as both read later |
| `SplitReads.DelegateReadsMerge` | internal/service/delegation.go:49-63 | a parent read earlier than its revocation gives the same grant as both read later |
| `SplitReads.SingleReadsMerge` | internal/service/capture.go:29-48 | a grant read earlier than the write after it makes no difference to beginning a session or to revoking |
| `SplitReads.EndReadsMerge` | internal/service/capture.go:100-116 | a session read earlier than its update makes no difference to ending it |
| `StoreCalls.CallsRefineMachine` | internal/service/capture.go:29-116 | every interleaving of single store calls has the tables of an interleaving of the joined steps, so that what every interleaving keeps is kept call by call |
| `Interleavings.NextKeepsInv` | internal/service/capture.go:75-93 | each step of each operation, and stopping at any step, keeps the invariant |
| `Interleavings.EveryInterleavingKeepsInv` | internal/service/notary.go:23-52 | in every interleaving sequences are distinct and given out, previous hashes are zero or of earlier rows, anchors are past roots, each number is in a row, in flight or lost |
| `Interleavings.InsertRefusedOnlyById` | db/sqlc/sessions.sql.go:148-153 | concurrent recordings never collide on (session, sequence) |
| `Interleavings.QuiescentSessionIsWhole` | internal/service/ledger.go:41-50 | at rest without losses, index sequence - 1 is each event's place and its path verifies |
| `Interleavings.QuiescentSessionCount` | db/sqlc/sessions.sql.go:148-153 | at rest without losses a session has as many rows as numbers given out |
| `Growth.ExecGrows` | internal/service/notary.go:23-39 | every interleaving from a state with the invariant keeps it, appends rows and grants, and takes no revocation or session back |
| `HashClashes.ClashIsGenuine` | internal/core/seal/seal.go:32-42 | content hashes of a log are distinct and nonzero, or the computed evidence is genuine |
| `HashClashes.LinkedInOrder` | internal/service/notary.go:23-39 | a linked log without clashes stands in the order of its insertion |
| `Overlap.InsertKeepsLinkedExactly` | internal/service/notary.go:23-39 | in every interleaving an insert keeps a linked log linked if and only if no row of the session came since the last event was read and none has a higher number, or the computed evidence is genuine |
| `Overlap.PublishAnchorsExactly` | internal/service/notary.go:41-52 | in every interleaving a stored anchor is the root of the present rows if and only if no row of the session came since the rows were read, or the computed evidence is genuine |
| `HashClashes.InsertKeepsBroken` | internal/service/notary.go:23-39 | an insert does not mend a broken log without a clash of content hashes |
| `LinkHistory.LinkedExactly` | internal/service/notary.go:23-39 | after every interleaving a session's log is linked if and only if every insert of the session was current, or the computed evidence is genuine |
| `Exclusive.ExclusiveSessionIsChained` | internal/service/notary.go:23-39 | in every interleaving with one operation at a time on the session and readable last events, its events pass `VerifyLink` against their predecessors |
| `Exclusive.PublishInTurnAnchors` | internal/service/notary.go:41-52 | in such an interleaving a stored anchor is the root of the present rows, whatever failed before |
| `Exclusive.ExclusiveSessionIsAnchored` | internal/service/notary.go:41-52 | in such an interleaving without dropped checkpoints the anchor is the root of the present rows whenever none is pending |
| `Exclusive.ExclusiveSessionConvinces` | internal/service/ledger.go:32-67 | completeness per session: at rest without losses the proof of each of its events verifies at every time, whatever other sessions do |
| `Races.OverlapBreaksChainAndAnchor` | internal/service/notary.go:23-52 | a reachable run of two overlapping recordings with nothing lost or in flight, in which the second is not linked to the first and the anchor is stale, up to a computed collision |
| `Races.EndOverlapBreaksAnchor` | internal/service/capture.go:108-114 | a reachable run of one recording and one ending, with nothing lost or in flight, whose anchor is stale, up to a preimage of 32 zero bytes |
| `Races.RevokedGrantRecords` | internal/service/capture.go:66-94 | a reachable state from which a recording past its check appends a row under an already revoked grant |
| `Races.EndedSessionRecords` | internal/service/capture.go:50-98 | a reachable state with an ended session in which a recording succeeds |
| `Witnesses.EmptyListWidens` | internal/core/graph/graph.go:64-66 | a chain that the service stores and `VerifyChain` accepts at every time, in which a leaf with an empty list allows everything under a parent limited to one capability |
| `Witnesses.LostNumberLosesProof` | internal/service/ledger.go:41-50 | a reachable ledger whose only event has number 2 after a failed insert and has no proof |
| `Receipts.Verify` | internal/receipt/receipt.go:46-76 | from the fields of the receipt: content is the digest of the canonical bytes, the signature verifies under the receipt's key, the path verifies at sequence - 1, the anchor's root is the proof's, the chain is without fault and ends at the grant, and the verdict is all five; unreadable receipts are errors |
| `Receipts.Authority` | internal/service/verify.go:52-60 | true exactly for a nonempty accepted chain ending at the grant |
| `Receipts.VerifyProof` | internal/service/verify.go:25-50 | its answers from the fields under the notary's key, its reason, and that valid and anchored together are the offline verdict |
| `Receipts.ConvincesMeans` | internal/receipt/receipt.go:58-74 | what a true verdict means from the fields of the proof, the verified signature among them |
| `Tampering.ForgeSignature` | internal/receipt/receipt.go:62-63 | a recorded event's receipt with a signature that the key rejects fails in both verifiers for this and no other reason |
| `Tampering.ChangeContent` | internal/receipt/receipt.go:58-60 | with other canonical fields under the recorded hash it fails in both, or the bytes collide |
| `Tampering.ChangeAnchor` | internal/receipt/receipt.go:68-68 | with another anchor's root or none it is not anchored, and the service still answers valid |
| `Tampering.ExpiredGrant` | internal/core/graph/graph.go:53-62 | no receipt with a grant past its expiry has authority or a true verdict |
| `ReceiptProofs.ConvincingMeansRecorded` | internal/receipt/receipt.go:58-74 | soundness: a convincing proof under the root of a nonempty sealed log has a twin in the log on every canonical field, or the computed pair is a collision |
| `ReceiptProofs.ConvincingMeansInLedger` | internal/receipt/receipt.go:58-74 | the same for every root the ledger had at any moment of any run |
| `ReceiptProofs.AnchoredMeansInLedger` | internal/adapters/anchor/anchor.go:24-35 | the same for the root of a stored anchor; under an empty session's anchor the proof gives a preimage of 32 zero bytes |
| `ReceiptProofs.HistoryIsNotChecked` | internal/receipt/receipt.go:52-66 | a convincing proof convinces with any other previous hash that the notary signed |
| `ReceiptProofs.RightIndexIncluded` | internal/service/ledger.go:41-50 | with no lower sequence lost, the index is the event's place and its path verifies |
| `ReceiptProofs.ProofConvincesExactly` | internal/service/ledger.go:32-67 | a logged event's proof verifies, at any time, if and only if the reads succeed, no lower sequence was lost and the anchor is the present root, or the computed pair is a collision |
| `ProofReads.InterleavedProofExactly` | internal/service/ledger.go:32-67 | whatever happens between the four reads, the proof convinces at any time if and only if the reads succeed, no lower sequence is missing in the rows as read and the anchor as read is their root, or the computed pair is a collision |
| `ReceiptProofs.RecordedMeansConvincing` | internal/receipt/receipt.go:34-76 | completeness: after every lossless run the receipt of every recorded event gets a true verdict at every time |
| `ReceiptProofs.DelegationsNeedNotaryKeyId` | internal/receipt/receipt.go:55-72 | a delegated grant has authority only in a receipt under the notary's key id |
| `Paging.ClampPageSize` | internal/pagination/cursor.go:39-44 | a valid request is kept, and any other, zero and below included, becomes the maximum |
| `Paging.List` | internal/adapters/store/events.go:78-103 | reading one row more than the page yields the page and the next cursor |
| `Paging.PagingReturnsAll` | internal/adapters/store/events.go:78-103 | on a fixed table following the cursors ends and returns every row once, in order |
| `Paging.PagingReturnsWhatStays` | db/sqlc/events.sql.go:213-221 | whatever is inserted between fetches, ids never repeat, descend, and include every id present throughout |

## Left out

- Library code: SHA-256, Ed25519, base64, JSON, bcrypt and JWT are abstract; marshalling round-trips. A
  public key that is not 32 bytes makes the Ed25519 library panic, which is not modelled.
- Aliasing: records are values, so `Seal` and `sign` return the updated record instead of writing through
  a pointer.
- `ensureProjectAccess`, `requireUser` and error kinds: access is one boolean, and errors keep
  only their kind, with a missing user folded into the denied permission.
- Project ids are taken as canonical UUIDs; the mapping of other strings to NULL is not modelled.
- The kind and receipt text of an anchor, the whole microseconds that the database store keeps of its
  time, and the lock around the in-memory map.
- The direct `Notarize` RPC, whose caller picks the sequence: the ledger's claims are about Capture runs.
- `Services.Capture.RecordAction`: where the recursive query ends; on a cyclic parent relation it runs
  until its 32-bit depth overflows, and the call returns that error. The same for
  `Services.Capture.Authorize` and `Services.LedgerService.GetInclusionProof`.
- `CanonDecoding.EventBytesDetermineCore`: for field lengths below 2^32 only, because beyond it is false;
  for the same reason `CanonDecoding.GrantBytesDetermineKernel`.
- `Graph.ExtensionHolds`: says nothing of a chain of 2^31 grants or more that is out of depth already.
- `ReceiptProofs.ConvincingMeansRecorded`: for nonempty logs, because the root of no leaves commits to
  nothing (`MerkleBinding.EmptyRootNeedsPreimage`), and for fields below 2^32 bytes, like
  `ReceiptProofs.ConvincingMeansInLedger`, `ReceiptProofs.ProofConvincesExactly`,
  `ProofReads.InterleavedProofExactly`, `Overlap.InsertKeepsLinkedExactly`, `Overlap.PublishAnchorsExactly`
  and `LinkHistory.LinkedExactly`.
- Limits and globs along a chain: the code checks them on the leaf only.
- Replay, analytics, users, gateway, interceptors and the frontend.
