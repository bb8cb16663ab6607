# Verified model of the consensus client

This project models the parts of the client that decide which blocks are valid, which chain is
canonical, and when a block is final, and proves what they promise.

| files | what they model |
|---|---|
| `Primitives`, `ByteOrder`, `Turns` | addresses, hashes, headers, sorted address lists; byte order; whose turn it is |
| `Clique`, `CliqueApply` | the Clique snapshot: votes, tallies, recent signers, epoch resets, header verification; `CliqueApply` holds the in-place form |
| `CliqueStep`, `CliqueVotes`, `CliqueRecents`, `CliqueCheckpoint`, `CliqueChain` | what one header does, exactly; vote bookkeeping and the majority rule, the recent-signer window, checkpoints, whole verified chains |
| `ForkTree`, `ForkChoice` | the heaviest-chain block tree as a function of the blocks accepted so far, and the store that maintains it in place |
| `Journal`, `Recovery` | the append-only block journal as a byte file, its repair, and restart after a crash |
| `SnapshotCache`, `Node`, `Sync` | the node's snapshot cache, block import, and catching up with a peer |
| `Qbft`, `QbftCore`, `QbftCertificates` | the QBFT core of one view: what each message does, and the object that does it in place; when a certificate is determined |
| `QbftHistory` | a core's state and decisions in terms of the inputs it has been given |
| `QbftNetwork`, `QbftCarryOver` | all validators of a view over an unreliable network with faulty members; what survives into the next round |
| `QbftProgress`, `QbftLeaving` | a view can always decide on a good proposal, and can always be left for the next |
| `QbftRounds`, `QbftDriver` | round-change certificates, the backlog, and the loop over rounds |
| `QbftHeader`, `QbftFinality` | QBFT headers, seals and their verification; committed headers are accepted by followers |

How the outside world enters the model:

- A hash is the header it is the hash of (`HashOf`), so hashing is injective and never zero.
- RLP, JSON and ECDSA are function parameters with the laws the code relies on: decoding undoes
  encoding, and a signature recovers to its signer.
- A QBFT message stands for its decoded content; a message or header that does not decode is a value
  of its own.
- The execution client's verdict on a payload, the blocks a proposer builds, the messages that arrive
  and the firing of the round timer are inputs.
- Each public operation is one atomic step; the journal is written before the tables it describes.

Ghost parameters named `g`, `p`, `q` are the genesis header and canonical chains; they carry no
information the program does not already have.

Several results show a promise failing, with the exact boundary:

- `CliqueRecents.RemovalCanStrandTheChain`: after a removal, replay can refuse every header although
  verification admits one. `CliqueRecents.ReplayRefusesIff` says exactly whom replay refuses, and
  `CliqueRecents.RecencyTestsAgree` proves agreement for runs without removals.
- `Sync.ReorganisationStalesCache`: a sync response that reorganises the chain can leave snapshots of
  the old branch in the cache. `Sync.ImportBlock` keeps the cache coherent exactly under `KeepsCache`.
- `Sync.SyncWithPeer`: syncing ends on the provider's chain exactly when the provider is past genesis
  or the requester was on that chain already.
- `Journal.FrameReadsBackIff`: a journal record reads back exactly when its body is shorter than 2^32
  bytes.
- `QbftFinality.EmptySealCommits`: a COMMIT with an empty seal is counted unchecked, and a header
  committed on one is refused. `QbftFinality.CommitIsAcceptedIff` is the exact condition.
- `QbftNetwork.PanicIsReachable`: a COMMIT for the zero hash can reach a core that has no proposal to
  check it against. `Qbft.PanicsIff` is the exact condition.
- `QbftCertificates.UnpreparedAreTied`: sorting certificates by bytes does not make them independent
  of map order. `QbftCertificates.CertificateIsDeterminedIff` is the exact condition.

Where comments and code disagree the code is modelled: the reorganisation depth is the distance from
the common ancestor up to the new head (`internal/forkchoice/store.go:426`), not the number of blocks
unwound (`internal/forkchoice/store.go:113-115`).

## Model

| member | source | states |
|---|---|---|
| `CliqueApply.Working.constructor` | internal/consensus/clique/snapshot.go:87-112 | a working copy starts equal to the snapshot it was copied from |
| `CliqueApply.Working.CastVote` | internal/consensus/clique/snapshot.go:166-173 | adding a vote updates the one tally entry in place as the value-level rule says |
| `CliqueApply.Working.UncastVote` | internal/consensus/clique/snapshot.go:177-187 | retracting a vote lowers the tally, drops it at zero, and ignores a vote of the other direction |
| `CliqueApply.Working.ReadSigners` | internal/consensus/clique/snapshot.go:215-221 | the loop over the extra data installs exactly the signer set encoded there |
| `CliqueApply.Working.DiscardPrevious` | internal/consensus/clique/snapshot.go:258-266 | the earlier vote of the same signer on the same candidate, if any, is removed and uncounted |
| `CliqueApply.Working.ForgetRecents` | internal/consensus/clique/snapshot.go:284-289 | exactly the removed signer's recent entries go |
| `CliqueApply.Working.DropVotesBy` | internal/consensus/clique/snapshot.go:290-297 | in-place deletion with index step-back removes exactly the votes cast by the removed signer, uncounting each |
| `CliqueApply.Working.DropVotesFor` | internal/consensus/clique/snapshot.go:299-305 | the same for the votes on the resolved candidate |
| `CliqueApply.Working.ResolveVote` | internal/consensus/clique/snapshot.go:279-307 | a passed vote changes the signer set and clears recents, votes and tally as the value-level rule says; `CliqueStep.StepVotesIff` says which votes are left |
| `CliqueApply.Working.RecordVote` | internal/consensus/clique/snapshot.go:269-308 | a valid vote is recorded, counted, and resolved on a majority |
| `CliqueApply.Working.ApplyHeader` | internal/consensus/clique/snapshot.go:209-313 | one header takes the working copy where the value-level step goes, or fails with the same error |
| `CliqueApply.Apply` | internal/consensus/clique/snapshot.go:192-316 | applying a header list in place computes the replay of that list, including every error |
| `CliqueStep.StepAcceptsIff` | internal/consensus/clique/snapshot.go:209-245 | replay takes a header iff it is long enough for its number, its seal recovers to a signer in force, and no recent entry blocks that signer; the first that fails is the error |
| `CliqueStep.StepRecentsIff` | internal/consensus/clique/snapshot.go:226-289 | afterwards the window holds the header's signer and every older entry, but for the one that fell out and those of a signer the header removes |
| `CliqueStep.StepVotesIff` | internal/consensus/clique/snapshot.go:247-308 | afterwards the pending votes are exactly the old ones the header does not revoke and the one it casts, but for those it settles; after a checkpoint there are none |
| `CliqueStep.PendingIff` | internal/consensus/clique/snapshot.go:192-316 | in any run from a snapshot without votes, a vote is pending iff some header cast it and none since has ended it |
| `CliqueStep.RunKeepsOrder` | internal/consensus/clique/snapshot.go:269-276 | and the votes are listed in block order, which determines the list |
| `CliqueStep.SignersInIff` | internal/consensus/clique/snapshot.go:52-84 | a checkpoint's signers are exactly the addresses packed one after another in its extra data |
| `CliqueStep.OrderIsByteOrder` | internal/consensus/clique/snapshot.go:116-125 | the numbers that stand for addresses are ordered as their bytes are |
| `CliqueVotes.StepKeepsBooks` | internal/consensus/clique/snapshot.go:209-313 | one header keeps the books: distinct (signer, candidate) pairs, voters are signers, directions fit membership, each tally equals the number of listed votes |
| `CliqueVotes.ReplayKeepsBooks` | internal/consensus/clique/snapshot.go:192-316 | so does every accepted header sequence |
| `CliqueVotes.CheckpointIsBooked` | internal/consensus/clique/snapshot.go:52-84 | genesis and checkpoint snapshots start with the books in order |
| `CliqueVotes.StepChangesSignersIff` | internal/consensus/clique/snapshot.go:255-308 | a non-epoch header changes the signer set iff its vote brings the distinct voters above half, and then by that one address |
| `CliqueVotes.PendingVotesAreBacked` | internal/consensus/clique/snapshot.go:247-276 | every listed vote stems from a header of the current epoch by that signer, naming that address and direction |
| `CliqueVotes.MajorityRule` | internal/consensus/clique/snapshot.go:247-308 | over any replay from a fresh snapshot, a change of signers is backed by headers of the current epoch from more than half of the signers, all distinct |
| `CliqueRecents.SignerSpacing` | internal/consensus/clique/snapshot.go:226-245 | in every run whose checkpoints carry the current signers, two blocks of a signer not removed in between are at least N/2+1 apart, N being the signer count at the later block |
| `CliqueRecents.ReplaySpacing` | internal/consensus/clique/snapshot.go:192-245 | the same spacing in every successful replay, in terms of the snapshots after its prefixes |
| `CliqueRecents.ReplayRefusesIff` | internal/consensus/clique/snapshot.go:148-156 | on any snapshot, replay's scan refuses a signer iff verification's recency test does or an entry of that signer is older than the window |
| `CliqueRecents.RecencyTestsAgree` | internal/consensus/clique/clique.go:213-223 | without removals, replay admits the next header iff its signer is authorised and passes the verification test |
| `CliqueRecents.SomeoneMaySign` | internal/consensus/clique/snapshot.go:226-245 | with all entries inside the window, a non-empty signer set has a signer replay admits |
| `CliqueRecents.SomeoneMayAlwaysSign` | internal/consensus/clique/snapshot.go:226-245 | so in every run without removals somebody may sign next |
| `CliqueRecents.StuckForever` | internal/consensus/clique/snapshot.go:226-245 | an entry the window has moved past stays for good and its signer signs no later block |
| `CliqueRecents.RemovalCanStrandTheChain` | internal/consensus/clique/snapshot.go:282-289 | a two-signer run of three headers that all pass verification, after whose second no header at all can be applied |
| `CliqueCheckpoint.StepKeepsAgreement` | internal/consensus/clique/snapshot.go:209-313 | snapshots that agree on all but a smaller recents map still do after a step, and the step works on the smaller one |
| `CliqueCheckpoint.CheckpointRefinesReplay` | internal/consensus/clique/snapshot.go:76-84 | if replay from genesis succeeds, replay from any well-formed epoch header does, with equal number, hash, signers, votes and tally, and recents a subset |
| `CliqueCheckpoint.VerifyKeepsAgreement` | internal/consensus/clique/clique.go:150-233 | a header accepted on the full replay is accepted on the checkpoint's snapshot |
| `CliqueCheckpoint.BuildExtra` | internal/consensus/clique/api.go:78-87 | the loop packs vanity, the sorted signers at an epoch, and room for the seal |
| `CliqueCheckpoint.CheckpointRoundTrip` | internal/consensus/clique/clique.go:157-174 | the sealed epoch extra passes the length rule, and applying the header reads back exactly the signer set with votes and tally cleared |
| `CliqueChain.VerifyHeaderIff` | internal/consensus/clique/clique.go:150-233 | exactly the headers that pass: extra data of the right length, no uncles, no mix digest, a legal nonce, the period kept, and sealed by a signer in force that has not signed lately, with difficulty 2 in turn and 1 out of turn |
| `CliqueChain.InTurnIff` | internal/consensus/clique/snapshot.go:135-143 | a signer is in turn iff it is authorised and the number of signers below it is the block number modulo their count |
| `CliqueChain.VerifiedChainWeight` | internal/consensus/clique/clique.go:116-123 | a verified chain weighs one per block and one more per block sealed in turn |
| `CliqueChain.VerifiedChainTime` | internal/consensus/clique/clique.go:150-233 | block n of a verified chain is at least n * period later than genesis |
| `CliqueChain.EveryoneGetsATurn` | internal/consensus/clique/snapshot.go:135-143 | among any N consecutive numbers each of the N signers is in turn exactly once |
| `ForkTree.BestIsHeaviest` | internal/forkchoice/store.go:163-166 | no accepted block outweighs the head |
| `ForkTree.TiesKeepFirst` | internal/forkchoice/store.go:163-166 | among equal weights the block that came first stays the head |
| `ForkTree.StateIsDetermined` | internal/forkchoice/store.go:44-79 | the whole store state is determined by the accepted blocks in order |
| `ForkTree.TablesHoldRecords` | internal/forkchoice/store.go:149-155 | the tables hold the EL hash and the payload each block was accepted with; genesis is its own EL block |
| `ForkTree.ForkSplits` | internal/forkchoice/store.go:438-469 | two stored chains agree up to the fork and share no block after it |
| `ForkTree.DepthIsZeroIffChild` | internal/forkchoice/store.go:369-436 | the reported depth is zero iff the new head is a child of the old one |
| `ForkTree.DepthCountsNewBlocks` | internal/forkchoice/store.go:388-426 | for a move to another branch the depth is the number of blocks of the new chain that were not on the old one |
| `ForkTree.CanonMoves` | internal/forkchoice/store.go:130-176 | a submission leaves the canonical chain the same, one longer, or on a branch ending in the submitted block with non-zero depth |
| `ForkTree.ChildTakesHead` | internal/forkchoice/store.go:130-176 | a child of the head with positive difficulty cannot be known already and becomes the head |
| `ForkTree.SafeNumber` | internal/forkchoice/store.go:482-489 | the safe block's number never exceeds the head's |
| `ForkTree.FinalNumber` | internal/forkchoice/store.go:491-501 | the finalized block's number never exceeds the head's |
| `ForkTree.SafeIsLastBoundary` | internal/forkchoice/store.go:482-489 | the safe number is the last multiple of the epoch length at or below the head |
| `ForkTree.FinalIsTwoEpochsBack` | internal/forkchoice/store.go:491-501 | the final number is two epochs below the safe number, or genesis while there are fewer |
| `ForkTree.SafeAndFinalizedAreAncestors` | internal/forkchoice/store.go:474-502 | in every state the finalized block is an ancestor of the safe block, which is an ancestor of the head, at their numbers |
| `ForkTree.ExtensionKeepsIndexIff` | internal/forkchoice/store.go:374-378 | entering a block on top of the chain keeps the index exact iff the block is numbered one above the head, which the store does not check |
| `ForkTree.RunIsLog` | internal/forkchoice/store.go:130-176 | any sequence of submissions, in any order and with repetitions, leaves a log in which parents come before children |
| `ForkTree.ReplayAcceptsAll` | internal/node/sync.go:34-40 | replaying a log into a fresh store skips nothing |
| `ForkTree.PrefixIsEarlier` | internal/node/sync.go:34-40 | every prefix of a run's log is the log at an earlier moment of the run |
| `ForkChoice.Store.constructor` | internal/forkchoice/store.go:84-108 | a new store is the state of the empty log |
| `ForkChoice.Store.Reset` | internal/forkchoice/store.go:314-334 | in place, the tables become the state of the empty log; the journal fits them iff it was emptied |
| `ForkChoice.Store.SetDB` | internal/forkchoice/store.go:303-307 | attaching a journal leaves the tables alone, and it fits them iff it holds the accepted blocks |
| `ForkChoice.Store.BlocksInRange` | internal/forkchoice/store.go:339-361 | returns exactly the canonical headers and EL hashes of the numbers asked for that exist |
| `ForkChoice.Store.FindCommonAncestor` | internal/forkchoice/store.go:442-469 | terminates with the highest common block of the two chains |
| `ForkChoice.Store.Uncanonise` | internal/forkchoice/store.go:398-406 | removes exactly the old chain's numbers above the ancestor |
| `ForkChoice.Store.Canonise` | internal/forkchoice/store.go:408-421 | the index then holds exactly the new chain |
| `ForkChoice.Store.UpdateSafeFinalized` | internal/forkchoice/store.go:474-502 | safe and finalized are the head's ancestors at (head/epoch)*epoch and max(0, head/epoch - 2)*epoch |
| `ForkChoice.Store.Reorganise` | internal/forkchoice/store.go:388-426 | moves the index from one chain to the other, shorter or longer, and reports the height above the fork |
| `ForkChoice.Store.SetHead` | internal/forkchoice/store.go:369-436 | head, index, safe and finalized all follow the new chain |
| `ForkChoice.Store.Enter` | internal/forkchoice/store.go:149-155 | records a block with its total difficulty and nothing else |
| `ForkChoice.Store.Settle` | internal/forkchoice/store.go:163-176 | the head moves iff the block is strictly heavier, and the tables stand for the longer log |
| `ForkChoice.Store.AddBlock` | internal/forkchoice/store.go:130-176 | the store is again exactly the state its log stands for: weights, index, head, safe, finalized, journal; known blocks are no-ops and unknown parents errors; the reported move is the real one |
| `Journal.FrameReadsBackIff` | internal/forkchoice/db.go:105-127 | a record reads back iff its body is shorter than 2^32 bytes |
| `Journal.CutKeepsCompleteRecords` | internal/forkchoice/db.go:74-100 | wherever the file is cut, the usable part is exactly the complete records, and it reads back as those records |
| `Journal.ChainDB.Open` | internal/forkchoice/db.go:56-70 | opening any file keeps its usable prefix; opening a cut journal leaves exactly the complete records |
| `Journal.ChainDB.Repair` | internal/forkchoice/db.go:74-100 | the scan truncates at the end of the last usable record |
| `Journal.ChainDB.Append` | internal/forkchoice/db.go:105-127 | appends one record and nothing else |
| `Journal.ChainDB.ReadAll` | internal/forkchoice/db.go:132-164 | returns the records of the file in order and leaves the cursor at its end |
| `Journal.ChainDB.Truncate` | internal/forkchoice/db.go:168-176 | leaves an empty journal |
| `SnapshotCache.CheckpointIsFaithful` | internal/node/node.go:386-395 | the snapshot of a checkpoint header on the chain agrees with replay from genesis |
| `SnapshotCache.ChildIsFaithful` | internal/node/node.go:366-372 | one step from a faithful snapshot is faithful, and works if the child replays from genesis |
| `SnapshotCache.ReplayAlong` | internal/node/node.go:401-413 | replaying canonical headers from a faithful snapshot is faithful, and works if the last one replays from genesis |
| `SnapshotCache.VerifiedIsComputable` | internal/node/node.go:374-413 | on a chain of verified headers every snapshot can be computed from its checkpoint |
| `SnapshotCache.CoherentIffBelowFork` | internal/node/block_processor.go:91-99 | moving to another chain without clearing the cache keeps it coherent iff no epoch entry is above the fork |
| `Node.Node.constructor` | internal/node/node.go:104-223 | a new node is at genesis with a coherent cache, and its store has the engine's epoch |
| `Node.Node.SetHeadSnapshot` | internal/node/node.go:351-359 | installs the snapshot, caches it at an epoch boundary, and keeps the cache coherent if it is a faithful snapshot of a canonical block |
| `Node.Node.Base` | internal/node/node.go:374-400 | the snapshot to start from belongs to the canonical block of that number |
| `Node.Node.CollectHeaders` | internal/node/node.go:401-409 | collects exactly the canonical headers of the range, or reports that one is missing |
| `Node.Node.ComputeSnapshot` | internal/node/node.go:363-414 | with a coherent cache, what it returns agrees with replay from genesis on signers, votes and tally, and for a canonical block that replays it does return; with any cache, entries are only added |
| `Node.Node.ComputeSnapshotAt` | internal/node/block_processor.go:176-194 | the same for a stored block, through the genesis and head shortcuts |
| `Node.Node.CheckBlock` | internal/node/block_processor.go:51-76 | refuses unknown parents; otherwise decides on the snapshot of the parent as header verification says, and with a coherent cache that snapshot agrees with replay |
| `Node.CheckFacts` | internal/node/block_processor.go:51-76 | so the refusal, if any, is the first check that fails on the right snapshot, what is admitted passes on the replayed one, and a verified child of a canonical block is never refused |
| `Node.AdmittedIsAuthorised` | internal/node/block_processor.go:64-76 | an admitted child of a canonical block is by a signer authorised by the full replay up to its parent, with the difficulty that replay calls for, and that has not signed lately since the last checkpoint |
| `Node.CacheMoves` | internal/node/block_processor.go:78-99 | dropping the epoch snapshots exactly when a depth is reported keeps the cache on the canonical chain |
| `Node.Node.HandleBlock` | internal/node/block_processor.go:27-171 | whatever the outcome, the store is the state of its log and every cached snapshot agrees with replay on the canonical chain; a block is stored iff the checks admit it; the outcome says exactly whether the head moved, whether the execution client accepted, and whether the head snapshot followed, which for a verified block it does |
| `Node.OutcomeIff` | internal/node/block_processor.go:78-171 | for an admitted block: SideChain iff the head is as before, PayloadRejected iff it moved and the client refused, Imported with the block's own snapshot as head snapshot otherwise, unless that snapshot cannot be computed |
| `Sync.Locate` | internal/node/sync.go:254-269 | a reset is asked for iff the requester's head is not on the provider's chain |
| `Sync.HandleSyncRequest` | internal/node/sync.go:248-292 | answers with the next canonical blocks as stored, at most 2048 |
| `Sync.RequestFromTip` | internal/node/sync.go:99-103 | a request from the tip of a chain diverges iff that chain is not a prefix of the provider's |
| `Sync.ResetChain` | internal/node/sync.go:169-181 | journal, store and cache all go back to genesis |
| `Sync.ImportBlock` | internal/node/sync.go:195-240 | for any block with a known parent, the store stays the state of its log, the block is stored iff the checks and the execution client admit it, and a coherent cache stays coherent iff KeepsCache holds: no epoch entry above the fork, and no side-branch snapshot cached |
| `Sync.ImportKeepsIff` | internal/node/sync.go:230-240 | the exact condition, including entries the import itself overwrites |
| `Sync.ReorganisationStalesCache` | internal/node/sync.go:230-240 | a concrete pair of siblings after which the cache no longer fits the chain |
| `Sync.ImportSyncBlocks` | internal/node/sync.go:189-243 | whatever the response, the store stays the state of its log; a response along the provider's chain moves the requester along it with a coherent cache, in full, or up to the first block that is not verified or whose payload is refused |
| `Sync.SyncRound` | internal/node/sync.go:98-139 | one round completes the sync, or leaves the requester strictly less behind, or fails at a block that is not verified or whose payload is refused, with everything before it imported |
| `Sync.SyncWithPeer` | internal/node/sync.go:84-140 | terminates; on success the canonical chain is the provider's if that is past genesis and unchanged otherwise, and a head snapshot that was in step still is; fails only at an unverified or refused block, with everything before it imported; succeeds on every verified chain whose payloads are accepted |
| `Sync.SyncedStoresAgree` | internal/node/sync.go:84-140 | then head and canonical index equal the provider's |
| `Recovery.Resubmit` | internal/node/sync.go:34-40 | replays any records; skips none of a log |
| `Recovery.ReplayChain` | internal/node/sync.go:22-59 | for any file, the store is the state of the records that replay, with a coherent cache; the journal fits the store iff its records are a log of this genesis |
| `Recovery.Restart` | internal/node/sync.go:22-59 | for every run of submissions and every cut of the journal, every field of the restarted store is as it was after exactly the complete records, and the head snapshot is the head's if the chain is verified |
| `QbftCore.Core.constructor` | internal/consensus/qbft/core/core.go:87-104 | a new core is in the initial state |
| `QbftCore.Core.StartProposer` | internal/consensus/qbft/core/core.go:112-149 | records the proposal and broadcasts PROPOSAL and PREPARE |
| `QbftCore.Core.VerifyRCC` | internal/consensus/qbft/core/core.go:269-300 | accepts iff the distinct validators who signed a round change to this view form a quorum |
| `QbftCore.Core.HandleProposal` | internal/consensus/qbft/core/core.go:214-265 | does in place what the transition function says; `QbftHistory.ProposalIsTakenIff` says exactly which proposals are taken |
| `QbftCore.Core.HandlePrepare` | internal/consensus/qbft/core/core.go:302-345 | does in place what the transition function says; `QbftHistory.LifeVoteIff` says exactly when COMMIT goes out |
| `QbftCore.Core.SortSeals` | internal/consensus/qbft/core/core.go:376-393 | lists the collected seals in signer order |
| `QbftCore.Core.HandleCommit` | internal/consensus/qbft/core/core.go:347-419 | does in place what the transition function says; `QbftHistory.LifeCommitIff` says exactly when the block is committed |
| `QbftCore.Core.Timeout` | internal/consensus/qbft/core/core.go:177-210 | asks for the next round and reports the prepared block |
| `QbftCore.Core.Collect` | internal/consensus/qbft/core/core.go:442-450 | gathers the round changes to one round, one per sender, in whatever order the map is walked |
| `QbftCore.Core.Highest` | internal/consensus/qbft/core/core.go:454-465 | picks a record with a block of the highest prepared round, if any has a block |
| `QbftCore.Core.SortRecords` | internal/consensus/qbft/core/core.go:466-474 | sorts the records by their bytes, losing and adding none |
| `QbftCore.Core.HandleRoundChange` | internal/consensus/qbft/core/core.go:421-494 | a quorum for one round starts it with a highest prepared block and a certificate sorted by bytes, for every map order |
| `QbftCore.Core.HandleMsg` | internal/consensus/qbft/core/core.go:152-168 | dispatches, and ignores senders that are not validators |
| `QbftCore.Core.BacklogForRound` | internal/consensus/qbft/core/core.go:498-502 | hands over the buffered messages of a round and forgets them |
| `Qbft.PanicsIff` | internal/consensus/qbft/core/core.go:347-399 | a callback is handed a missing proposal iff a COMMIT for the zero hash reaches a core whose timer fired before it had a proposal, with a seal or completing a quorum |
| `QbftCertificates.CertificateIsDeterminedIff` | internal/consensus/qbft/core/core.go:466-474 | the certificate is the same for every walk of the map iff round changes with equal bytes carry equal signatures |
| `QbftCertificates.UnpreparedAreTied` | internal/consensus/qbft/core/core.go:177-210 | two validators that time out without a proposal make it ambiguous |
| `QbftHistory.CertificateIff` | internal/consensus/qbft/core/core.go:269-300 | a certificate is good iff some quorum of distinct validators signed round changes to this view in it |
| `QbftHistory.ProposalIsTakenIff` | internal/consensus/qbft/core/core.go:214-265 | a core without a proposal takes one iff it is for this view, its header decodes and verifies, and after round 0 it is certified, and answers with PREPARE; any other proposal for this view is ignored |
| `QbftHistory.LifePreparesIff` | internal/consensus/qbft/core/core.go:302-318 | over every life of a core, the validators noted as prepared are exactly those whose matching PREPARE it was given while counting |
| `QbftHistory.LifeCommitsIff` | internal/consensus/qbft/core/core.go:347-373 | and the seals are those of each validator's last matching and well-sealed COMMIT |
| `QbftHistory.LifeVoteIff` | internal/consensus/qbft/core/core.go:318-345 | COMMIT goes out exactly when, at a prepared core, a PREPARE brings the distinct validators heard from to a quorum and the proposal can be sealed |
| `QbftHistory.LifeCommitIff` | internal/consensus/qbft/core/core.go:374-417 | the block is emitted exactly when a COMMIT brings the distinct validators heard from to a quorum, at a core with a proposal whose seals can be put in |
| `QbftHistory.PhaseNext` | internal/consensus/qbft/core/core.go:112-419 | the phase after an input, from the phase before and what the input is |
| `QbftHistory.TimeoutReports` | internal/consensus/qbft/core/core.go:177-210 | a prepared core or one that has voted reports its block, payload and round; any other that is not committed reports nothing |
| `QbftHistory.LifeChangesIff` | internal/consensus/qbft/core/core.go:421-440 | what is noted of a validator is its last round change to a later round |
| `QbftHistory.LifeStartIff` | internal/consensus/qbft/core/core.go:421-494 | a round is started exactly when a round change to it comes in and a quorum of validators last asked for it |
| `QbftHistory.LifeBacklog` | internal/consensus/qbft/core/core.go:223-231 | the backlog for a round holds all early proposals for it that there was room for, in order |
| `QbftNetwork.ActIsSound` | internal/consensus/qbft/core/core.go:112-494 | whatever happens to an honest validator, it stays consistent, stands by what it broadcast, and broadcasts only news |
| `QbftNetwork.RunKeepsInv` | internal/consensus/qbft/core/core.go:152-419 | in every run, every counted vote of an honest sender was cast, and each honest validator sent each kind of message at most once, for its one proposal |
| `QbftNetwork.QuorumIsAllButF` | internal/consensus/qbft/engine.go:222-226 | floor(2N/3)+1 is N - f for f = floor((N-1)/3), and two quorums overlap in more than f |
| `QbftNetwork.VotesAgree` | internal/consensus/qbft/core/core.go:302-345 | all honest COMMITs of a view name one hash |
| `QbftNetwork.OneVoteEach` | internal/consensus/qbft/core/core.go:302-345 | in every run an honest validator broadcasts at most one COMMIT, and all name one hash |
| `QbftNetwork.VoteIsAccepted` | internal/consensus/qbft/core/core.go:214-345 | a COMMIT is for a header that at least quorum - f honest validators proposed or verified |
| `QbftNetwork.CommitIsFinal` | internal/consensus/qbft/core/core.go:374-417 | a CommitBlock decision is the core's proposal with the seals it counted, and the core stays committed to it |
| `QbftNetwork.Agreement` | internal/consensus/qbft/core/core.go:302-419 | with at most floor((N-1)/3) arbitrary validators and any schedule, all CommitBlock decisions of a view are for the same proposal |
| `QbftNetwork.PanicNeedsFault` | internal/consensus/qbft/core/core.go:347-399 | in every run, only a faulty validator's message can make an honest core panic |
| `QbftNetwork.PanicIsReachable` | internal/consensus/qbft/core/core.go:347-399 | a run that reaches such a state |
| `QbftProgress.ViewDecides` | internal/consensus/qbft/core/core.go:112-419 | for any number of validators, any good proposal and any honest quorum with its proposer, there is a run with the quorum's messages alone in which every member broadcasts PREPARE and COMMIT and commits the block |
| `QbftLeaving.CanTakeChange` | internal/consensus/qbft/core/core.go:421-494 | for any noted round changes there is a decision that the rules for the certificate and the prepared block allow |
| `QbftLeaving.ChangingHasAsked` | internal/consensus/qbft/core/core.go:177-210 | in every run, a validator that is changing rounds has broadcast a round change to the next |
| `QbftLeaving.ViewMovesOn` | internal/consensus/qbft/core/core.go:177-494 | from any point of any run at which no member of an honest quorum has committed, there is a continuation in which every member decides to start the next round |
| `QbftCarryOver.LeaderIff` | internal/node/qbft_loop.go:533-543 | the proposer of a view is the validator with exactly (sequence + round) modulo N others below it |
| `QbftCarryOver.EveryoneLeadsOnce` | internal/node/qbft_loop.go:533-543 | among any N consecutive rounds each validator leads exactly once |
| `QbftCarryOver.RunKeepsSource` | internal/consensus/qbft/core/core.go:214-265 | without faulty validators, and with only the designated proposer proposing, every held proposal was broadcast by that proposer |
| `QbftCarryOver.CarryOver` | internal/consensus/qbft/core/core.go:421-494 | if a quorum broadcast COMMIT for a block, every decision to start the next round carries that block and the payload it was proposed with |
| `QbftCarryOver.CarryOverAnywhere` | internal/consensus/qbft/core/core.go:421-494 | the same over the whole life of a core at any round of the sequence, fed with deliverable messages |
| `QbftRounds.CertificateIsAccepted` | internal/consensus/qbft/core/core.go:421-494 | over every life of a core, a StartRound decision is for a later round and its certificate is accepted at every peer of that round |
| `QbftRounds.CertifiedProposalIsAccepted` | internal/consensus/qbft/core/core.go:214-265 | so a good proposal that carries it is accepted there |
| `QbftRounds.ProposalWasBrought` | internal/consensus/qbft/core/core.go:214-265 | over every life of a core, its proposal is its own or came from a validator for this view, verified, and after round 0 certified |
| `QbftRounds.LifeKeepsBacklog` | internal/consensus/qbft/core/core.go:223-231 | the backlog holds only validators' proposals for later rounds, for at most 16 rounds |
| `QbftDriver.NextProposalIsPrepared` | internal/node/qbft_loop.go:184-213 | after a round change with a prepared block the next proposal has its payload, and its header but for round and seals |
| `QbftDriver.NextRoundProposesBlock` | internal/node/qbft_loop.go:184-213 | if a quorum broadcast COMMIT for a block, the proposal made on a decision of that round is that block again, with the payload it was proposed with and its header but for round and seals |
| `QbftDriver.ReplayBacklog` | internal/node/qbft_loop.go:159-167 | exactly the messages buffered for the round are fed to the new core, in order, and leave the old backlog |
| `QbftDriver.RoundLoop` | internal/node/qbft_loop.go:319-361 | a prefix of the events is fed in order; it ends exactly at the first that yields a decision other than a broadcast, or before the first that would end the process, or with the last |
| `QbftDriver.RunRound` | internal/node/qbft_loop.go:124-267 | the core is given the backlog, then this validator's proposal iff it is its turn and it has one, then the events up to the one that ends the round, and the ending is the one its life calls for |
| `QbftDriver.RunInstance` | internal/node/qbft_loop.go:98-270 | the first round is round 0, each next round is the one the last core decided to start and gets its backlog, and the result is exactly what the last round's ending calls for: the decided block if its payload is readable, a failure, the end of the process, or none |
| `QbftDriver.DoneIff` | internal/node/qbft_loop.go:248-428 | the instance yields a block iff its last round ends with a COMMIT that brings the validators heard from to a quorum, on a readable payload, and it is that core's proposal with the collected seals, and its payload |
| `QbftDriver.FailedIff` | internal/node/qbft_loop.go:184-428 | it fails iff in its last round it is this validator's turn and nothing can be proposed, or the committed payload is unreadable; it crashes iff the next event of the last round would end the process and none before ended the round |
| `QbftDriver.RoundsRise` | internal/node/qbft_loop.go:248-270 | rounds strictly increase |
| `QbftDriver.ProposalIsProper` | internal/node/qbft_loop.go:178-228 | every proposal made comes right after the backlog replay, so is the only one of its round, in turn, certified for its peers, and of the block the last round change calls for |
| `QbftHeader.Padded` | internal/consensus/qbft/extra.go:45-47 | vanity bytes are padded or cut to 32, and 32 bytes are kept as they are |
| `QbftHeader.ExtraRoundTrip` | internal/consensus/qbft/extra.go:45-67 | decoding reads back the encoded data, and re-encoding depends only on the vanity |
| `QbftHeader.SealRoundTrip` | internal/consensus/qbft/extra.go:150-227 | the signer of a proposer seal and of a commit seal is recovered |
| `QbftHeader.SealsLeaveHashes` | internal/consensus/qbft/extra.go:72-146 | injecting committed seals changes neither seal hash nor any recovered signer nor another header field |
| `QbftHeader.ProposalSealBinds` | internal/consensus/qbft/extra.go:72-113 | two headers have one proposer digest iff they differ only in their seals |
| `QbftHeader.CommitSealBinds` | internal/consensus/qbft/extra.go:120-146 | two headers have one commit digest iff they differ only in their committed seals, and it is never a proposer digest |
| `QbftHeader.VerifyProposalIff` | internal/consensus/qbft/engine.go:230-258 | exactly the proposals that pass: no uncles, difficulty one, the period kept, and sealed by a validator |
| `QbftHeader.SealedPassesIff` | internal/consensus/qbft/engine.go:190-258 | end to end, a header that obeys the other rules and is sealed with a key passes iff the key is a validator's |
| `QbftHeader.VerifyHeader` | internal/consensus/qbft/engine.go:126-187 | accepts iff the header is a good proposal with seals by a quorum of distinct validators and no others |
| `QbftHeader.CommittedIsSigned` | internal/consensus/qbft/engine.go:126-187 | every accepted header is signed by a validator and sealed by a quorum of distinct validators |
| `QbftHeader.ReuseKeepsBlock` | internal/node/qbft_loop.go:275-297 | a re-sealed prepared header differs only in round and seals, is signed by the new proposer, and passes VerifyProposal if the prepared one did |
| `QbftFinality.SealOrderIsUnique` | internal/consensus/qbft/core/core.go:376-393 | the seal list is determined by the collected commits, whatever their order of arrival |
| `QbftFinality.SealedProposalIsCommitted` | internal/consensus/qbft/engine.go:264-278 | a good proposal with a quorum's seals injected passes VerifyHeader |
| `QbftFinality.CommitIsAcceptedIff` | internal/consensus/qbft/core/core.go:363-417 | in every run, a committed header passes VerifyHeader under the same validators and parent iff every counted COMMIT carried a seal |
| `QbftFinality.EmptySealCommits` | internal/consensus/qbft/core/core.go:363-417 | in any run, a faulty validator whose COMMIT completes a quorum can send it without a seal, and the core then commits a header that followers refuse |
| `QbftFinality.UnsealedRunIsRefused` | internal/consensus/qbft/core/core.go:363-417 | a concrete run of that kind, for every engine |
| `QbftFinality.VerifiedBlockIsFinal` | internal/consensus/qbft/core/core.go:112-419 | from proposal to finality: for a proposal that passes verification and any honest quorum with its proposer, there is a run in which every member commits it, as a header every follower accepts |

## Left out

- libp2p host, Gossipsub, discovery, status handshake: network plumbing; only the sync request and response and the batch limit are kept.
- Engine API client and execution payload contents: payloads are opaque bytes and the client's verdict is an input.
- JSON-RPC server, command line, configuration, logging, scripts: no hard properties.
- ECDSA, Keccak, RLP and JSON internals: parameters with laws.
- Clocks, jitter, goroutines, locks, channel capacity: one event at a time; the round timer fires at most once per round.
- 64-bit and 32-bit overflow of numbers, times, total difficulty and rounds: integers are unbounded, except for the journal's length prefix.
- Nil header fields and nil callbacks: a header always has a number and a difficulty, and the node sets every callback.
- An epoch header too short for vanity and seal makes the source's slice expression fail; the model returns an error there.
- File-system errors and corruption in the middle of the journal: only a cut tail is considered.
- Full agreement across QBFT rounds: a new core keeps nothing from earlier rounds, and a re-proposal has another hash.
- The QBFT snapshot fold and the fallback genesis format: easy members.
- Block production for Clique and its scheduling: apart from the extra data it only calls the execution client.
- Snapshots of side-chain blocks: they are computed along the canonical index, so nothing is claimed about them.
- ForkChoice.Store.AddBlock: assumes that a block with a known parent has the parent's number plus one, which neither the store nor header verification checks.
- Node.Node.HandleBlock: makes the same assumption, and the drop of gossiped blocks during a sync is not modelled.
- Recovery.Resubmit: makes the same assumption of every record.
- Sync.ImportSyncBlocks: makes the same numbering assumption of a response that is not along one chain.
- QbftCore.Core.HandleRoundChange: which of several equally high prepared blocks is picked, and the order of entries with equal bytes, are left open, as map iteration leaves them.
- QbftCore.Core.HandleMsg: not defined where the source panics on a missing proposal; `Qbft.PanicsIff` says where that is.
- QbftCore.Core.HandleCommit: not defined where the source panics on a missing proposal; `Qbft.PanicsIff` says where that is.
- QbftDriver.RunInstance: the store's answer to a decided block is not modelled, and cancellation is the end of the events.
- QbftNetwork.Agreement: one core per view and validator, and the proposer starts before any other live input.
- QbftHeader.SealRoundTrip: headers are values, so the temporary swap of a header's extra data while hashing, and sealing in place, are not captured.
