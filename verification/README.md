# Bamboo's chained consensus, in Dafny

Bamboo runs chained Byzantine-fault-tolerant protocols over a shared block forest: replicas store proposed blocks, vote,
collect votes into quorum certificates, and commit a block when their commit rule finds it at the bottom of a chain of
certified blocks. The README of the repository (line 31) promises that all finalized blocks remain in a single chain.
This project models the parts that this promise rests on and proves it where it holds. The handlers by themselves do not
ensure it. Each agreement theorem names the conditions on a run under which the promise holds, and for the conditions
there are concrete runs which meet all the others and commit blocks of two chains.

Verify everything with `dafny verify dfyconfig.toml`.

## How it is laid out

| file | what it models |
|---|---|
| `types.dfy` | blocks, votes, certificates, timeout messages |
| `quorum.dfy` | counting distinct senders; vote and timeout collection; quorum intersection |
| `forest.dfy`, `forest_order.dfy` | the levelled forest: its two indexes, pruning, and independence of delivery order |
| `blockchain.dfy`, `conservation.dfy` | committing: the reported path, and what becomes of every block |
| `pacemaker.dfy` | views, leader rotation, proposals |
| `safety.dfy`, `outputs.dfy` | the voting argument that all three protocols share; what a replica holds and reports |
| `filing.dfy` | where the forest files blocks whose certificates carry wrong views |
| `drawings.dfy`, `witness.dfy` | a simple picture of a forest, and what concrete runs amount to |
| `hotstuff.dfy`, `hotstuff_logs.dfy`, `hotstuff_safety.dfy`, `hotstuff_runs.dfy`, `hotstuff_facts.dfy`, `hotstuff_witness.dfy`, `hotstuff_object.dfy` | chained HotStuff: handlers on values, their invariants, whole runs of a network, facts about single handlers, concrete runs, and the object |
| `tchs.dfy`, `tchs_runs.dfy`, `tchs_facts.dfy`, `tchs_witness.dfy`, `tchs_object.dfy` | two-chain HotStuff, whose proposers overwrite the view in certificates: handlers, whole runs, facts about single handlers, concrete runs, and the object |
| `streamlet.dfy`, `streamlet_safety.dfy`, `streamlet_runs.dfy`, `streamlet_calls.dfy`, `streamlet_witness.dfy`, `streamlet_object.dfy` | Streamlet: handlers, invariants, the notarized chain, agreement, nested calls, concrete runs, and the object |
| `db.dfy`, `rate.dfy` | the key-value store and the benchmark's rate limiter |

The objects of the source are classes whose methods update their fields. Each method is proved to take the object from
one value to the next exactly as a function on values does; the theorems are about those functions and the runs they
make up. A run is a list of events at the replicas that are not faulty: a message arrives (in any order, possibly
several times or never), a timer runs out, or the first transaction makes a leader start. Faulty replicas have no state;
they may sign anything.

## What is assumed

- The identifier of a block fixes its view and its parent. One identifier may come with several certificates; what the
  forest then keeps is the first one.
- A block is above its parent. `AddBlock` never calls `VerifyVertex` (blockchain/blockchain.go:31-34), so nothing in the
  code ensures this; `LowLabelSkipsAView` and `LowLabelProposal` show what happens in two-chain HotStuff without it.
- Every handler is one atomic step. A Go run-time panic stops the replica (`halted`), and so does a walk through the
  forest that never ends.

Nothing is assumed of signatures: the agreement theorems are about runs in which any votes, certificates and timeout
messages are delivered. They name these conditions on the run.

- `VotesInOrder`, `PeersInOrder`: a replica votes in strictly rising views, or repeats a vote.
- `VotesLocked`, `VotesLocked2`: a vote was cast under the lock that the certificate of its block calls for.
- `VotesJustified`, `PeersJustified`: a vote went to a block whose parent is certified (Streamlet: above view 2).
- `CommitsCertified`: the certificate on which a replica commits is for a certified block and carries its view.
- `TipsCertified` (Streamlet): the block on whose certificate a replica commits is certified.
- `TipsExtended` (Streamlet): that block is a child of the one it commits.
- `TailsRise` (Streamlet): the last notarized block of a replica never falls from vote to vote.

What signatures add is stated apart, by conditions on what is delivered.

- `AllUnforged`, `AllSigned`: whoever is named as a signer of something that passes the check has signed. This is all
  that unforgeable signatures give: the check of a certificate does not count its signers and passes an empty list
  (crypto/sign.go:108-121), and a vote signs only the identifier of its block and not the view
  (blockchain/quorum.go:33-46).
- `AllGenuine`: more than that, what passes the check has enough signers and carries the view of its block.
- `OwnNames`: a certificate or a vote that names its recipient as the maker is the recipient's own.
- `AllLabelled` (Streamlet): a vote that passes the check carries the view of its block.

In HotStuff `AllGenuine` and `OwnNames` give `CommitsCertified` (`BackedCommits`). In Streamlet `AllSigned` gives
`PeersJustified` and `TipsCertified`, and `AllLabelled` gives `TailsRise` (`BackedRun3`), so that only vote order and
extended commits remain (`BackedAgreement3`).

## Where the code differs from its documentation or from the protocol

- `updateLastVotedView` (hotstuff/hotstuff.go:316) has no caller, so nothing keeps votes in rising views. Agreement
  takes that as a condition; the lemmas named `OrderIsNeeded` give runs of all three protocols that commit two chains
  without it, and `VoteOrderIff` says exactly when a vote keeps the order.
- `processCertificate` returns before it locks when the certificate is older than the current view
  (hotstuff/hotstuff.go:244-246). Agreement takes the missing lock as a condition; the lemmas named `LockIsNeeded` give
  runs that commit two chains without it, and `VoteLockedIff` says exactly when a vote has the lock.
- A certificate that is old is not verified at all (hotstuff/hotstuff.go:244-253), one that fails the check does not
  stop the block that carries it from being stored and voted for (hotstuff/hotstuff.go:75-112), and the highest
  certificate is taken from a block before any check (hotstuff/hotstuff.go:70). Two-chain HotStuff does the same, and
  tries its commit rule on such a certificate (tchs/tchs.go:87-104). Agreement takes it as a condition that voted blocks
  have certified parents and that commits are on certified blocks. `JustificationIsNeeded` and
  `CertifiedCommitsAreNeeded` give runs that commit two chains without; `UnverifiedProposalFails` and `LowLabelProposal`
  show what leaders then propose. `CheckedVotesJustified` and `CheckedRun2` say which test of incoming blocks would be
  enough.
- The check of a certificate passes an empty list of signers (crypto/sign.go:108-121). In `CertifiedCommitsAreNeeded` of
  `HotStuffWitness` nobody forges anything, and such a certificate makes a replica commit.
- A vote signs only the identifier of its block (blockchain/quorum.go:33-46), and the view that it names becomes that of
  the certificate (blockchain/quorum.go:68-77). The lemmas named `LabelsAreNeeded` give runs of all three protocols in
  which a wrong view commits blocks of two chains; in the run of Streamlet the notarized chain falls back to a lower
  view. In two-chain HotStuff this takes a certificate for another block than the parent, which nothing refuses.
- The signature is not looked at if `qc.Leader` or `vote.Voter` is the replica itself (hotstuff/hotstuff.go:123 and
  247). `OwnNamesAreNeeded` gives a run of HotStuff in which everything that passes the check is backed and blocks of
  two chains are committed. In Streamlet the same test of votes (streamlet/streamlet.go:120) does no harm: nobody is
  named as the leader of a certificate, so a replica always verifies the one that is built
  (streamlet/streamlet.go:235-241).
- Views up to 2 skip every voting check (hotstuff/hotstuff.go:288-290).
- A leader of two-chain HotStuff writes the view before the current one into its highest certificate without a test
  (tchs/tchs.go:217-222). For blocks above the blocks that their certificates name the label does no harm:
  `CommitLabels` shows that every commit is then on a certificate that carries the view of its block.
  `LowLabelSkipsAView` says what the commit rule does with a block that is not above its parent, and `LowLabelProposal`
  that a correct leader can propose one.
- The comment of `getOrCreateVertexContainer` says that it errors on a different level
  (blockchain/leveled_forrest.go:186); it does not. `WrongLevelFails` shows one consequence, `LowLabelHangs` another;
  `TooLowIff` and `EndlessIff` say exactly when a commit takes the error return and when the search for committed levels
  goes round for ever.
- Two-chain HotStuff drops a block whose certificate is consecutive but does not commit (tchs/tchs.go:89-93), and never
  counts its own timeouts (tchs/tchs.go:182-191).
- Streamlet's commit rule looks at the last three entries of the notarized chain and not at their parents
  (streamlet/streamlet.go:347-372). `ExtensionIsNeeded` gives a run of four replicas in which only the proposer is
  faulty and all other conditions hold, and in which the others each commit two blocks of different chains.
  `CommitExtendedIff` says exactly when the rule is right, and `Agreement3` is agreement under that condition.
- The comment of Streamlet's `ProcessBlock` says that a block above the current view waits for it
  (streamlet/streamlet.go:61-62); the code votes at once (streamlet/streamlet.go:69-72), and then for lower blocks.
  `OrderIsNeeded` of `StreamletWitness` gives a run that commits two chains.
- The search for a notarized parent runs past the start of a chain of height 1 or 2 (streamlet/streamlet.go:299).
- The comment on `Conflict` (db/db.go:165) speaks of different states; a read and a write of one key conflict although
  the states agree (`StatesDifferIff`). What the test decides exactly is whether the order can be observed at all
  (`ConflictIsExact`).

## Model

| member | source | states |
|---|---|---|
| Tally.FiresAtThreshold | blockchain/quorum.go:56-80 | an entry completes a certificate if and only if its sender lifts the number of distinct senders for the key to floor(2n/3)+1, and the certificate then names exactly the distinct senders |
| Tally.CertificateFormsOnce | blockchain/quorum.go:55-80 | over any sequence of entries a key gets exactly one certificate if floor(2n/3)+1 distinct nodes sent one, and none otherwise |
| Tally.LedgerIsDistinct | blockchain/quorum.go:56-66 | up to the threshold the ledger holds exactly the distinct senders; above it a frozen selection of threshold size |
| Tally.QuorumIntersection | blockchain/quorum.go:83-85 | with 3f < n, two sender sets that pass the test share at least f+1 members |
| Tally.HonestQuorum | pacemaker/timeoutController.go:41-43 | the replicas that are not faulty can always pass the test by themselves |
| Tally.HonestWitness | blockchain/quorum.go:83-85 | two sets that pass the test share a member that is not faulty |
| Quorums.Quorum.constructor | blockchain/quorum.go:48-53 | a new quorum has recorded no votes |
| Quorums.Quorum.GetSigs | blockchain/quorum.go:92-105 | the loop lists every voter of the block exactly once, with the verdict on all their signatures; an unknown block is reported |
| Quorums.Quorum.Add | blockchain/quorum.go:56-80 | the object records votes and builds certificates as the ledger does |
| Timeouts.TimeoutController.constructor | pacemaker/timeoutController.go:15-20 | a new controller has recorded no timeouts |
| Timeouts.TimeoutController.AddTmo | pacemaker/timeoutController.go:22-39 | timeouts are recorded, and a timeout certificate signalled, by the same rule as votes |
| Forests.AddIndexed | blockchain/leveled_forrest.go:152-200 | adding any block keeps the by-id map and the by-level lists in agreement, whatever its level and parent claim |
| Forests.CutIndexed | blockchain/leveled_forrest.go:71-86 | so does pruning |
| Forests.ForestAlwaysIndexed | blockchain/leveled_forrest.go:51-200 | after every sequence of additions and prunings, of any blocks, both indexes hold the same containers, each once, at its own level, none below the lowest |
| Forests.AddVertexMap | blockchain/leveled_forrest.go:152-164 | after an addition the held blocks are those held before and, if it was accepted, the new one; the first block stored under an identifier stays |
| Forests.CutVertexMap | blockchain/leveled_forrest.go:71-86 | pruning keeps exactly the containers filed at the level or above |
| Forests.AddRising | blockchain/leveled_forrest.go:152-182 | parents stay strictly lower than children, and blocks no higher than their level, if and only if the added block is above its parent, below its children and not above a placeholder made for it |
| Forests.CutRising | blockchain/leveled_forrest.go:71-86 | pruning keeps that order of levels |
| Forests.WalkEnds | blockchain/leveled_forrest.go:60-70 | in such a forest the search for committed levels, which follows parents wherever they are filed, goes down at every step and ends |
| Forests.EndlessIff | blockchain/leveled_forrest.go:60-70 | the search is found to be endless if and only if it can take any number of steps, in any forest |
| Forests.LevelledForest.constructor | blockchain/leveled_forrest.go:43-48 | a new forest is empty |
| Forests.LevelledForest.GetOrCreateVertexContainer | blockchain/leveled_forrest.go:188-200 | finds the container or files an empty one at the level asked for, in both indexes |
| Forests.LevelledForest.RegisterWithParent | blockchain/leveled_forrest.go:166-182 | lists the block among its parent's children, making a placeholder if needed; nothing at or below the lowest level |
| Forests.LevelledForest.AddVertex | blockchain/leveled_forrest.go:152-164 | stores any block as the function on values does, and keeps both indexes |
| Forests.LevelledForest.FindCommittedLevels | blockchain/leveled_forrest.go:60-70 | in every forest the loop finds the levels of the held ancestors, also when it climbs, or the missing vertex on which it panics, or that it comes to a container for the second time and goes round for ever |
| Forests.LevelledForest.PruneUpToLevel | blockchain/leveled_forrest.go:51-87 | in every forest: refuses a level below the lowest, panics, hangs, or drops everything below, reports the blocks of the levels without an ancestor in order, and counts what it dropped |
| Forests.LevelledForest.DropLevels | blockchain/leveled_forrest.go:71-86 | the loop over levels removes exactly the containers below the level |
| Forests.LevelledForest.PruneLevel | blockchain/leveled_forrest.go:73-83 | the inner loop removes one level from both indexes and collects its forked blocks |
| ForestOrder.OrderIndependent | blockchain/leveled_forrest.go:152-200 | the same consistent blocks, in any order and with any repetitions, give the same held blocks, levels and children, also when children come before parents |
| Worlds.AddConforms | blockchain/blockchain.go:31-34 | a forest of blocks whose certificates carry their parents' views keeps every container at its block's own level |
| BlockChains.CommitPathIsLongest | blockchain/blockchain.go:78-91 | what a commit reports is the longest path of held ancestors above the old lowest level, newest first, linked by parent with falling views, and nothing else is |
| BlockChains.RecommitIsSilent | blockchain/blockchain.go:70-99 | committing the same block again reports nothing and changes nothing |
| BlockChains.BlockChain.constructor | blockchain/blockchain.go:20-25 | starts with an empty forest and no votes |
| BlockChains.BlockChain.AddBlock | blockchain/blockchain.go:31-34 | stores any block in the forest and changes nothing else |
| BlockChains.BlockChain.AddVote | blockchain/blockchain.go:36-38 | records the vote and hands on the certificate |
| BlockChains.BlockChain.GetParentBlock | blockchain/blockchain.go:48-59 | the parent is found only if both blocks are held |
| BlockChains.BlockChain.CollectPath | blockchain/blockchain.go:77-91 | the loop ends, collects exactly the ancestor path, and deletes exactly its votes |
| BlockChains.BlockChain.Commit | blockchain/blockchain.go:70-99 | every outcome of a commit in a forest whose held parents are lower than their children, wherever they are filed: unknown block, refused level, panic or hang, or path, forks and pruned forest |
| Outputs.CommitKnown | blockchain/blockchain.go:70-99 | every block that a commit reports is an ancestor of the committed one, in the world of all blocks |
| Filing.LowLabelHangs | blockchain/leveled_forrest.go:60-70 | blocks, each above its parent, two of which carry too low a view in their certificates, after which a commit never returns |
| Conservation.CommitReports | blockchain/blockchain.go:70-99 | one commit reports a held block once if it waits at or below the committed level, and the last committed block a second time exactly if the new one does not extend it |
| Conservation.CommitStep | blockchain/leveled_forrest.go:51-87 | a commit keeps the account of blocks exact if and only if the committed block extends the one committed last |
| Conservation.RunBalances | blockchain/blockchain.go:70-99 | over every run with one block per view and commits that extend each other, blocks taken in equal blocks committed plus forked plus waiting, block by block |
| Conservation.ReportedExactlyOnce | blockchain/blockchain.go:70-99 | in such a run a block above view 1 is committed once, or forked once, or waiting and unreported; never two of these |
| Conservation.CommitNeverTooLow | blockchain/blockchain.go:92-95 | after every run of additions and commits, with any forks, a commit never takes the error return of pruning if blocks and certificates agree on views |
| Conservation.TooLowIff | blockchain/blockchain.go:92-95 | after every run of additions and commits, of any blocks, a commit takes the error return if and only if its block is held with a view below the one committed last; it is then filed above its own view |
| Conservation.WrongLevelFails | blockchain/leveled_forrest.go:184-200 | a run in which they do not agree and the error return is taken |
| Pacemakers.Pacemaker.constructor | pacemaker/pacemaker.go:18-23 | starts at view 0 with nothing announced |
| Pacemakers.Pacemaker.AdvanceView | pacemaker/pacemaker.go:32-40 | the announced views stay strictly rising and end with the current one |
| Pacemakers.Pacemaker.ProcessRemoteTmo | pacemaker/pacemaker.go:25-30 | old timeouts are dropped, others counted |
| Rotation.LeaderIsUnique | election/rotation.go:22-46 | the two functions agree on one leader among 1..n; other identifiers pass the test only above n and in views up to 3 |
| Proposals.Replica.constructor | replica/replica.go:70-83 | a new replica has proposed nothing |
| Proposals.Replica.HandleTxn | replica/replica.go:201-211 | the first transaction makes the leader of view 1 start it, and changes nothing in any other view or at any other replica |
| Proposals.Replica.Enter | pacemaker/pacemaker.go:32-40 | a view change leaves what was already handled and proposed as it was |
| Proposals.Replica.ProcessNewView | replica/replica.go:238-266 | a replica proposes in a view exactly when told to enter it and it leads it |
| Proposals.ProposedRises | replica/replica.go:238-266 | the views in which a replica proposes rise strictly and are ones it leads |
| Proposals.OneProposalPerView | replica/replica.go:238-266 | replicas that run this code propose at most one block per view, whatever the event history |
| Safety.CertifiedUnique | hotstuff/hotstuff.go:287-299 | with votes in order, at most one block of a view is ever certified |
| Safety.ParentAboveLock | hotstuff/hotstuff.go:287-299 | the parent of a later certified block is at least as high as the lock under which an earlier one was certified |
| Safety.LockInduction | hotstuff/hotstuff.go:287-340 | once a block is certified by votes locked on a base, every higher certified block descends from the base, if votes went to blocks with certified parents |
| Safety.DecisionBinds | hotstuff/hotstuff.go:301-314 | after a decision on consecutive linked blocks, every certified block at or above the lowest of them descends from it |
| Safety.DecisionsAgree | README.md:30-31 | two decided blocks are on one chain |
| HotStuffs.OnBlock | hotstuff/hotstuff.go:54-119 | handling a block together with the buffered ones ends; views, lock and highest certificate never fall, nothing sent is withdrawn, and the buffer stays filed by view |
| HotStuffInvariant.CertificateGood | hotstuff/hotstuff.go:242-285 | handling a certificate that is backed, or that the replica does not accept, keeps the replica's invariant |
| HotStuffInvariant.VoteGood | hotstuff/hotstuff.go:121-147 | handling a vote keeps it, if votes that the replica accepts were cast; a certificate that is built is backed |
| HotStuffInvariant.RuleFires | hotstuff/hotstuff.go:301-314 | the block found by the commit rule is the lowest of three linked blocks, with views that are consecutive up to the one in the certificate, whatever certificate that is |
| HotStuffInvariant.BlockLight | hotstuff/hotstuff.go:54-119 | handling a block and the buffered ones, with any certificates, keeps the part of the invariant that agreement rests on: known blocks, votes that pass the lock under locks that never fall, commits that the rule found |
| HotStuffInvariant.BlockGood | hotstuff/hotstuff.go:54-119 | handling a block and the buffered ones keeps the invariant, whatever certificates they carry that the replica does not accept, and every vote passes the lock |
| HotStuffInvariant.TmoGood | hotstuff/hotstuff.go:149-158 | handling a timeout message keeps the invariant |
| HotStuffInvariant.LocalTmoGood | hotstuff/hotstuff.go:160-169 | so does a timeout of the replica itself |
| HotStuffRuns.RunLight | hotstuff/hotstuff.go:54-340 | that part of the invariant holds at every replica that is not faulty after every run, whatever votes, certificates and timeout messages are delivered |
| HotStuffRuns.RunGood | hotstuff/hotstuff.go:54-340 | and all certificates that a replica accepted or keeps are backed, if what passes the check is, and own names are not forged |
| HotStuffRuns.DecidedIsDecision | hotstuff/hotstuff.go:301-314 | a commit at any replica is a decision in the sense of the voting argument, if votes have the lock of their block and went to blocks with certified parents, and the commit is on a certified block with its view |
| HotStuffRuns.DecisionsOnOneChain | README.md:30-31 | in every run with 3f < n that meets the four conditions, any two blocks on which the commit rule of a replica that is not faulty succeeds are on one chain, also if the commit then fails or panics |
| HotStuffRuns.Agreement | README.md:30-31 | in every run with 3f < n, whatever votes, certificates and timeouts are delivered: if votes are in order, under the lock of their block and for blocks with certified parents, and commits are on certified blocks with their views, any two blocks committed by replicas that are not faulty are on one chain |
| HotStuffRuns.BackedCommits | hotstuff/hotstuff.go:242-285 | commits are on certified blocks with their views, if what passes the check is backed and own names are not forged |
| HotStuffRuns.BackedAgreement | README.md:30-31 | so in such runs the three conditions on votes are enough |
| HotStuffRuns.LockBelowHighQC | hotstuff/hotstuff.go:234-265 | in every run lock and highest certificate never fall; if what is accepted is backed, the lock is at most the view of the highest certificate |
| HotStuffFacts.ViewGating | hotstuff/hotstuff.go:69-86 | a block of another replica with a verified certificate is stored only above its certificate, unless that has to wait; then exactly the current view and the next are let through |
| HotStuffFacts.ProposalPassesLock | hotstuff/hotstuff.go:171-175 | a leader passes its own lock with its proposal whenever the parent is held and the highest certificate is one it would accept |
| HotStuffFacts.ProposalPassesIff | hotstuff/hotstuff.go:287-299 | a leader stores its own proposal whatever certificate it is on, and above view 2, with the parent held, votes for it if and only if the view is above the last voted one and the parent is not below the lock |
| HotStuffFacts.CascadeClimbs | hotstuff/hotstuff.go:113-117 | the votes of one call go to the block and then to buffered blocks, one view after the other, so there are at most as many as buffered blocks and one |
| HotStuffFacts.CertificateLock | hotstuff/hotstuff.go:324-340 | the lock after a certificate is the maximum of the old one and the certified block's parent, exactly if the certificate is not ignored, is above view 2 and both blocks are held |
| HotStuffFacts.VoteLockedIff | hotstuff/hotstuff.go:242-263 | a vote has the lock of its block if and only if the replica was locked there before or got to process the block's certificate or one for the block itself |
| HotStuffFacts.VoteOrderIff | hotstuff/hotstuff.go:291-298 | a vote keeps the votes of a replica in order if and only if it is above the last vote or repeats it |
| HotStuffFacts.CheckedVotesJustified | hotstuff/hotstuff.go:69-86 | if every delivered block carries a certificate for its parent that passes the check, and what passes is backed, then votes go only to blocks with certified parents |
| HotStuffWitness.OrderIsNeeded | hotstuff/hotstuff.go:295 | a run of four replicas, one faulty, that meets the other conditions and has two votes in one view, and commits blocks of two chains |
| HotStuffWitness.LockIsNeeded | hotstuff/hotstuff.go:244-246 | a run that meets the other conditions and commits blocks of two chains, because old certificates do not lock |
| HotStuffWitness.JustificationIsNeeded | hotstuff/hotstuff.go:75-112 | a run that meets the other conditions and commits blocks of two chains, because blocks with unverified certificates are voted for |
| HotStuffWitness.CertifiedCommitsAreNeeded | crypto/sign.go:108-121 | a run without forged signatures or names that meets the other conditions and commits blocks of two chains, because a certificate without signers passes the check |
| HotStuffWitness.LabelsAreNeeded | blockchain/quorum.go:68-77 | such a run in which all commits are on certified blocks, but a certificate carries another view than that of its block |
| HotStuffWitness.OwnNamesAreNeeded | hotstuff/hotstuff.go:247-253 | a run that meets the conditions on votes, in which everything that passes the check is backed, and which commits blocks of two chains, because certificates that name their recipient are not verified |
| HotStuffWitness.UnverifiedProposalFails | hotstuff/hotstuff.go:70 | a run after which a correct replica, in a view that it leads, stores its own proposal and does not vote for it although the parent is held, because the highest certificate was never checked |
| HotStuffWitness.OrderlyRunCommits | hotstuff/hotstuff.go:54-340 | a run that meets all conditions of the agreement theorem and commits |
| HotStuffObject.HotStuff.constructor | hotstuff/hotstuff.go:35-52 | a new object is in the initial state |
| HotStuffObject.HotStuff.UpdateHighQC | hotstuff/hotstuff.go:234-240 | keeps the certificate with the higher view |
| HotStuffObject.HotStuff.UpdatePreferredView | hotstuff/hotstuff.go:324-340 | raises the lock to the certified block's parent, or reports that a block is missing and changes nothing |
| HotStuffObject.HotStuff.CommitRule | hotstuff/hotstuff.go:301-314 | finds the grandparent exactly if both ancestors are held and the views are consecutive |
| HotStuffObject.HotStuff.VotingRule | hotstuff/hotstuff.go:287-299 | decides as the rule on values, a missing parent counting as no |
| HotStuffObject.HotStuff.FinishCommit | hotstuff/hotstuff.go:273-284 | appends the path and the forks to what was sent, or dies with the forest |
| HotStuffObject.HotStuff.ProcessCertificate | hotstuff/hotstuff.go:242-285 | the object follows the handler on values in every branch |
| HotStuffObject.HotStuff.ProcessVote | hotstuff/hotstuff.go:121-147 | the object follows the handler on values, buffering a certificate for a block that is not held |
| HotStuffObject.HotStuff.ProcessBufferedQC | hotstuff/hotstuff.go:87-92 | the waiting certificate is processed and then forgotten |
| HotStuffObject.HotStuff.StoreBlock | hotstuff/hotstuff.go:54-92 | the object follows the handler up to the vote: buffered, refused, stale, wrong leader, or stored |
| HotStuffObject.HotStuff.SendVote | hotstuff/hotstuff.go:103-112 | the vote is sent, and counted at once if the replica leads the next view |
| HotStuffObject.HotStuff.ProcessBlock | hotstuff/hotstuff.go:54-119 | the recursive method ends and follows the handler on values |
| HotStuffObject.HotStuff.ProcessRemoteTmo | hotstuff/hotstuff.go:149-158 | the object follows the handler on values |
| HotStuffObject.HotStuff.ProcessLocalTmo | hotstuff/hotstuff.go:160-169 | the object follows the handler on values |
| HotStuffObject.HotStuff.MakeProposal | hotstuff/hotstuff.go:171-175 | the proposal extends the highest certificate |
| TwoChainRuns.CommitRuleIff | tchs/tchs.go:87-104 | where the rule is tried, it finds blocks of consecutive views if and only if the block is above the one its certificate names; the view in the certificate does not matter |
| TwoChainRuns.LowLabelSkipsAView | tchs/tchs.go:294-304 | a block of the same view as the certified one, with the view before it in the certificate, commits a block whose child is two views above |
| TwoChainRuns.RelabelGood | tchs/tchs.go:217-222 | overwriting the view of the highest certificate, wherever the certificate is shared, keeps the invariant |
| TwoChainRuns.BlockGood2 | tchs/tchs.go:54-139 | handling a block and the buffered ones keeps the invariant, whatever view, signature and block their certificates carry |
| TwoChainRuns.RunGood2 | tchs/tchs.go:54-327 | the invariant holds at every replica that is not faulty after every run, with any votes, timeout messages and certificates, proposals that relabel included; if certificates name parents, commits carry the right views |
| TwoChainRuns.CommitLabels | tchs/tchs.go:87-104 | in every run in which the certificates of delivered blocks name their parents, every commit was on a certificate that carries the view of its block, for a child of the committed block in the next view |
| TwoChainRuns.DecisionsOnOneChain2 | README.md:30-31 | in every run with 3f < n that meets the four conditions, any two blocks on which the commit rule succeeds are on one chain |
| TwoChainRuns.Agreement2 | README.md:30-31 | in every run with 3f < n, whatever is delivered and whatever views proposers write into certificates: if votes are in order, under the lock of their block and for blocks with certified parents, and commits are on certified blocks with their views, committed blocks are on one chain |
| TwoChainFacts.VoteLocked2Iff | tchs/tchs.go:251-275 | a vote has the lock of its block if and only if the parent is of view 1 at most, the replica was locked there before, or it got to process the block's certificate, or a waiting one for the block itself, with at least the parent's view |
| TwoChainFacts.CheckedRun2 | tchs/tchs.go:69-104 | if every delivered block has a certified parent and a certificate that names it, votes go only to blocks with certified parents and commits are on certified blocks with their views |
| TwoChainWitness.StraightRunCommits | tchs/tchs.go:54-139 | a run that meets all conditions of the agreement theorem and commits |
| TwoChainWitness.OrderIsNeeded | tchs/tchs.go:277-292 | a run that meets the other conditions and commits blocks of two chains, with two votes in one view |
| TwoChainWitness.LockIsNeeded | tchs/tchs.go:251-275 | a run that meets the other conditions and commits blocks of two chains, because a certificate that is set aside does not lock |
| TwoChainWitness.JustificationIsNeeded | tchs/tchs.go:69-132 | a run that meets the other conditions and commits blocks of two chains, because blocks with unverified certificates are voted for |
| TwoChainWitness.CertifiedCommitsAreNeeded | tchs/tchs.go:87-104 | a run that meets the other conditions and commits blocks of two chains, because the commit rule is tried on unverified certificates |
| TwoChainWitness.LabelsAreNeeded | tchs/tchs.go:87-104 | such a run in which all commits are on certified blocks, but a certificate for another block than the parent carries another view than that of its block |
| TwoChainWitness.LowLabelProposal | tchs/tchs.go:194-222 | a run after which a correct leader proposes a block that is not above its parent, exactly as `LowLabelSkipsAView` needs it |
| TwoChainObject.Tchs.constructor | tchs/tchs.go:35-52 | a new object is in the initial state |
| TwoChainObject.Tchs.UpdatePreferredView | tchs/tchs.go:314-327 | raises the lock to the certificate's view, or reports a missing block and changes nothing |
| TwoChainObject.Tchs.CommitRule | tchs/tchs.go:294-304 | finds the certified block's parent exactly if it is held and one below the certificate's view |
| TwoChainObject.Tchs.VotingRule | tchs/tchs.go:277-292 | decides as the rule on values |
| TwoChainObject.Tchs.ProcessCertificate | tchs/tchs.go:251-275 | the object follows the handler on values |
| TwoChainObject.Tchs.ProcessVote | tchs/tchs.go:141-166 | the object follows the handler on values |
| TwoChainObject.Tchs.FinishCommit | tchs/tchs.go:94-103 | appends path and forks, or stops on an error or a panic |
| TwoChainObject.Tchs.CheckCommit | tchs/tchs.go:87-104 | the rule is tried only for consecutive views from 2 on, and a failure ends the handling of the block |
| TwoChainObject.Tchs.ProcessBufferedQC | tchs/tchs.go:106-111 | the waiting certificate is processed and then forgotten |
| TwoChainObject.Tchs.StoreBlock | tchs/tchs.go:54-111 | the object follows the handler up to the vote |
| TwoChainObject.Tchs.SendVote | tchs/tchs.go:122-129 | the vote is sent, and counted at once if the replica leads the next view |
| TwoChainObject.Tchs.ProcessBlock | tchs/tchs.go:54-139 | the recursive method ends and follows the handler on values |
| TwoChainObject.Tchs.ProcessRemoteTmo | tchs/tchs.go:168-180 | the object follows the handler on values |
| TwoChainObject.Tchs.ProcessLocalTmo | tchs/tchs.go:182-192 | the object follows the handler on values, and its own timeout is never recorded |
| TwoChainObject.Tchs.MakeProposal | tchs/tchs.go:194-222 | the proposal carries the highest certificate relabelled to the view before the current one, and the stored one is relabelled with it |
| StreamletInvariant.AppendThreaded | streamlet/streamlet.go:285-316 | an append keeps one known block per entry, each after the first with its parent earlier |
| StreamletInvariant.VoteOnTip | streamlet/streamlet.go:330-342 | a vote above view 2 is for a child of the last notarized block, whose view is recorded with it |
| StreamletInvariant.PerformLight3 | streamlet/streamlet.go:63-316 | every step keeps the part of the invariant that asks nothing of votes: known blocks at their own levels, a threaded chain, votes for children of its end, commits one view below the certified block |
| StreamletInvariant.PerformBacking3 | streamlet/streamlet.go:118-147 | if votes that pass the check were signed, also by the recipient itself, every step keeps that the notarized blocks and those committed on are certified |
| StreamletInvariant.PerformRanked3 | streamlet/streamlet.go:224-316 | if votes that pass the check carry the views of their blocks, every step keeps the notarized views strictly rising and below the current view |
| StreamletRuns.RunLight3 | streamlet/streamlet.go:63-372 | the first of these holds at every replica that is not faulty after every run, whatever votes and timeouts are delivered and whatever the number of faulty replicas |
| StreamletRuns.RunBacked3 | streamlet/streamlet.go:118-147 | the second after every run without forged votes |
| StreamletRuns.RunRanked3 | streamlet/streamlet.go:224-316 | the third after every run without mislabelled votes |
| StreamletRuns.NotarizedShape | streamlet/streamlet.go:224-316 | in every run the notarized chain has one block per entry, each after the first with its parent at an earlier position; its views rise strictly and stay below the current one if votes carry the views of their blocks; its blocks are certified if no vote is forged |
| StreamletRuns.ThreeChainIff | streamlet/streamlet.go:347-372 | when the commit rule fires its three blocks are a chain of parents if and only if the last two appends extended the entry before them |
| StreamletRuns.CommitExtendedIff | streamlet/streamlet.go:252-256 | the certified block descends from the one committed on it if and only if the replica would itself have voted for it |
| StreamletRuns.DecisionsOnOneChain3 | README.md:30-31 | the same for all blocks on which the commit rule fires, also if the commit then fails or panics |
| StreamletRuns.Agreement3 | README.md:30-31 | in every run with 3f < n, whatever is delivered: if votes are in order and for blocks with certified parents, the last notarized block never falls from vote to vote, and every commit was of the parent of a certified block, committed blocks are on one chain; no lock has to be assumed |
| StreamletRuns.BackedRun3 | streamlet/streamlet.go:118-316 | certified parents and commits on certified blocks follow if no vote is forged, a last notarized block that never falls if votes carry the views of their blocks |
| StreamletRuns.BackedAgreement3 | README.md:30-31 | so in such runs vote order and extended commits are enough |
| StreamletCalls.TaskSmaller | streamlet/streamlet.go:63-316 | every nested call leaves less to do: fewer blocks that can be stored, votes to count, certificates that are not old, or calls |
| StreamletCalls.CallsReturn | streamlet/streamlet.go:106-114 | the handlers' mutual recursion through the buffers ends, from every state that any run reaches, although a call does not remove what it takes from a buffer |
| StreamletWitness.ExtensionIsNeeded | streamlet/streamlet.go:347-372 | a run of four replicas, the proposer faulty, no vote forged or mislabelled, that meets the other conditions and in which replicas commit blocks of two chains |
| StreamletWitness.OrderIsNeeded | streamlet/streamlet.go:63-114 | such a run in which every commit is of the certified block's parent, but votes go to a block far ahead and then to lower ones |
| StreamletWitness.LabelsAreNeeded | streamlet/streamlet.go:118-147 | a run without forged votes that meets all conditions but that on the last notarized block, and commits blocks of two chains, because a vote carries another view than that of its block; the notarized views do not rise |
| StreamletWitness.StraightRunCommits | streamlet/streamlet.go:224-316 | a run that meets all conditions of the agreement theorem, without forged or mislabelled votes, and commits |
| StreamletObject.Streamlet.constructor | streamlet/streamlet.go:32-53 | a new object is in the initial state, at view 1 |
| StreamletObject.Streamlet.UpdateNotarizedChain | streamlet/streamlet.go:285-316 | the nested loops append if the chain is empty or holds the parent anywhere, buffer the certificate if a chain of at least three does not, and leave the range otherwise |
| StreamletObject.Streamlet.VotingRule | streamlet/streamlet.go:330-342 | yes in views up to 2 or if the parent is in the last entry; out of range if nothing is notarized |
| StreamletObject.Streamlet.CommitRule | streamlet/streamlet.go:347-372 | the middle one of the last three entries exactly if each is a single block and the views are consecutive |
| StreamletObject.Streamlet.FinishCommit | streamlet/streamlet.go:256-282 | appends path and forks and schedules what waited for the certified block, or stops on an error or a panic |
| StreamletObject.Streamlet.ProcessCertificate | streamlet/streamlet.go:224-283 | the object follows the handler on values in every branch |
| StreamletObject.Streamlet.ProcessVote | streamlet/streamlet.go:118-147 | the object follows the handler on values |
| StreamletObject.Streamlet.ProcessBlock | streamlet/streamlet.go:63-116 | the object follows the handler on values: known, stale, parent missing, wrong leader, no vote, vote |
| StreamletObject.Streamlet.ProcessRemoteTmo | streamlet/streamlet.go:149-158 | a completed timeout certificate starts a view change in the background |
| StreamletObject.Streamlet.Resume | streamlet/streamlet.go:106-114 | the next nested call is made, in the order of the code |
| StreamletObject.Streamlet.FromBuffer | streamlet/streamlet.go:267-282 | what waits in a buffer is taken up or forgotten, and nothing happens if nothing waits |
| StreamletObject.Streamlet.ForkChoice | streamlet/streamlet.go:202-211 | the parent of a proposal is the last notarized block, or the genesis block |
| StreamletObject.Streamlet.MakeProposal | streamlet/streamlet.go:169-178 | a replica's voting rule accepts its own proposal, unless it is above view 2 and nothing is notarized |
| Databases.BatchMeaning | db/db.go:104-135 | a batch leaves the last value written to each key, appends its writes to the histories in order, and counts them |
| Databases.NonConflictingCommute | db/db.go:166-185 | batches that do not conflict give the same data, version, histories and answers in either order, from every state |
| Databases.ConflictIsExact | db/db.go:166-185 | two batches conflict if and only if their order can be told from an empty store |
| Databases.PairCommutesIff | db/db.go:166-173 | from a given state two commands commute if and only if they do not conflict or only rewrite what is stored |
| Databases.StatesDifferIff | db/db.go:165-173 | the order of two commands shows in the state if and only if both write one key with different values |
| Databases.Database.constructor | db/db.go:71-78 | a new store is empty |
| Databases.Database.Put | db/db.go:124-135 | a value is stored, counted and, with versions on, appended to the key's history; nothing happens without a value |
| Databases.Database.Execute | db/db.go:104-115 | answers with the value before the command and stores the new one |
| Databases.CheckConflictBatch | db/db.go:176-185 | the double loop finds a conflicting pair if and only if there is one |
| RateLimit.StepGains | benchmark/rate.go:26-52 | every call gains at least one interval on return time plus sleep owed, and keeps the sleep owed between slack and 0 |
| RateLimit.RateBound | benchmark/rate.go:18-52 | whenever calls are made, call j returns at least (j-i) intervals plus the (negative) slack after call i |
| RateLimit.SleepBound | benchmark/rate.go:37-51 | if the clock does not run backwards, no call sleeps longer than one interval |
| RateLimit.BurstExact | benchmark/rate.go:37-51 | after a pause, back-to-back calls first use up the slack and then return exactly one interval apart |
| RateLimit.BoundIsReached | benchmark/rate.go:18-52 | the bound is met with equality, for every distance at which it is not negative |
| RateLimit.Limiter.constructor | benchmark/rate.go:18-23 | interval and slack are the truncated quotients |
| RateLimit.Limiter.Wait | benchmark/rate.go:26-52 | the object follows the function on values; no call returns before it is made |

## Left out

- HotStuffRuns.Agreement: the conditions on votes and commits are hypotheses about the run, because the handlers do not ensure them; each is shown to be needed.
- TwoChainRuns.Agreement2: so are the conditions on votes and commits of two-chain HotStuff; each is shown to be needed.
- StreamletRuns.Agreement3: so are the conditions of Streamlet; vote order, extended commits and the last notarized block are shown to be needed, the other two hold unless a signature is forged.
- BlockChains.BlockChain.Commit: requires held parents to be lower than their children; otherwise the loop that collects the path need not end.
- BlockChains.BlockChain.CollectPath: requires the same.
- HotStuffObject.HotStuff.StoreBlock: requires that the block is above its parent, so that a later commit meets that requirement.
- HotStuffObject.HotStuff.ProcessBlock: requires the same of the block.
- TwoChainObject.Tchs.StoreBlock: requires the same of the block.
- TwoChainObject.Tchs.ProcessBlock: requires the same of the block.
- StreamletObject.Streamlet.ProcessBlock: requires the same of the block.
- TwoChainObject.Tchs.MakeProposal: relabels the highest certificate of the object only; that Go shares the certificate by pointer with buffers is covered by the sets of entries which a relabelling step of a run may change (`RelabelGood`). The labels inside blocks that are already stored are not read again and are not modelled as changing.
- StreamletObject.Streamlet.Resume: the nested calls of the Streamlet handlers are a stack of tasks that is worked off one at a time, in the order of the code, instead of Go's call stack.
- Proposals.Replica.ProcessNewView: the payload and the broadcast of the proposal are not modelled, only that a proposal is made.
- Proposals.OneProposalPerView: is about the rotating leader; the static one (election.NewStatic) is the same node in every view.
- RateLimit.Limiter.constructor: requires a rate other than 0, with which the Go code panics.
- Signers of a certificate are a set: the order in which a Go map yields them is not modelled.
- A vote whose signature check itself fails with an error ends the process in tchs/tchs.go:146 and streamlet/streamlet.go:123; here it counts as badly signed.
- A timeout message always carries a certificate.
- Streamlet's echo of blocks and votes, and its `echoedVote` map, which is never filled.
- The forking strategy of faulty HotStuff leaders (hotstuff/hotstuff.go:199-212, 254-257): faulty replicas may sign anything here.
- The counters that `CommitBlock` keeps for measurement, chain growth and block intervals.
- `VerifyVertex` and its helpers (blockchain/leveled_forrest.go:202-260), which nothing calls.
- fasthostuff/ and lbft/: close copies of the two modelled protocols.
- `MakePProposal` and the phalanx library, whose code is not in the repository.
- Networking, cryptography, encoding, mempool, configuration, logging, the HTTP server and the client: messages are delivered in any order or lost, and a signature check is a verdict that comes with the message.
- Liveness: it depends on timing and on message delivery.
