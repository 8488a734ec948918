# Xenium, verified

A Dafny model of the Xenium chain engine: the block tree with its fork choice,
reorg guards and finality, the ledger, the stake-weighted leader lottery with
jail discipline, the mempool, proof of history, the canonical encodings, the
block store and the independent auditor `VerifyChain`.

The model has two layers, each in the form that the source has.

* **Values.** `Engine.Node` is everything that a `Blockchain` object holds. The
  functions of `Engine` say what each operation makes of it. Invariants, run
  theorems and the auditor are stated over these values.
* **Objects.** `Core.Blockchain`, `Mempool.TxPool`, `Stake.ValidatorRegistry`,
  `Poh.PoH`, `Storage.FileBlockStore` and `Forks.WeightCache` are classes with
  the source's fields, loops and updates in place. Every method's `ensures`
  equates `View()` after the call with the `Engine` function of `View()` before
  it, so what is proved about the functions is proved about the objects.

A **run** (`Theorems.Run`) starts from a new engine with any configuration, seed
and store. Each step is one call of `AddValidator`, `SetBalance`, `AddTx`,
`AddBlock` or `AddBlockExternal`, with any arguments, on any fork, whether it
succeeds or returns an error.

## Main results

1. *Finality is forever*, also while the finalised slot is still 0
   (`Theorems.FinalityIsForever`). This and the next four hold in every run, whoever
   is slashed, removed or jailed on the way and whatever else the callers do.
2. *One tree, one chain.* Slots are unique over all forks, the canonical chain is
   the path to the tip, each reorg is bounded by both limits, the tip never gets
   worse, and the first fork candidate beats every stored block. Scores of stored
   blocks never fall, and change between two moments exactly when the genesis epoch
   gets its snapshot in between and that lists a validator called "genesis"
   (`Weights.ScoreExact`).
3. *The fork choice, exactly.* A block that `AddBlockExternal` builds on any stored
   block becomes the tip if and only if it weighs no less than the tip, abandons no
   finalised block and no more blocks than allowed, and gains the share of the active
   stake that is asked for (`Reorgs.ReorgExactly`); `Reorgs.ReorgHappens` is a run in
   which it does. Weights are sums of snapshot stakes (`Tree.WeightIsSum`).
4. *What a call does.* For every `AddBlock` and `AddBlockExternal` of every run: what
   the block holds, what the greedy pass takes from the pool, which error is returned
   for what, and who gains or loses how much (`NewBlocks.RunAddsBlock`,
   `NewBlocks.RunAddsExternalBlock`). Nobody but its owner moves money, if signatures
   cannot be forged (`Ownership.OwnersOnly`).
5. *Snapshots and discipline.* Every snapshot holds exactly the validators that were
   registered and not in jail when it was taken (`Theorems.SnapshotsAsTaken`), which
   is when the epoch's first slot starts (`Epochs.SnapshotsInTime`). Every
   slot up to the tip's is judged once, for the leader that its snapshot elects, and
   a charge is in the counter or paid for (`Theorems.MissesBalance`); nobody called
   "genesis" is ever charged (`Theorems.FallbackNeverCharged`). Jail terms never
   shrink, and who is jailed stays out of later snapshots
   (`Theorems.JailedStaysOut`). The lottery is exactly proportional
   (`Stake.LotteryProportional`), and the slot's hash decides it
   (`Stake.LeaderOfSlot`).
6. *Producers and auditor agree.* `VerifyChain` accepts exactly the chains that
   are valid, said without an auditor, for any node and any chain
   (`Auditor.AuditExact`), and fines whoever produced the first block that
   is not (`Auditor.AuditBlames`). In every state of every orderly run it accepts the
   canonical chain if and only if its producers are still registered, and slashes
   nobody (`Auditor.AuditorAgrees`); while they are, it accepts every fork
   (`Auditor.AuditorAcceptsEveryFork`).
7. *The balances refine the replay.* In every state of an orderly run each fork
   replays under the recorded keys, to the state root it names and, up to the tip,
   to the balances kept up to date; the engine's own replay gives the same exactly
   when no fee is lost to a producer who is gone (`ChainLedger.StateRefinesReplay`).
8. *Money and nonces*, in every run: wherever a replay succeeds, balances add up to
   what genesis gave out, less such fees (`ChainLedger.MoneyIsConserved`), and each
   sender's nonces are 1, 2, 3, ... (`ChainLedger.NoReplayOnAnyFork`). No transaction
   stands twice on the canonical chain as long as no adoption's replay fails
   (`ChainLedger.CanonicalNonces`).
9. *A restart gives the chain back* exactly when the store holds it
   (`Restarts.RestartIff`), and for every call of `AddBlock` and
   `AddBlockExternal` it is said, from the state before, whether the store will
   (`Restarts.HoldsExactly`). The balances come with it once the genesis balances and
   validators, which are not in the store, are set again (`Restarts.RunBalancesBack`).

## Hypotheses

SHA-256 and ECDSA are function values of `Crypto.Primitives`: nothing is assumed
about them but where a lemma says so.

* **H0**: the block that a step builds, if it builds one, does not collide with a
  stored block under SHA-256 (`Production.BuildCollisionFree`). A block of a new slot
  has a preimage of its own (`Production.NewSlotFreshHash`), so only a real collision
  is excluded. It is part of what a run is (`Theorems.Step`), and the only hypothesis
  of a run.
* **H1** and **H2** make a run orderly (`Replays.Orderly`). The audit of the
  engine's own blocks and the success of replays need them.
  * **H1**: `SetBalance` is called while genesis is the only block. With blocks on
    the chain a later call changes the state and not the genesis balances, and the
    state differs from its replay unless the call changes nothing
    (`ChainLedger.LateSetBalance`). When money of such a call is then spent, the
    replay of the adopted chain fails, the balances stay as they were before the
    block, and the same transaction is accepted again:
    `Repeats.TransferStandsTwice` is a run in which it stands twice on the canonical
    chain. With genesis alone on the chain and other blocks stored beside it the
    genesis balances do change, and what is lost is the state root of the blocks
    beside the chain (`ChainLedger.EmptyPathLosesRoot`, `ChainLedger.SideRootLost`).
  * **H2**: whoever produced a stored block is still registered
    (`Replays.Registered`), looked at before each step. Without it replays ask for
    a fee address that is gone: the fees are lost in the replay, and the state
    differs from it exactly when there are any (`ChainLedger.StateRefinesReplay`).
    `Auditor.SlashedProducerBreaksAudit` gives the family of calls after which
    `VerifyChain` rejects the engine's own chain, and `Eviction.EvictedProducer` a
    run of three calls that gets there.
* **H3**: no validator is called "genesis" (`Weights.NameFree`), the name of the
  genesis block's producer and of the lottery's fallback. It is enough for constant
  scores (`Weights.WeightIsForever`) and for blocks that all weigh something
  (`Weights.NamedAreListed`); what exactly they need is in `Weights.ScoreExact` and
  `Weights.BlockWeighs`, and `Weights.ClaimedNameGainsWeight` is a run of two calls
  in which a weight changes.
* **H4**: `MaxReorgDepth >= 0`, for progress only: with a negative limit nothing
  is ever adopted (`Liveness.NegativeDepthFreezes`).
* **Covered costs** (`ChainLedger.ChainCovers`), for sums of money only: each sender
  can pay what a transaction takes from it on balance. That is exactly when the
  transaction does what it says (`Ledger.MovesExactly`), and follows when no
  `Amount + Fee` overflows (`ChainLedger.FittingCostsCovered`).
  `Overflow.BalancesFromNothing` is a run of two calls, with a signed transaction
  whose cost overflows, at whose end there is more money than genesis gave out.

`Crypto.SignatureContract`, that a signature made with a key verifies under its
public key, is a hypothesis of the lemmas on honest producers only;
`Ownership.Unforgeable`, that nothing else verifies under it, of
`Ownership.OwnersOnly` only. That no save
overwrites another block (`Restarts.NoOverwrites`) is H0 for the store.

## Files

| file | content |
|---|---|
| Domain, Text, Sums | value objects, 64-bit integers, byte order of strings, decimal and hexadecimal text, sums over maps |
| Crypto, Poh | preimages, roots, signatures; the tick generator and its verifier |
| Ledger, Mempool, Stake, Storage | consensus/pov.go, core/mempool.go, consensus/pos.go, adapters/storage_file.go |
| Tree | paths, weights, scores, divergence, leaves |
| Engine | the step functions of core/blockchain.go |
| Invariant, ForkChoice, Misses, Steps, Production, Runs | the invariant and what every step keeps, under H0 alone |
| Theorems, Weights, Epochs | what holds over every run |
| NewBlocks, Reorgs, Ownership | what each call puts into a block, takes from the pool and costs; when its block becomes the tip; who signed what is stored |
| Adoptions, Replays, ChainLedger, Auditor | the balances step by step, and the ledger over the tree |
| Solo, Eviction, Repeats, Overflow | concrete runs that show what the hypotheses are for |
| Liveness, Forks, Recovery, Restarts | honest producers, fork candidates, restoring from a store, and over whole runs |
| Upkeep, Walks, Assembly, Core | the objects |

## Model

| member | source | states |
|---|---|---|
| Text.LessTotal | core/mempool.go:42 | Go's order of strings, byte by byte, is total: of two different strings one comes first (with `LessTransitive` and `LessIrreflexive` it is a strict order) |
| Text.LessExact | core/mempool.go:42 | one string comes before another if and only if it is a proper prefix of it or smaller at the first byte that differs |
| Text.ListingUnique | consensus/pos.go:210-217 | a set of names has one sorted listing, so the lottery and the state root do not depend on the order in which a Go map is iterated |
| Text.FormatUintInjective | consensus/crypto.go:20 | two numbers with the same decimal text are the same number |
| Text.FormatUintDenotes | consensus/crypto.go:20 | the decimal text of a number denotes it, without leading zeros |
| Text.HexRoundTrip | consensus/poh.go:46-60 | decoding the hexadecimal text of a byte string gives the string back |
| Text.HexEncodeDigits | consensus/poh.go:46-48 | each byte becomes two lower-case digits, the high one first |
| Crypto.BlockPreimageInjective | consensus/crypto.go:17-38 | two blocks have the same hash preimage if and only if all eight hashed fields agree, as long as no field but the producer's name contains the separator |
| Crypto.TxPreimageInjective | consensus/crypto.go:40-56 | the transaction preimage determines all six hashed fields; the receiver is free text |
| Crypto.TxRootTextInjective | consensus/crypto.go:58-68 | the bytes under a transaction root determine the list of transaction hashes, in order |
| Crypto.TxRootTextAt | consensus/crypto.go:58-68 | the bytes under a transaction root are the digests of the transactions, each in its place |
| Crypto.ComputeTxRoot | consensus/crypto.go:58-68 | the loop over the transactions hashes exactly their concatenated digests |
| Crypto.StateTextAppend | consensus/crypto.go:70-90 | the bytes under a state root are the accounts one after the other, in the order of the names |
| Crypto.StatePreimageInjective | consensus/crypto.go:70-90 | two states have the same root preimage if and only if they are equal, as long as no address contains a colon |
| Crypto.StatePreimageAmbiguous | consensus/crypto.go:81-88 | with a colon in an address it fails: two different states with one preimage |
| Crypto.ComputeStateRoot | consensus/crypto.go:70-90 | the loop over the sorted keys hashes the preimage of the state as a map |
| Crypto.SignedBlockVerifies | consensus/crypto.go:150-190 | a block signed with a key passes the signature check under the matching public key |
| Crypto.SignedTransactionVerifies | consensus/crypto.go:92-148 | a signed transaction passes all the checks of VerifyTransactionSignature |
| Poh.PoH.Tick | consensus/poh.go:22-28 | n ticks advance the counter by n and the hash through exactly the ticks passed |
| Poh.AdvanceComposes | consensus/poh.go:22-28 | ticking to a point and then on is ticking all the way, so a verifier may resume anywhere |
| Poh.AdvanceTick | consensus/poh.go:22-39 | one tick hashes the hash before it followed by the number of the tick in decimal |
| Poh.VerifyPoH | consensus/pov.go:72-90 | the verifier's loop recomputes the generator's hash; it succeeds only on a later tick of the right slot whose published hash is that one |
| Poh.PublishedHashAccepted | consensus/pov.go:72-90 | what the generator publishes the verifier accepts, however many ticks of sibling blocks lie between |
| Poh.PoHHashHexRoundTrip | consensus/poh.go:46-60 | parsing the published text of a hash gives the hash back |
| Ledger.VerifyTransactions | consensus/pov.go:9-16 | the loop reports the first transaction that is not correctly signed, or none |
| Ledger.CheckedIsSigned | consensus/pov.go:9-16 | no error is reported if and only if every transaction is correctly signed |
| Ledger.ApplyTransaction | consensus/pov.go:23-58 | one turn of the loop, with the aliasing of sender, receiver and producer and the wrap-around of int and uint64 |
| Ledger.ApplyTransactions | consensus/pov.go:18-60 | the loop threads the state through the transactions and stops at the first refused one, with its index and reason |
| Ledger.ApplyAppend | consensus/pov.go:18-60 | applying two lists one after the other is applying their concatenation |
| Ledger.ApplyMoves | consensus/pov.go:41-57 | every account ends with what it had plus what it received as receiver and producer, minus what it spent, whatever roles coincide, as long as each sender covers what it spends on balance |
| Ledger.ApplyConserves | consensus/pov.go:18-60 | under the same condition balances stay non-negative and their total falls only by fees that no producer address collects |
| Ledger.MovesExactly | consensus/pov.go:41-57 | an accepted transaction changes every balance by what it says and makes none negative if and only if its sender covers what it takes on balance |
| Ledger.BalanceCheckExact | consensus/pov.go:41-44 | the balance check admits exactly the senders who can pay if and only if Amount + Fee does not overflow |
| Ledger.WrappedCostCreatesMoney | consensus/pov.go:41-52 | an input whose cost overflows: it is accepted and the total grows from 0 to 2^64 |
| Ledger.ApplyNonces | consensus/pov.go:31-46 | an accepted list carries each sender's nonces on without gap or repeat, through any wrap-around |
| Stake.ValidatorRegistry.AddValidator | consensus/pos.go:21-52 | the registration, or the first error that applies; stats are created for new names only |
| Stake.ValidatorRegistry.AddStake | consensus/pos.go:54-64 | only the named stake changes, by the amount, and only for a registered name and a positive amount |
| Stake.ValidatorRegistry.Unstake | consensus/pos.go:66-87 | succeeds if and only if all the stake or at least the minimum remains untouched; the name leaves exactly when nothing remains |
| Stake.ValidatorRegistry.SlashValidator | consensus/pos.go:95-111 | the map update in place is the slash whose amount and effect SlashKeeps states |
| Stake.ValidatorRegistry.SlashValidatorPercent | consensus/pos.go:113-126 | the same for the share that SlashPercentKeeps states |
| Stake.RegisterKeeps | consensus/pos.go:21-52 | which registrations are refused; a new name gets the stake, a registered one that much more, and the signing key only if it had none; no public key changes, nobody else is touched, and all keep the minimum stake |
| Stake.RewardKeeps | consensus/pos.go:89-93 | a reward raises the producer's stake by 1 and changes nobody else |
| Stake.SlashKeeps | consensus/pos.go:95-111 | the target has exactly the amount less, or is gone, which happens exactly when less than the minimum would remain; nobody else is touched and no key changes |
| Stake.SlashPercentKeeps | consensus/pos.go:113-126 | the same for the share in percent of the target's stake, rounded down, and 1 at least |
| Stake.BuildSnapshot | core/blockchain.go:670-690 | in any iteration order the loop builds the snapshot of the active validators and their total |
| Stake.TakeSnapshotGood | core/blockchain.go:670-690 | a new snapshot holds exactly the registered validators that are not jailed, each with the minimum stake at least, and their sum |
| Stake.SumStakes | consensus/pos.go:161-165 | the total does not depend on the order of iteration, wrap-around included |
| Stake.PickLeader | consensus/pos.go:161-179 | the running-sum loop picks the leader that LeaderOfSlot characterises |
| Stake.CastsHarmless | consensus/pos.go:170-174 | the conversions between uint64 and int lose nothing for any total below 2^64 |
| Stake.LeaderHasStake | consensus/pos.go:161-179 | a non-empty total always gives a name with positive stake, never the fallback |
| Stake.LotteryProportional | consensus/pos.go:161-179 | over all draws below the total each name wins exactly as often as its stake |
| Stake.LittleEndianDenotes | consensus/pos.go:195 | the bytes written for a number that fits denote that number |
| Stake.LittleEndianWrites | consensus/pos.go:197 | the number read from bytes is the one whose bytes they are |
| Stake.LittleEndianByte | consensus/pos.go:195 | byte i of a number is its i-th digit to the base 256, the low one first |
| Stake.LeaderOfSlot | consensus/pos.go:161-179 | a name leads a slot if and only if the number whose eight bytes begin the SHA-256 of the slot's eight bytes lies, modulo the total, in the name's stretch of the stakes, laid end to end in the order of the names |
| Mempool.TxPool.Add | core/mempool.go:24-48 | the errors of Add, and on success the transaction indexed and put into the ordered list |
| Mempool.TxPool.PopForBlock | core/mempool.go:50-82 | the filter that writes into the cells it reads from returns the selection that PopIsGreedy characterises and leaves the rest, in order |
| Mempool.AddKeepsConsistent | core/mempool.go:24-48 | index and list keep holding the same transactions, once each, all signed, sorted by fee, sender and nonce |
| Mempool.AddExact | core/mempool.go:24-48 | a transaction gets in if and only if it is correctly signed and no pooled one has its hash; otherwise nothing changes |
| Mempool.PopKeepsConsistent | core/mempool.go:50-82 | so they do after a selection, which loses nothing, is at most max long, is signed, and applies as a block body |
| Mempool.SelectionApplies | core/mempool.go:61-78 | what was chosen applies to the state it was chosen for and gives the state that the loop had reached |
| Mempool.SelectionMerges | core/mempool.go:61-81 | chosen and kept are order-preserving parts that make up the old list |
| Mempool.TakesFirstApplicable | core/mempool.go:65-78 | the first transaction of the pool that applies is chosen, and first |
| Mempool.GreedyUnique | core/mempool.go:65-78 | there is exactly one way to be greedy: which positions are taken is determined |
| Mempool.PopIsGreedy | core/mempool.go:50-82 | what is taken and left are the two parts of the list in which a position is taken if and only if fewer than max were taken before it and it applies in the state that those lead to |
| Storage.FileBlockStore.Save | adapters/storage_file.go:55-69 | what SaveBlock leaves in the index for each outcome of its two writes |
| Storage.FileBlockStore.Tip | adapters/storage_file.go:89-97 | the tip block, if its hash is on record |
| Storage.FileBlockStore.GetRange | adapters/storage_file.go:99-118 | the blocks of all heights of the range in order; an error if and only if one is missing |
| Storage.SaveRecords | adapters/storage_file.go:55-69 | a block saved above a recorded chain leaves it on record and extends it, replacing what stood there |
| Storage.SaveStacked | adapters/storage_file.go:55-69 | as long as no other block is overwritten, blocks stay filed under their hash and height, the tip under its height, and each child just above its parent |
| Tree.PathLinked | core/blockchain.go:850-871 | the walk to genesis gives a stored, linked chain numbered from 0 whose slots and ticks strictly increase |
| Tree.PathStable | core/blockchain.go:436-439 | storing blocks under new hashes changes no old path |
| Tree.BetterScoreTotalOrder | core/blockchain.go:541-549 | of two scores of different tips exactly one is better, and better is transitive |
| Tree.ComputeReorgDepthAndSlot | core/blockchain.go:873-893 | the loop finds the first position where the chains differ, the depth and the slot there |
| Tree.ReorgDepthExact | core/blockchain.go:873-893 | between paths of one tree the depth is the number of old canonical blocks that are no ancestors of the new tip |
| Tree.BestLeafBeatsAll | core/blockchain.go:973-1010 | a leaf that beats the other leaves beats every stored block |
| Tree.WeightAtMost | core/blockchain.go:500-512 | a path weighs at most its length times the largest stake on it: the bound below which uint64 weights do not wrap |
| Tree.WeightIsSum | core/blockchain.go:495-514 | the weight of a block is the sum, over the blocks on its path, of what the snapshot of each one's epoch gives its producer |
| Invariant.InsertInv | core/blockchain.go:798-813 | storing a block that passed the checks keeps the invariant and finds no equivocation |
| ForkChoice.AdoptKeepsFinal | core/blockchain.go:441-493 | an adoption keeps every canonical block up to the finalised slot in its place |
| ForkChoice.AdoptDepthBound | core/blockchain.go:455-466 | it abandons at most MaxReorgDepth blocks and, through finality and increasing slots, at most FinalitySlots |
| ForkChoice.AdoptImproves | core/blockchain.go:551-564 | it improves the score and, with a percentage, gains that share of the active stake, and 1 at least |
| Reorgs.AdoptsExactly | core/blockchain.go:441-493 | the guards let a later block become the tip if and only if it weighs no less, abandons no finalised block and at most MaxReorgDepth blocks and, with a percentage, gains that share of the active stake, and 1 at least |
| Reorgs.AddBlockDecides | core/blockchain.go:154-224 | a block that AddBlock returns is the tip exactly then, and otherwise the tip stays |
| Reorgs.ReorgExactly | core/blockchain.go:226-301 | so it is in every run for the block of AddBlockExternal, on any stored parent, with the weights and the snapshots after the call |
| Reorgs.ReorgHappens | core/blockchain.go:455-490 | a run of four calls at whose end a block built on the one before the tip is the tip, and the old tip is abandoned |
| Misses.SlotMapExact | core/blockchain.go:617-623 | the slot map has an entry exactly for the slots of canonical blocks, with their producers |
| Misses.ProcessMissedKeeps | core/blockchain.go:763-784 | judging further slots keeps the accounts balanced, each new verdict being right for the chain of now |
| Misses.EquivocationPunished | core/blockchain.go:798-829 | a second block for a slot yields a proof naming both, costs its producer 2 percent of its stake and 1 at least, or its membership, starts a jail term, and leaves the first block on record |
| Misses.FirstBlockRecorded | core/blockchain.go:798-813 | otherwise nobody is punished and the block goes on record |
| Steps.ScoreStable | core/blockchain.go:495-514 | more blocks and more snapshots change the score of a stored block exactly when the genesis epoch gets its snapshot and that lists the name of the genesis producer |
| Steps.ScoreMonotone | core/blockchain.go:495-514 | in any case a stored block keeps slot and hash and never loses weight |
| Production.NewSlotFreshHash | consensus/crypto.go:17-38 | the hash of a block of a new slot is new unless SHA-256 collides |
| Production.ProduceKeeps | core/blockchain.go:171-223 | from the checks to the return, whatever fails on the way, the whole invariant and all step guarantees are kept |
| NewBlocks.SelfRejection | core/blockchain.go:207-210 | a producer's own check can only reject the signature, and not even that when the leader's registered key matches its signing key |
| NewBlocks.BuildExplains | core/blockchain.go:171-210 | which of the transactions, the parent's replay, the signing key, the signature and the store is at fault, for each error and for success |
| NewBlocks.JudgeSlotCharges | core/blockchain.go:767-782 | a missed slot takes 2 percent of the leader's stake and 1 at least exactly when three charges stood before, and nothing otherwise |
| NewBlocks.AcceptSettles | core/blockchain.go:217-223 | taking a block in gives its producer 1, and then charges verdict after verdict; nobody else's stake changes |
| NewBlocks.ProduceConcludes | core/blockchain.go:171-223 | a refusal costs the leader 5 or its membership, except for a failed replay or write, and changes nothing else; a new block holds the given transactions, commits to them and to the balances after them, and is signed by who leads |
| NewBlocks.AddBlockAdds | core/blockchain.go:154-224 | given transactions are the body and the pool stays; without any, the body is the greedy choice from the pool for the current balances and the leader's fee address, at most MaxBlockTxs, nothing lost, and out of the pool even if the block fails |
| NewBlocks.AddBlockExternalAdds | core/blockchain.go:226-301 | the given transactions on any stored parent and the balances that its replay gives; the pool stays |
| NewBlocks.RunAddsBlock | core/blockchain.go:154-224 | so it is for every AddBlock of every run |
| NewBlocks.RunAddsExternalBlock | core/blockchain.go:226-301 | and for every AddBlockExternal |
| Ownership.BlockOrigin | core/blockchain.go:171-215 | every stored block but genesis comes from one step, at which its producer was registered with a key that verifies its signature, and its transactions passed the check |
| Ownership.OwnersOnly | consensus/crypto.go:113-148 | if signatures cannot be forged, whatever is on any fork or in the pool of any run was signed with a key that hashes to the sender's address |
| Runs.NewNodeStart | core/blockchain.go:78-122 | a new engine: genesis alone, at slot 0, carrying the seed, the roots of nothing and its own hash, and the defaults for zero settings |
| Runs.NewNodeGood | core/blockchain.go:78-122 | a new engine satisfies the invariant, for any configuration and seed |
| Runs.StepKeeps | core/blockchain.go:124-301 | every operation, successful or not, keeps the invariant and guarantees what StepOk lists, with no hypothesis but H0 |
| Theorems.RunGood | core/blockchain.go:124-301 | the invariant holds in every state of every run |
| Theorems.FinalityIsForever | core/blockchain.go:441-493 | the finalised slot never goes back, and the canonical blocks up to it at any moment keep their places at every later one |
| Theorems.FinalisedSlot | core/blockchain.go:640-649 | in every state the finalised slot is the tip's less FinalitySlots, or 0 |
| Theorems.SlotsAreUnique | core/blockchain.go:798-813 | no two stored blocks of any forks share a slot |
| Theorems.NobodyIsConvicted | core/blockchain.go:798-829 | in no run is anybody ever convicted of equivocation |
| Theorems.ChainIsThePath | core/blockchain.go:591-615 | the canonical chain is the stored, linked path from the first genesis block to the tip |
| Theorems.PoolStaysConsistent | core/mempool.go:24-82 | the pool is consistent in every state of every run |
| Theorems.RunReorgBound | core/blockchain.go:441-493 | each step leaves the tip alone or moves it to a better one within both depth limits and with the required gain |
| Theorems.TipNeverWorse | core/blockchain.go:448-450 | over a whole run the tip stays or is strictly better |
| Weights.ScoreExact | core/blockchain.go:495-514 | over a run a stored block stays stored, unchanged, and its score is the same at two moments if and only if the genesis epoch had its snapshot before, has none yet, or does not list "genesis" in it |
| Weights.ScoreSettles | core/blockchain.go:495-514 | with epochs of more than one slot scores are final once a slot has been started, whatever the validators are called |
| Weights.WeightIsForever | core/blockchain.go:665-701 | as long as no validator is called "genesis" scores never change, through all rewards, slashes and jailings |
| Weights.ClaimedNameGainsWeight | core/blockchain.go:500-512 | a run of two calls in which the genesis block gains weight |
| Weights.BlockWeighs | core/blockchain.go:665-701 | a stored block weighs the minimum stake at least if and only if its producer is listed in the snapshot of its epoch; otherwise it weighs nothing, and its producer is called "genesis" |
| Weights.WeightGrowsWithHeight | core/blockchain.go:495-514 | every path weighs the minimum stake at least for each listed producer on it, and so for its height when all are listed |
| Weights.NamedAreListed | core/blockchain.go:665-701 | as long as no validator is called "genesis" every producer is listed |
| Weights.CanonicalWeight | core/blockchain.go:495-514 | so it is for the canonical chain, in every state |
| Theorems.FirstForkBeatsAll | core/blockchain.go:973-1010 | in every state the first fork candidate beats every other stored block |
| Theorems.MissesBalance | core/blockchain.go:763-784 | slots 1 to the tip's are judged once each, each for the leader that the frozen snapshot of its epoch elects; charges are 4 times the slashes plus the counter, which stays at 3 at most; the jail term is that of the latest slash |
| Theorems.JudgedJustly | core/blockchain.go:767-782 | a slot is charged, to the leader its snapshot elects, exactly when it had a leader of another name than "genesis" and no canonical block at the end of the step that judged it |
| Theorems.FallbackNeverCharged | core/blockchain.go:767-771 | a slot whose leader is called "genesis" is never charged, not even when a validator of that name was elected |
| Theorems.SnapshotsAsTaken | core/blockchain.go:665-690 | each snapshot of each state of a run is the one of an earlier state: exactly the validators then registered whose jail term ends by the start of the epoch, each with its stake of then |
| Epochs.SnapshotsInTime | core/blockchain.go:665-690 | in every state an epoch after the first has a snapshot if and only if its first slot has been started |
| Theorems.TermsNeverShrink | core/blockchain.go:776-780 | over a run nobody's jail term gets shorter |
| Theorems.JailedStaysOut | core/blockchain.go:670-690 | who was slashed for missing is in no snapshot first taken later in the run for an epoch that starts within the jail term |
| Replays.ReplayWithRegistry | core/blockchain.go:831-848 | while all producers are registered, a replay with the registry of today is the replay with the keys of the time |
| Replays.AdoptReplays | core/blockchain.go:625-638 | in an orderly state the replay of an adopted chain never fails, so the early return is never taken |
| Replays.RunLedgered | core/blockchain.go:385-417 | in every state of an orderly run each stored block is signed with its producer's recorded key, holds signed transactions, and names the state root that its replay gives |
| Adoptions.AcceptState | core/blockchain.go:625-638 | a block that is taken in changes the balances only if it is adopted, to those of the replay, and not if that fails |
| ChainLedger.StateRefinesReplay | core/blockchain.go:831-848 | in every state of an orderly run the replay of any path under the recorded keys succeeds, gives the state root the path names and, up to the tip, the state; the replay under the registry of now is the same if and only if it burns no fee |
| ChainLedger.NothingIsBurned | core/blockchain.go:625-638 | while all producers are registered, every replay of an orderly run succeeds and burns no fee |
| ChainLedger.MoneyIsConserved | core/blockchain.go:625-638 | in every run, at every stored block whose replay succeeds, balances are non-negative and add up to the genesis balances less the fees of producers who are gone |
| ChainLedger.NoReplayOnAnyFork | core/blockchain.go:831-848 | in every run, along every path whose replay succeeds, a sender's transactions carry the nonces 1, 2, 3 and so on, and the account nonce is their number |
| ChainLedger.CanonicalNonces | core/blockchain.go:625-638 | as long as no adoption's replay fails, every sender's transactions on the canonical chain carry the nonces 1, 2, 3 and so on, whoever sets balances late or leaves |
| ChainLedger.AdoptionConserves | core/blockchain.go:625-638 | right after an adoption whose replay succeeds the balances add up to the genesis balances less the fees of producers who were gone |
| ChainLedger.FittingCostsCovered | consensus/pov.go:41-44 | on a chain that replays and has no overflowing cost each sender covers what it spends |
| Repeats.TransferStandsTwice | core/blockchain.go:625-638 | a run of five calls, with a late SetBalance, after which one signed transfer stands twice on the canonical chain, both adoptions' replays having failed |
| Overflow.BalancesFromNothing | consensus/pov.go:41-52 | an orderly run of two calls, with one signed transaction, after which the balances add up to 2^64 and genesis gave out nothing |
| ChainLedger.LateSetBalance | core/blockchain.go:124-134 | with blocks on the chain, a SetBalance leaves the genesis balances alone and the state equal to its replay exactly when it changes nothing |
| ChainLedger.SetBalanceExact | core/blockchain.go:124-134 | one balance is set, no nonce and no other account changes, and the genesis account follows only while genesis is alone on the chain |
| ChainLedger.SetBalanceBeside | core/blockchain.go:124-134 | with genesis alone on the chain it changes the genesis balances and the state with them, whatever is stored beside the chain |
| ChainLedger.EmptyPathLosesRoot | core/blockchain.go:124-134 | then a path of empty blocks beside the chain keeps giving the state root it carries exactly when the root of the genesis balances did not change |
| ChainLedger.SideRootLost | core/blockchain.go:124-134 | and any other path, once a balance changed, leads to another state, so that its root is lost unless two states have it |
| ChainLedger.GenesisRootKept | consensus/crypto.go:70-90 | without colons in addresses and collisions the root of the genesis balances changes exactly when they do |
| Auditor.AuditExact | core/blockchain.go:303-383 | for any node and any chain: the audit passes if and only if the chain is sealed at the root and each block is valid in its place, by the snapshots that there are and those that the audit takes on its way |
| Auditor.AuditRefinesAccept | core/blockchain.go:385-417 | a block in its place passes the audit if and only if verifyBlockOnAccept accepts it there and the clock, the slot and the stake are as the audit alone asks |
| Auditor.AuditBlames | core/blockchain.go:303-383 | a failing audit stops at the first block that is not valid in its place and takes 5, or the membership, from whoever that block names, and from nobody else |
| Auditor.AuditVerdict | core/blockchain.go:303-383 | on the path to any stored block the audit stops at the first producer who is no longer registered, and nowhere else |
| Auditor.AuditorAgrees | core/blockchain.go:303-383 | in every state of every orderly run the canonical chain passes if and only if its producers are registered, and the audit changes nothing |
| Auditor.AuditorAcceptsEveryFork | core/blockchain.go:303-383 | while H2 holds, every fork passes |
| Auditor.SlashedProducerBreaksAudit | core/blockchain.go:171-174 | a family of calls after which a canonical producer is gone and the engine's own chain is rejected at the first block whose producer is |
| Eviction.EvictedProducer | core/blockchain.go:171-174 | a run that gets there from a new engine: one validator, its own block adopted and audited, one call with an unsigned transaction, and the audit fails at that block |
| Liveness.OwnBlockPasses | core/blockchain.go:385-417 | the block that a leader with a matching key drafts passes its own checks |
| Liveness.PoolBodyNeverBad | core/blockchain.go:168-179 | a body taken from the pool never fails the transaction checks, so its leader is never slashed for it |
| Liveness.HonestAddBlockSucceeds | core/blockchain.go:154-224 | with a leader that can sign, AddBlock stores a new block and returns no error |
| Liveness.AddBlockAdoption | core/blockchain.go:467-473 | the new block extends the tip and becomes it exactly when there is no weight rule or its leader's stake reaches the delta |
| Liveness.NegativeDepthFreezes | core/blockchain.go:461-466 | with a negative depth limit no block is ever adopted |
| Forks.FirstCandidateBeatsAll | core/blockchain.go:973-1010 | the ranked leaves of an invariant state are never empty and start with the best block of the tree |
| Forks.SortCandidates | core/blockchain.go:1000-1008 | the candidates sorted strictly by weight, slot and hash, none lost or added |
| Recovery.ChainTree | core/recovery.go:45-51 | inserting the blocks of a chain one by one gives a tree in which the walk from the tip is that chain |
| Recovery.RoundTrip | core/recovery.go:10-54 | from a store that holds the canonical chain a new engine gets the chain, tip, slot map and finalised slot back, and a tree that consists of that chain |
| Recovery.OnlyHeldComesBack | core/recovery.go:39-52 | from a store that an engine has filled, a new engine gets a chain back only if the store holds it |
| Recovery.SaveHolds | adapters/storage_file.go:55-69 | a chain that grows by the saved block is held if and only if the rest was on record and no higher block had been saved |
| Recovery.SavedAside | adapters/storage_file.go:55-69 | after a block that was saved and not adopted, at any height, the store does not hold the canonical chain |
| Restarts.HoldsExactly | core/recovery.go:10-54 | for each step of any run of AddBlock and AddBlockExternal: after an adoption the store holds the canonical chain if and only if the parent's path was on record before and no higher block had been saved; after any other save it does not |
| Restarts.RestartIff | core/recovery.go:10-54 | in every state of every run with a store from the start, no height is missing, and a new engine gets the canonical chain back, with all that hangs on it, if and only if the store holds it |
| Restarts.BalancesBack | core/recovery.go:10-54 | a restored engine has the balances that a replay from its own genesis balances and validators gives, or its own when that fails; in an orderly state those of before, if these are the same |
| Restarts.RunBalancesBack | core/recovery.go:10-54 | in every state of an orderly run the balances come back with the chain once the same genesis balances and keys are set |
| Restarts.RestoreAfterAdoption | core/recovery.go:10-54 | in every run of AddBlock alone a new engine gets the chain back right after an adoption, whatever was refused or failed to be written before |
| Walks.TurnAround | core/blockchain.go:867-869 | the swap loop reverses the walk in its own memory |
| Walks.WalkFrom | core/blockchain.go:850-871 | following parents and turning the walk around gives the path from genesis, and ends |
| Walks.WalkBack | core/blockchain.go:591-615 | over blocks by height the walk from the last one gives all blocks down to the first link that is missing |
| Walks.ReplayChain | core/blockchain.go:835-847 | the loop replays a chain block by block and stops at the first that fails |
| Core.Blockchain.constructor | core/blockchain.go:78-122 | the object starts sane, with the genesis block of the seed alone and the defaults for zero settings |
| Core.Blockchain.ScoreTip | core/blockchain.go:495-514 | the walk computes the score in the tree; only the genesis epoch's snapshot is new |
| Core.Blockchain.CumulativeWeightCached | core/blockchain.go:525-539 | with a memo shared by all leaves the recursion gives the weight of the walk, 0 for no block, and keeps the memo right |
| Core.Blockchain.GetForkCandidates | core/blockchain.go:973-1010 | the leaves and nothing else, once each, with their scores, best first |
| Core.Blockchain.WeightDeltaOk | core/blockchain.go:551-564 | whether the gain is sufficient for the active stake of the tip's epoch, whose snapshot is taken if it is asked for and missing |
| Core.Blockchain.UpdateCanonical | core/blockchain.go:441-493 | the four guards and the rebuilt caches are those of the engine's adoption, whose exact condition Reorgs.AdoptsExactly gives, and the result says whether the tip moved; a hash of no stored block moves nothing |
| Core.Blockchain.RegisterSlotProducer | core/blockchain.go:798-829 | equivocation is reported, proved and punished, or the block goes on record |
| Core.Blockchain.ProcessMissedSlots | core/blockchain.go:763-784 | the loop passes exactly one verdict a slot |
| Core.Blockchain.VerifyBlockOnAccept | core/blockchain.go:385-417 | the first check that fails; all it may do to the object is take the snapshot of the block's epoch |
| Core.Blockchain.SetBalance | core/blockchain.go:124-134 | a non-negative amount becomes the balance and keeps the nonce; the genesis balances follow only while the chain is genesis alone; nothing else changes |
| Core.Blockchain.AddTx | core/blockchain.go:136-141 | the pool's addition and its error; nothing else changes |
| Core.Blockchain.AddValidator | core/blockchain.go:150-152 | registry and stats change as the registration says, with its error; the object stays sane |
| Core.Blockchain.AddBlock | core/blockchain.go:154-224 | object and result are those of the engine's step, on every path to a return; NewBlocks.AddBlockAdds says what that puts into the block, takes from the pool and costs |
| Core.Blockchain.AddBlockExternal | core/blockchain.go:226-301 | the same on any parent, with NewBlocks.AddBlockExternalAdds |
| Core.Blockchain.VerifyChain | core/blockchain.go:303-383 | the loop with its accumulators and slashes is the audit that Auditor speaks of |
| Core.Blockchain.SetStorage | core/blockchain.go:1031-1034 | the store is attached and nothing else changes |
| Core.Blockchain.RestoreFromStorage | core/recovery.go:10-54 | a fresh store, attached or not, gets genesis; a missing height is an error without effect; otherwise tree, tip, chain, slot map, state and finality are rebuilt from the blocks by height, chain or not |
| Core.StartNode | app/node.go:13-33 | a new engine attached to a store and restored from it: on an empty directory the start of the runs of Restarts, otherwise the stored chain |

## Where code and documentation differ

The model follows the code.

* The documentation asks a reorg for `newWeight >= oldWeight + P% * activeStake`
  (README.md:38). The code asks for 1 at least, and applies the rule to plain
  extensions of the tip too (core/blockchain.go:441-493, 551-564), so an honest
  block on the tip may be refused: `Liveness.AddBlockAdoption` says when.
* "Reorgs cannot touch finalized slots" (README.md:109): the guard is skipped
  while the finalised slot is 0. The property holds nevertheless, because
  genesis is common to all chains (`ForkChoice.AbandonsAfterFinal`).
* "Jailed validators are excluded from snapshots" (README.md:53) holds for the
  snapshots first taken after the jailing (`Theorems.JailedStaysOut`), not for one
  that is there already; and terms count by `SlotsPerEpoch`, not by the configured
  `EpochLength` (consensus/pos.go:181-191, core/blockchain.go:678).
* `DataDir` stands for persistent storage (README.md:66). The engine saves a block
  before it decides on it (core/blockchain.go:212-220), so a restart may find
  another chain than the canonical one: `Restarts.HoldsExactly` says when.

## Left out

- SHA-256, ECDSA, elliptic curves: function values with the contracts named above.
- Pointers to validators: the maps hold values, so that a caller who keeps a `*Validator` could change it behind the engine's back is not captured.
- Widths of slots, ticks, indices, stakes and weights: naturals here, 64 bits in the source. Tree.WeightAtMost gives the bound below which weights do not wrap; `active*P` needs the same of the active stake. Ledger amounts, balances, nonces and the lottery are modelled with their widths.
- Core.Blockchain.AddBlock: specified as long as the hash of the block it builds is new (H0); storing over an existing hash is not modelled.
- Core.Blockchain.AddBlockExternal: the same; the parent's state is computed before the transactions are checked, which has no effect that a caller can see.
- Core.Blockchain.UpdateCanonical: the branch for an empty tip is not modelled, since every engine has a tip; neither are the reorg counters and the log.
- Core.Blockchain.SetStorage: the snapshot store is left out: it is written to when a snapshot is taken and read on restore.
- Core.StartNode: without the snapshot store, which app/node.go opens and passes on.
- Core.Blockchain.RestoreFromStorage: stores that something else than SaveBlock has filled, with blocks under wrong hashes or heights, are not modelled; the snapshot store is left out.
- Recovery.RoundTrip: production after a restore is not claimed: the clock, the validators, the genesis balances and older snapshots are not restored.
- Mempool.TxPool.Add: sort.Slice is represented by its contract, which leaves the order of equal transactions open.
- Forks.SortCandidates: the same for the candidates; scores of different tips are never equal.
- Mempool.PopIsGreedy: not that a selection is maximal: it is one greedy pass. Transactions of a failed or unadopted block do not return to the pool.
- Misses.EquivocationPunished: unreachable in runs of these operations (Theorems.NobodyIsConvicted), so it is proved for any node.
- DeterministicLeader and VerifyLeader: not used by the engine.
- Files, JSON, crash recovery and rebuildIndex of the block store, FileSnapshotStore, MemoryBlockStore.
- Wallets, summaries, epoch exports, CSV, the command line, clocks, ports and wiring.
- Mutexes: each method runs under one lock and is one step here.
- Nil mempool, nil PoH, currentEpoch: never in these states, or never read.
