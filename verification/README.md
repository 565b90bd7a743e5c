# A verified model of the Nightfall consensus engine

This project models the consensus engine of a proof-of-work chain with hidden amounts, and proves what the
engine promises: that the fast reorganisation is the slow one, that pruning does not show, what every
interleaving of off-lock workers keeps, that no coin is ever created out of nothing, and that a
miner always has a block to mine.  Where a promise fails, the failing input and the exact condition are proved. `dafny verify dfyconfig.toml` checks all of it.

## How it is built

Values are datatypes and the program's decisions are functions of values; what changes in place is a class
whose methods, with the program's loops and early returns, are proved equal to those functions.

- `Curve` models a commitment as its coordinates on the two generators, modulo the order of ristretto255
  (section 4.4 of RFC 9496). Signatures and range proofs are ideal: an excess signature shows that the value
  coordinate is zero, a range proof that it lies below 2^64.
- `Utxo`, `Transactions`, `Ledger` are the ledger: the unspent set and its running sum, kernels, aggregates,
  full validation, state-only replay and the undo record. `LedgerState` is the ledger as an object that changes in
  place and rolls back. `LedgerProofs`, `SupplyProofs` prove undo exact and conservation over the integers from the
  equation modulo the group order.
- `Aggregation`, `Admission`, `Template` are the making of a block: merging transactions, admission to the
  mempool, the coinbase, the template.
- `Difficulty`, `MedianTime`, `Emission` are the arithmetic of a chain's clock and reward.
- `Blocks`, `Consensus` hold headers, validation of one block, runs of blocks, pruning and both
  reorganisations as functions. A hash is the symbolic term it was computed from, hence injective; proof of
  work is an arbitrary predicate.
- `StepProofs`, `ChainInvariant` define the history of a chain (every block with the ledger it left and its
  undo record) and the representation invariant; `FastReorg`, `ForkChoice`, `Agreement`, `ChainProperties`
  carry the main theorems over histories.
- `ReorgProtocol` is the state machine of concurrent workers. `Drift` is what holds of a chain whatever bodies its
  candidates carried, `Attestation` when a candidate is as good as fully validated, `TrustedPrefix` what the end of
  a trusted prefix settles about the money. `LostOutputs` and `Overburn` build the chains on which these fail, `Mining`
  the blocks for them.
- Lemmas carry `{:induction false}`: every induction is written out.
- `Chain` and `Mempool` are the classes. `Wallet` is the paged scan, `WalletPages` compares it with a single pass,
  `WalletWitness` builds the chains on which they differ, `WalletDesk` is the commit protocol, `Releases` the giving up of
  dead payments, `Encoding` the byte string under every hash.

## What the proofs found

- Own-disk replay never compares a body with its header's body root (crates/nightfall-consensus/src/lib.rs:675-724).
  So a candidate that shares our headers but carries other bodies below the fork is returned and adopted:
  `Attestation.OwnBodiesTampered` shows it for every validated archive node. The chain's blocks agree with fully
  validated ones exactly when every body taken on trust hashes to its header's root and, where a pin widened the trust,
  some validated chain reaches that pin (`CandidateAttestedExactly`).
- Whatever the bodies, links, pins, work, the undo window, the tip guard and pruning hold in every interleaving; the
  live ledger holds at most what replay gives, and a restart that goes through mends it. It can hold less. Taking blocks
  back loses exactly the outputs that a block above created again before one spent them (`ChainInvariant.RewindManyIs`),
  and a suffix mends exactly those that it creates again (`Drift.ReorganisedExactly`). A returned candidate on which it
  happens: `LostOutputs.RecreatedIsLost`.
- Through a trusted prefix that ends on a header of some validated chain, its own blocks or a pin, hidden value is still
  minted less burned, unless the fees its bodies declare exceed what the schedule mints; then nothing is unspent. That needs
  a chain that pays nobody (`Overburn.OverburnedIsReturned`). One validated block with a reward, at or above the binding fork,
  rules it out (`TrustedPrefix.RewardSettlesBurned`).
- The comment on pins says they are mainnet heights, but the pin itself is compared on every network
  (lib.rs:700-707, 777-785); only the widening of the trusted prefix is limited to mainnet. The model follows the
  code: on any other network no block is taken at the pinned height (`Agreement.ForeignPinHalts`).
- A node that judges from genesis trusts what repeats its own headers and, under a pin, more: the fast path trusts neither,
  a pruned node not the pin. Of the candidates it returns, they return exactly those whose part trusted beyond theirs passes
  in full: one sender signature changed below the pin tells them apart (`Attestation.PinnedTamperedDiffers`).
- An undo record is the inverse of replay exactly when no output overwrites an unspent entry. Full validation
  guarantees that; replay does not check it.
- A pruned node answers a light candidate with a wrong first height by an error where an archive node says
  that it is not heavier. The two agree in kind exactly otherwise.
- Mempool admission does not look at a kernel's lock height, while a block does. Among admitted transactions
  that fit together, a template builds exactly when none is locked; on every ledger there is an admitted one that is.
- Below the binding fork fees are added modulo 2^64; an aggregate whose exact total reaches 2^64 no longer balances
  (`Aggregation.WrappedFeesUnbalance`).
  Spendable transactions on a sound ledger cannot get there: their fees are part of the value they spend.
- The running sum of a deserialised UTXO set is the sum now less the sum stored. It is trusted from the first moment the
  set is empty, and is then right exactly when what was stored adds up to nothing, or a malformed entry is present. Otherwise
  the supply check fails from then on, although the supply is in order (`SupplyProofs.ReportedSupplyExactly`).
- The hash of a body with binding fields reads an absent field as zeros, so a tip hash settles headers, ledgers
  and undo records, but not whether an offset was absent or an explicit zero.
- Paged scanning does not always leave what a single pass leaves, since each page takes for known whatever earlier pages
  found. The entries of a commitment agree exactly when no page after the first that finds it pays under it again, and the
  range does not spend it before that page only (`WalletPages.PagedIsSinglePass`). An output may be created again once it is
  spent, so both happen: paging can hold one entry where a single pass holds two, and as spendable what a single pass holds
  as spent (`WalletWitness.PaidAgainDiffers`). A payment is confirmed alike exactly when it completes in one page. A receipt
  is entered alike exactly when the page that reads its block has not met its commitment before, nor, unless it was mined,
  an output that the block consumes. With every commitment paid once, before the range spends it, coins always agree.
- A full mempool sweeps itself within an insertion, which can forget a spend and let it in again with a new first-seen
  time (`Mempools.FullPoolRenews`). Nothing else renews a spend's age.
- Solve times are differences of timestamps exactly when those fit 64 signed bits; a larger gap is read as the fastest
  block. That reading relies on signed subtraction that wraps, as in the release profile; a build with overflow checks would
  stop there instead.

## Model

| member | source | states |
|---|---|---|
| Curve.SumLoop | crates/nightfall-crypto/src/commit.rs:80-86 | the accumulator loop returns the sum of the list, and nothing exactly when some element does not decode |
| Curve.SumCoordinates | crates/nightfall-crypto/src/commit.rs:79-99 | a list sums exactly when all elements decode, to the integer sums of both coordinates modulo the group order |
| Curve.CongruentClose | crates/nightfall-crypto/src/kernel.rs:171-193 | a modular equation between integers less than the group order apart is an equation between integers |
| Transactions.CanonicaliseIsCanonical | crates/nightfall-ledger/src/aggregate.rs:115-130 | the order all nodes agree on is reached in one step and is stable |
| Transactions.StripRemovesBinding | crates/nightfall-ledger/src/aggregate.rs:91-113 | stripping changes a body exactly when it has a binding field, and twice is once |
| Transactions.TotalFeeIsModular | crates/nightfall-ledger/src/aggregate.rs:132-138 | the folded fee is the exact sum modulo 2^64 |
| Transactions.CheckedFeeSumExact | crates/nightfall-ledger/src/tx.rs:402-410 | the checked sum exists exactly when every fee is within the supply and the exact sum fits 64 bits; then it is that sum |
| Transactions.RewardIsCoinbase | crates/nightfall-ledger/src/aggregate.rs:140-150 | with well-shaped kernels and one coinbase, the reward of a body is the coinbase's |
| Utxos.WalkCoordinates | crates/nightfall-ledger/src/utxo.rs:197-208 | walking the set gives the integer sums of its commitments' coordinates, or nothing when one is malformed |
| Utxos.UtxoSet.Insert | crates/nightfall-ledger/src/utxo.rs:130-143 | every field after insertion, and that a running sum that covers the set still does |
| Utxos.UtxoSet.Remove | crates/nightfall-ledger/src/utxo.rs:145-159 | the entry removed, every field after removal, and that a running sum that covers the set still does |
| Utxos.UtxoSet.CommitmentSum | crates/nightfall-ledger/src/utxo.rs:182-195 | the running sum answers what a walk over the set would answer |
| Utxos.UtxoSet.RebuildSum | crates/nightfall-ledger/src/utxo.rs:210-222 | the loop over the entries leaves a running sum that covers the set, whatever it was before |
| Utxos.RunningSumIs | crates/nightfall-ledger/src/utxo.rs:130-159 | after any insertions and removals on any stored map the running sum is the sum of the entries now less the sum of those stored |
| Utxos.CaughtUpExactly | crates/nightfall-ledger/src/utxo.rs:130-159 | the count of summed entries equals the number of entries exactly when the set has been empty since it was loaded, and then the malformed count is right too |
| Utxos.ReportedExactly | crates/nightfall-ledger/src/utxo.rs:182-195 | on a deserialised set, after any changes, the reported sum is the walked one exactly when the set was never empty, or holds a malformed entry, or the stored entries add up to nothing, that is walk to the identity |
| Utxos.EmptyingADeserialisedSet | crates/nightfall-ledger/src/utxo.rs:145-195 | one stored entry removed, and another inserted: both reports are wrong, unless the stored entry is the identity |
| Ledgers.SpendsPresent | crates/nightfall-ledger/src/lib.rs:395-407 | a body that passes the spend checks spends distinct entries that are present |
| LedgerProofs.OutputsChecked | crates/nightfall-ledger/src/lib.rs:195-219 | checked outputs are in range, pairwise distinct and absent from the set |
| LedgerProofs.RewindInvertsReplay | crates/nightfall-ledger/src/lib.rs:380-498 | rewinding the captured record restores the whole ledger after replay if and only if no output overwrote an unspent entry |
| LedgerProofs.OverwriteIsNotUndone | crates/nightfall-ledger/src/lib.rs:380-498 | on any ledger with an unspent output there is a block that replays, that full validation refuses, and whose rewinding loses the output |
| LedgerProofs.RewindInvertsApply | crates/nightfall-ledger/src/lib.rs:107-372 | after full validation rewinding always restores the whole ledger |
| LedgerProofs.ApplyRefinesReplay | crates/nightfall-ledger/src/lib.rs:107-441 | a body that passes full validation replays to the very same ledger, and its outputs are fresh |
| LedgerProofs.StripKeepsState | crates/nightfall-ledger/src/aggregate.rs:91-103 | binding fields reach no part of the state that a block leaves |
| LedgerStates.LedgerState.CaptureUndo | crates/nightfall-ledger/src/lib.rs:458-480 | the loop over the inputs gathers the specified undo record, or the specified error |
| LedgerStates.LedgerState.ApplyStateOnly | crates/nightfall-ledger/src/lib.rs:380-441 | the set changed entry by entry becomes the specified ledger; an error changes nothing |
| LedgerStates.LedgerState.ApplyBlock | crates/nightfall-ledger/src/lib.rs:107-372 | likewise for full validation; when the closing supply check fails, what was written is taken back and the ledger is as before |
| LedgerStates.LedgerState.Rewind | crates/nightfall-ledger/src/lib.rs:487-498 | removing what was created and restoring what was spent, one by one, is the specified inverse |
| SupplyProofs.GenesisSound | crates/nightfall-ledger/src/lib.rs:55-76 | the empty ledger hides nothing and satisfies the supply equation |
| SupplyProofs.BlockConserves | crates/nightfall-crypto/src/kernel.rs:1-20 | over the integers, hidden value out is hidden value in, less fees, plus the reward, from the modular equation, the range proofs and the signatures |
| SupplyProofs.NextSound | crates/nightfall-ledger/src/lib.rs:298-340 | a checked block on a sound ledger leaves a ledger whose hidden total is minted less burned |
| SupplyProofs.BurnedWithinMinted | crates/nightfall-ledger/src/utxo.rs:307-320 | burned never exceeds minted, so the circulating amount never saturates |
| SupplyProofs.ProjectionIsNextSum | crates/nightfall-ledger/src/utxo.rs:161-180 | the sum projected before the set changes is the sum of the set after it changed |
| SupplyProofs.AcceptedExactlyWhenChecked | crates/nightfall-ledger/src/lib.rs:107-372 | on a sound ledger a block is accepted exactly when its own checks pass: no overflow and no closing rollback can happen |
| SupplyProofs.ReportedSupplyExactly | crates/nightfall-ledger/src/utxo.rs:343-350 | the supply check on the reported sum: on a ledger in order it passes exactly when the set was never empty since it was loaded, or what was stored adds up to nothing |
| Difficulty.NextDifficultyLoop | crates/nightfall-consensus/src/difficulty.rs:17-70 | the loop over the window computes the retarget function |
| Difficulty.RetargetBounds | crates/nightfall-consensus/src/difficulty.rs:46-70 | at least the floor; floor and ceiling aside, within half and twice the average |
| Difficulty.ClampWellFormed | crates/nightfall-consensus/src/difficulty.rs:52-64 | a window of difficulties of at least 1 keeps the clamp's bounds in order |
| Difficulty.PlainSolvetime | crates/nightfall-consensus/src/difficulty.rs:33-45 | below 2^63 the signed difference of timestamps does not wrap |
| Difficulty.PacedIsFixedPoint | crates/nightfall-consensus/src/difficulty.rs:17-70 | an exactly paced chain keeps its difficulty exactly |
| Difficulty.OneBlockMovesLittle | crates/nightfall-consensus/src/difficulty.rs:17-70 | one arbitrary last block on a paced chain moves difficulty d only between d*61425/68175 and d*61425/53325 |
| Difficulty.ShiftInvariant | crates/nightfall-consensus/src/difficulty.rs:33-60 | adding a constant to all timestamps never changes the result |
| Difficulty.SolvetimeExactly | crates/nightfall-consensus/src/difficulty.rs:33-42 | a solve time is the clamped difference of its timestamps exactly when the difference fits 64 signed bits |
| Difficulty.LongerGapsNeverRaise | crates/nightfall-consensus/src/difficulty.rs:33-60 | longer gaps between raw timestamps, difficulties being equal, never raise the result, when gaps fit 64 signed bits |
| Difficulty.HugeGapIsFast | crates/nightfall-consensus/src/difficulty.rs:33-42 | a gap that does not fit counts as the fastest block, where signed subtraction wraps as in the release profile |
| Difficulty.NothingOverflows | crates/nightfall-consensus/src/difficulty.rs:29-60 | the weighted sum fits 64 signed bits, the difficulty sum and the product 128 bits |
| Difficulty.WeightedTelescopes | crates/nightfall-consensus/src/difficulty.rs:33-45 | without clamps the weighted sum is N times the last timestamp less the sum of the others |
| MedianTime.MedianInPlace | crates/nightfall-consensus/src/difficulty.rs:72-85 | copying and sorting the window gives the median function |
| MedianTime.MedianRank | crates/nightfall-consensus/src/difficulty.rs:72-85 | the median is the element with half the window below it |
| MedianTime.MedianMonotone | crates/nightfall-consensus/src/difficulty.rs:72-85 | the median never decreases along a chain whose blocks beat it, for any window size, short chains included |
| MedianTime.MedianAdvances | crates/nightfall-consensus/src/difficulty.rs:72-85 | once the window is full, w - w/2 further blocks move the median strictly forward |
| Emission.EraClosedForm | crates/nightfall-consensus/src/lib.rs:78-90 | rewards up to any point of an era are full eras plus the part of the last |
| Emission.GeometricCap | crates/nightfall-consensus/src/lib.rs:70-90 | for every reward and interval all rewards together stay within twice their product |
| Emission.ClampNeverBinds | crates/nightfall-consensus/src/lib.rs:92-103 | with a cap of at least that bound the clamp never reduces a reward |
| Emission.MainnetSupply | crates/nightfall-consensus/src/lib.rs:70-103 | mainnet mints until height 225,000,000 and then stops, at exactly 8,999,999,925,000,000 darks |
| StepProofs.AcceptRefinesTrust | crates/nightfall-consensus/src/lib.rs:675-849 | a block that passes full validation takes the same step as own-disk replay, with fresh outputs and matching roots |
| StepProofs.OwnDiskIgnoresBodyRoot | crates/nightfall-consensus/src/lib.rs:675-724 | own-disk replay takes any body root below the pins; full validation only the right one |
| StepProofs.StepsConcat | crates/nightfall-consensus/src/lib.rs:965-975 | a run splits anywhere; an error in the first part is the error of the whole |
| StepProofs.FullRunIsTrustedRun | crates/nightfall-consensus/src/lib.rs:965-975 | a fully validated run is also a trusted run with the same steps |
| StepProofs.WorkFits | crates/nightfall-consensus/src/lib.rs:718-722 | work grows by at least 1 and less than 2^64 a block, so 128 bits never saturate |
| ChainInvariant.CheckedFacts | crates/nightfall-consensus/src/lib.rs:731-849 | a validated block links, is fresh, matches its roots, meets its work and its difficulty, and beats the median |
| ChainInvariant.HistoryLinks | crates/nightfall-consensus/src/lib.rs:675-724 | heights are indices, parents link to genesis, pins are met, and each block replays to its ledger |
| ChainInvariant.WorkOfHistory | crates/nightfall-consensus/src/lib.rs:244-270 | recorded work is the sum of header work |
| ChainInvariant.RunKeepsInv | crates/nightfall-consensus/src/lib.rs:646-856 | applying any run on either path keeps the representation invariant, for the extended history |
| ChainInvariant.PruneKeepsInv | crates/nightfall-consensus/src/lib.rs:866-899 | pruning never fails and keeps the invariant for the same history, with exactly the requested bodies left |
| ChainInvariant.RewindManyIs | crates/nightfall-consensus/src/lib.rs:1045-1050 | rewinding the newest n records, whatever the bodies, gives the ledger of n blocks ago without the outputs created again above before being spent, and otherwise whole |
| ChainInvariant.RewindManyExact | crates/nightfall-consensus/src/lib.rs:1045-1050 | so it restores that ledger exactly when no such output exists |
| FastReorg.PrepareExact | crates/nightfall-consensus/src/lib.rs:1025-1072 | preparation succeeds exactly within the undo window, with headers and work at the ancestor, and with the ledger there exactly when none of its outputs was created again above before being spent |
| FastReorg.FinishExact | crates/nightfall-consensus/src/lib.rs:1077-1108 | validation of the suffix alone decides; the second work comparison never turns a valid suffix away |
| FastReorg.SpliceExact | crates/nightfall-consensus/src/lib.rs:1111-1132 | a verified suffix splices exactly when it wins and its fork is in the window, and keeps the invariant for the new history |
| FastReorg.WidenTrust | crates/nightfall-consensus/src/lib.rs:949-979 | trusting more of a list that already passed changes nothing |
| FastReorg.PrependHistory | crates/nightfall-consensus/src/lib.rs:921-980 | replaying our own first blocks and then the rest is continuing from our state there, errors included |
| FastReorg.SameHistorySameChain | crates/nightfall-consensus/src/lib.rs:244-270 | two chains with one history agree on headers, ledger and work, and on the bodies and undo records they keep |
| FastReorg.FastRefinesSlow | crates/nightfall-consensus/src/lib.rs:921-1132 | if prepare, finish and splice commit a suffix, the slow rebuild of the whole candidate succeeds with the same headers, bodies, ledger, work and newest undo records |
| ForkChoice.FastVerdictIsSlowVerdict | crates/nightfall-consensus/src/lib.rs:1077-1261 | evaluating our blocks and a suffix from genesis gives the fast path's verdict, error by error, also when the suffix repeats headers of ours past the ancestor; the blocks that evaluation alone takes on trust, for repeating our headers or for a pin, make no difference when they pass in full |
| ForkChoice.FastNeverLooser | crates/nightfall-consensus/src/lib.rs:1077-1261 | whatever the fast path lets through or finds too light, the slow path decides alike, whatever it takes on trust |
| ForkChoice.FastFollowsExactly | crates/nightfall-consensus/src/lib.rs:949-1108 | of the candidates the slow path returns, the fast path returns exactly those whose part taken on trust past the ancestor, shared or pinned, passes in full |
| ForkChoice.FastDecidesLikeSlow | crates/nightfall-consensus/src/lib.rs:1025-1261 | on a validated chain the fast path returns the same error, refusal or new chain as evaluating the whole candidate, when the blocks that evaluation alone takes on trust pass in full |
| ForkChoice.PrunedDecidesLikeArchive | crates/nightfall-consensus/src/lib.rs:1195-1296 | judging the tail from the pruned base and judging the whole candidate give the same error, refusal or chain; a pin above the fork makes no difference when the blocks it vouches for pass in full |
| ForkChoice.PrunedFollowsExactly | crates/nightfall-consensus/src/lib.rs:1195-1296 | of the candidates the archive node returns, the pruned node returns exactly those whose pinned part passes in full |
| ForkChoice.PrunedSameKindExactly | crates/nightfall-consensus/src/lib.rs:1205-1225 | without the height condition the two nodes agree in kind exactly when the tail is empty, starts at the horizon or claims enough work |
| ForkChoice.LightWrongHeightDiffers | crates/nightfall-consensus/src/lib.rs:1205-1225 | on every pruned node one block of least work and a wrong height is an error, and merely not heavier on an archive node |
| ForkChoice.AdoptableIsChecked | crates/nightfall-consensus/src/lib.rs:1195-1296 | a returned candidate satisfies the invariant, abandons at most 500 blocks, and was checked in full beyond a trusted prefix that ends in matching roots |
| Agreement.HashSettlesHeaders | crates/nightfall-consensus/src/lib.rs:120-160 | one equal hash makes heights, networks and all headers below equal |
| Agreement.RootSettlesState | crates/nightfall-ledger/src/aggregate.rs:162-212 | bodies with one body root replay to the same ledger and leave the same undo record |
| Agreement.TipSettlesState | crates/nightfall-consensus/src/lib.rs:731-849 | two validated chains with one tip hash have the same headers, ledgers and undo records throughout |
| Agreement.SpliceLands | crates/nightfall-consensus/src/lib.rs:1109-1132 | a suffix let through by the tip guard lands on the very history it was verified on |
| Agreement.PinAgreement | crates/nightfall-consensus/src/lib.rs:691-707 | any two chains that reach a pinned height, by any path, have identical headers up to it and are on one network |
| Agreement.ForeignPinHalts | crates/nightfall-consensus/src/lib.rs:700-707 | on any network but the one a pin descends from, neither path takes a block at the pinned height |
| Agreement.HighestIsPinned | crates/nightfall-types/src/lib.rs:84-100 | the highest pin is a pin, and no pin lies above it |
| Agreement.WorkCoverage | crates/nightfall-consensus/src/lib.rs:921-980 | in a returned candidate every block beyond our shared headers passed proof of work or lies below a pin the candidate reaches and meets |
| Drift.ReplayWithin | crates/nightfall-ledger/src/lib.rs:380-441 | a block that replays on a ledger with outputs missing replays on the whole one, which keeps what the smaller keeps |
| Drift.LooseApply | crates/nightfall-consensus/src/lib.rs:731-849 | a block accepted on such a ledger is a block of the replayed history too |
| Drift.LoosePrune | crates/nightfall-consensus/src/lib.rs:866-899 | pruning never fails on such a chain |
| Drift.LoosePrepare | crates/nightfall-consensus/src/lib.rs:1025-1072 | preparation succeeds exactly within the undo window, with headers and work at the ancestor; its ledger lacks exactly what was lost on the way |
| Drift.LooseFinish | crates/nightfall-consensus/src/lib.rs:1077-1108 | what is handed out replays on the history it was prepared from, and lacks exactly what the trial lacked and the suffix did not create again |
| Drift.LooseSplice | crates/nightfall-consensus/src/lib.rs:1109-1132 | a splice lands on the very history its suffix was verified on, and leaves headers, bodies, work and undo records of the new history |
| Drift.ReorganisedExactly | crates/nightfall-consensus/src/lib.rs:1025-1132 | a fast reorganisation on any chain of the protocol satisfies the full invariant exactly when its suffix creates again every output lost on the way back |
| Drift.LooseHeaders | crates/nightfall-consensus/src/lib.rs:244-278 | headers link to genesis and meet the pins, work is the sum of header work, bodies, horizon work and undo records are those of the headers |
| LostOutputs.RecreatedIsLost | crates/nightfall-consensus/src/lib.rs:1025-1072 | on every validated archive node on which block q spends an output unspent before block q - 1: its own bodies, that of block q - 1 creating the output once more, and one valid block are returned, and preparing below block q - 1 loses the output |
| Attestation.CandidateAttestedExactly | crates/nightfall-consensus/src/lib.rs:1195-1261 | a candidate on a chain that agrees with a validated one agrees with a validated one exactly when every body taken on trust, shared or pinned, hashes to its header's root, and a validated chain reaches the pin that widened the trust |
| Attestation.TamperedIsReturned | crates/nightfall-consensus/src/lib.rs:675-724 | any returned candidate, with one sender signature changed in any body taken on trust, is returned again with the same headers, ledger and work, and agrees with no validated chain |
| Attestation.OwnBodiesTampered | crates/nightfall-consensus/src/lib.rs:1195-1261 | every validated archive node returns its own blocks with one signature changed and one valid block more |
| Attestation.PinnedTamperedDiffers | crates/nightfall-consensus/src/lib.rs:949-1108 | any suffix the fast path returns under a pin above the fork, with one sender signature changed below that pin, is returned by the slow path and refused by the fast path |
| Attestation.PinnedTamperedDiffersPruned | crates/nightfall-consensus/src/lib.rs:1195-1296 | likewise for what a pruned node returns: the archive node returns it, the pruned node refuses it |
| TrustedPrefix.TrustedEndSettlesOutputs | crates/nightfall-consensus/src/lib.rs:976-995 | a header of a validated chain with matching roots settles commitments, keys, heights, kernel sum and minted total |
| TrustedPrefix.TrustedPrefixIsSound | crates/nightfall-consensus/src/lib.rs:921-995 | a candidate trusted up to such a header hides minted less burned exactly when the fees its bodies declare, with what was burned below its base, stay within what the schedule mints; otherwise nothing is unspent |
| TrustedPrefix.RewardSettlesBurned | crates/nightfall-ledger/src/lib.rs:281-310 | one block beyond the trusted part, at or above the binding fork and with a positive reward, rules the exception out |
| Overburn.OverburnedIsReturned | crates/nightfall-consensus/src/lib.rs:921-995 | a validated block that burns its whole subsidy: with its fee raised by one, and a valid second block, a chain is returned that burned more than was minted |
| ChainProperties.NoInflation | crates/nightfall-ledger/src/lib.rs:96-100 | after any number of validated blocks the hidden values are in range and sum, over the integers, to minted less burned |
| ChainProperties.MintedFollowsSchedule | crates/nightfall-consensus/src/lib.rs:809-818 | any chain, however validated, has minted exactly what the schedule gives its height |
| ChainProperties.BurnedIsDeclared | crates/nightfall-ledger/src/lib.rs:380-441 | any chain, however validated, has burned exactly what its bodies declare as fees while there is a subsidy |
| ChainProperties.FeesCirculate | crates/nightfall-consensus/src/lib.rs:565-577 | after the last subsidy nothing is minted or burned and the circulating value stands still |
| ChainProperties.MedianNeverGoesBack | crates/nightfall-consensus/src/lib.rs:786-791 | along every validated chain the median time past never goes back, and advances within six blocks once the window is full |
| ChainProperties.DifficultyFloor | crates/nightfall-consensus/src/lib.rs:792-799 | every recorded difficulty is at least the network's floor, hence at least 1 |
| ChainProperties.RetargetWellFormed | crates/nightfall-consensus/src/difficulty.rs:46-70 | on a validated chain the clamp is always well formed and moves by at most a factor of two |
| ReorgProtocol.StepOk | crates/nightfall-consensus/src/lib.rs:1020-1132 | every step of the off-lock protocol, whatever bodies candidates carry, keeps the invariant and never loses work |
| ReorgProtocol.EveryInterleaving | crates/nightfall-consensus/src/lib.rs:1161-1178 | so does every sequence of steps; headers, pins, work, bodies and undo window are in order throughout, pruning cannot fail, and work stays equal only if the history stayed the same |
| ReorgProtocol.SpliceOnItsBase | crates/nightfall-consensus/src/lib.rs:1109-1132 | a splice commits only onto the chain it was prepared from, abandons at most 500 blocks and leaves everything up to the ancestor in place |
| ReorgProtocol.NoTipComesBack | crates/nightfall-consensus/src/lib.rs:1298-1310 | a tip hash never returns with another chain under it |
| ReorgProtocol.StepAttestedExactly | crates/nightfall-consensus/src/lib.rs:1195-1261 | from a node whose blocks all agree with validated ones, a step keeps that exactly when it does not return a candidate with a trusted body its header does not commit to, or trusted up to a pin that no validated chain reaches |
| ReorgProtocol.EveryFaithfulRun | crates/nightfall-consensus/src/lib.rs:1161-1178 | in every run without such candidates, over every interleaving, every block of chain and work in flight agrees with a validated one |
| ReorgProtocol.ReachableIsSound | crates/nightfall-consensus/src/lib.rs:1328-1334 | in every node such a run reaches hidden value is minted less burned and minted follows the schedule |
| ReorgProtocol.RestartOk | crates/nightfall-storage/src/lib.rs:872-937 | replaying the node's own bodies keeps the history, and a restart that goes through has the ledger of the history, nothing missing |
| ReorgProtocol.RestartAttested | crates/nightfall-storage/src/lib.rs:872-937 | a node whose blocks agree with validated ones always restarts, with the same headers, bodies, ledger and work |
| Chains.Chain.constructor | crates/nightfall-consensus/src/lib.rs:302-323 | a new chain satisfies the invariant for the empty history |
| Chains.Chain.ApplyBlockInner | crates/nightfall-consensus/src/lib.rs:731-849 | the new state is the accepted step pushed; on any error, root mismatch after the ledger changed included, every field is as before |
| Chains.Chain.ApplyBlockLocallyTrusted | crates/nightfall-consensus/src/lib.rs:655-668 | the same step without the clock and proof-of-work checks |
| Chains.Chain.ApplyBlockFromOwnDisk | crates/nightfall-consensus/src/lib.rs:675-724 | the new state is the replayed step pushed, or unchanged with the error |
| Chains.Chain.RememberUndo | crates/nightfall-consensus/src/lib.rs:851-856 | the deque holds the newest 500 records |
| Chains.Chain.TryIngestBlocks | crates/nightfall-consensus/src/lib.rs:997-1018 | an error leaves the chain unchanged; otherwise it is extended by exactly the first n blocks and block n was refused |
| Chains.Chain.PruneKeep | crates/nightfall-consensus/src/lib.rs:866-899 | the specified fields also when a body does not replay and the horizon stays moved; on a chain that satisfies the invariant it succeeds, returns the number of dropped bodies and keeps the invariant |
| Chains.Chain.RewoundWork | crates/nightfall-consensus/src/lib.rs:858-865 | the work of the newest records, nothing beyond the window |
| Chains.Chain.PrepareSuffixTrial | crates/nightfall-consensus/src/lib.rs:1025-1072 | a fresh chain equal to the specified trial, or the specified error; the live chain is not touched |
| Chains.Chain.FinishSuffix | crates/nightfall-consensus/src/lib.rs:1077-1108 | the specified verdict on the trial |
| Chains.Chain.SpliceSuffix | crates/nightfall-consensus/src/lib.rs:1111-1132 | refuses without a change or becomes the spliced chain, which keeps the invariant when the suffix was prepared on an earlier state of this chain |
| Chains.Chain.Replay | crates/nightfall-consensus/src/lib.rs:965-979 | the shared rebuild loop: trusted run, root check where the trusted part ends, full run |
| Chains.Chain.RebuildFromBlocks | crates/nightfall-consensus/src/lib.rs:921-980 | a fresh chain that satisfies the invariant and is the specified rebuild, or its error |
| Chains.Chain.RebuildFromPrunedBase | crates/nightfall-consensus/src/lib.rs:1265-1296 | likewise from a prune horizon |
| Chains.Chain.CountCommon | crates/nightfall-consensus/src/lib.rs:28-37 | the length of the longest common prefix by hash |
| Chains.Chain.EvaluateReorgAt | crates/nightfall-consensus/src/lib.rs:1195-1261 | the specified verdict as a fresh chain, no existing chain touched |
| Chains.Chain.AdoptReorg | crates/nightfall-consensus/src/lib.rs:1304-1310 | adopts exactly when the candidate still has more work |
| Chains.Chain.MaybeReorgTo | crates/nightfall-consensus/src/lib.rs:1141-1160 | adopts exactly when the evaluation returns a chain, and is unchanged otherwise |
| Aggregation.AggregateLoop | crates/nightfall-ledger/src/aggregate.rs:78-90 | the merging loop gives the canonical aggregate |
| Aggregation.BalanceIff | crates/nightfall-ledger/src/lib.rs:262-290 | the balance equation holds exactly when everything decodes and nothing is left on either generator |
| Aggregation.KeyBalanceIff | crates/nightfall-ledger/src/tx.rs:444-470 | likewise for the key balance |
| Aggregation.AggregateBalances | crates/nightfall-ledger/src/aggregate.rs:76-90 | the aggregate of balanced transactions balances exactly when their fees total less than 2^64 |
| Aggregation.WrappedFeesUnbalance | crates/nightfall-ledger/src/aggregate.rs:132-138 | two balanced transactions whose fees total 2^64 aggregate to a body that does not balance |
| Aggregation.AggregateKeyBalances | crates/nightfall-ledger/src/tx.rs:424-470 | the key balance of an aggregate follows from that of its parts |
| Aggregation.AggregateForgetsOrder | crates/nightfall-ledger/src/aggregate.rs:115-124 | the same transactions in any order aggregate to the same body, offsets included, unless sort keys tie |
| Admission.AcceptableFits | crates/nightfall-ledger/src/lib.rs:501-560 | an admitted, unlocked transaction meets everything a block asks of its parts, on both sides of the binding fork |
| Admission.LockedIsAcceptable | crates/nightfall-ledger/src/lib.rs:501-560 | on every ledger and at every height admission takes a transaction that is locked beyond that height |
| Admission.AssembledPasses | crates/nightfall-ledger/src/lib.rs:107-297 | fitting parts with distinct commitments and one coinbase make a body that passes every check |
| Templates.SealedIsAccepted | crates/nightfall-consensus/src/lib.rs:545-619 | a sealed template is accepted on its tip exactly when its work, clock drift, pin and the last second of the clock allow |
| Templates.AdmittedBuildsIffUnlocked | crates/nightfall-consensus/src/lib.rs:545-619 | admitted transactions that fit together build a template exactly when none is locked, in both fee eras and on both sides of the fork |
| Templates.FeesWithinValue | crates/nightfall-ledger/src/aggregate.rs:132-138 | on a sound ledger the fees of spendable transactions are part of the hidden value there is, so their sum never wraps |
| Templates.EmptyTemplateBuilds | crates/nightfall-consensus/src/lib.rs:536-543 | a block with only its coinbase can always be built |
| Templates.BuildTemplateFiltering | crates/nightfall-consensus/src/lib.rs:507-543 | tries all, then those admission accepts, then none, and never fails while an empty block can be built; what it offers second admission accepts, what it reports as dropped admission refuses |
| Templates.FilteringLosesNothing | crates/nightfall-consensus/src/lib.rs:520-533 | kept and dropped transactions together are those offered |
| Mempools.AdmitOk | crates/nightfall-consensus/src/lib.rs:1384-1430 | insertion keeps ids, timestamps, the conflict rule and the cap |
| Mempools.EveryRunOk | crates/nightfall-consensus/src/lib.rs:1350-1499 | the pool invariant holds in every run of insertion, expiry, inclusion and dropping |
| Mempools.LegacySpendsAlike | crates/nightfall-ledger/src/tx.rs:172-188 | two shapes of one spend consume the same outputs |
| Mempools.EventKeepsAgeExactly | crates/nightfall-consensus/src/lib.rs:1384-1499 | a spend still held after an event keeps its first-seen time, exactly unless a full pool was swept out and the spend let in again within one insertion |
| Mempools.FullPoolRenews | crates/nightfall-consensus/src/lib.rs:1384-1430 | the exception happens: a full pool offered again, six hours later, a transaction it holds enters it with a new first-seen time |
| Mempools.UpgradesDoNotExtend | crates/nightfall-consensus/src/lib.rs:1384-1460 | in a run without such an insertion, however often a spend is upgraded its first-seen time stays, and the first sweep six hours after it forgets it |
| Mempools.GreedyMaximal | crates/nightfall-consensus/src/lib.rs:1528-1545 | whatever is left out clashes with a choice ranked before it, or the block was full |
| Mempools.RankingUnique | crates/nightfall-consensus/src/lib.rs:1516-1530 | a pool has one ranking, whatever order its map is walked in |
| Mempools.Mempool.InsertChecked | crates/nightfall-consensus/src/lib.rs:1384-1430 | outcome and new pool are those of the admission rules, sweep and upgrade included |
| Mempools.Mempool.ExpireOld | crates/nightfall-consensus/src/lib.rs:1443-1459 | exactly the entries past the cutoff go, from both maps |
| Mempools.Mempool.RemoveConsumed | crates/nightfall-consensus/src/lib.rs:1465-1485 | exactly what the block spent or created goes |
| Mempools.Mempool.DropAll | crates/nightfall-consensus/src/lib.rs:1487-1499 | exactly the named entries go, and their number is returned |
| Mempools.Mempool.SelectForBlock | crates/nightfall-consensus/src/lib.rs:1516-1546 | the selection is the top of the one ranking, independent of map order |
| WalletScan.WalletState.ScanWithoutRelay | crates/nightfall-core/src/wallet_state.rs:602-678 | the paging loop, each turn on the chain as it then is, ends and leaves what the specified pages leave, with the saturating count of what was found |
| WalletScan.NeverStuck | crates/nightfall-core/src/wallet_state.rs:660-672 | where heights are indices a full page always moves the position: the loop never gives up as stuck |
| WalletScan.IndicesOfInv | crates/nightfall-consensus/src/lib.rs:244-278 | and on a chain that satisfies its invariant they are |
| WalletScan.EnoughPages | crates/nightfall-core/src/wallet_state.rs:593-598 | on a chain that stands still the unbounded loop ends after all pages |
| WalletPages.NextPage | crates/nightfall-wallet/src/lib.rs:1085-1205 | a page that overlaps the one before in one block keeps the entries known by then, marks those it spends, and gives a commitment first paid on it exactly this page's entries |
| WalletPages.PagedIsSinglePass | crates/nightfall-core/src/wallet_state.rs:602-678 | against one pass over the range, paging leaves the same position, anchor and known commitments; the same entries and flags of a commitment exactly when no page after the first that finds it pays under it again and the range does not spend it before that page only; the same confirmation of a payment exactly when it completes in one page; the same receipt under a key exactly when it does not come too late; so the same wallet exactly when all three hold throughout |
| WalletPages.PaidOnceIsEnough | crates/nightfall-wallet/src/lib.rs:1085-1205 | a wallet paid once under every commitment new to it, and before the range spends it, has the coins of a single pass, whatever happens to the outputs of others, and a receipt comes too late only for looking like change |
| WalletPages.CompletesWithin | crates/nightfall-wallet/src/lib.rs:1115-1136 | when nothing is consumed twice, a payment completes in one page exactly when it is not fully consumed or one page consumes all of it |
| WalletPages.OneBlockIsEnough | crates/nightfall-wallet/src/lib.rs:1115-1136 | one block that consumes all of a payment is enough |
| WalletWitness.PaidAgainDiffers | crates/nightfall-wallet/src/lib.rs:1085-1205 | on any network there is a chain that satisfies its invariant, with an output created, spent and created again more than a page later: a wallet new at genesis holds two entries after a single pass and one after paging; one new at the spending block holds the second output as spent after a single pass and as spendable after paging |
| WalletWitness.TwoPagesDiffer | crates/nightfall-wallet/src/lib.rs:1085-1264 | on any network there is a chain that satisfies its invariant, one block longer than a page, on which paging and a single pass leave different payments and different receipts |
| WalletDesk.NoLostUpdate | crates/nightfall-core/src/app.rs:762-842 | for every interleaving the live wallet is the edits and committed scans in commit order, and its payments, reservations and notes are those of the edits alone |
| Releases.ImpossibleSends | crates/nightfall-core/src/wallet_state.rs:112-146 | exactly the impossible payments, and exactly their inputs that still exist |
| Releases.ReleaseIsSafe | crates/nightfall-wallet/src/lib.rs:1047-1083 | no input another payment waits for is freed, nothing is freed that the chain does not hold, no possible payment is touched |
| Encoding.HashMulti | crates/nightfall-crypto/src/lib.rs:70-80 | the loop feeds the hasher the length-prefixed encoding |
| Encoding.DecodeInvertsEncode | crates/nightfall-crypto/src/lib.rs:64-80 | a decoder recovers domain and parts for all lengths below 2^64 |
| Encoding.PreimageInjective | crates/nightfall-consensus/src/lib.rs:125-143 | distinct header fields give distinct proof-of-work pre-images |

## Left out

- Argon2id, Blake3, Schnorr, Bulletproofs, stealth addresses and curve arithmetic: ideal signatures and range proofs, symbolic hashes, and the coordinate model of commitments stand in for them.
- The body hash is symbolic in the list of its fields; that the bytes of an output and of a kernel never coincide is part of that idealisation.
- The UTXO Merkle tree is the map of its leaves; like the tree it does not cover the coinbase flag.
- Heights, timestamps' differences and cumulative work are unbounded integers where the program saturates; `StepProofs.WorkFits` shows that work does not reach 128 bits.
- Inside a chain object the ledger is a value; its changes in place are those of class LedgerState. Kernels are added to the kernel sum at once.
- Ledgers.KeyBalance: which of several malformed inputs, outputs or kernels is reported first is simplified; whether the balance passes is exact.
- Admission.Acceptable is a yes or no; the error kinds of `check_tx_acceptable` are not modelled.
- Chains.Chain.SpliceSuffix: the steps behind the suffix are ghost arguments, the program's record carries only their results.
- The wallet's coins are the list of entries of each commitment where the program keeps one list; the order of entries across commitments, values, memos and blinding factors are not modelled. Payments are confirmed entry by entry where the program looks them up by their transaction id, which recording keeps unique; receipts are a map by commitment and kind, in no order.
- Transactions.InputKeyCoefficient: a fixed function of both keys stands for the hash that combines them.
- ReorgProtocol.StepAttestedExactly: whether some validated chain reaches the pin is a fact about the network; the model takes it as a condition and does not decide it.
- WalletWitness.TwoPagesDiffer: the chain replays as own-disk replay takes it; its signatures and balances are not those of a validated chain.
- WalletWitness.PaidAgainDiffers: likewise.
- Overburn.OverburnedIsReturned: stated for the two networks whose binding fork lies above genesis.
- ReorgProtocol.DoRestart: the stored file is taken to hold the bodies in memory; a node whose replay fails a check does not start and is left as it was.
- Building transfers, coin selection, invoices, swaps, the light-client scan and wallet files.
- The disk format, networking, threads, locks and clocks: time is a parameter and concurrency is a sequence of atomic steps.
- `mine_block`, nonce search and proof-of-work parameters: whether a header meets its work is an arbitrary predicate.
- Accessors such as `block_by_height`, `hash_at` and `bodies_through`: they follow from the representation invariant.
- The desktop application, RPC server and scripts.
