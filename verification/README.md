# Domain staking, receipts and rewards

This project models three parts of the Subspace runtime and proves what they keep over whole runs.

1. The staking pool of an operator in `pallet-domains`. Nominators deposit balance and withdraw shares. At the end of an
   epoch the pool is moved once, in aggregate, at one stored share price; each nominator's own deposit or withdrawal is
   converted lazily from that price, perhaps many epochs later. `SharePrice`, `OperatorPool`, `PoolInvariant`,
   `PoolSteps`, `PoolRules`, `PoolBoundary`, `Payments` and `RegistrationEpoch` are about one pool; `DomainStaking`,
   `DomainInvariant`, `EpochTransition` and `StakingRuns` about the operators of a domain and every interleaving of
   calls, epochs, rewards, marks and slashes; `Slashing` and `SlashRuns` about slashing in rounds; `StakingRefusals` and
   `StakingTheorems` state the results, `StorageLedger` and `LifeCycle` those about storage funds and about statuses and
   locking periods; `SoloRuns` and `EarlyLeaving` build three runs that go wrong. `StakingPallet` and
   `EpochLoops` hold the storage as a class and the loops of the source, proved against those specifications.
2. The block tree of execution receipts in `pallet-domains`. `ReceiptChain` is the tree itself, `BundleInbox` the bundles
   that receipts report, `OperatorMarks` the statuses that receipts change, `BlockTree` the calls and hooks.
   `BlockTreeInvariant`, `BlockTreeRuns` and `BlockTreeSteps` prove what every step keeps; `BlockTreeBlocks`,
   `BlockTreeTheorems`, `BlockTreeSettlement`, `ConsensusHashes` and `PendingSubmitters` state the results; `TreePallet`
   holds the storage as classes.
   `TreeStaking` and `DomainRuns` run both machines together and prove that they always agree on the operators, their
   statuses and who is pending slash.
3. Smaller cores: the slot guard (`SlotGuard`), the version index (`VersionIndex`), storage refunds and the treasury
   (`StorageRefund`), and the issuance and subsidy curve of `pallet-rewards` (`Rewards`, `SubsidyCurve`).

`Perquintill`, `Splitting`, `MapSums` and `Runs` are the arithmetic, the sums over maps and the induction over runs that
the rest shares.

## How the source is read

- Balances, shares and block numbers are natural numbers without a width. `Perquintill` is exact floor arithmetic over
  10^18; adding one unit saturates at one.
- A call that fails changes nothing. Hashes are injective: a hash either remembers its receipt or is the hash of none.
  Header hashes of bundles are distinct.
- Of a proportional part, "to the unit" means rounded down: it misses less than one unit and one part in
  10^18 of the amount (`Perquintill.IsPart`, `SharePrice.IsSale`).
- The genesis receipt names consensus block 0, and a domain starts in a later block.
- An operator is live when it is neither slashed nor pending slash. The pool invariants speak about live operators, and
  `Slashing.Frozen` about the others.
- Registration stores a price for the epoch that is still running, and a nomination in that epoch counts its shares
  before they are issued. A nominator who leaves in the deregistration epoch, when the locking period is shorter than
  what is left of it, can leave something behind in the totals of the epoch. Both calls are steps of the model, and
  `StakingRuns.NextKeeps` says exactly when they keep the invariant; `RegistrationEpoch` and `EarlyLeaving` hold runs in
  which they do not. Runs are made of the steps that do, called timely. Nominations in the registration epoch that are
  followed by neither a withdrawal nor a reward do no lasting harm (`RegistrationEpoch.RegistrationEpochSettles`).
- A pool frozen in its registration epoch with an open withdrawal is slashed for more than was put in
  (`EarlyLeaving.FreezingEarlyOverpays`); `Slashing.FreezesFunded` gives the exact condition.
- When the last holder of shares leaves a deregistered pool before a nominator who has withdrawn everything, that
  nominator is refused by both ways of unlocking (`EarlyLeaving.OwnerLeavingStrandsWithdrawer`), and stays refused while
  the operator is live (`StakingTheorems.NoSharesStrand`).
- The chain rewards of an epoch are an arbitrary input. In the source the function that should add to them computes a
  sum and drops it (`crates/pallet-domains/src/lib.rs:3168-3172`).
- A fraud proof is accepted when its target is a stored non-genesis receipt, not above the head, and its parent is
  stored; the content of proofs is not part of this model.
- The trace-root and state-root checks of a receipt are one flag, `wellFormed`, and the fee and transfer updates of a
  confirmation are one input, `transfersOk`.

## Model

| member | source | states |
|---|---|---|
| SharePrice.New | crates/pallet-domains/src/staking.rs:46-66 | a share price exists if and only if 0 < shares <= stake |
| SharePrice.NewIsRatio | crates/pallet-domains/src/staking.rs:49-66 | the price is shares per stake, rounded down to one part in 10^18 |
| SharePrice.StakeToSharesBound | crates/pallet-domains/src/staking.rs:67-73 | a deposit buys at most its proportional number of shares |
| SharePrice.SharesToStakeBound | crates/pallet-domains/src/staking.rs:75-85 | withdrawn shares pay at most their proportional stake, although the stored price was rounded |
| SharePrice.PriceBrackets | crates/pallet-domains/src/staking.rs:67-85 | the stored price and the one used for withdrawals enclose the exact ratio, one unit apart |
| SharePrice.StakeToSharesDust | crates/pallet-domains/src/staking.rs:67-73 | rounding loses less than one share and one part in 10^18 |
| SharePrice.SharesToStakeDust | crates/pallet-domains/src/staking.rs:75-85 | rounding loses less than one unit of stake and one part in 10^18 |
| SharePrice.BuyThenSell | crates/pallet-domains/src/staking.rs:67-85 | depositing and withdrawing at one price never gains |
| SharePrice.SellThenBuy | crates/pallet-domains/src/staking.rs:67-85 | withdrawing and depositing at one price never gains shares |
| SharePrice.SellKeepsRatio | crates/pallet-domains/src/staking.rs:75-85 | selling shares never underflows the stake and never lowers stake per share |
| SharePrice.BuyKeepsRatio | crates/pallet-domains/src/staking.rs:67-73 | issuing shares for a deposit never lowers stake per share |
| PoolInvariant.ConvertDepositInvisible | crates/pallet-domains/src/staking.rs:504-549 | converting a deposit lazily changes neither the shares claimed nor the storage deposit |
| PoolInvariant.ConvertWithdrawalInvisible | crates/pallet-domains/src/staking.rs:556-598 | converting a withdrawal lazily changes neither what is promised nor the open shares |
| PoolInvariant.ConvertedQueueOk | crates/pallet-domains/src/staking.rs:556-598 | conversion appends to the queue in unlock order and within the limit |
| PoolInvariant.ConversionsSucceed | crates/pallet-domains/src/staking.rs:510-527 | in a sound pool no conversion misses the share price of its epoch |
| PoolInvariant.PriceExists | crates/pallet-domains/src/staking.rs:857-877 | while the owner has not left, shares remain and a price can be built |
| PoolSteps.NominateKeeps | crates/pallet-domains/src/staking.rs:600-662 | a nomination keeps the share books (claims and open withdrawals within the total shares), and with them the pool sound, if and only if the running epoch has no price yet, that is, after the registration epoch |
| PoolSteps.DepositKeeps | crates/pallet-domains/src/staking.rs:458-502 | any deposit, with or without a reward, keeps the share books and the pool sound under the same condition: it converts the earlier one first |
| PoolSteps.WithdrawKeeps | crates/pallet-domains/src/staking.rs:887-1093 | a withdrawal keeps every pool invariant |
| PoolSteps.WithdrawFailsOnlyOnRequest | crates/pallet-domains/src/staking.rs:887-1093 | a withdrawal is never refused for a missing price, storage deposits or fund balance |
| PoolSteps.MaturedExactly | crates/pallet-domains/src/staking.rs:1127-1155 | on a sorted queue the popped entries are exactly those whose unlock block has come |
| PoolSteps.UnlockFundsKeeps | crates/pallet-domains/src/staking.rs:1098-1254 | unlocking matured withdrawals keeps every pool invariant |
| PoolSteps.UnlockNominatorKeeps | crates/pallet-domains/src/staking.rs:1257-1437 | a nominator leaving keeps the books if and only if nothing of it waits for the end of the running epoch; if others stay, that epoch has no price yet and the whole pool is sound under the same condition |
| PoolSteps.UnlockNominatorKeepsRatio | crates/pallet-domains/src/staking.rs:1283-1349 | those who stay keep at least their stake per share |
| PoolSteps.UnlockNominatorSucceeds | crates/pallet-domains/src/staking.rs:1283-1349 | an unlock succeeds if and only if the pool has shares and the nominator a deposit |
| PoolRules.WithdrawLeavesEnough | crates/pallet-domains/src/staking.rs:943-1001 | a withdrawal takes what was asked or everything; what it leaves is worth the minimum at the price of the moment, and the owner always stays |
| PoolRules.EnoughAtEpochEnd | crates/pallet-domains/src/staking.rs:943-1001 | what a withdrawal leaves is still worth the minimum at the price stored when the epoch ends, whatever else happens in the epoch |
| PoolRules.WithdrawGranted | crates/pallet-domains/src/staking.rs:887-1055 | in a sound pool a withdrawal is granted if and only if status, deposit, queue and minimums allow it, and it takes exactly what was asked unless a nominator would keep less than the minimum |
| PoolRules.FinalPriceNoWorse | crates/pallet-domains/src/staking.rs:857-877 | the price stored at the end of the epoch pays a withdrawer at least the price of the moment |
| PoolRules.UnlockPaysMatured | crates/pallet-domains/src/staking.rs:1098-1254 | an unlock pays exactly the matured entries, stake and storage refund, and keeps the rest of the queue in order |
| PoolRules.UnlockGranted | crates/pallet-domains/src/staking.rs:1098-1164 | in a sound pool an unlock succeeds if and only if an entry that pays something is due |
| PoolRules.UnlockFailsOnlyOnRequest | crates/pallet-domains/src/staking.rs:1098-1254 | unlocking a sound pool is refused only for the status, for want of a withdrawal or before its time |
| PoolRules.LeavingPaysPart | crates/pallet-domains/src/staking.rs:1257-1349 | a nominator leaves only after the unlock block, with at most its part of the pool |
| PoolRules.WithdrawKeepsFund | crates/pallet-domains/src/staking.rs:1003-1029 | a withdrawal leaves every other storage deposit at least its balance in the fund |
| PoolRules.LeavingKeepsFund | crates/pallet-domains/src/staking.rs:1384-1397 | so does a nominator leaving |
| PoolRules.SlashKeepsFund | crates/pallet-domains/src/staking_epoch.rs:612-628 | so does slashing a nominator |
| PoolRules.NominateKeepsFund | crates/pallet-domains/src/staking.rs:623-645 | a nomination does so if and only if the fund does not exceed its deposits |
| PoolRules.NominationDilutes | crates/pallet-domains/src/staking.rs:623-645 | a fund of 400 for deposits of 200 is diluted by a nomination of 1000 |
| PoolBoundary.DepositsCovered | crates/pallet-domains/src/staking_epoch.rs:395-423 | the shares of all deposits, rounded one by one later, fit into the shares issued once for their sum |
| PoolBoundary.WithdrawalsCovered | crates/pallet-domains/src/staking_epoch.rs:395-414 | the stake of all withdrawals, rounded one by one later, fits into the stake taken out once for their sum |
| PoolBoundary.FinalizeKeeps | crates/pallet-domains/src/staking_epoch.rs:374-441 | moving the pool in aggregate at one stored price keeps every pool invariant in the next epoch |
| PoolBoundary.FinalizeExact | crates/pallet-domains/src/staking_epoch.rs:375-440 | the stored price is the ratio of shares and stake; withdrawn shares are paid and burnt and deposits get shares at that ratio, to the unit |
| PoolBoundary.BoundaryKeeps | crates/pallet-domains/src/staking_epoch.rs:151-225 | reward, tax deposit and aggregate move together keep every pool invariant |
| PoolBoundary.BoundaryRatio | crates/pallet-domains/src/staking_epoch.rs:198-207 | stake per share never falls across an epoch boundary |
| PoolBoundary.BoundarySucceeds | crates/pallet-domains/src/staking_epoch.rs:399-423 | the boundary of a pool fails if and only if it has something to move and no shares |
| RegistrationEpoch.RegisteredIsExact | crates/pallet-domains/src/staking.rs:405-450 | a new pool has the price one for its own epoch and not one share to spare |
| RegistrationEpoch.RegisteredAs | crates/pallet-domains/src/staking.rs:388-450 | a new pool has the tax, the minimum and the owner asked for, a fifth of the amount in its storage fund and the rest as stake, all of it claimed by the owner |
| RegistrationEpoch.EarlyNominationsCrowd | crates/pallet-domains/src/staking.rs:600-662 | in the registration epoch the claims exceed the issued shares by exactly the deposits of the epoch, after every nomination |
| RegistrationEpoch.RegistrationEpochSettles | crates/pallet-domains/src/staking_epoch.rs:375-440 | after any nominations in the registration epoch, without a withdrawal or a reward, the epoch can end and the pool is sound again |
| RegistrationEpoch.EarlyWithdrawalStopsEpoch | crates/pallet-domains/src/staking_epoch.rs:399-414 | a nominator who joins and withdraws in the registration epoch makes finalization fail with an underflow |
| EarlyLeaving.LeavingEarlyStrandsOwner | crates/pallet-domains/src/staking.rs:1257-1437 | a run leads to a pool in which a nominator leaves in the deregistration epoch with an open withdrawal; that breaks the books, and when the epoch has ended the owner can no longer leave |
| EarlyLeaving.FreezingEarlyOverpays | crates/pallet-domains/src/staking_epoch.rs:519-634 | a run leads to an operator slashed in its registration epoch with an open withdrawal, and slashing takes more out of its pool than was put in |
| EarlyLeaving.OwnerLeavingStrandsWithdrawer | crates/pallet-domains/src/staking.rs:1098-1285 | a run leads to a live pool without shares that owes a withdrawer 200, and both ways of unlocking are refused |
| OperatorPool.TaxIsPercentage | crates/pallet-domains/src/staking_epoch.rs:150-151 | the tax is the given percentage of the reward, rounded down |
| Payments.NominatePays | crates/pallet-domains/src/staking.rs:600-662 | a nomination puts a fifth into the storage fund and lets the rest wait for the end of the epoch, for the nominator alone, and adds no stake before |
| Payments.NominateAccepted | crates/pallet-domains/src/staking.rs:490-497 | in a sound pool a nomination is accepted if and only if the operator is registered and the nominator has shares or brings the minimum, counted with storage part and pending deposit |
| Payments.RewardPays | crates/pallet-domains/src/staking_epoch.rs:149-207 | of a reward the percentage is deposited again for the owner, and the rest raises the stake of the pool |
| Payments.CurrentPriceCountsRewards | crates/pallet-domains/src/staking.rs:857-877 | the price of the moment is that of the stake with the rewards of the running epoch, net of tax |
| Payments.WithdrawPays | crates/pallet-domains/src/staking.rs:995-1085 | a withdrawal takes the part of the storage deposit that its shares stand for, and what leaves the storage fund, the part of the fund that this deposit stands for, is recorded for the withdrawer |
| Payments.ConversionKeepsTimes | crates/pallet-domains/src/staking.rs:556-598 | converting a withdrawal changes neither when its parts unlock nor their storage refunds |
| Payments.LeavingPays | crates/pallet-domains/src/staking.rs:1283-1437 | a leaver gets the stake of its shares, what was promised, its unstaked deposit and the storage refunds of all of it, to the unit |
| Payments.LeavingBalances | crates/pallet-domains/src/staking.rs:1283-1461 | payment, pool and treasury balance to the unit: what is left with the last nominator goes to the treasury, before that nothing does |
| Payments.SlashPays | crates/pallet-domains/src/staking_epoch.rs:519-640 | a slash takes the stake of a nominator and everything promised to it, and gives back the unstaked deposit with its part of the storage fund |
| Payments.SlashBatchPays | crates/pallet-domains/src/staking_epoch.rs:507-640 | in a round everybody is slashed at the price that the pool had when the round began |
| StorageLedger.StorageNeverLost | crates/pallet-domains/src/bundle_storage_fund.rs:62-233 | over every run, slashed or not, the fund, the refunds recorded for withdrawers and everything paid out add up to what was paid in |
| StorageFund.Reserve | crates/pallet-domains/src/bundle_storage_fund.rs:141-172 | the storage part is less than any positive deposit |
| StorageFund.ReserveIsFifth | crates/pallet-domains/src/bundle_storage_fund.rs:141-172 | the storage part is one fifth, rounded down |
| StorageFund.RedeemIsFair | crates/pallet-domains/src/bundle_storage_fund.rs:47-60 | a redemption never exceeds the fund and leaves at least the same balance per deposit to the others |
| StorageFund.RedeemIsPart | crates/pallet-domains/src/bundle_storage_fund.rs:47-60 | a deposit redeems its part of the fund, to the unit |
| StorageFund.RedeemAll | crates/pallet-domains/src/bundle_storage_fund.rs:47-60 | redeeming every deposit empties the fund |
| StorageFund.RedeemEachIsFair | crates/pallet-domains/src/bundle_storage_fund.rs:47-60 | in any order of redemptions the deposits that stay keep at least their balance per deposit |
| Splitting.SharesWithin | crates/pallet-domains/src/staking.rs:1490-1519 | shares of a split, each rounded down, never exceed the amount |
| Splitting.ShareIsPart | crates/pallet-domains/src/staking.rs:1492-1497 | a share is the proportional part of the amount, to the unit |
| DomainInvariant.RegisterKeeps | crates/pallet-domains/src/staking.rs:352-452 | registration keeps the operator sets and pools sound |
| DomainInvariant.NominateKeeps | crates/pallet-domains/src/staking.rs:600-662 | nomination keeps the share books of the pool, and the operator sets and pools sound, if and only if it comes after the registration epoch |
| DomainInvariant.WithdrawKeeps | crates/pallet-domains/src/staking.rs:887-1093 | withdrawal keeps them sound, also from a deactivated operator |
| DomainInvariant.UnlockFundsKeeps | crates/pallet-domains/src/staking.rs:1098-1254 | unlocking funds keeps them sound |
| DomainInvariant.UnlockNominatorKeeps | crates/pallet-domains/src/staking.rs:1257-1461 | unlocking a nominator keeps them sound if and only if it can leave, as it always can after the deregistration epoch; the operator is removed with the last one |
| DomainInvariant.DeregisterKeeps | crates/pallet-domains/src/staking.rs:690-749 | deregistration keeps them sound |
| DomainInvariant.DropFromSetsOk | crates/pallet-domains/src/staking.rs:1557-1569 | taking an operator out of the sets never underflows the stake of the domain |
| DomainInvariant.DeactivateKeeps | crates/pallet-domains/src/staking.rs:755-806 | deactivation succeeds if and only if the operator is registered and live, and keeps them sound |
| DomainInvariant.ReactivateKeeps | crates/pallet-domains/src/staking.rs:810-853 | reactivation keeps them sound |
| DomainInvariant.MarkSlashedKeeps | crates/pallet-domains/src/staking.rs:1525-1581 | marking as slashed never fails, takes effect and keeps them sound |
| DomainInvariant.MarkInvalidKeeps | crates/pallet-domains/src/staking.rs:1585-1651 | marking never fails: it takes a registered live operator out of both operator sets, changes nobody else, and keeps them sound |
| DomainInvariant.UnmarkInvalidKeeps | crates/pallet-domains/src/staking.rs:1657-1714 | taking a mark back restores the operator to registered and to the next operators |
| EpochTransition.EveryLivePoolPriced | crates/pallet-domains/src/staking_epoch.rs:311-351 | every pool that is neither slashed nor pending slash goes through its boundary, whichever sets it is in |
| EpochTransition.EpochEndsIff | crates/pallet-domains/src/staking_epoch.rs:227-368 | an epoch can end if and only if no live pool without shares has something to move |
| EpochTransition.EpochEndsWithOwners | crates/pallet-domains/src/staking_epoch.rs:227-368 | while no owner of a live pool has left, every epoch ends |
| EpochTransition.EndEpochKeeps | crates/pallet-domains/src/staking_epoch.rs:227-368 | the end of an epoch keeps the sets and pools sound and leaves no live pool with anything to move |
| EpochTransition.RewardLands | crates/pallet-domains/src/staking_epoch.rs:151-215 | a reward ends up as stake, owner deposit or storage deposit, to the unit, and the stake rises by the reward without the tax percentage |
| EpochTransition.EpochRewardsConserved | crates/pallet-domains/src/staking_epoch.rs:93-215 | what is to be paid to live operators and to the treasury adds up to the epoch rewards and chain rewards |
| EpochTransition.BoundaryMoves | crates/pallet-domains/src/staking_epoch.rs:151-441 | across its boundary a pool gains its reward and gives up exactly what the withdrawers of the epoch are owed |
| EpochTransition.EndEpochConserves | crates/pallet-domains/src/staking_epoch.rs:49-368 | over the whole domain what pools held, the rewards and the chain rewards is, to the unit, what pools hold, withdrawers are owed and the treasury got, and no reward is left over |
| EpochTransition.RewardOperatorsConserves | crates/pallet-domains/src/staking.rs:1464-1521 | a block reward is conserved between operators and treasury, and the remainder never underflows |
| EpochTransition.RewardsShared | crates/pallet-domains/src/staking.rs:1480-1507 | every operator gets the part of a reward that the number of its occurrences stands for, to the unit, and nobody else gets anything |
| EpochTransition.ChainRewardsShared | crates/pallet-domains/src/staking_epoch.rs:94-121 | every rewarded operator gets the same part of the chain rewards on top, to the unit |
| EpochLoops.Forfeit | crates/pallet-domains/src/staking_epoch.rs:122-149 | the rewards of operators that get nothing are added up |
| EpochLoops.UpdateEach | crates/pallet-domains/src/staking_epoch.rs:122-215 | a loop of fallible updates touches exactly its entries, or one of them fails |
| EpochLoops.FinalizeNext | crates/pallet-domains/src/staking_epoch.rs:256-306 | the loop over the next operators checks their status, finalizes them and sums up their stake |
| EpochLoops.StakeTaxes | crates/pallet-domains/src/staking_epoch.rs:79-225 | the reward loop pays every live rewarded operator, or the epoch cannot end |
| EpochLoops.FinalizeStakes | crates/pallet-domains/src/staking_epoch.rs:256-351 | the two finalizing loops finalize every operator they should, or the epoch cannot end |
| EpochLoops.FinalizeAll | crates/pallet-domains/src/staking_epoch.rs:79-368 | the loops take every pool across the boundary exactly once, if and only if the epoch can end |
| EpochLoops.Run | crates/pallet-domains/src/staking_epoch.rs:49-77 | the whole transition equals its specification on all operators at once |
| StakingPallet.PopMatured | crates/pallet-domains/src/staking.rs:1127-1155 | the unlock loop pops the matured prefix and sums it up |
| StakingPallet.CountOccurrences | crates/pallet-domains/src/staking.rs:1478-1488 | the weights count how often each operator occurs |
| StakingPallet.AddRewardShares | crates/pallet-domains/src/staking.rs:1490-1512 | the reward loop adds every share once and sums up what it hands out |
| StakingPallet.UnlockFromPool | crates/pallet-domains/src/staking.rs:1098-1254 | unlocking step by step equals its specification |
| StakingPallet.DrainPool | crates/pallet-domains/src/staking_epoch.rs:515-634 | the slashing loop takes distinct nominators until all or the limit, as its specification does |
| StakingPallet.Pallet.RegisterOperator | crates/pallet-domains/src/staking.rs:352-452 | a new operator has an id never used before, the owner, tax and minimum asked for, and the whole amount is staked or reserved for storage; refused below the minimum |
| StakingPallet.Pallet.NominateOperator | crates/pallet-domains/src/staking.rs:600-662 | the whole amount waits or is reserved; the domain stays sound if and only if the call is timely, and in a sound one it fails only for what was asked |
| StakingPallet.Pallet.WithdrawStake | crates/pallet-domains/src/staking.rs:887-1093 | the domain stays sound, what leaves the storage fund is recorded for the withdrawer, and in a sound domain the call fails only for what was asked |
| StakingPallet.Pallet.UnlockFunds | crates/pallet-domains/src/staking.rs:1098-1254 | the loop equals its specification, the domain stays sound, and in a sound one the call fails only for what was asked |
| StakingPallet.Pallet.UnlockNominator | crates/pallet-domains/src/staking.rs:1257-1461 | in a sound domain the call succeeds if and only if the nominator may leave, and the domain stays sound if and only if it can |
| StakingPallet.Pallet.DeregisterOperator | crates/pallet-domains/src/staking.rs:690-749 | the domain stays sound; the operator leaves the next operators and stays among the current ones |
| StakingPallet.Pallet.DeactivateOperator | crates/pallet-domains/src/staking.rs:755-806 | the domain stays sound, and in a sound one the call succeeds if and only if the operator is registered and not pending slash |
| StakingPallet.Pallet.ReactivateOperator | crates/pallet-domains/src/staking.rs:810-853 | the domain stays sound; the operator joins the next operators and not the current ones |
| StakingPallet.Pallet.RewardOperators | crates/pallet-domains/src/staking.rs:1464-1521 | the reward loop always succeeds, gives every operator its part to the unit and the rest to the treasury, and keeps the domain sound |
| StakingPallet.Pallet.MarkOperatorsAsSlashed | crates/pallet-domains/src/staking.rs:1525-1581 | all listed operators are slashed or nothing changes; in a sound domain it never fails and stays sound |
| StakingPallet.Pallet.MarkInvalidBundleAuthors | crates/pallet-domains/src/staking.rs:1585-1651 | all listed authors are marked or nothing changes; in a sound domain it never fails and stays sound |
| StakingPallet.Pallet.UnmarkInvalidBundleAuthors | crates/pallet-domains/src/staking.rs:1657-1714 | all marks of the receipt are taken back and the domain stays sound |
| StakingPallet.Pallet.SlashOperator | crates/pallet-domains/src/staking_epoch.rs:479-670 | a round removes its nominators, and the operator with the last one; in a sound domain it fails if and only if the pool has no shares, and the domain stays sound |
| StakingPallet.Pallet.EndEpoch | crates/pallet-domains/src/staking_epoch.rs:49-368 | the loops lead to the specified domain or change nothing, and keep it sound |
| StakingRefusals.RegisterGranted | crates/pallet-domains/src/staking.rs:352-450 | an operator registers if and only if the stake reaches the minimum; it gets an unused id and a place among the next operators |
| StakingRefusals.DeregisterGranted | crates/pallet-domains/src/staking.rs:690-749 | an owner deregisters exactly its own live registered or deactivated operator, which leaves the next operators and unlocks after the locking period |
| StakingRefusals.DeactivateGranted | crates/pallet-domains/src/staking.rs:755-804 | a live registered operator, and no other, is deactivated: it leaves both operator sets until the delay is over |
| StakingRefusals.ReactivateGranted | crates/pallet-domains/src/staking.rs:810-850 | a deactivated operator comes back if and only if its delay is over, among the next operators |
| StakingRefusals.NominateRefused | crates/pallet-domains/src/staking.rs:600-662 | in a sound domain a nomination is refused only for amount, operator, status or minimum |
| StakingRefusals.WithdrawRefused | crates/pallet-domains/src/staking.rs:887-1093 | a withdrawal only for what was asked, never for a missing price or balance |
| StakingRefusals.UnlockFundsRefused | crates/pallet-domains/src/staking.rs:1098-1254 | an unlock only for the status, for want of a withdrawal or before its time |
| StakingRefusals.UnlockNominatorRefused | crates/pallet-domains/src/staking.rs:1257-1349 | a nominator leaves if and only if the operator has deregistered, the unlock block has come, and it has a deposit in a pool with shares |
| StakingRuns.NextKeeps | crates/pallet-domains/src/staking.rs:352-1714 | a call or an epoch transition keeps the invariant of the whole domain if and only if it is timely: no nomination in the registration epoch, which breaks the share books, and no nominator leaving before it can |
| StakingRuns.RunInvariant | crates/pallet-domains/src/staking.rs:352-1714 | in every state of every run of timely calls the invariant holds |
| StakingRuns.NextEvolves | crates/pallet-domains/src/staking_epoch.rs:374-441 | no step lowers the stake per share of a live pool, gives shares to a pool without any, or changes a past price |
| StakingRuns.NextIds | crates/pallet-domains/src/staking.rs:352-452 | operator ids are never reused |
| StakingRuns.StakePerShareNeverFalls | crates/pallet-domains/src/staking_epoch.rs:198-207 | over every run stake per share never falls and past prices stay while the operator is live, also after its owner has left |
| StakingTheorems.NoValueFromNothing | crates/pallet-domains/src/staking_epoch.rs:395-438 | over every run stake, promises at the prices of their own epochs and payments of a live pool never exceed finalized deposits and net rewards |
| StakingTheorems.SharesAccountedFor | crates/pallet-domains/src/staking.rs:887-1093 | over every run claimed and withdrawn shares are at most the shares of the pool, both epoch totals are exact sums, a price exists while the owner stays, and owners leave only deregistered pools |
| StakingTheorems.PricesAvailable | crates/pallet-domains/src/staking_epoch.rs:311-351 | over every run a missing epoch share price is unreachable for live operators |
| StakingTheorems.EpochsEnd | crates/pallet-domains/src/staking_epoch.rs:227-368 | over every run an epoch ends if and only if no live pool without shares has something to move; such a pool is deregistered and its owner gone |
| StakingTheorems.NoSharesStrand | crates/pallet-domains/src/staking.rs:1098-1285 | over every run a live pool that has lost its last share never gets one again, and neither way of unlocking pays anybody while it is live |
| StakingTheorems.OperatorSets | crates/pallet-domains/src/staking_epoch.rs:256-306 | over every run next operators are registered, current stakes equal pool stakes and sum to the domain stake, and removals never underflow |
| StakingTheorems.WithdrawalQueues | crates/pallet-domains/src/staking.rs:1049-1088 | over every run queues are sorted and bounded, their totals exact, and every withdrawer has a deposit |
| StakingTheorems.StorageDepositsAddUp | crates/pallet-domains/src/staking.rs:1003-1029 | over every run the storage deposits of all nominators add up to the recorded total |
| StakingTheorems.RegistrationEpochExact | crates/pallet-domains/src/staking.rs:405-450 | over every run of timely calls a pool in its registration epoch holds its owner alone, at the price one, with every share and unit accounted for exactly |
| StakingTheorems.CallsNeverBreak | crates/pallet-domains/src/staking.rs:600-1349 | over every run no call is refused because a price, a share or a balance is missing |
| StakingTheorems.SlashedIsFinal | crates/pallet-domains/src/staking.rs:1525-1581 | over every run a slashed operator stays slashed until it is removed for good |
| LifeCycle.StatusFollows | crates/pallet-domains/src/staking.rs:690-1714 | which status can follow which in one step, with the unlock block and the delay it gets |
| LifeCycle.DeregistrationLocks | crates/pallet-domains/src/staking.rs:1257-1277 | over every run nobody leaves an operator before the locking period after its deregistration is over |
| LifeCycle.DeactivationDelays | crates/pallet-domains/src/staking.rs:755-850 | over every run a deactivated operator is neither registered nor among the next operators before its delay is over |
| LifeCycle.WithdrawalsLock | crates/pallet-domains/src/staking.rs:1046-1085 | over every run a withdrawal from an operator in service is not paid in full before the locking period is over |
| Slashing.InvFreezes | crates/pallet-domains/src/staking_epoch.rs:501-508 | a sound pool is sound when its operator is slashed or becomes pending slash |
| Slashing.FrozenLater | crates/pallet-domains/src/staking_epoch.rs:519-558 | it stays sound while epochs pass without a price |
| Slashing.SlashOneKeeps | crates/pallet-domains/src/staking_epoch.rs:515-634 | slashing one nominator never overdraws shares, stake or storage fund and keeps stake per share for the rest |
| Slashing.SlashBatchSucceeds | crates/pallet-domains/src/staking_epoch.rs:501-634 | a round of slashing, in any order, succeeds if and only if the pool has shares, and removes exactly its nominators |
| Slashing.FreezesFunded | crates/pallet-domains/src/staking_epoch.rs:501-558 | when a pool freezes, what it owes is covered if and only if it has no open withdrawal of its registration epoch |
| Slashing.SlashEachKeepsFunded | crates/pallet-domains/src/staking_epoch.rs:515-634 | slashing any nominators keeps it covered |
| SlashRuns.SlashingNeverOverdraws | crates/pallet-domains/src/staking_epoch.rs:479-670 | over every run a round of slashing fails only when no shares are left to build a price from |
| SlashRuns.StepKeepsAll | crates/pallet-domains/src/staking_epoch.rs:479-670 | a step keeps sound pools sound and frozen ones frozen if and only if it is timely |
| SlashRuns.FreezingFunds | crates/pallet-domains/src/staking.rs:1525-1581 | the step that slashes an operator or makes it pending slash leaves its pool covered under exactly that condition |
| SlashRuns.SlashedPoolsStayFunded | crates/pallet-domains/src/staking_epoch.rs:479-670 | over every run such a pool never owes, pays or loses to slashing more than was put in, until it is gone |
| ReceiptChain.StalePruneKeeps | crates/pallet-domains/src/block_tree.rs:585-614 | pruning a receipt above the head never misses a node and leaves the chain sound |
| ReceiptChain.RemovedLatest | crates/pallet-domains/src/block_tree.rs:596-611 | after pruning, every latest submission still names a stored node that lists the operator |
| ReceiptChain.ExtendKeeps | crates/pallet-domains/src/block_tree.rs:351-440 | a new head never fails; it confirms a block if and only if it is the highest so far and deep enough, and then the oldest one |
| ReceiptChain.FraudKeeps | crates/pallet-domains/src/lib.rs:1399-1459 | rewinding below a bad receipt whose parent is stored leaves one sound chain |
| ReceiptChain.EndorseKeeps | crates/pallet-domains/src/block_tree.rs:442-457 | another submission of the head keeps the chain sound |
| ReceiptChain.RaiseLatestKeeps | crates/pallet-domains/src/block_tree.rs:453-457 | recording a later submission keeps the chain sound |
| ReceiptChain.AncestorAt | crates/pallet-domains/src/block_tree.rs:310-318 | following parent links from any block of the chain reaches exactly the stored ancestors |
| ReceiptChain.ConfirmedIsAncestor | crates/pallet-domains/src/block_tree.rs:359-370 | what a new head confirms is its ancestor at pruning depth |
| ReceiptChain.HeadStepPending | crates/pallet-domains/src/lib.rs:3086-3100 | an operator stops being pending slash only as a submitter of the pruned stale receipt |
| BundleInbox.InvalidAuthorsAre | crates/pallet-domains/src/block_tree.rs:616-637 | exactly the recorded authors of bundles that the receipt reports as invalid |
| BundleInbox.SettleTakesAll | crates/pallet-domains/src/block_tree.rs:372-396 | confirming takes each author once, lists the invalid ones in order and adds up all valid sizes |
| BundleInbox.SettlePays | crates/pallet-domains/src/block_tree.rs:388-393 | each author is refunded exactly the sizes of its own valid bundles |
| BundleInbox.AppendKeeps | crates/pallet-domains/src/lib.rs:1320-1366 | a bundle goes to one new place, in the one inbox of its domain block, and disturbs no earlier one |
| BundleInbox.NextBlockKeeps | crates/pallet-domains/src/lib.rs:2153-2168 | a new consensus block keeps the inbox sound |
| BundleInbox.ConfirmKeeps | crates/pallet-domains/src/block_tree.rs:372-410 | confirming a block settles exactly its bundles and forgets its inbox |
| BundleInbox.ConfirmUndisturbed | crates/pallet-domains/src/block_tree.rs:372-402 | confirming one block changes neither the inbox nor the reported authors of any other |
| BlockTreeInvariant.VerifiedHead | crates/pallet-domains/src/block_tree.rs:182-321 | a verified new head extends the head and matches an inbox of an earlier consensus block |
| BlockTreeInvariant.AcceptKeeps | crates/pallet-domains/src/lib.rs:1229-1312 | accepting a receipt fails only on verification or transfers and keeps the invariant |
| BlockTreeInvariant.AppendKeepsState | crates/pallet-domains/src/lib.rs:1315-1366 | taking in a bundle keeps the invariant |
| BlockTreeInvariant.FraudKeepsState | crates/pallet-domains/src/lib.rs:1399-1467 | a fraud proof succeeds if and only if its target is a stored non-genesis receipt up to the head with a stored parent, and keeps the invariant |
| BlockTreeInvariant.EndBlockKeeps | crates/pallet-domains/src/lib.rs:2184-2212 | ending a block keeps the invariant |
| BlockTreeRuns.NextKeeps | crates/pallet-domains/src/lib.rs:1200-1467 | every call and every block keeps the invariant |
| BlockTreeRuns.RunOk | crates/pallet-domains/src/lib.rs:1200-1467 | in every state of every run the invariant holds |
| BlockTreeBlocks.AcceptedHead | crates/pallet-domains/src/block_tree.rs:182-321 | an accepted new head is well formed, carries the hash expected for its consensus block, has exactly the inboxed bundles and is on the stored parent |
| BlockTreeBlocks.AcceptedAgain | crates/pallet-domains/src/block_tree.rs:159-174 | any other accepted receipt is the stored head itself and only adds a submitter |
| BlockTreeBlocks.OneHeadPerBlock | crates/pallet-domains/src/block_tree.rs:136-146 | over every run a consensus block adds at most one new head |
| BlockTreeBlocks.NewHeadIsNew | crates/pallet-domains/src/lib.rs:2205-2213 | over every run the head that a block counts as its own was added in that block, so that every block may add one |
| ConsensusHashes.HeadsNameTheirBlock | crates/pallet-domains/src/block_tree.rs:243-269 | over every run a new head names the hash with which its consensus block ended |
| ConsensusHashes.HonestHeads | crates/pallet-domains/src/block_tree.rs:182-321 | over every run a receipt derived from a finished block becomes the new head if and only if it is well formed, names the hash of that block, reports exactly its bundles and extends the stored head, the first in its consensus block |
| ConsensusHashes.NextHeadExists | crates/pallet-domains/src/block_tree.rs:182-321 | over every run, whenever the bundles of the next domain block are complete and no head was added in the running block, some receipt for it is accepted |
| ConsensusHashes.EndorsedHeads | crates/pallet-domains/src/block_tree.rs:120-180 | over every run any other receipt is accepted if and only if it is the head added in this block, or genesis before the first bundle |
| ConsensusHashes.InboxesComplete | crates/pallet-domains/src/lib.rs:2140-2160 | over every run every unconfirmed domain block has its inbox, from a consensus block of its own, and exactly the hashes of those finished blocks are kept |
| ConsensusHashes.SubmissionsAccepted | crates/pallet-domains/src/lib.rs:2500-2570 | a bundle is accepted if and only if its operator is in good standing, at most one receipt is missing and its receipt is acceptable; receipts alone exactly when more are missing |
| BlockTreeTheorems.SingleChain | crates/pallet-domains/src/block_tree.rs:310-318 | over every run the receipts up to the head are one hash-linked chain on top of the confirmed ones, and the two maps are inverse |
| BlockTreeTheorems.CallsNeverBreak | crates/pallet-domains/src/block_tree.rs:541-594 | over every run overwriting a receipt, missing a node and indexing past the reported bundles are unreachable |
| BlockTreeTheorems.ConfirmationIsFinal | crates/pallet-domains/src/block_tree.rs:399-402 | over every run block numbers are confirmed in order, once and for all, as one chain that starts at genesis and never passes the head |
| BlockTreeTheorems.ConfirmedByDescendant | crates/pallet-domains/src/block_tree.rs:351-440 | a block is confirmed only by a new highest head whose ancestor at pruning depth, along the links then stored, it is |
| BlockTreeTheorems.PendingEndsBySlash | crates/pallet-domains/src/lib.rs:3086-3100 | an operator stops being pending slash only by being slashed in that very step |
| BlockTreeTheorems.PendingIsFinal | crates/pallet-domains/src/staking.rs:1257-1270 | over every run an operator pending slash stays so until it is slashed, and is not removed before |
| BlockTreeTheorems.SlashedNeverSubmit | crates/pallet-domains/src/lib.rs:2436-2446 | over every run no bundle and no receipt of an operator once pending slash or slashed is accepted again |
| BlockTreeTheorems.PendingHasReceipt | crates/pallet-domains/src/block_tree.rs:453-457 | over every run pending slash is reported only with a stored receipt above the head that lists the operator |
| PendingSubmitters.SubmissionRecorded | crates/pallet-domains/src/block_tree.rs:342-459 | a submission is recorded if and only if it endorses the head or is a new head below the pruning depth, and it never raises the record of anybody else |
| PendingSubmitters.RecordedArePending | crates/pallet-domains/src/block_tree.rs:585-612 | over every run whoever has a recorded submission above the head is pending slash, unless slashed or gone |
| BlockTreeTheorems.StaleSubmittersSlashed | crates/pallet-domains/src/lib.rs:1241-1261 | over every run a receipt left above a rewound head stays until the head is back at its number; in that step its submitters that are still operators are slashed, and none is in good standing afterwards |
| BlockTreeTheorems.StaleNotConfirmed | crates/pallet-domains/src/lib.rs:1414-1459 | over every run such a receipt is confirmed only after it was submitted again as a new head |
| BlockTreeSettlement.MarksHaveReceipts | crates/pallet-domains/src/staking.rs:1614-1651 | over every run a mark of an operator not pending slash names a stored receipt that reports it |
| BlockTreeSettlement.FraudRestores | crates/pallet-domains/src/lib.rs:1438-1459 | a fraud proof restores the operators its target marked, except its submitters |
| BlockTreeSettlement.HeadRestores | crates/pallet-domains/src/lib.rs:1241-1271 | a new head takes back the marks of the stale receipt it replaces and sets only its own |
| BlockTreeSettlement.ConfirmSlashes | crates/pallet-domains/src/lib.rs:1305-1312 | confirming a receipt slashes everyone it marked |
| BlockTreeSettlement.HeadTreatsRegistered | crates/pallet-domains/src/lib.rs:1241-1312 | a new head slashes the registered operators that submitted the receipt it replaces or that the confirmed receipt reports, marks those it reports itself, and leaves the others alone |
| BlockTreeSettlement.FraudTreats | crates/pallet-domains/src/lib.rs:1400-1467 | a fraud proof slashes the submitters of the bad receipt, restores those it marked, and leaves everybody else alone |
| BlockTreeSettlement.MarksResolve | crates/pallet-domains/src/lib.rs:1241-1312 | in the step in which a receipt leaves the tree everyone it marked is slashed if it was confirmed, and otherwise slashed as its submitter, registered again or marked by a receipt still stored |
| BlockTreeSettlement.BundlesSettleOnce | crates/pallet-domains/src/lib.rs:1355-1366 | over every run a bundle keeps its place, has its author recorded until it is settled, and settles at most once |
| BlockTreeSettlement.ConfirmationSettles | crates/pallet-domains/src/block_tree.rs:372-396 | over every run confirming any stored receipt is possible and settles exactly the bundles it was checked against |
| TreeStaking.SlashAgrees | crates/pallet-domains/src/staking.rs:1525-1581 | slashing a list means the same to the staking pallet and to the block tree |
| TreeStaking.MarkAgrees | crates/pallet-domains/src/staking.rs:1585-1651 | so does marking a list |
| TreeStaking.UnmarkAgrees | crates/pallet-domains/src/staking.rs:1657-1714 | so does taking marks back |
| TreeStaking.TreeStepAllowed | crates/pallet-domains/src/lib.rs:3086-3100 | every step of the block tree changes the pending-slash set only as the staking runs allow |
| DomainRuns.NewHeadAgrees | crates/pallet-domains/src/lib.rs:1229-1312 | the calls that a new head makes in the staking pallet never fail and change its operators exactly as the block tree sees it |
| DomainRuns.FraudAgrees | crates/pallet-domains/src/lib.rs:1399-1467 | so do the calls that a fraud proof makes |
| DomainRuns.StakingFollows | crates/pallet-domains/src/staking.rs:352-1461 | every call of owners, nominators and epochs is nothing to the block tree or one of its own steps |
| DomainRuns.TreeNeverWaits | crates/pallet-domains/src/lib.rs:1200-1467 | whatever the block tree does, the staking pallet follows |
| DomainRuns.PalletsAgree | crates/pallet-domains/src/lib.rs:3086-3100 | over every run of the whole domain both pallets stay sound and agree on operators, statuses and who is pending slash |
| DomainRuns.OperatorSetsInGoodStanding | crates/pallet-domains/src/lib.rs:3086-3100 | over every such run the next operators not pending slash are exactly those in good standing, the current ones may submit bundles, and exactly the slashed ones wait to be slashed |
| DomainRuns.MarkedOperators | crates/pallet-domains/src/staking.rs:1585-1714 | a marked operator is in no operator set; when its receipt leaves the tree it waits to be slashed, is back among the next operators, marked again, or pending slash |
| TreePallet.ReceiptStore.ForgetLatest | crates/pallet-domains/src/block_tree.rs:605-611 | the loop forgets exactly the latest submissions that name the pruned block |
| TreePallet.ReceiptStore.Prune | crates/pallet-domains/src/block_tree.rs:585-614 | the new storage and the pruned node, or the error and no change |
| TreePallet.ReceiptStore.Extend | crates/pallet-domains/src/block_tree.rs:351-440 | the storage with the new head and the node it confirms, or the error and no change |
| TreePallet.InboxStore.Confirm | crates/pallet-domains/src/block_tree.rs:372-404 | the settling loop equals its specification |
| TreePallet.Pallet.SlashAll | crates/pallet-domains/src/staking.rs:1525-1581 | the slashing loop slashes exactly the listed operators |
| TreePallet.Pallet.MarkAll | crates/pallet-domains/src/staking.rs:1585-1651 | the marking loop marks exactly the registered listed authors |
| TreePallet.Pallet.UnmarkAll | crates/pallet-domains/src/staking.rs:1657-1714 | the loop takes back exactly the marks of the receipt |
| TreePallet.Pallet.PunishAll | crates/pallet-domains/src/lib.rs:1425-1444 | the submitters are slashed and the marks taken back, as specified |
| TreePallet.Pallet.DropStale | crates/pallet-domains/src/lib.rs:1241-1261 | a stale receipt of the number is pruned and punished |
| TreePallet.Pallet.ConfirmReceipt | crates/pallet-domains/src/lib.rs:1290-1312 | the bundles are settled and the invalid authors slashed |
| TreePallet.Pallet.TryHead | crates/pallet-domains/src/lib.rs:1229-1312 | a new head is put on the chain as specified |
| TreePallet.Pallet.TakeReceipt | crates/pallet-domains/src/lib.rs:1229-1312 | the new storage, or the error and no change |
| TreePallet.Pallet.SubmitBundle | crates/pallet-domains/src/lib.rs:1200-1390 | the new storage, or the error and no change; a sound tree stays sound and is never found broken |
| TreePallet.Pallet.SubmitReceipt | crates/pallet-domains/src/lib.rs:1861-1973 | the new storage, or the error and no change; a sound tree stays sound and is never found broken |
| TreePallet.Pallet.SubmitFraudProof | crates/pallet-domains/src/lib.rs:1399-1467 | the new storage, or the error and no change; a sound tree stays sound, and the call succeeds if and only if its target is legitimate |
| TreePallet.Pallet.EndBlock | crates/pallet-domains/src/lib.rs:2184-2212 | a sound tree stays sound; the next block may add a head again and nothing stored is lost |
| SlotGuard.PoolAgrees | crates/pallet-domains/src/lib.rs:3182-3198 | the highest slot the transaction pool sees before a block starts is the one the block sees after |
| SlotGuard.RecordKeeps | crates/pallet-domains/src/lib.rs:2448-2459 | an admitted slot is new and remembered |
| SlotGuard.FreshSlots | crates/pallet-domains/src/lib.rs:2448-2459 | a slot is admitted if and only if it is positive, above all slots accepted in earlier blocks and not used in this one |
| SlotGuard.FoldKeeps | crates/pallet-domains/src/lib.rs:2171-2177 | folding the slots of a block into the highest ones forgets none |
| SlotGuard.NoSlotReused | crates/pallet-domains/src/lib.rs:2448-2459 | over every run no operator has two bundles accepted for one slot |
| SlotGuard.Pallet.Submit | crates/pallet-domains/src/lib.rs:1370 | a slot is accepted if and only if it is above those of earlier blocks and unused in this one, and every accepted slot stays remembered |
| SlotGuard.Pallet.OnInitialize | crates/pallet-domains/src/lib.rs:2171-2177 | the slots of the block are drained and every accepted slot stays remembered |
| SlotGuard.DrainSlots | crates/pallet-domains/src/lib.rs:2171-2177 | the drain loop leaves the maximum of each set |
| VersionIndex.Lookup | crates/pallet-domains/src/lib.rs:3018-3057 | the lookup never gives nothing and equals the first entry at or after the block, or the current version |
| VersionIndex.UpdateIs | crates/pallet-domains/src/lib.rs:3346-3377 | an upgrade extends the last entry of the same version or adds one |
| VersionIndex.MergeCompressed | crates/pallet-domains/src/lib.rs:3346-3377 | after any upgrades the index ascends and neighbouring versions differ |
| VersionIndex.IndexRefinesHistory | crates/pallet-domains/src/lib.rs:3018-3057 | for every block the index gives the version that the full history gives |
| StorageRefund.RefundWithin | crates/pallet-domains/src/bundle_storage_fund.rs:111-130 | the refunds never exceed the fee |
| StorageRefund.RefundsShared | crates/pallet-domains/src/bundle_storage_fund.rs:106-137 | every known operator that paid for storage gets its part of the fee, to the unit, and nobody else gets anything |
| StorageRefund.RefundConserves | crates/pallet-domains/src/bundle_storage_fund.rs:103-137 | every unit of the fee goes to a storage fund or to the treasury |
| StorageRefund.SumOf | crates/pallet-domains/src/bundle_storage_fund.rs:111 | the sizes are summed up |
| StorageRefund.SplitFee | crates/pallet-domains/src/bundle_storage_fund.rs:112-130 | the loop adds every share and succeeds if and only if the fee suffices |
| StorageRefund.TreasuryLosesNothing | crates/pallet-domains/src/staking_epoch.rs:455-475 | nothing minted for the treasury is lost, and a deposit that succeeds brings everything held back |
| StorageRefund.Pallet.MintIntoTreasury | crates/pallet-domains/src/staking_epoch.rs:455-475 | nothing is lost: what cannot be deposited is held back, and all of it goes with the next deposit that succeeds |
| StorageRefund.Pallet.RefundStorageFee | crates/pallet-domains/src/bundle_storage_fund.rs:103-137 | the refund always succeeds and conserves the fee between storage funds and treasury |
| SubsidyCurve.Window | crates/pallet-rewards/src/lib.rs:386-389 | the first pair of points around a block, or none exists |
| SubsidyCurve.OnLine | crates/pallet-rewards/src/lib.rs:390-398 | between two points the subsidy stays between theirs and never underflows; there is none if it would rise |
| SubsidyCurve.HitsEveryPoint | crates/pallet-rewards/src/lib.rs:382-407 | the curve goes exactly through every point |
| SubsidyCurve.FallsAlongLine | crates/pallet-rewards/src/lib.rs:382-407 | between two points the curve falls along the straight line, up to one unit per block, and from the last point on it is level |
| SubsidyCurve.NeverRises | crates/pallet-rewards/src/lib.rs:382-407 | no subsidy before the first point, and a non-increasing one from there on |
| Rewards.BlockRewardEnds | crates/pallet-rewards/src/lib.rs:358-373 | an idle chain pays the whole subsidy, a full one less by the fees of a full block |
| Rewards.BlockRewardIs | crates/pallet-rewards/src/lib.rs:358-373 | a block pays the reference subsidy less the part of the fees of a full block that its usage stands for, rounded down |
| Rewards.ShiftedCurve | crates/pallet-rewards/src/lib.rs:238-252 | shifting the reward points shifts the whole subsidy curve |
| Rewards.UsageLowersReward | crates/pallet-rewards/src/lib.rs:358-373 | more usage never pays more |
| Rewards.AverageBetween | crates/pallet-rewards/src/lib.rs:332-356 | the average usage stays between the old average and the usage of the block |
| Rewards.AverageIs | crates/pallet-rewards/src/lib.rs:332-356 | the average is the weighted mean of usage and old average, with the weights of the early and the later blocks |
| Rewards.AuthorReward | crates/pallet-rewards/src/lib.rs:263-275 | the reward of the author never exceeds the remaining issuance |
| Rewards.AuthorRewardIs | crates/pallet-rewards/src/lib.rs:263-275 | the author gets the reward of the block or, if that is less, what remains |
| Rewards.VoteReward | crates/pallet-rewards/src/lib.rs:283-290 | voter and proposer parts add up to the vote subsidy |
| Rewards.TaxIsPart | crates/pallet-rewards/src/lib.rs:285-289 | the proposer takes its fraction of a vote reward, rounded down before it is multiplied |
| Rewards.VotesConserve | crates/pallet-rewards/src/lib.rs:291-312 | paying votes conserves remaining issuance, block reward and credits, and without an author the proposer gets nothing |
| Rewards.VotesInFull | crates/pallet-rewards/src/lib.rs:291-312 | while the issuance lasts every vote and its tax are paid in full |
| Rewards.VotersPaid | crates/pallet-rewards/src/lib.rs:291-312 | every vote pays its own voter, in full while the issuance lasts and never more, and nobody else |
| Rewards.BlockPays | crates/pallet-rewards/src/lib.rs:233-329 | in a block only voters and author are paid: while the issuance lasts exactly the votes, the proposer subsidy and the taxes on the votes |
| Rewards.BlockConserves | crates/pallet-rewards/src/lib.rs:233-329 | a block issues exactly what leaves the remaining issuance |
| Rewards.IssuanceIsBounded | crates/pallet-rewards/src/lib.rs:263-328 | over every run rewards issued and remaining issuance add up to the initial one |
| Rewards.PayVoters | crates/pallet-rewards/src/lib.rs:291-312 | the voter loop equals its specification |
| Rewards.Pallet.Prepare | crates/pallet-rewards/src/lib.rs:238-261 | the curves set up before start over at the first rewarded block, exactly shifted, and the average moves towards the usage of the block |
| Rewards.Pallet.DoFinalize | crates/pallet-rewards/src/lib.rs:233-329 | the storage after the specified block; every account gets exactly what its votes and its block earn, and rewards issued and remaining issuance add up to what they did |

## Left out

- Signatures, proofs of election and of time, MMR and Merkle proofs: only acceptance or rejection is kept.
- Runtime upgrades in the block tree: no consensus block carries one, so a receipt always reports at least one bundle and
  no upgrade counts as a missed domain block.
- Domain and runtime registries, allow lists, sudo calls, freezing, the transaction range and the root call that prunes a
  receipt: single-branch facts or mostly validation.
- Holds, free balances and existential deposits of accounts: the model keeps the stake ever put into a pool and ever paid
  out of it, and what was ever paid into its storage fund and out of it, instead.
- The count of pending staking operations per epoch, the minimum nominator stake of the chain at registration and the
  signing keys of operators: single checks that only reject more calls.
- Expected bundle counts and the stake distribution of the last epoch: they only feed events and elections.
- StakingPallet.Pallet.SlashOperator: what a round brings to the treasury is an input, because it depends on the holds of
  the nominators; the order of operators is free, where the source takes the smallest id first.
- Slashing.SlashBatchSucceeds: a round on a pool without shares fails, as in the source; unconditional success is not
  claimed.
- StorageRefund.Pallet.MintIntoTreasury: whether the treasury account can take a deposit is an input.
- BlockTreeTheorems.PendingHasReceipt: the other direction holds only for recorded submissions, because a new head that
  reaches the pruning depth does not record the submission of its submitter (`crates/pallet-domains/src/block_tree.rs:369`
  and `:431`); `PendingSubmitters` says exactly which are recorded and proves it for them.
- BlockTreeTheorems.StaleSubmittersSlashed: a submitter that is not pending slash for that reason may deregister and be
  removed before the head is back, and is then no operator any more instead of slashed.
- PoolRules.NominateKeepsFund: a nomination can dilute the storage deposits of the others; the lemma says exactly when.
- BlockTreeInvariant.AcceptKeeps: the rewards and refunds that a confirmation triggers are modelled in the staking and
  storage modules and not chained to it.
- BlockTreeRuns.NextKeeps: owners' calls appear only as changes of status, new operators and removals; `DomainRuns`
  derives them from the calls of the staking pallet.
- Rewards.Pallet.DoFinalize: accounts are credited directly; account creation and reward hooks are left out.
