# BetUp event markets, modelled in Dafny

BetUp's `BetUpEvents` contract runs pari-mutuel prediction markets called
pairs. A pair has between 2 and 65534 outcomes and moves through these steps:

- **Open.** An opener registers the pair with a staking deadline
  (`endStackAt`), a resolution time (`resolutionAt`) and a chip (the ERC20
  token that is staked). It also names an odd number of resolvers.
- **Stake.** Players stake chips on outcomes until `endStackAt`.
- **Vote.** From `resolutionAt` until `resolutionAt + resolveDeadlineSecond`,
  the resolvers vote. A strict majority finalises the result.
- **Claim.** Winners claim their stake back plus a share of the losers'
  pool.
- **Refunds.** Some pairs only refund: a voided pair (result 65535), a pool
  staked on one outcome only, a pair still unresolved after its deadline, and
  a winning outcome nobody backed.
- **Fees.** The creator takes a reward and the protocol vault takes a sweep.
  Each can be taken once per pair.

The repository's tests pin this behaviour, and its helpers reproduce the
arithmetic. This project models both and proves properties about them.

The modules follow that structure:

- `Common` models the helpers in `test/common.ts`:
  - the winner's profit `calcProfit`;
  - the vault sweep `calcAvailableAmount`;
  - the 8-bit packing `pack`/`unPack`, each as a loop-based method proved
    against a function;
  - BigNumber's `div` rounds toward zero, modelled as `Quot`.
- `Ledger` holds the records the contract stores: `Pair`, `InnerPair`, a
  resolver's ballot, a player's stake and an outcome's volume. It also sums
  a map over a pair's outcomes.
- `Settlement` decides what one claim pays. It has three regimes: payable,
  refund-only, and 'nothing be withdrew'. It also computes the creator's
  reward and proves that, for any list of winning stakes adding up to the
  winning volume, the claims plus both fees never exceed the pair's total.
- `Store` models the contract's storage as one value, `Book`:
  - the transition each public operation makes;
  - the invariant `BookOk` that every transition keeps. For each pair it
    says that the total is the sum of the outcome volumes, that the tallies
    add up to the resolvers who voted, that each ballot records its voter's
    vote, and that each stake is part of its outcome's volume.
- `Events` holds the contract itself: `class BetUpEvents`, with one method
  per public operation.
  - Each method fails with the contract's revert reason exactly when the
    guard function for that operation reports one, and then changes nothing.
    Otherwise it performs the whole state change.
  - `withdrawToVault`, `addChips` and the resolver check of `open` are
    loops.
- `Scenarios` replays the tests' call sequences on fresh contracts, with the
  tests' amounts and asserted results.

Time (`block.timestamp`), the caller and the chip balances are explicit:
`now` and `caller` are parameters, and the balances are a map inside the
contract object.

## Model

| member | source | states |
|---|---|---|
| Common.Quot | test/common.ts:140-161 | BigNumber `div`: the quotient rounds toward zero, so \|a\| - \|q\|·\|b\| lies in [0, \|b\|), q ≥ 0 when a and b have the same sign (or a is 0), and q ≤ 0 when they have opposite signs |
| Common.QuotIsFloor | test/common.ts:140-161 | on a non-negative dividend and a positive divisor, the truncating quotient is floor division |
| Common.ProfitIsFloor | test/common.ts:140-149 | `calcProfit(op, P, T)` = floor(9·P·(T−op) / (10·op)) and is non-negative whenever op > 0, P ≥ 0 and T ≥ op; the unused `proportion` local has no effect |
| Common.ProfitZeroWithoutOpposition | test/common.ts:140-149 | the profit is 0 when T = op, i.e. nobody staked against the winner |
| Common.ProfitMonotone | test/common.ts:140-149 | the profit does not decrease as the player's stake grows |
| Common.ProfitAtMostNinetyPercent | test/common.ts:140-149 | one winner's profit is at most 90% of the losers' pool T − op |
| Common.AvailableIsFloor | test/common.ts:151-161 | `calcAvailableAmount(T, op, r)` = floor((T−op)·(10000−r) / 100000) and is non-negative for 0 ≤ r ≤ 10000 |
| Common.AvailableAtMostTenth | test/common.ts:151-161 | the vault sweep is at most a tenth of the losers' pool |
| Common.AvailableZeroWithoutLosers | test/common.ts:151-161 | the sweep is 0 when T = op |
| Common.AvailableAntitone | test/common.ts:151-161 | the sweep does not increase as the creation ratio grows |
| Common.OrIntoShifted | test/common.ts:163-170 | `(x << k) \| y` = x·2^k + y when y < 2^k: OR-ing a byte into a shifted accumulator adds it |
| Common.Pack | test/common.ts:163-170 | fails exactly when count runs past the end of the amounts (the helper reads an undefined element and throws); otherwise the shift-and-or loop computes `PackOf(amounts[..count])`, the big-endian base-256 value of the first count bytes |
| Common.UnPackOf | test/common.ts:172-183 | `unPack(x, n)` has exactly n entries, each in 0..255 |
| Common.UnPack | test/common.ts:172-183 | the push-then-reverse loops return exactly n values in 0..255, most significant byte first (`UnPackOf`) |
| Common.PackByte | test/common.ts:163-183 | byte i of `pack(a)`, counted from the least significant end, is a[\|a\|−1−i] |
| Common.PackRoundTrip | test/common.ts:163-183 | `unPack(pack(a, n), n) == a[..n]` when n ≤ \|a\| and every entry is below 256 |
| Common.PackBound | test/common.ts:163-170 | `pack` of k bytes is below 2^(8k) |
| Ledger.SumOutcomesEmpty | test/uint/BetUpEventsUnit.spec.ts:275-322 | a pair with no entries sums to 0 over its outcomes |
| Ledger.SumOutcomesUpdate | test/uint/BetUpEventsUnit.spec.ts:748-840 | updating one outcome's entry changes the pair's sum by the difference |
| Ledger.EntryAtMostSum | test/uint/BetUpEventsUnit.spec.ts:748-840 | one outcome's entry is at most the sum over the pair's outcomes |
| Ledger.OneSided | test/uint/BetUpEventsUnit.spec.ts:1485-1580 | if one outcome holds the whole sum, every other outcome holds 0 |
| Ledger.MajorityUnique | test/uint/BetUpEventsUnit.spec.ts:482-671 | when the tallies add up to at most the resolver count, two outcomes cannot both hold a strict majority |
| Ledger.DistinctCard | test/uint/BetUpEventsUnit.spec.ts:247-273 | a resolver list without repeats has as many distinct members as entries |
| Settlement.RegimeOf | test/uint/BetUpEventsUnit.spec.ts:949-1118 | a claim is payable only on the finalised winner with stakes on both sides, and always is then |
| Settlement.Payout | test/uint/BetUpEventsUnit.spec.ts:949-1118 | (principal, profit) of a claim: winner gets (P, calcProfit); a void pair, a one-sided pool and an unresolved pair past its deadline refund (P, 0); so does a resolved pair whose winning outcome nobody backed; a loser against a genuine winner and an unresolved pair before the deadline get (0, 0); profit ≤ 90% of the losers' pool |
| Settlement.SumProfitsAtMostNinetyPercent | test/common.ts:140-149 | if the winners' stakes sum to op, their profits together are at most 9·(T−op)/10 |
| Settlement.FeesAtMostTenth | test/common.ts:151-161 | the creator's reward plus `calcAvailableAmount` is at most a tenth of the losers' pool |
| Settlement.WinnersPaidIsStakesPlusProfits | test/uint/BetUpEventsUnit.spec.ts:1010-1057 | all winning claims together pay the winning stakes plus their `calcProfit`s |
| Settlement.NoOverdraw | test/common.ts:140-161 | for any list of winning stakes that adds up to the winning volume, their claims plus the creator's reward plus the vault sweep never exceed the pair's total T |
| Settlement.CreationRewardExample | test/uint/BetUpEventsUnit.spec.ts:1173-1199 | stakes of 10 and 20 ether, outcome 1 winning, ratio 5000: the creator's reward is 1 ether |
| Settlement.PayoutExamples | test/uint/BetUpEventsUnit.spec.ts:949-1057 | 10/20/30 ether with outcome 1 winning pays profits of 9 and 18 ether and the loser nothing; a one-sided 10-ether pool refunds 10 with no profit |
| Store.DeployedOk | test/uint/BetUpEventsUnit.spec.ts:275-322 | the deployed storage satisfies the invariant, starts the counter at 1 and holds no pairs |
| Store.StakeBounds | test/uint/BetUpEventsUnit.spec.ts:748-840 | in a valid book a stake is at most its outcome's volume, which is at most the pair's total; outside 1..optionsQty both are 0 |
| Store.TalliesBounded | test/uint/BetUpEventsUnit.spec.ts:482-671 | a pair's tallies add up to at most its resolver count |
| Store.ConsensusUnique | test/uint/BetUpEventsUnit.spec.ts:482-671 | at most one outcome of a pair holds a strict majority |
| Store.NoStakeNoReward | test/uint/BetUpEventsUnit.spec.ts:850-872 | `getRewardOf` reports (0, 0) for a player with no stake on the outcome |
| Store.FreshBallots | test/uint/BetUpEventsUnit.spec.ts:275-322 | `open` gives each listed resolver, and no one else, the ballot [true, false, 0] |
| Store.OpenKeepsOk | test/uint/BetUpEventsUnit.spec.ts:275-322 | opening an admissible pair keeps the storage invariant |
| Store.OpenedIsEmpty | test/uint/BetUpEventsUnit.spec.ts:275-322 | a freshly opened pair has no stakes, volumes or tallies, and exactly its resolvers hold ballots [true, false, 0] |
| Store.StakeEffects | test/uint/BetUpEventsUnit.spec.ts:748-840 | a stake adds the amount to the player's record and to the outcome's volume, and changes no other record |
| Store.StakeKeepsOk | test/uint/BetUpEventsUnit.spec.ts:748-840 | staking keeps the invariant; in particular the total stays the sum of the volumes |
| Store.VoteKeepsOk | test/uint/BetUpEventsUnit.spec.ts:448-671 | a vote keeps the invariant |
| Store.VoteDecides | test/uint/BetUpEventsUnit.spec.ts:448-671 | a vote adds one to its outcome's tally and resolves the pair to that outcome exactly when the tally becomes a strict majority (so a lone resolver resolves at once); then no other outcome holds a majority |
| Store.WithdrawKeepsOk | test/uint/BetUpEventsUnit.spec.ts:949-1057 | zeroing a claimed stake keeps the invariant |
| Store.NoDoubleClaim | test/uint/BetUpEventsUnit.spec.ts:1591-1631 | after a claim the stake is 0 and `getRewardOf` returns (0, 0); all other stakes and volumes are unchanged |
| Store.FlagsKeepOk | test/uint/BetUpEventsUnit.spec.ts:918-947 | setting a pair's paused/claimedReward/claimedToVault flags keeps the invariant |
| Store.ResultKeepsOk | test/uint/BetUpEventsUnit.spec.ts:1461-1483 | setting a result that is one of the pair's outcomes, or 65535, keeps the invariant |
| Store.VoidRefunds | test/uint/BetUpEventsUnit.spec.ts:1461-1483 | on a voided pair every claim reports exactly (stake, 0) |
| Store.RatioKeepsOk | test/uint/BetUpEventsUnit.spec.ts:1151-1171 | changing the creation ratio within 10000 keeps the invariant |
| Events.Transfer | test/rt/BetUpEventsRt.spec.ts:146-174 | a chip transfer debits the sender and credits the receiver by the amount and leaves every other balance alone |
| Events.ChipsAddedSpec | test/uint/BetUpEventsUnit.spec.ts:1120-1128 | `addChips` succeeds exactly when every chip is a contract, unregistered and listed once; it then gives exactly those chips status 1 |
| Events.Swept | test/uint/BetUpEventsUnit.spec.ts:1413-1459 | a successful sweep of a list of pairs leaves a valid book |
| Events.CollectBallots | test/uint/BetUpEventsUnit.spec.ts:247-273 | the resolver loop succeeds exactly when no resolver is the zero address and none repeats, and then adds the fresh ballots |
| Events.CreationRewardOnce | test/uint/BetUpEventsUnit.spec.ts:1173-1212 | once claimedReward is set, `claimCreationRewards` fails with 'claimed' whatever ratio is set afterwards |
| Events.SweepOnce | test/uint/BetUpEventsUnit.spec.ts:1413-1459 | once a pair is swept, sweeping it again fails |
| Events.FeesOfPair | test/common.ts:151-161 | on a settled pair, the creator's reward plus the vault sweep is at most a tenth of the stakes against the winner |
| Events.SweptPaysVault | test/uint/BetUpEventsUnit.spec.ts:1413-1459 | after a successful `withdrawToVault(ids)` the vault's balance of each chip is higher by exactly the summed `calcAvailableAmount` of the listed pairs staked in that chip |
| Events.SweptFlagsAll | test/uint/BetUpEventsUnit.spec.ts:1413-1459 | after a successful `withdrawToVault(ids)` every listed pair is flagged as swept, and every pair swept earlier stays flagged |
| Events.SweptOnePairOk | test/uint/BetUpEventsUnit.spec.ts:1413-1459 | `withdrawToVault([id])` succeeds exactly when the pair passes the sweep's checks |
| Events.SweptOnePair | test/uint/BetUpEventsUnit.spec.ts:1413-1459 | after a successful one-pair sweep the vault's chip balance is higher by exactly `calcAvailableAmount`, the contract's lower by as much, and the pair is flagged as swept with its result and stakes untouched |
| Events.BetUpEvents.constructor | test/uint/BetUpEventsUnit.spec.ts:85-94 | deployment: an empty valid storage with the given ratio, window and balances |
| Events.BetUpEvents.Open | test/uint/BetUpEventsUnit.spec.ts:165-322 | fails with 'invalid _optionsQty', 'invalid time', 'invalid _resolvers', 'invalid _chip' or InvalidResolver, in that order, changing nothing; otherwise returns the counter as the id and stores the pair with its snapshot ratio, flags false, total 0, result 0, deadline resolutionAt + window and fresh ballots |
| Events.BetUpEvents.Stack | test/uint/BetUpEventsUnit.spec.ts:673-840 | fails with InvalidPairID, PairPaused, 'Invalid stack time', InvalidResultID, InvalidAmount or a failed transfer, changing nothing; otherwise adds the amount to the stake, volume and total and moves it to the contract |
| Events.BetUpEvents.Close | test/uint/BetUpEventsUnit.spec.ts:324-671 | fails with 'invalid _resultID', 'unauthorized', 'outdated', 'resolved already' or 'pair resolved', changing nothing; otherwise records the vote and tally, resolving on a strict majority |
| Events.BetUpEvents.Claim | test/uint/BetUpEventsUnit.spec.ts:842-1118 | fails with InvalidPairID, PairPaused, 'ongoing', InvalidResultID, 'Invalid _maxLevel', 'nothing be withdrew' or a failed transfer, changing nothing; otherwise pays `getRewardOf`'s (principal, profit) from the contract and zeroes the stake |
| Events.BetUpEvents.ClaimCreationRewards | test/uint/BetUpEventsUnit.spec.ts:1173-1212 | fails with InvalidPairID unless the pair has a genuine winner, then with 'claimed' once paid; otherwise pays the creator its reward and sets claimedReward |
| Events.BetUpEvents.WithdrawToVault | test/uint/BetUpEventsUnit.spec.ts:1413-1459 | the loop performs `Swept`: each listed pair pays `calcAvailableAmount` to the vault and is flagged, all or nothing |
| Events.BetUpEvents.AddChips | test/uint/BetUpEventsUnit.spec.ts:1120-1128 | the loop performs `ChipsAdded`: 'duplicate' or 'invalid address' on the first bad chip, with no change; otherwise registers them all |
| Events.BetUpEvents.UpdateChip | test/uint/BetUpEventsUnit.spec.ts:1130-1149 | 'invalid _chip' exactly when the chip is unregistered or already has the status; otherwise sets the status |
| Events.BetUpEvents.SetCreationFee | test/uint/BetUpEventsUnit.spec.ts:1151-1171 | 'invalid _createFee' on a fee above the ratio base (so 50000 is refused), changing nothing; otherwise (so for 5000) returns the old ratio and sets the ratio for future pairs |
| Events.BetUpEvents.SetResultID | test/uint/BetUpEventsUnit.spec.ts:1461-1483 | on an unresolved pair sets the result, or 65535 when forced; otherwise fails, changing nothing |
| Events.BetUpEvents.PausePair | test/uint/BetUpEventsUnit.spec.ts:918-947 | sets or clears a pair's paused flag; an unknown pair fails with InvalidPairID |
| Scenarios.Deploy | test/uint/BetUpEventsUnit.spec.ts:85-127 | a deployed contract with the chip registered and 100 ether for each of the three players |
| Scenarios.OpenStep | test/uint/BetUpEventsUnit.spec.ts:275-322 | what a successful `open` leaves behind: the id, the counter + 1, the stored terms, fresh ballots and an empty ledger |
| Scenarios.StakeStep | test/uint/BetUpEventsUnit.spec.ts:748-840 | what a successful `stack` changes: the stake, the volume, the total and the two balances, by the amount |
| Scenarios.VoteStep | test/uint/BetUpEventsUnit.spec.ts:448-671 | what a successful `close` changes: the ballot, the tally + 1, and the result on a strict majority |
| Scenarios.ClaimStep | test/uint/BetUpEventsUnit.spec.ts:949-1057 | what a successful level-0 `claim` changes: the payout, the zeroed stake and the two balances |
| Scenarios.RtOpen | test/rt/BetUpEventsRt.spec.ts:124-142 | the three-outcome pair with one resolver is pair 1, empty |
| Scenarios.RtWinnersStake | test/rt/BetUpEventsRt.spec.ts:146-159 | stakes of 20 and 30 ether on outcome 2 are recorded exactly; the volume is 50, the contract holds 50 |
| Scenarios.RtLoserStakes | test/rt/BetUpEventsRt.spec.ts:146-159 | a 1-ether stake on outcome 3 is recorded; the total is 51 |
| Scenarios.RtResolve | test/rt/BetUpEventsRt.spec.ts:161-169 | the lone resolver's vote after resolutionAt sets resultID to the voted outcome |
| Scenarios.RtClaim | test/rt/BetUpEventsRt.spec.ts:171-174 | the 30-ether winner ends at 100.54 ether |
| Scenarios.EndToEnd | test/rt/BetUpEventsRt.spec.ts:124-174 | open, three stakes, close, claim: stakes 20/30/1, result 2, and the 30-staker ends at 100540000000000000000 wei |
| Scenarios.TriOpen | test/uint/BetUpEventsUnit.spec.ts:482-508 | a pair with three resolvers opens with no votes, tallies or result |
| Scenarios.FirstVote | test/uint/BetUpEventsUnit.spec.ts:510-521 | one vote of three leaves the result at 0 with a tally of 1 |
| Scenarios.AgreeingVote | test/uint/BetUpEventsUnit.spec.ts:523-534 | a second vote for the same outcome resolves the pair with a tally of 2 |
| Scenarios.LateVote | test/uint/BetUpEventsUnit.spec.ts:536-537 | the third resolver is refused with 'pair resolved' and nothing changes |
| Scenarios.SplitVote | test/uint/BetUpEventsUnit.spec.ts:645-656 | a vote for a second outcome leaves the pair unresolved |
| Scenarios.DeadlockVote | test/uint/BetUpEventsUnit.spec.ts:658-669 | a vote for a third outcome leaves it unresolved, with every tally at 1 |
| Scenarios.ConsensusOfTwo | test/uint/BetUpEventsUnit.spec.ts:482-540 | votes 1, 1: result 0 then 1, tally 2, and the late voter gets 'pair resolved' |
| Scenarios.NoMajority | test/uint/BetUpEventsUnit.spec.ts:608-671 | votes 1, 2, 3: the result stays 0 after each vote and each tally is 1 |
| Scenarios.FeeStakes | test/uint/BetUpEventsUnit.spec.ts:1186-1190 | stakes of 10 ether on 1 and 20 on 2: total 30, all held by the contract |
| Scenarios.FeeClaim | test/uint/BetUpEventsUnit.spec.ts:1195-1204 | the creator is paid 1 ether, the contract keeps 29, and claimedReward is set |
| Scenarios.FeeAgain | test/uint/BetUpEventsUnit.spec.ts:1206-1211 | after `setCreationFee(5000)` a second claim fails with 'claimed' |
| Scenarios.CreationRewardPaidOnce | test/uint/BetUpEventsUnit.spec.ts:1173-1212 | the whole test: 1 ether paid, 29 left, flag set, then 'claimed' |
| Scenarios.ForcedVoid | test/uint/BetUpEventsUnit.spec.ts:1461-1483 | `setResultID(1, 1, true)` succeeds and leaves resultID 65535 |

## Left out

- Storage keys: the contract keys `pairsResolver`, `resultCounter`, `players` and `optionsVolume` by keccak hashes (`getPairResolveID`, `getResultCounterID`, `getPlayerID`, `getOptionVolumeID`, test/common.ts:91-105). The model keys them by the hashed tuples themselves, so hash collisions are not modelled.
- ERC20 allowances, minting and decimals are not modelled. A chip is a map of balances, and a transfer fails (as InsufficientBalance) only when the payer's balance is short.
- The DAO-token bond required to open a pair and the role checks (OPEN_ROLE, GOVERNANCE_ROLE) are not modelled. Every caller may call every operation.
- The DAO bonus is not modelled. `amountWithBonus` always equals `amount` (the invariant says so), `getRewardOf` is modelled at level 0 only, and `claim`'s `maxLevel` is only checked against an `eligibleLevel` parameter. The contract reads that level from DAO records that are not part of this model.
- The player records kept by `betUpCore` (normalised to 6 decimals) are not modelled.
- The card, DAO-token, sheep and guess contracts and their tests are not part of this model; only `unPack` is used from them. The guess batch-withdraw test is not modelled either.
- Events (`CreateEventEvent`, `StackEvent`, `ClaimEvent`, `WithdrawFeeEvent`, ...), the pair's `details` and `type` strings, and the fifth field the tests read from `innerPairs` are not modelled.
- `close`'s `force` argument is not modelled. The tests always pass `false`, and the effect of `true` is not visible in them.
- Common.Pack: the amounts are natural numbers, so the helper's throw on a negative or fractional entry is not modelled; only its throw on a count past the end of the array is.
- Events.BetUpEvents.SetCreationFee: the bound 10000 is inferred from the 10000 ratio base of `calcAvailableAmount`. The tests pin only that 50000 is refused and 5000 is accepted, so any bound from 5000 to 49999 would fit them.
- Settlement.NoOverdraw: the bound is proved for any list of winning stakes that adds up to the winning volume. The storage invariant does not record claims already paid, so it does not tie a stored pair's remaining stakes to its volume, and the bound is not proved about a sequence of `claim` calls on the stored ledger.
- Common.CalcProfit: the divisor 10·op must be non-zero (`requires op != 0`), so the helper's division-by-zero throw when nobody staked on the winner is not modelled. The contract pays profits only when the winning volume is positive.
- Common.UnPack: the resource is a natural number, so BigNumber's throw when shifting a negative value is not modelled.
- Events.BetUpEvents.Open: the order of the checks, and in particular the place of 'invalid _chip' between 'invalid _resolvers' and InvalidResolver, is inferred. Each rejection test fails only one check, so the tests pin which reason each failure gives, not their order.
- Events.BetUpEvents.UpdateChip: the rule is generalised from three cases: an unregistered chip is refused, setting status 1 on a chip whose status is 1 is refused, and switching it to 2 succeeds. Other rules, such as one that also limits the allowed status values, would fit those cases too.
- Events.BetUpEvents.Open: resolver lists are checked for an odd length. The tests reject only the empty and the two-element lists.
- Events.BetUpEvents.SetResultID: a non-forced result outside 1..optionsQty is refused with 'invalid _resultID'. No test pins this.
- Events.BetUpEvents.Claim: a repeated claim fails with InvalidResultID, because the stake has been zeroed. No test pins the reason.
- Events.SweepOnce: a second sweep of a pair fails with `ClaimedToVault`. No test pins this reason.
- Settlement.CreationReward: the contract's creation reward is not visible in the test helpers. The model uses (T − op) · ratio / 100000, which is the complement of `calcAvailableAmount` and gives the 1 ether that test/uint/BetUpEventsUnit.spec.ts:1173-1199 asserts.
- The deployment defaults of `createRewardsRatio` and `resolveDeadlineSecond` are not visible in the tests, so they are constructor parameters. The scenarios use 5000 (which reproduces the asserted creation reward) and a one-day window.
- Time is the parameter `now`. The tests' EVM clock (`fastTimeAt`) is not modelled, and neither are their concurrency and gas.
- Integers are unbounded. The contract's uint256 and uint16 overflow is not modelled; no test reaches those bounds.
