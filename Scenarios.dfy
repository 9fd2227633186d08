/**
 * Sequences of calls that the repository's tests make against the contract,
 * replayed on the model with the same amounts. Each method deploys a fresh
 * contract, performs the calls in the tests' order and returns what the
 * tests observe; its postconditions are the values the tests assert.
 *
 * One ether is 10^18 wei. Addresses are small numbers; the times are any
 * that respect the tests' order of events (`fastTimeAt(t)` mines a block at
 * t, so the next call runs at t + 1).
 */
module Scenarios {
  import opened Common
  import opened Ledger
  import opened Settlement
  import opened Store
  import opened Events

  const ETHER: nat := 1000000000000000000

  const CHIP: Address := 100
  const CONTRACT: Address := 50
  const VAULT: Address := 60
  const ADMIN: Address := 1
  const P1: Address := 7
  const P2: Address := 8
  const P3: Address := 9
  /** The three pair-closing admins of the unit tests' three-resolver pairs. */
  const R1: Address := 11
  const R2: Address := 12
  const R3: Address := 13
  /** resolveDeadlineSecond: the tests read it from the contract; any window works. */
  const WINDOW: nat := 86400
  /** The deployed createRewardsRatio (5000 reproduces the creation reward the tests assert). */
  const RATIO: nat := 5000

  /** Each of the three players starts with 100 ether of the chip. */
  function StartBalances(): Balances
  {
    map[(CHIP, P1) := 100 * ETHER, (CHIP, P2) := 100 * ETHER, (CHIP, P3) := 100 * ETHER]
  }

  /** A deployed contract with CHIP registered and three funded players. */
  method Deploy() returns (c: BetUpEvents)
    ensures fresh(c) && c.Valid()
    ensures c.self == CONTRACT && c.vault == VAULT && c.resolveDeadlineSecond == WINDOW
    ensures c.storage == Deployed(RATIO).(validChips := map[CHIP := 1]) && c.balances == StartBalances()
  {
    c := new BetUpEvents(CONTRACT, VAULT, WINDOW, RATIO, StartBalances());
    var r := c.AddChips([CHIP], {CHIP});
    assert ChipsAdded(map[], [CHIP], {CHIP}) == ChipsAdded(map[CHIP := 1], [], {CHIP});
    assert r.Ok?;
  }

  // ---------------------------------------------------------------------
  // One successful call each, with what the tests observe of its effect
  // ---------------------------------------------------------------------

  /** A successful `open`: the new pair's terms, its empty ledger and its fresh ballots. */
  method OpenStep(c: BetUpEvents, endStackAt: nat, resolutionAt: nat, chip: Address, optionsQty: nat,
                  resolvers: seq<Address>, caller: Address, now: nat) returns (id: PairId)
    requires c.Valid() && OpenGuard(c.storage, endStackAt, resolutionAt, chip, optionsQty, resolvers, now) == None
    modifies c
    ensures c.Valid() && c.balances == old(c.balances)
    ensures id == old(c.storage.pairIDCounter) && c.storage.pairIDCounter == id + 1
    ensures c.storage.createRewardsRatio == old(c.storage.createRewardsRatio) && c.storage.validChips == old(c.storage.validChips)
    ensures id in c.storage.pairs && id in c.storage.innerPairs
    ensures c.storage.pairs[id] == Pair(resolutionAt, caller, |resolvers|, endStackAt, chip, optionsQty,
                                        old(c.storage.createRewardsRatio), false, false, false)
    ensures c.storage.innerPairs[id] == InnerPair(0, now, resolutionAt + c.resolveDeadlineSecond, 0)
    ensures forall a :: (id, a) in c.storage.pairsResolver <==> a in resolvers
    ensures forall a :: a in resolvers ==> c.storage.pairsResolver[(id, a)] == ResolverBallot(true, false, 0)
    ensures forall r, a :: StakeOf(c.storage, id, r, a) == 0
    ensures forall r :: VolumeOf(c.storage, id, r) == 0 && TallyOf(c.storage, id, r) == 0
  {
    var res := c.Open(endStackAt, resolutionAt, chip, optionsQty, resolvers, caller, now);
    id := res.value;
    forall r, a
      ensures StakeOf(c.storage, id, r, a) == 0 && VolumeOf(c.storage, id, r) == 0 && TallyOf(c.storage, id, r) == 0
      ensures (id, a) in c.storage.pairsResolver <==> a in resolvers
      ensures a in resolvers ==> c.storage.pairsResolver[(id, a)] == ResolverBallot(true, false, 0)
    {
      OpenedIsEmpty(old(c.storage), c.resolveDeadlineSecond, c.storage.pairs[id], c.storage.innerPairs[id], resolvers, r, a);
    }
  }

  /** A successful `stack`: the stake, the outcome's volume, the total and the two balances grow or shrink by the amount. */
  method StakeStep(c: BetUpEvents, id: PairId, r: OutcomeId, amount: nat, player: Address, now: nat)
    requires c.Valid() && StackGuard(c.storage, id, r, amount, player, c.balances, now) == None && player != c.self
    modifies c
    ensures c.Valid()
    ensures id in c.storage.pairs && id in c.storage.innerPairs && id in old(c.storage.innerPairs)
    ensures c.storage.pairs == old(c.storage.pairs) && c.storage.pairsResolver == old(c.storage.pairsResolver)
    ensures c.storage.resultCounter == old(c.storage.resultCounter)
    ensures c.storage.innerPairs[id] == old(c.storage.innerPairs[id]).(total := old(c.storage.innerPairs[id].total) + amount)
    ensures forall o, a :: StakeOf(c.storage, id, o, a)
                           == StakeOf(old(c.storage), id, o, a) + (if o == r && a == player then amount else 0)
    ensures forall o :: VolumeOf(c.storage, id, o) == VolumeOf(old(c.storage), id, o) + (if o == r then amount else 0)
    ensures forall w :: BalanceOf(c.balances, c.storage.pairs[id].chip, w)
                        == BalanceOf(old(c.balances), c.storage.pairs[id].chip, w)
                           - (if w == player then amount else 0) + (if w == c.self then amount else 0)
  {
    var res := c.Stack(id, r, amount, player, now);
    forall o, a
      ensures StakeOf(c.storage, id, o, a) == StakeOf(old(c.storage), id, o, a) + (if o == r && a == player then amount else 0)
      ensures VolumeOf(c.storage, id, o) == VolumeOf(old(c.storage), id, o) + (if o == r then amount else 0)
    {
      StakeEffects(old(c.storage), id, r, player, amount, id, o, a);
    }
  }

  /** A successful `close`: the ballot records the vote, its tally grows by one, and a majority resolves the pair. */
  method VoteStep(c: BetUpEvents, id: PairId, r: OutcomeId, caller: Address, now: nat)
    requires c.Valid() && CloseGuard(c.storage, id, r, caller, now) == None
    modifies c
    ensures c.Valid() && c.balances == old(c.balances)
    ensures id in c.storage.pairs && id in c.storage.innerPairs && (id, caller) in c.storage.pairsResolver
    ensures c.storage.pairs == old(c.storage.pairs) && c.storage.players == old(c.storage.players)
    ensures c.storage.optionsVolume == old(c.storage.optionsVolume)
    ensures c.storage.pairsResolver == old(c.storage.pairsResolver)[(id, caller) := ResolverBallot(true, false, r)]
    ensures forall o :: TallyOf(c.storage, id, o) == TallyOf(old(c.storage), id, o) + (if o == r then 1 else 0)
    ensures c.storage.innerPairs[id]
         == old(c.storage.innerPairs[id]).(resultID := if TallyOf(c.storage, id, r) > c.storage.pairs[id].resolverQty / 2 then r else 0)
  {
    var res := c.Close(id, r, caller, now);
    assert PairOk(View(old(c.storage)), c.resolveDeadlineSecond, id);
    forall o
      ensures TallyOf(c.storage, id, o) == TallyOf(old(c.storage), id, o) + (if o == r then 1 else 0)
    {
    }
  }

  /** A successful `claim` at level 0: the payout, the zeroed stake and the two balances. */
  method ClaimStep(c: BetUpEvents, id: PairId, r: OutcomeId, player: Address, now: nat) returns (paid: (nat, nat))
    requires c.Valid() && ClaimGuard(c.storage, c.resolveDeadlineSecond, id, r, 0, 0, player, c.balances, c.self, now) == None
    requires player != c.self
    modifies c
    ensures c.Valid()
    ensures id in c.storage.pairs && id in c.storage.innerPairs
    ensures c.storage.pairs == old(c.storage.pairs) && c.storage.innerPairs == old(c.storage.innerPairs)
    ensures c.storage.optionsVolume == old(c.storage.optionsVolume) && c.storage.pairsResolver == old(c.storage.pairsResolver)
    ensures paid == RewardOf(old(c.storage), c.resolveDeadlineSecond, id, r, player, now)
    ensures forall o, a :: StakeOf(c.storage, id, o, a) == if o == r && a == player then 0 else StakeOf(old(c.storage), id, o, a)
    ensures forall w :: BalanceOf(c.balances, c.storage.pairs[id].chip, w)
                        == BalanceOf(old(c.balances), c.storage.pairs[id].chip, w)
                           + (if w == player then paid.0 + paid.1 else 0) - (if w == c.self then paid.0 + paid.1 else 0)
  {
    var res := c.Claim(id, r, 0, 0, player, now);
    paid := res.value;
  }

  /** The pair of test/rt/BetUpEventsRt.spec.ts: three outcomes, one resolver, opened at 1000. */
  const RT_PAIR: Pair := Pair(4610, ADMIN, 1, 1010, CHIP, 3, RATIO, false, false, false)

  /** Pair 1 of c is RT_PAIR with the given total and result, and ADMIN's ballot records `vote`. */
  ghost predicate RtState(c: BetUpEvents, total: nat, resultID: OutcomeId, vote: OutcomeId)
    reads c
  {
    c.Valid() && c.self == CONTRACT && c.resolveDeadlineSecond == WINDOW
    && 1 in c.storage.pairs && c.storage.pairs[1] == RT_PAIR
    && 1 in c.storage.innerPairs && c.storage.innerPairs[1] == InnerPair(total, 1000, 4610 + WINDOW, resultID)
    && (1, ADMIN) in c.storage.pairsResolver && c.storage.pairsResolver[(1, ADMIN)] == ResolverBallot(true, false, vote)
  }

  method RtOpen() returns (c: BetUpEvents)
    ensures fresh(c) && RtState(c, 0, 0, 0) && c.balances == StartBalances()
    ensures forall r, a :: StakeOf(c.storage, 1, r, a) == 0
    ensures forall r :: VolumeOf(c.storage, 1, r) == 0 && TallyOf(c.storage, 1, r) == 0
  {
    c := Deploy();
    var id := OpenStep(c, 1010, 4610, CHIP, 3, [ADMIN], ADMIN, 1000);
  }

  /** P1 and P2 back outcome 2 with 20 and 30 ether. */
  method RtWinnersStake(c: BetUpEvents)
    requires RtState(c, 0, 0, 0) && c.balances == StartBalances()
    requires forall r, a :: StakeOf(c.storage, 1, r, a) == 0
    requires forall r :: VolumeOf(c.storage, 1, r) == 0 && TallyOf(c.storage, 1, r) == 0
    modifies c
    ensures RtState(c, 50 * ETHER, 0, 0)
    ensures StakeOf(c.storage, 1, 2, P1) == 20 * ETHER && StakeOf(c.storage, 1, 2, P2) == 30 * ETHER
    ensures StakeOf(c.storage, 1, 3, P3) == 0
    ensures VolumeOf(c.storage, 1, 2) == 50 * ETHER && TallyOf(c.storage, 1, 2) == 0
    ensures BalanceOf(c.balances, CHIP, P2) == 70 * ETHER && BalanceOf(c.balances, CHIP, P3) == 100 * ETHER
    ensures BalanceOf(c.balances, CHIP, CONTRACT) == 50 * ETHER
  {
    StakeStep(c, 1, 2, 20 * ETHER, P1, 1001);
    StakeStep(c, 1, 2, 30 * ETHER, P2, 1002);
  }

  /** P3 backs outcome 3 with 1 ether; the rest of the ledger is as it was. */
  method RtLoserStakes(c: BetUpEvents)
    requires RtState(c, 50 * ETHER, 0, 0)
    requires StakeOf(c.storage, 1, 2, P1) == 20 * ETHER && StakeOf(c.storage, 1, 2, P2) == 30 * ETHER
    requires StakeOf(c.storage, 1, 3, P3) == 0
    requires VolumeOf(c.storage, 1, 2) == 50 * ETHER && TallyOf(c.storage, 1, 2) == 0
    requires BalanceOf(c.balances, CHIP, P2) == 70 * ETHER && BalanceOf(c.balances, CHIP, P3) == 100 * ETHER
    requires BalanceOf(c.balances, CHIP, CONTRACT) == 50 * ETHER
    modifies c
    ensures RtState(c, 51 * ETHER, 0, 0)
    ensures StakeOf(c.storage, 1, 2, P1) == 20 * ETHER && StakeOf(c.storage, 1, 2, P2) == 30 * ETHER
    ensures StakeOf(c.storage, 1, 3, P3) == 1 * ETHER
    ensures VolumeOf(c.storage, 1, 2) == 50 * ETHER && TallyOf(c.storage, 1, 2) == 0
    ensures BalanceOf(c.balances, CHIP, P2) == 70 * ETHER && BalanceOf(c.balances, CHIP, CONTRACT) == 51 * ETHER
  {
    StakeStep(c, 1, 3, 1 * ETHER, P3, 1003);
  }

  /** The single resolver votes r after resolutionAt, which is a majority of one: the pair resolves to r. */
  method RtResolve(c: BetUpEvents, total: nat, r: OutcomeId)
    requires RtState(c, total, 0, 0) && 1 <= r <= 3 && TallyOf(c.storage, 1, r) == 0
    modifies c
    ensures RtState(c, total, r, r)
    ensures c.storage.players == old(c.storage.players) && c.storage.optionsVolume == old(c.storage.optionsVolume)
    ensures c.balances == old(c.balances)
  {
    VoteStep(c, 1, r, ADMIN, 4611);
  }

  /** P2 claims on the resolved pair: its 30 ether back plus 9 * 30 * 1 / (10 * 50) ether of profit. */
  method RtClaim(c: BetUpEvents) returns (p2Balance: nat)
    requires RtState(c, 51 * ETHER, 2, 2)
    requires StakeOf(c.storage, 1, 2, P2) == 30 * ETHER && VolumeOf(c.storage, 1, 2) == 50 * ETHER
    requires BalanceOf(c.balances, CHIP, P2) == 70 * ETHER && BalanceOf(c.balances, CHIP, CONTRACT) == 51 * ETHER
    modifies c
    ensures p2Balance == BalanceOf(c.balances, CHIP, P2) == 100540000000000000000
  {
    assert CalcProfit(50 * ETHER, 30 * ETHER, 51 * ETHER) == 540000000000000000;
    var paid := ClaimStep(c, 1, 2, P2, 4612);
    p2Balance := BalanceOf(c.balances, CHIP, P2);
  }

  /**
   * test/rt/BetUpEventsRt.spec.ts: a three-outcome pair with one resolver;
   * P1 stakes 20 and P2 30 ether on outcome 2, P3 1 ether on outcome 3;
   * the resolver votes 2 after resolutionAt; P2 claims and ends at 100.54
   * ether: 100 - 30 + 30 + 9 * 30 * 1 / (10 * 50). The losing ether is part
   * of the total but not of the winning volume.
   */
  method EndToEnd() returns (stakes: seq<nat>, resultID: OutcomeId, p2Balance: nat)
    ensures stakes == [20 * ETHER, 30 * ETHER, 1 * ETHER]
    ensures resultID == 2
    ensures p2Balance == 100540000000000000000
  {
    var c := RtOpen();
    RtWinnersStake(c);
    RtLoserStakes(c);
    stakes := [StakeOf(c.storage, 1, 2, P1), StakeOf(c.storage, 1, 2, P2), StakeOf(c.storage, 1, 3, P3)];
    RtResolve(c, 51 * ETHER, 2);
    resultID := c.storage.innerPairs[1].resultID;
    p2Balance := RtClaim(c);
  }

  // ---------------------------------------------------------------------
  // test/uint/BetUpEventsUnit.spec.ts: the creator's reward and the forced void
  // ---------------------------------------------------------------------

  /** P1 backs outcome 1 with 10 ether and P2 outcome 2 with 20. */
  method FeeStakes(c: BetUpEvents)
    requires RtState(c, 0, 0, 0) && c.balances == StartBalances()
    requires forall r, a :: StakeOf(c.storage, 1, r, a) == 0
    requires forall r :: VolumeOf(c.storage, 1, r) == 0 && TallyOf(c.storage, 1, r) == 0
    modifies c
    ensures RtState(c, 30 * ETHER, 0, 0)
    ensures VolumeOf(c.storage, 1, 1) == 10 * ETHER && TallyOf(c.storage, 1, 1) == 0
    ensures BalanceOf(c.balances, CHIP, CONTRACT) == 30 * ETHER && BalanceOf(c.balances, CHIP, ADMIN) == 0
  {
    StakeStep(c, 1, 1, 10 * ETHER, P1, 1001);
    StakeStep(c, 1, 2, 20 * ETHER, P2, 1002);
  }

  /** The creator claims on the pair resolved to 1: (30 - 10) * 5000 / 100000 = 1 ether leaves the contract. */
  method FeeClaim(c: BetUpEvents) returns (res: Result<nat>)
    requires RtState(c, 30 * ETHER, 1, 1) && VolumeOf(c.storage, 1, 1) == 10 * ETHER
    requires BalanceOf(c.balances, CHIP, CONTRACT) == 30 * ETHER && BalanceOf(c.balances, CHIP, ADMIN) == 0
    modifies c
    ensures res == Ok(ETHER)
    ensures BalanceOf(c.balances, CHIP, CONTRACT) == 29 * ETHER && BalanceOf(c.balances, CHIP, ADMIN) == ETHER
    ensures c.Valid() && Settled(c.storage, 1) && c.storage.pairs[1].claimedReward
  {
    assert Settled(c.storage, 1);
    assert CreatorFee(c.storage, 1) == ETHER;
    res := c.ClaimCreationRewards(1);
  }

  /** Setting the creation fee to 5000 and claiming again: 'claimed'. */
  method FeeAgain(c: BetUpEvents) returns (feeSet: Result<nat>, res: Result<nat>)
    requires c.Valid() && Settled(c.storage, 1) && c.storage.pairs[1].claimedReward
    modifies c
    ensures feeSet.Ok? && c.storage.createRewardsRatio == 5000
    ensures res == Err(Claimed)
  {
    feeSet := c.SetCreationFee(5000);
    assert Settled(c.storage, 1);
    res := c.ClaimCreationRewards(1);
  }

  /**
   * The creator's reward is paid once: 1 ether on the first claim, taken
   * from the contract's 30, and 'claimed' on a second claim even after the
   * creation fee has been set again.
   */
  method CreationRewardPaidOnce() returns (first: Result<nat>, contractBalance: nat, claimed: bool, second: Result<nat>)
    ensures first == Ok(ETHER) && contractBalance == 29 * ETHER && claimed
    ensures second == Err(Claimed)
  {
    var c := RtOpen();
    FeeStakes(c);
    RtResolve(c, 30 * ETHER, 1);
    first := FeeClaim(c);
    contractBalance := BalanceOf(c.balances, CHIP, CONTRACT);
    claimed := c.storage.pairs[1].claimedReward;
    var feeSet;
    feeSet, second := FeeAgain(c);
  }

  /** Governance forces the result of an unresolved pair: it becomes 65535 (void). */
  method ForcedVoid() returns (res: Result<()>, resultID: OutcomeId)
    ensures res.Ok?
    ensures resultID == 65535
  {
    var c := RtOpen();
    assert ResultGuard(c.storage, 1, 1, true) == None;
    res := c.SetResultID(1, 1, true);
    resultID := c.storage.innerPairs[1].resultID;
  }

  // ---------------------------------------------------------------------
  // test/uint/BetUpEventsUnit.spec.ts: a three-outcome pair with three resolvers
  // ---------------------------------------------------------------------

  /**
   * Pair 1 of c has three outcomes and the resolvers R1, R2 and R3, whose
   * ballots record v1, v2 and v3; t1, t2 and t3 are the tallies of outcomes
   * 1, 2 and 3, and resultID the pair's result.
   */
  ghost predicate TriState(c: BetUpEvents, resultID: OutcomeId, v1: OutcomeId, v2: OutcomeId, v3: OutcomeId,
                           t1: nat, t2: nat, t3: nat)
    reads c
  {
    c.Valid() && c.resolveDeadlineSecond == WINDOW
    && 1 in c.storage.pairs && c.storage.pairs[1].optionsQty == 3 && c.storage.pairs[1].resolverQty == 3
    && c.storage.pairs[1].resolutionAt == 4610
    && 1 in c.storage.innerPairs && c.storage.innerPairs[1].resultID == resultID
    && c.storage.innerPairs[1].deadlineAt == 4610 + WINDOW
    && (1, R1) in c.storage.pairsResolver && c.storage.pairsResolver[(1, R1)] == ResolverBallot(true, false, v1)
    && (1, R2) in c.storage.pairsResolver && c.storage.pairsResolver[(1, R2)] == ResolverBallot(true, false, v2)
    && (1, R3) in c.storage.pairsResolver && c.storage.pairsResolver[(1, R3)] == ResolverBallot(true, false, v3)
    && TallyOf(c.storage, 1, 1) == t1 && TallyOf(c.storage, 1, 2) == t2 && TallyOf(c.storage, 1, 3) == t3
  }

  /** The pair as opened: no votes, no tallies, no result. */
  method TriOpen() returns (c: BetUpEvents)
    ensures fresh(c) && TriState(c, 0, 0, 0, 0, 0, 0, 0)
  {
    c := Deploy();
    var id := OpenStep(c, 1010, 4610, CHIP, 3, [R1, R2, R3], ADMIN, 1000);
  }

  /** R1 votes 1: one vote of three is no majority. */
  method FirstVote(c: BetUpEvents)
    requires TriState(c, 0, 0, 0, 0, 0, 0, 0)
    modifies c
    ensures TriState(c, 0, 1, 0, 0, 1, 0, 0)
  {
    VoteStep(c, 1, 1, R1, 4611);
  }

  /** R2 also votes 1: two votes of three resolve the pair to 1. */
  method AgreeingVote(c: BetUpEvents)
    requires TriState(c, 0, 1, 0, 0, 1, 0, 0)
    modifies c
    ensures TriState(c, 1, 1, 1, 0, 2, 0, 0)
  {
    VoteStep(c, 1, 1, R2, 4612);
  }

  /** R3 votes on the resolved pair and is refused with 'pair resolved'; nothing changes. */
  method LateVote(c: BetUpEvents) returns (res: Result<()>)
    requires TriState(c, 1, 1, 1, 0, 2, 0, 0)
    modifies c
    ensures res == Err(PairResolved) && TriState(c, 1, 1, 1, 0, 2, 0, 0)
  {
    res := c.Close(1, 1, R3, 4613);
  }

  /** R2 votes 2: one vote each for 1 and 2, still no result. */
  method SplitVote(c: BetUpEvents)
    requires TriState(c, 0, 1, 0, 0, 1, 0, 0)
    modifies c
    ensures TriState(c, 0, 1, 2, 0, 1, 1, 0)
  {
    VoteStep(c, 1, 2, R2, 4612);
  }

  /** R3 votes 3: every resolver has voted and no outcome has a majority. */
  method DeadlockVote(c: BetUpEvents)
    requires TriState(c, 0, 1, 2, 0, 1, 1, 0)
    modifies c
    ensures TriState(c, 0, 1, 2, 3, 1, 1, 1)
  {
    VoteStep(c, 1, 3, R3, 4613);
  }

  /**
   * Votes 1 and 1: the first vote leaves resultID at 0 with a tally of 1,
   * the second sets it to 1 with a tally of 2, and the third resolver is
   * refused with 'pair resolved'.
   */
  method ConsensusOfTwo() returns (afterFirst: OutcomeId, afterSecond: OutcomeId, tally: nat, late: Result<()>)
    ensures afterFirst == 0 && afterSecond == 1 && tally == 2
    ensures late == Err(PairResolved)
  {
    var c := TriOpen();
    FirstVote(c);
    afterFirst := c.storage.innerPairs[1].resultID;
    AgreeingVote(c);
    afterSecond := c.storage.innerPairs[1].resultID;
    tally := TallyOf(c.storage, 1, 1);
    late := LateVote(c);
  }

  /** Votes 1, 2 and 3: each tally is 1 and the pair stays unresolved after every vote. */
  method NoMajority() returns (results: seq<OutcomeId>, tallies: seq<nat>)
    ensures results == [0, 0, 0]
    ensures tallies == [1, 1, 1]
  {
    var c := TriOpen();
    FirstVote(c);
    var r1 := c.storage.innerPairs[1].resultID;
    SplitVote(c);
    var r2 := c.storage.innerPairs[1].resultID;
    DeadlockVote(c);
    results := [r1, r2, c.storage.innerPairs[1].resultID];
    tallies := [TallyOf(c.storage, 1, 1), TallyOf(c.storage, 1, 2), TallyOf(c.storage, 1, 3)];
  }
}
