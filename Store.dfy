/**
 * The event-market contract's storage as one value (`Book`), what can be
 * read from it, the state change each public operation makes to it, and
 * the invariant every one of those changes keeps.
 */
module Store {
  import opened Common
  import opened Ledger
  import opened Settlement

  /**
   * The contract's storage. `resolverSets` and `voters` are bookkeeping
   * the contract leaves implicit in `pairsResolver`: the resolvers of each
   * pair and those of them who have voted.
   */
  datatype Book = Book(
    pairIDCounter: nat,
    createRewardsRatio: nat,
    pairs: map<PairId, Pair>,
    innerPairs: map<PairId, InnerPair>,
    pairsResolver: map<(PairId, Address), ResolverBallot>,
    resultCounter: map<(PairId, OutcomeId), nat>,
    players: map<(PairId, OutcomeId, Address), PlayerStake>,
    optionsVolume: map<(PairId, OutcomeId), OptionVolume>,
    validChips: map<Address, nat>,
    resolverSets: map<PairId, set<Address>>,
    voters: map<PairId, set<Address>>)

  /** The storage right after deployment. */
  function Deployed(createRewardsRatio: nat): Book
  {
    Book(1, createRewardsRatio, map[], map[], map[], map[], map[], map[], map[], map[], map[])
  }

  // ---------------------------------------------------------------------
  // Reading the storage
  // ---------------------------------------------------------------------

  /** players(pairID, resultID, player).amount, 0 when absent. */
  function StakeOf(b: Book, id: PairId, r: OutcomeId, player: Address): nat
  {
    if (id, r, player) in b.players then b.players[(id, r, player)].amount else 0
  }

  /** optionsVolume(pairID, resultID).amount, 0 when absent. */
  function VolumeOf(b: Book, id: PairId, r: OutcomeId): nat
  {
    Entry(b.optionsVolume, VolumeAmount, id, r)
  }

  /** resultCounter(pairID, resultID), 0 when absent. */
  function TallyOf(b: Book, id: PairId, r: OutcomeId): nat
  {
    Entry(b.resultCounter, Count, id, r)
  }

  /** validChips(chip): 0 unregistered, 1 valid, any other value as governance set it. */
  function ChipStatusIn(validChips: map<Address, nat>, chip: Address): nat
  {
    if chip in validChips then validChips[chip] else 0
  }

  function ChipStatus(b: Book, chip: Address): nat
  {
    ChipStatusIn(b.validChips, chip)
  }

  // ---------------------------------------------------------------------
  // The invariant
  // ---------------------------------------------------------------------

  /** The records that describe opened pairs: all of the storage but the counter, ratio, stakes and chips. */
  datatype PairView = PairView(
    pairs: map<PairId, Pair>,
    innerPairs: map<PairId, InnerPair>,
    pairsResolver: map<(PairId, Address), ResolverBallot>,
    resultCounter: map<(PairId, OutcomeId), nat>,
    optionsVolume: map<(PairId, OutcomeId), OptionVolume>,
    resolverSets: map<PairId, set<Address>>,
    voters: map<PairId, set<Address>>)

  function View(b: Book): PairView
  {
    PairView(b.pairs, b.innerPairs, b.pairsResolver, b.resultCounter, b.optionsVolume, b.resolverSets, b.voters)
  }

  /** A resolver's ballot: eligible, second flag clear, and a recorded vote exactly when it voted. */
  predicate BallotOk(v: ResolverBallot, voted: bool, qty: nat)
  {
    v.eligible && !v.flag && (voted <==> v.resultID != 0) && v.resultID <= qty
  }

  /**
   * The well-formedness of one opened pair, `window` being the contract's
   * resolution window (resolveDeadlineSecond): its parameters as `open`
   * admitted them, its total the sum of its volumes, its result 0, an
   * outcome or VOID, and its tallies summing to the number of its
   * resolvers who voted, each of whom holds a ballot recording the vote.
   */
  ghost predicate PairOk(v: PairView, window: nat, id: PairId)
    requires id in v.pairs && id in v.innerPairs && id in v.resolverSets && id in v.voters
  {
    var p := v.pairs[id];
    var ip := v.innerPairs[id];
    2 <= p.optionsQty <= MAX_OPTIONS && p.resolverQty % 2 == 1 && p.creationRatio <= RATIO_BASE
    && p.endStackAt < p.resolutionAt && ip.deadlineAt == p.resolutionAt + window
    && ip.total == SumOutcomes(v.optionsVolume, VolumeAmount, id, p.optionsQty)
    && (ip.resultID == 0 || 1 <= ip.resultID <= p.optionsQty || ip.resultID == VOID)
    && |v.resolverSets[id]| == p.resolverQty && ZERO_ADDRESS !in v.resolverSets[id]
    && v.voters[id] <= v.resolverSets[id]
    && SumOutcomes(v.resultCounter, Count, id, p.optionsQty) == |v.voters[id]|
    && (forall a :: (id, a) in v.pairsResolver ==> a in v.resolverSets[id])
    && (forall a :: a in v.resolverSets[id] ==>
          (id, a) in v.pairsResolver && BallotOk(v.pairsResolver[(id, a)], a in v.voters[id], p.optionsQty))
  }

  /** Every opened pair has its inner record and resolver bookkeeping, and is well formed. */
  ghost predicate PairsOk(v: PairView, window: nat)
  {
    (forall id :: id in v.pairs ==> id in v.innerPairs && id in v.resolverSets && id in v.voters)
    && (forall id {:trigger PairOk(v, window, id)} ::
          id in v.pairs && id in v.innerPairs && id in v.resolverSets && id in v.voters ==> PairOk(v, window, id))
  }

  /** Pair ids are assigned from 1 and stay below the counter. */
  ghost predicate IdsOk(counter: nat, pairs: map<PairId, Pair>)
  {
    1 <= counter && forall id :: id in pairs ==> 1 <= id < counter
  }

  /** Ballots, tallies and volumes belong to opened pairs, tallies and volumes to one of their outcomes. */
  ghost predicate KeysOk(pairs: map<PairId, Pair>, pairsResolver: map<(PairId, Address), ResolverBallot>,
                         resultCounter: map<(PairId, OutcomeId), nat>,
                         optionsVolume: map<(PairId, OutcomeId), OptionVolume>)
  {
    (forall id, a :: (id, a) in pairsResolver ==> id in pairs)
    && (forall id, r :: (id, r) in resultCounter ==> id in pairs && 1 <= r <= pairs[id].optionsQty)
    && (forall id, r :: (id, r) in optionsVolume ==>
          id in pairs && 1 <= r <= pairs[id].optionsQty
          && optionsVolume[(id, r)].amountWithBonus == optionsVolume[(id, r)].amount)
  }

  /** A player's stake is part of its outcome's volume, and the bonus multiplier is 1. */
  ghost predicate PlayersOk(optionsVolume: map<(PairId, OutcomeId), OptionVolume>,
                            players: map<(PairId, OutcomeId, Address), PlayerStake>)
  {
    forall id, r, a :: (id, r, a) in players ==>
      (id, r) in optionsVolume && players[(id, r, a)].amountWithBonus == players[(id, r, a)].amount
      && players[(id, r, a)].amount <= optionsVolume[(id, r)].amount
  }

  /** The storage invariant every public operation keeps. */
  ghost predicate BookOk(b: Book, window: nat)
  {
    b.createRewardsRatio <= RATIO_BASE
    && IdsOk(b.pairIDCounter, b.pairs)
    && KeysOk(b.pairs, b.pairsResolver, b.resultCounter, b.optionsVolume)
    && PlayersOk(b.optionsVolume, b.players)
    && PairsOk(View(b), window)
  }

  /** The fields of a pair that `open` fixes; the three flags are not among them. */
  predicate SameTerms(p: Pair, q: Pair)
  {
    p.resolutionAt == q.resolutionAt && p.resolverQty == q.resolverQty && p.endStackAt == q.endStackAt
    && p.optionsQty == q.optionsQty && p.creationRatio == q.creationRatio
  }

  /**
   * A pair whose own records an operation leaves as they were (up to its
   * flags and to entries outside its outcomes) stays well formed.
   */
  lemma PairOkFrame(v: PairView, v': PairView, window: nat, id: PairId)
    requires id in v.pairs && id in v.innerPairs && id in v.resolverSets && id in v.voters && PairOk(v, window, id)
    requires id in v'.pairs && SameTerms(v'.pairs[id], v.pairs[id])
    requires id in v'.innerPairs && v'.innerPairs[id] == v.innerPairs[id]
    requires id in v'.resolverSets && v'.resolverSets[id] == v.resolverSets[id]
    requires id in v'.voters && v'.voters[id] == v.voters[id]
    requires SumOutcomes(v'.optionsVolume, VolumeAmount, id, v.pairs[id].optionsQty)
          == SumOutcomes(v.optionsVolume, VolumeAmount, id, v.pairs[id].optionsQty)
    requires SumOutcomes(v'.resultCounter, Count, id, v.pairs[id].optionsQty)
          == SumOutcomes(v.resultCounter, Count, id, v.pairs[id].optionsQty)
    requires forall a :: (id, a) in v'.pairsResolver ==> (id, a) in v.pairsResolver
    requires forall a :: (id, a) in v.pairsResolver ==>
               (id, a) in v'.pairsResolver && v'.pairsResolver[(id, a)] == v.pairsResolver[(id, a)]
    ensures PairOk(v', window, id)
  {
  }

  lemma DeployedOk(ratio: nat, window: nat)
    requires ratio <= RATIO_BASE
    ensures BookOk(Deployed(ratio), window)
    ensures Deployed(ratio).pairIDCounter == 1 && Deployed(ratio).pairs == map[]
  {
  }

  /**
   * What a well-formed book guarantees about one pair's stakes: a stake is
   * part of its outcome's volume, a volume part of the total, and nothing
   * is recorded outside outcomes 1..optionsQty.
   */
  lemma StakeBounds(b: Book, window: nat, id: PairId, r: OutcomeId, player: Address)
    requires BookOk(b, window) && id in b.pairs
    ensures id in b.innerPairs && b.pairs[id].optionsQty <= MAX_OPTIONS
    ensures StakeOf(b, id, r, player) <= VolumeOf(b, id, r) <= b.innerPairs[id].total
    ensures !(1 <= r <= b.pairs[id].optionsQty) ==> VolumeOf(b, id, r) == 0 && StakeOf(b, id, r, player) == 0
  {
    assert PairOk(View(b), window, id);
    if 1 <= r <= b.pairs[id].optionsQty {
      EntryAtMostSum(b.optionsVolume, VolumeAmount, id, b.pairs[id].optionsQty, r);
    }
  }

  /**
   * Tallies are bounded by the resolver count: every vote counted for a
   * pair comes from a distinct resolver of it.
   */
  lemma TalliesBounded(b: Book, window: nat, id: PairId)
    requires BookOk(b, window) && id in b.pairs
    ensures SumOutcomes(b.resultCounter, Count, id, b.pairs[id].optionsQty) <= b.pairs[id].resolverQty
  {
    assert PairOk(View(b), window, id);
    assert |b.voters[id]| <= |b.resolverSets[id]| by {
      SubsetCard(b.voters[id], b.resolverSets[id]);
    }
  }

  lemma SubsetCard(s: set<Address>, t: set<Address>)
    requires s <= t
    ensures |s| <= |t|
  {
    assert t == s + (t - s);
  }

  /** Consensus is unique: two outcomes of a pair cannot both hold a majority of its resolvers. */
  lemma ConsensusUnique(b: Book, window: nat, id: PairId, r1: OutcomeId, r2: OutcomeId)
    requires BookOk(b, window) && id in b.pairs
    requires TallyOf(b, id, r1) > b.pairs[id].resolverQty / 2 && TallyOf(b, id, r2) > b.pairs[id].resolverQty / 2
    ensures r1 == r2
  {
    assert PairOk(View(b), window, id);
    var qty := b.pairs[id].optionsQty;
    TalliesBounded(b, window, id);
    assert 1 <= r1 <= qty && 1 <= r2 <= qty;
    MajorityUnique(b.resultCounter, id, qty, b.pairs[id].resolverQty, r1, r2);
  }

  /**
   * getRewardOf(pairID, resultID, 0, player): the (principal, profit) a
   * claim would pay now, by the regime of `Settlement.Payout`.
   */
  function RewardOf(b: Book, window: nat, id: PairId, r: OutcomeId, player: Address, now: nat): (nat, nat)
    requires BookOk(b, window) && id in b.pairs
  {
    var ip := b.innerPairs[id];
    StakeBounds(b, window, id, r, player);
    StakeBounds(b, window, id, ip.resultID, player);
    Payout(StakeOf(b, id, r, player), r, ip.resultID, b.pairs[id].optionsQty, VolumeOf(b, id, r),
           VolumeOf(b, id, ip.resultID), ip.total, now > ip.deadlineAt)
  }

  /** A player with nothing staked on an outcome is owed nothing on it. */
  lemma NoStakeNoReward(b: Book, window: nat, id: PairId, r: OutcomeId, player: Address, now: nat)
    requires BookOk(b, window) && id in b.pairs && StakeOf(b, id, r, player) == 0
    ensures RewardOf(b, window, id, r, player, now) == (0, 0)
  {
    var ip := b.innerPairs[id];
    StakeBounds(b, window, id, ip.resultID, player);
    if RewardOf(b, window, id, r, player, now).1 > 0 {
      ProfitIsFloor(VolumeOf(b, id, ip.resultID), 0, ip.total);
    }
  }

  // ---------------------------------------------------------------------
  // open
  // ---------------------------------------------------------------------

  /** The ballots `open` writes: every listed resolver is eligible and has not voted. */
  function FreshBallots(id: PairId, resolvers: seq<Address>): (m: map<(PairId, Address), ResolverBallot>)
    ensures forall i, a :: (i, a) in m <==> i == id && a in resolvers
    ensures forall i, a :: (i, a) in m ==> m[(i, a)] == ResolverBallot(true, false, 0)
  {
    if |resolvers| == 0 then map[]
    else
      var init := resolvers[..|resolvers| - 1];
      assert forall a :: a in resolvers <==> a in init || a == resolvers[|resolvers| - 1] by {
        assert resolvers == init + [resolvers[|resolvers| - 1]];
      }
      FreshBallots(id, init)[(id, resolvers[|resolvers| - 1]) := ResolverBallot(true, false, 0)]
  }

  /** The book after `open` registers pair `pairIDCounter` with its fresh ballots. */
  function Opened(b: Book, pair: Pair, ip: InnerPair, resolvers: seq<Address>): Book
  {
    var id := b.pairIDCounter;
    b.(pairIDCounter := id + 1,
       pairs := b.pairs[id := pair],
       innerPairs := b.innerPairs[id := ip],
       pairsResolver := b.pairsResolver + FreshBallots(id, resolvers),
       resolverSets := b.resolverSets[id := ElementsOf(resolvers)],
       voters := b.voters[id := {}])
  }

  /** What `open` checks of a new pair before it writes it. */
  predicate Admissible(window: nat, pair: Pair, ip: InnerPair, resolvers: seq<Address>)
  {
    2 <= pair.optionsQty <= MAX_OPTIONS && pair.endStackAt < pair.resolutionAt
    && pair.resolverQty == |resolvers| && |resolvers| % 2 == 1 && pair.creationRatio <= RATIO_BASE
    && ZERO_ADDRESS !in resolvers && Distinct(resolvers)
    && ip.total == 0 && ip.resultID == 0 && ip.deadlineAt == pair.resolutionAt + window
  }

  /**
   * Opening a pair keeps the invariant, given what `open` checks: a valid
   * outcome count, ordered times, an odd number of distinct non-zero
   * resolvers, and a pair that starts empty and unresolved.
   */
  lemma OpenKeepsOk(b: Book, window: nat, pair: Pair, ip: InnerPair, resolvers: seq<Address>)
    requires BookOk(b, window) && Admissible(window, pair, ip, resolvers)
    ensures BookOk(Opened(b, pair, ip, resolvers), window)
  {
    OpenKeepsPairs(b, window, pair, ip, resolvers);
    OpenKeepsKeys(b, window, pair, ip, resolvers);
  }

  lemma OpenKeepsKeys(b: Book, window: nat, pair: Pair, ip: InnerPair, resolvers: seq<Address>)
    requires BookOk(b, window)
    ensures var b' := Opened(b, pair, ip, resolvers);
      IdsOk(b'.pairIDCounter, b'.pairs) && KeysOk(b'.pairs, b'.pairsResolver, b'.resultCounter, b'.optionsVolume)
  {
  }

  lemma OpenKeepsPairs(b: Book, window: nat, pair: Pair, ip: InnerPair, resolvers: seq<Address>)
    requires BookOk(b, window) && Admissible(window, pair, ip, resolvers)
    ensures PairsOk(View(Opened(b, pair, ip, resolvers)), window)
  {
    var id := b.pairIDCounter;
    var b' := Opened(b, pair, ip, resolvers);
    OpenNewPairOk(b, window, pair, ip, resolvers);
    forall id' | id' in b'.pairs && id' != id
      ensures PairOk(View(b'), window, id')
    {
      assert PairOk(View(b), window, id');
      forall a | (id', a) in b.pairsResolver
        ensures (id', a) in b'.pairsResolver && b'.pairsResolver[(id', a)] == b.pairsResolver[(id', a)]
      {
        assert (id', a) !in FreshBallots(id, resolvers);
      }
      PairOkFrame(View(b), View(b'), window, id');
    }
  }

  lemma OpenNewPairOk(b: Book, window: nat, pair: Pair, ip: InnerPair, resolvers: seq<Address>)
    requires IdsOk(b.pairIDCounter, b.pairs) && KeysOk(b.pairs, b.pairsResolver, b.resultCounter, b.optionsVolume)
    requires Admissible(window, pair, ip, resolvers)
    ensures PairOk(View(Opened(b, pair, ip, resolvers)), window, b.pairIDCounter)
  {
    var id := b.pairIDCounter;
    DistinctCard(resolvers);
    SumOutcomesEmpty(b.optionsVolume, VolumeAmount, id, pair.optionsQty);
    SumOutcomesEmpty(b.resultCounter, Count, id, pair.optionsQty);
  }

  /** A newly opened pair holds nothing: no stake, no volume, no vote, and every resolver may vote once. */
  lemma OpenedIsEmpty(b: Book, window: nat, pair: Pair, ip: InnerPair, resolvers: seq<Address>,
                      r: OutcomeId, player: Address)
    requires BookOk(b, window)
    ensures var b' := Opened(b, pair, ip, resolvers);
      var id := b.pairIDCounter;
      StakeOf(b', id, r, player) == 0 && VolumeOf(b', id, r) == 0 && TallyOf(b', id, r) == 0
      && (forall a :: (id, a) in b'.pairsResolver <==> a in resolvers)
      && (forall a :: a in resolvers ==> b'.pairsResolver[(id, a)] == ResolverBallot(true, false, 0))
  {
    var id := b.pairIDCounter;
    assert id !in b.pairs;
    assert (id, r, player) !in b.players;
    assert (id, r) !in b.optionsVolume && (id, r) !in b.resultCounter;
    forall a | (id, a) in b.pairsResolver
      ensures false
    {
    }
  }

  // ---------------------------------------------------------------------
  // stack
  // ---------------------------------------------------------------------

  /** The book after `player` stakes `amount` on outcome r of pair id (bonus multiplier 1). */
  function Staked(b: Book, id: PairId, r: OutcomeId, player: Address, amount: nat): Book
    requires id in b.innerPairs
  {
    var s := StakeOf(b, id, r, player) + amount;
    var v := VolumeOf(b, id, r) + amount;
    var ip := b.innerPairs[id];
    b.(players := b.players[(id, r, player) := PlayerStake(s, s)],
       optionsVolume := b.optionsVolume[(id, r) := OptionVolume(v, v)],
       innerPairs := b.innerPairs[id := ip.(total := ip.total + amount)])
  }

  /**
   * A stake grows the player's record, the outcome's volume and the pair's
   * total by the staked amount, and touches no other stake, volume or pair.
   */
  lemma StakeEffects(b: Book, id: PairId, r: OutcomeId, player: Address, amount: nat,
                     id': PairId, r': OutcomeId, player': Address)
    requires id in b.innerPairs
    ensures var b' := Staked(b, id, r, player, amount);
      StakeOf(b', id, r, player) == StakeOf(b, id, r, player) + amount
      && VolumeOf(b', id, r) == VolumeOf(b, id, r) + amount
      && b'.innerPairs[id].total == b.innerPairs[id].total + amount
      && ((id', r', player') != (id, r, player) ==> StakeOf(b', id', r', player') == StakeOf(b, id', r', player'))
      && ((id', r') != (id, r) ==> VolumeOf(b', id', r') == VolumeOf(b, id', r'))
      && (id' != id && id' in b.innerPairs ==> b'.innerPairs[id'] == b.innerPairs[id'])
      && b'.pairs == b.pairs && b'.pairsResolver == b.pairsResolver && b'.resultCounter == b.resultCounter
  {
  }

  /** Staking on an outcome of an opened pair keeps the invariant; in particular the total stays the sum of the volumes. */
  lemma StakeKeepsOk(b: Book, window: nat, id: PairId, r: OutcomeId, player: Address, amount: nat)
    requires BookOk(b, window) && id in b.pairs && 1 <= r <= b.pairs[id].optionsQty
    ensures id in b.innerPairs && BookOk(Staked(b, id, r, player, amount), window)
  {
    StakeKeepsKeys(b, window, id, r, player, amount);
    StakeKeepsPairs(b, window, id, r, player, amount);
  }

  lemma StakeKeepsKeys(b: Book, window: nat, id: PairId, r: OutcomeId, player: Address, amount: nat)
    requires BookOk(b, window) && id in b.pairs && 1 <= r <= b.pairs[id].optionsQty
    ensures id in b.innerPairs
    ensures var b' := Staked(b, id, r, player, amount);
      KeysOk(b'.pairs, b'.pairsResolver, b'.resultCounter, b'.optionsVolume) && PlayersOk(b'.optionsVolume, b'.players)
  {
    var b' := Staked(b, id, r, player, amount);
    forall i, o, a | (i, o, a) in b'.players
      ensures (i, o) in b'.optionsVolume && b'.players[(i, o, a)].amountWithBonus == b'.players[(i, o, a)].amount
      ensures b'.players[(i, o, a)].amount <= b'.optionsVolume[(i, o)].amount
    {
      if (i, o, a) != (id, r, player) {
        assert (i, o, a) in b.players;
      }
    }
  }

  lemma StakeKeepsPairs(b: Book, window: nat, id: PairId, r: OutcomeId, player: Address, amount: nat)
    requires BookOk(b, window) && id in b.pairs && 1 <= r <= b.pairs[id].optionsQty
    ensures id in b.innerPairs && PairsOk(View(Staked(b, id, r, player, amount)), window)
  {
    assert PairOk(View(b), window, id);
    var b' := Staked(b, id, r, player, amount);
    var v := VolumeOf(b, id, r) + amount;
    SumOutcomesUpdate(b.optionsVolume, VolumeAmount, id, b.pairs[id].optionsQty, r, OptionVolume(v, v));
    assert PairOk(View(b'), window, id);
    forall id' | id' in b'.pairs && id' != id
      ensures PairOk(View(b'), window, id')
    {
      assert PairOk(View(b), window, id');
      SumOutcomesElsewhere(b.optionsVolume, VolumeAmount, id', b.pairs[id'].optionsQty, (id, r), OptionVolume(v, v));
      PairOkFrame(View(b), View(b'), window, id');
    }
  }

  // ---------------------------------------------------------------------
  // close
  // ---------------------------------------------------------------------

  /**
   * The book after resolver `caller` votes for outcome r of pair id: the
   * ballot records the vote, the outcome's tally grows by one, and the
   * pair's result becomes r once that tally is a strict majority of the
   * resolvers.
   */
  function Voted(b: Book, id: PairId, r: OutcomeId, caller: Address): Book
    requires id in b.pairs && id in b.innerPairs && id in b.voters && (id, caller) in b.pairsResolver
  {
    var n := TallyOf(b, id, r) + 1;
    var ip := b.innerPairs[id];
    b.(pairsResolver := b.pairsResolver[(id, caller) := b.pairsResolver[(id, caller)].(resultID := r)],
       resultCounter := b.resultCounter[(id, r) := n],
       voters := b.voters[id := b.voters[id] + {caller}],
       innerPairs := if n > b.pairs[id].resolverQty / 2 then b.innerPairs[id := ip.(resultID := r)] else b.innerPairs)
  }

  /** What `close` checks before it records a vote: a listed resolver who has not voted, on an unresolved pair. */
  predicate MayVote(b: Book, id: PairId, r: OutcomeId, caller: Address)
  {
    id in b.pairs && 1 <= r <= b.pairs[id].optionsQty
    && (id, caller) in b.pairsResolver && b.pairsResolver[(id, caller)].resultID == 0
    && id in b.innerPairs && b.innerPairs[id].resultID == 0
  }

  /**
   * A vote on an unresolved pair by a resolver who has not voted keeps the
   * invariant: the tallies still sum to the number of resolvers who voted.
   */
  lemma VoteKeepsOk(b: Book, window: nat, id: PairId, r: OutcomeId, caller: Address)
    requires BookOk(b, window) && MayVote(b, id, r, caller)
    ensures id in b.voters && BookOk(Voted(b, id, r, caller), window)
  {
    VoteKeepsKeys(b, window, id, r, caller);
    VoteKeepsPairs(b, window, id, r, caller);
  }

  lemma VoteKeepsKeys(b: Book, window: nat, id: PairId, r: OutcomeId, caller: Address)
    requires BookOk(b, window) && MayVote(b, id, r, caller)
    ensures id in b.voters
    ensures var b' := Voted(b, id, r, caller);
      KeysOk(b'.pairs, b'.pairsResolver, b'.resultCounter, b'.optionsVolume)
  {
  }

  lemma VoteKeepsPairs(b: Book, window: nat, id: PairId, r: OutcomeId, caller: Address)
    requires BookOk(b, window) && MayVote(b, id, r, caller)
    ensures id in b.voters && PairsOk(View(Voted(b, id, r, caller)), window)
  {
    assert PairOk(View(b), window, id);
    VoteOwnPairOk(b, window, id, r, caller);
    VoteOtherPairsOk(b, window, id, r, caller);
  }

  lemma VoteOtherPairsOk(b: Book, window: nat, id: PairId, r: OutcomeId, caller: Address)
    requires PairsOk(View(b), window) && MayVote(b, id, r, caller)
    ensures id in b.voters
    ensures var b' := Voted(b, id, r, caller);
      forall id' :: id' in b'.pairs && id' != id ==> id' in b'.innerPairs && id' in b'.resolverSets && id' in b'.voters
                                                     && PairOk(View(b'), window, id')
  {
    var b' := Voted(b, id, r, caller);
    var n: nat := TallyOf(b, id, r) + 1;
    forall id' | id' in b'.pairs && id' != id
      ensures id' in b'.innerPairs && id' in b'.resolverSets && id' in b'.voters && PairOk(View(b'), window, id')
    {
      assert PairOk(View(b), window, id');
      SumOutcomesElsewhere(b.resultCounter, Count, id', b.pairs[id'].optionsQty, (id, r), n);
      PairOkFrame(View(b), View(b'), window, id');
    }
  }

  lemma VoteOwnPairOk(b: Book, window: nat, id: PairId, r: OutcomeId, caller: Address)
    requires BookOk(b, window) && MayVote(b, id, r, caller)
    ensures id in b.voters && PairOk(View(Voted(b, id, r, caller)), window, id)
  {
    assert PairOk(View(b), window, id);
    var b' := Voted(b, id, r, caller);
    assert caller in b.resolverSets[id];
    assert caller !in b.voters[id];
    assert |b'.voters[id]| == |b.voters[id]| + 1;
    var n: nat := TallyOf(b, id, r) + 1;
    SumOutcomesUpdate(b.resultCounter, Count, id, b.pairs[id].optionsQty, r, n);
  }

  /**
   * What a vote decides: the pair is resolved to r exactly when r's new
   * tally is a strict majority, and then no other outcome holds one. In
   * particular a lone resolver resolves the pair with its single vote.
   */
  lemma VoteDecides(b: Book, window: nat, id: PairId, r: OutcomeId, caller: Address)
    requires BookOk(b, window) && MayVote(b, id, r, caller)
    ensures id in b.voters
    ensures var b' := Voted(b, id, r, caller);
      var half := b.pairs[id].resolverQty / 2;
      TallyOf(b', id, r) == TallyOf(b, id, r) + 1
      && (b'.innerPairs[id].resultID == r <==> TallyOf(b', id, r) > half)
      && (b'.innerPairs[id].resultID == 0 <==> TallyOf(b', id, r) <= half)
      && (b.pairs[id].resolverQty == 1 ==> b'.innerPairs[id].resultID == r)
      && (b'.innerPairs[id].resultID == r ==> forall o :: o != r ==> TallyOf(b', id, o) <= half)
  {
    VoteKeepsOk(b, window, id, r, caller);
    var b' := Voted(b, id, r, caller);
    var half := b.pairs[id].resolverQty / 2;
    if b'.innerPairs[id].resultID == r {
      forall o | o != r
        ensures TallyOf(b', id, o) <= half
      {
        if TallyOf(b', id, o) > half {
          ConsensusUnique(b', window, id, r, o);
        }
      }
    }
  }

  // ---------------------------------------------------------------------
  // claim
  // ---------------------------------------------------------------------

  /** The book after a claim: the claimant's stake on the outcome is zeroed, pool totals stay as they were. */
  function Withdrawn(b: Book, id: PairId, r: OutcomeId, player: Address): Book
  {
    b.(players := b.players[(id, r, player) := PlayerStake(0, 0)])
  }

  /** Zeroing a recorded stake keeps the invariant. */
  lemma WithdrawKeepsOk(b: Book, window: nat, id: PairId, r: OutcomeId, player: Address)
    requires BookOk(b, window) && (id, r, player) in b.players
    ensures BookOk(Withdrawn(b, id, r, player), window)
  {
    assert View(Withdrawn(b, id, r, player)) == View(b);
  }

  /**
   * No double claim: once claimed, the stake is 0 and `getRewardOf` owes
   * nothing on it, while every other stake and all pool figures are as
   * they were.
   */
  lemma NoDoubleClaim(b: Book, window: nat, id: PairId, r: OutcomeId, player: Address, now: nat)
    requires BookOk(b, window) && (id, r, player) in b.players
    ensures BookOk(Withdrawn(b, id, r, player), window) && id in b.pairs
    ensures StakeOf(Withdrawn(b, id, r, player), id, r, player) == 0
    ensures RewardOf(Withdrawn(b, id, r, player), window, id, r, player, now) == (0, 0)
    ensures forall o: OutcomeId, a: Address :: (o, a) != (r, player) ==>
              StakeOf(Withdrawn(b, id, r, player), id, o, a) == StakeOf(b, id, o, a)
    ensures forall o: OutcomeId :: VolumeOf(Withdrawn(b, id, r, player), id, o) == VolumeOf(b, id, o)
  {
    WithdrawKeepsOk(b, window, id, r, player);
    NoStakeNoReward(Withdrawn(b, id, r, player), window, id, r, player, now);
  }

  // ---------------------------------------------------------------------
  // Pair flags, the governance result override, ratio and chips
  // ---------------------------------------------------------------------

  /** The book with pair id's three flags set as given. */
  function WithFlags(b: Book, id: PairId, paused: bool, claimedReward: bool, claimedToVault: bool): Book
    requires id in b.pairs
  {
    b.(pairs := b.pairs[id := b.pairs[id].(paused := paused, claimedReward := claimedReward,
                                           claimedToVault := claimedToVault)])
  }

  /** Setting the paused, claimedReward or claimedToVault flag of a pair keeps the invariant. */
  lemma FlagsKeepOk(b: Book, window: nat, id: PairId, paused: bool, claimedReward: bool, claimedToVault: bool)
    requires BookOk(b, window) && id in b.pairs
    ensures BookOk(WithFlags(b, id, paused, claimedReward, claimedToVault), window)
  {
    FlagsKeepKeys(b, window, id, paused, claimedReward, claimedToVault);
    FlagsKeepPairs(b, window, id, paused, claimedReward, claimedToVault);
  }

  lemma FlagsKeepKeys(b: Book, window: nat, id: PairId, paused: bool, claimedReward: bool, claimedToVault: bool)
    requires BookOk(b, window) && id in b.pairs
    ensures var b' := WithFlags(b, id, paused, claimedReward, claimedToVault);
      IdsOk(b'.pairIDCounter, b'.pairs) && KeysOk(b'.pairs, b'.pairsResolver, b'.resultCounter, b'.optionsVolume)
  {
  }

  lemma FlagsKeepPairs(b: Book, window: nat, id: PairId, paused: bool, claimedReward: bool, claimedToVault: bool)
    requires BookOk(b, window) && id in b.pairs
    ensures PairsOk(View(WithFlags(b, id, paused, claimedReward, claimedToVault)), window)
  {
    var b' := WithFlags(b, id, paused, claimedReward, claimedToVault);
    forall id' | id' in b'.pairs
      ensures PairOk(View(b'), window, id')
    {
      assert PairOk(View(b), window, id');
      PairOkFrame(View(b), View(b'), window, id');
    }
  }

  /** The book with pair id's result replaced. */
  function WithResult(b: Book, id: PairId, resultID: OutcomeId): Book
    requires id in b.innerPairs
  {
    b.(innerPairs := b.innerPairs[id := b.innerPairs[id].(resultID := resultID)])
  }

  /** Setting a pair's result to one of its outcomes or to VOID keeps the invariant. */
  lemma ResultKeepsOk(b: Book, window: nat, id: PairId, resultID: OutcomeId)
    requires BookOk(b, window) && id in b.pairs
    requires 1 <= resultID <= b.pairs[id].optionsQty || resultID == VOID
    ensures id in b.innerPairs && BookOk(WithResult(b, id, resultID), window)
  {
    assert PairOk(View(b), window, id);
    var b' := WithResult(b, id, resultID);
    assert PairOk(View(b'), window, id);
    forall id' | id' in b'.pairs && id' != id
      ensures PairOk(View(b'), window, id')
    {
      assert PairOk(View(b), window, id');
      PairOkFrame(View(b), View(b'), window, id');
    }
  }

  /** A voided pair refunds every stake in full and pays no profit, whatever the time. */
  lemma VoidRefunds(b: Book, window: nat, id: PairId, r: OutcomeId, player: Address, now: nat)
    requires BookOk(b, window) && id in b.pairs && id in b.innerPairs && b.innerPairs[id].resultID == VOID
    ensures RewardOf(b, window, id, r, player, now) == (StakeOf(b, id, r, player), 0)
  {
  }

  /** Setting the creation ratio within its bound keeps the invariant (pairs keep the ratio they snapshotted). */
  lemma RatioKeepsOk(b: Book, window: nat, ratio: nat)
    requires BookOk(b, window) && ratio <= RATIO_BASE
    ensures BookOk(b.(createRewardsRatio := ratio), window)
  {
    assert View(b.(createRewardsRatio := ratio)) == View(b);
  }

  /** The chip registry is independent of the invariant. */
  lemma ChipsKeepOk(b: Book, window: nat, vc: map<Address, nat>)
    requires BookOk(b, window)
    ensures BookOk(b.(validChips := vc), window)
  {
    assert View(b.(validChips := vc)) == View(b);
  }
}
