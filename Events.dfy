/**
 * The event-market contract (BetUpEvents) as its tests observe it: a class
 * whose one storage record holds the contract's maps, keyed by tuples where
 * the contract keys them by keccak hashes. Each public operation is a method
 * that either fails with the contract's revert reason and changes nothing,
 * or performs the whole state change. The block time is the parameter
 * `now`, the caller is a parameter, and the chips' token balances are one
 * map.
 */
module Events {
  import opened Common
  import opened Ledger
  import opened Settlement
  import opened Store

  /** The revert reasons and custom errors the contract raises. */
  datatype Error =
    | InvalidOptionsQty          // 'invalid _optionsQty'
    | InvalidTime                // 'invalid time'
    | InvalidResolvers           // 'invalid _resolvers'
    | InvalidChip                // 'invalid _chip'
    | InvalidResolver            // InvalidResolver()
    | InvalidVote                // 'invalid _resultID'
    | Unauthorized               // 'unauthorized'
    | Outdated                   // 'outdated'
    | ResolvedAlready            // 'resolved already'
    | PairResolved               // 'pair resolved'
    | InvalidPairID(pairID: PairId)
    | PairPaused(pairID: PairId)
    | InvalidStackTime           // 'Invalid stack time'
    | InvalidResultID(resultID: OutcomeId)
    | InvalidAmount              // InvalidAmount()
    | InsufficientBalance        // the chip's transfer fails
    | Ongoing                    // 'ongoing'
    | InvalidMaxLevel            // 'Invalid _maxLevel'
    | NothingBeWithdrew          // 'nothing be withdrew'
    | Claimed                    // 'claimed'
    | ClaimedToVault             // a pair swept to the vault a second time
    | Duplicate                  // 'duplicate'
    | InvalidAddress             // 'invalid address'
    | InvalidCreateFee           // 'invalid _createFee'

  datatype Option<T> = None | Some(value: T)

  datatype Result<T> = Ok(value: T) | Err(error: Error)

  // ---------------------------------------------------------------------
  // Chip balances
  // ---------------------------------------------------------------------

  /** The chip balances: (chip, holder) to amount, 0 when absent. */
  type Balances = map<(Address, Address), nat>

  function BalanceOf(b: Balances, chip: Address, who: Address): nat
  {
    if (chip, who) in b then b[(chip, who)] else 0
  }

  /** Moves `amount` of `chip` from `from` to `to`; every other balance is unchanged. */
  function Transfer(b: Balances, chip: Address, from: Address, to: Address, amount: nat): (b': Balances)
    requires BalanceOf(b, chip, from) >= amount
    ensures from != to ==> BalanceOf(b', chip, from) == BalanceOf(b, chip, from) - amount
    ensures from != to ==> BalanceOf(b', chip, to) == BalanceOf(b, chip, to) + amount
    ensures from == to ==> b' == b
    ensures forall c: Address, w: Address :: (c, w) != (chip, from) && (c, w) != (chip, to) ==>
              BalanceOf(b', c, w) == BalanceOf(b, c, w)
  {
    if from == to then b
    else
      var b1 := b[(chip, from) := BalanceOf(b, chip, from) - amount];
      b1[(chip, to) := BalanceOf(b1, chip, to) + amount]
  }

  // ---------------------------------------------------------------------
  // The checks of each operation, in the contract's order
  // ---------------------------------------------------------------------

  /** The first check `open` fails (before its resolver loop), or None. */
  function OpenGuard(b: Book, endStackAt: nat, resolutionAt: nat, chip: Address, optionsQty: nat,
                     resolvers: seq<Address>, now: nat): Option<Error>
  {
    if optionsQty < 2 || optionsQty > MAX_OPTIONS then Some(InvalidOptionsQty)
    else if endStackAt <= now || resolutionAt <= endStackAt then Some(InvalidTime)
    else if |resolvers| == 0 || |resolvers| % 2 == 0 then Some(InvalidResolvers)
    else if ChipStatus(b, chip) != 1 then Some(InvalidChip)
    else if ZERO_ADDRESS in resolvers || !Distinct(resolvers) then Some(InvalidResolver)
    else None
  }

  /** The first check `stack` fails, or None. */
  function StackGuard(b: Book, id: PairId, r: OutcomeId, amount: nat, player: Address, bal: Balances,
                      now: nat): Option<Error>
  {
    if id !in b.pairs then Some(InvalidPairID(id))
    else if b.pairs[id].paused then Some(PairPaused(id))
    else if now >= b.pairs[id].endStackAt then Some(InvalidStackTime)
    else if r < 1 || r > b.pairs[id].optionsQty then Some(InvalidResultID(r))
    else if amount == 0 then Some(InvalidAmount)
    else if BalanceOf(bal, b.pairs[id].chip, player) < amount then Some(InsufficientBalance)
    else None
  }

  /** The first check `close` fails, or None. */
  function CloseGuard(b: Book, id: PairId, r: OutcomeId, caller: Address, now: nat): Option<Error>
  {
    if id !in b.pairs || r < 1 || r > b.pairs[id].optionsQty then Some(InvalidVote)
    else if (id, caller) !in b.pairsResolver || !b.pairsResolver[(id, caller)].eligible then Some(Unauthorized)
    else if id !in b.innerPairs || now < b.pairs[id].resolutionAt || now > b.innerPairs[id].deadlineAt then Some(Outdated)
    else if b.pairsResolver[(id, caller)].resultID != 0 then Some(ResolvedAlready)
    else if b.innerPairs[id].resultID != 0 then Some(PairResolved)
    else None
  }

  /** What one claim pays: principal plus profit. */
  function ClaimAmount(b: Book, window: nat, id: PairId, r: OutcomeId, player: Address, now: nat): nat
    requires BookOk(b, window) && id in b.pairs
  {
    var p := RewardOf(b, window, id, r, player, now);
    p.0 + p.1
  }

  /**
   * The first check `claim` fails, or None. `eligibleLevel` is the highest
   * DAO level the player may claim with (the DAO records are outside the
   * model); the bonus itself is left out.
   */
  function ClaimGuard(b: Book, window: nat, id: PairId, r: OutcomeId, maxLevel: nat, eligibleLevel: nat,
                      player: Address, bal: Balances, self: Address, now: nat): Option<Error>
    requires BookOk(b, window)
  {
    if id !in b.pairs then Some(InvalidPairID(id))
    else if b.pairs[id].paused then Some(PairPaused(id))
    else if now < b.pairs[id].endStackAt then Some(Ongoing)
    else if StakeOf(b, id, r, player) == 0 then Some(InvalidResultID(r))
    else if maxLevel > eligibleLevel then Some(InvalidMaxLevel)
    else if RewardOf(b, window, id, r, player, now) == (0, 0) then Some(NothingBeWithdrew)
    else if BalanceOf(bal, b.pairs[id].chip, self) < ClaimAmount(b, window, id, r, player, now) then Some(InsufficientBalance)
    else None
  }

  /** Pair id has a finalised winner that others staked against (the condition for both fees). */
  predicate Settled(b: Book, id: PairId)
  {
    id in b.pairs && id in b.innerPairs
    && HasWinner(b.innerPairs[id].resultID, b.pairs[id].optionsQty, VolumeOf(b, id, b.innerPairs[id].resultID),
                 b.innerPairs[id].total)
  }

  /** The creator's reward on a settled pair, at the ratio the pair snapshotted when it was opened. */
  function CreatorFee(b: Book, id: PairId): nat
    requires Settled(b, id)
  {
    var ip := b.innerPairs[id];
    CreationReward(ip.total, VolumeOf(b, id, ip.resultID), b.pairs[id].creationRatio)
  }

  /** The vault's share of a settled pair: `calcAvailableAmount`. */
  function VaultFee(b: Book, id: PairId): nat
    requires Settled(b, id) && b.pairs[id].creationRatio <= RATIO_BASE
  {
    var ip := b.innerPairs[id];
    AvailableIsFloor(ip.total, VolumeOf(b, id, ip.resultID), b.pairs[id].creationRatio);
    CalcAvailableAmount(ip.total, VolumeOf(b, id, ip.resultID), b.pairs[id].creationRatio)
  }

  /** The first check `claimCreationRewards` fails, or None. */
  function CreationGuard(b: Book, id: PairId, bal: Balances, self: Address): Option<Error>
  {
    if !Settled(b, id) then Some(InvalidPairID(id))
    else if b.pairs[id].claimedReward then Some(Claimed)
    else if BalanceOf(bal, b.pairs[id].chip, self) < CreatorFee(b, id) then Some(InsufficientBalance)
    else None
  }

  /** The first check `withdrawToVault` fails on one pair, or None. */
  function SweepGuard(b: Book, window: nat, id: PairId, bal: Balances, self: Address): Option<Error>
    requires BookOk(b, window)
  {
    if !Settled(b, id) then Some(InvalidPairID(id))
    else if b.pairs[id].claimedToVault then Some(ClaimedToVault)
    else
      assert PairOk(View(b), window, id);
      if BalanceOf(bal, b.pairs[id].chip, self) < VaultFee(b, id) then Some(InsufficientBalance)
      else None
  }

  /** The first check `setResultID` fails, or None. */
  function ResultGuard(b: Book, id: PairId, r: OutcomeId, force: bool): Option<Error>
  {
    if id !in b.pairs || id !in b.innerPairs then Some(InvalidPairID(id))
    else if b.innerPairs[id].resultID != 0 then Some(PairResolved)
    else if !force && (r < 1 || r > b.pairs[id].optionsQty) then Some(InvalidVote)
    else None
  }

  /**
   * The creator is paid once: after `claimCreationRewards` sets the pair's
   * claimedReward flag, every later call fails with 'claimed', whatever
   * the creation ratio has been set to meanwhile and whatever the balances.
   */
  lemma CreationRewardOnce(b: Book, id: PairId, ratio: nat, bal: Balances, self: Address)
    requires Settled(b, id)
    ensures var b' := WithFlags(b, id, b.pairs[id].paused, true, b.pairs[id].claimedToVault);
      CreationGuard(b'.(createRewardsRatio := ratio), id, bal, self) == Some(Claimed)
  {
  }

  /** The vault is paid once per pair: a swept pair fails every later sweep. */
  lemma SweepOnce(b: Book, window: nat, id: PairId, bal: Balances, self: Address)
    requires BookOk(b, window) && Settled(b, id)
    ensures var b' := WithFlags(b, id, b.pairs[id].paused, b.pairs[id].claimedReward, true);
      BookOk(b', window) && SweepGuard(b', window, id, bal, self) == Some(ClaimedToVault)
  {
    FlagsKeepOk(b, window, id, b.pairs[id].paused, b.pairs[id].claimedReward, true);
  }

  /**
   * The two fees of a settled pair, the creator's and the vault's, together
   * take at most a tenth of the stakes against the winning outcome.
   */
  lemma FeesOfPair(b: Book, window: nat, id: PairId)
    requires BookOk(b, window) && Settled(b, id)
    ensures b.pairs[id].creationRatio <= RATIO_BASE
    ensures var ip := b.innerPairs[id];
      CreatorFee(b, id) + VaultFee(b, id) <= (ip.total - VolumeOf(b, id, ip.resultID)) / 10
  {
    assert PairOk(View(b), window, id);
    var ip := b.innerPairs[id];
    FeesAtMostTenth(ip.total, VolumeOf(b, id, ip.resultID), b.pairs[id].creationRatio);
  }

  // ---------------------------------------------------------------------
  // Batch operations, as the loops of the contract compute them
  // ---------------------------------------------------------------------

  /**
   * `addChips(chips)`: registers each chip in turn with status 1; a chip
   * already registered, or one that is not a contract, reverts the whole
   * call. `contracts` is the set of addresses that hold code.
   */
  function ChipsAdded(validChips: map<Address, nat>, chips: seq<Address>, contracts: set<Address>)
    : Result<map<Address, nat>>
    decreases |chips|
  {
    if |chips| == 0 then Ok(validChips)
    else if ChipStatusIn(validChips, chips[0]) != 0 then Err(Duplicate)
    else if chips[0] !in contracts then Err(InvalidAddress)
    else ChipsAdded(validChips[chips[0] := 1], chips[1..], contracts)
  }

  /**
   * `addChips` succeeds exactly when every chip is a contract, none is
   * registered yet and none is listed twice; it then registers exactly the
   * listed chips, with status 1, and leaves every other status as it was.
   */
  lemma {:induction false} ChipsAddedSpec(validChips: map<Address, nat>, chips: seq<Address>, contracts: set<Address>)
    ensures ChipsAdded(validChips, chips, contracts).Ok? <==>
      Distinct(chips) && forall i :: 0 <= i < |chips| ==> chips[i] in contracts && ChipStatusIn(validChips, chips[i]) == 0
    ensures ChipsAdded(validChips, chips, contracts).Ok? ==>
      forall c :: ChipStatusIn(ChipsAdded(validChips, chips, contracts).value, c)
                  == if c in chips then 1 else ChipStatusIn(validChips, c)
    decreases |chips|
  {
    if |chips| > 0 {
      var c := chips[0];
      var rest := chips[1..];
      var vc' := validChips[c := 1];
      ChipsAddedSpec(vc', rest, contracts);
      assert chips == [c] + rest;
      assert Distinct(chips) <==> c !in rest && Distinct(rest) by {
        if Distinct(chips) {
          forall j | 0 <= j < |rest|
            ensures rest[j] != c
          {
            assert chips[j + 1] == rest[j];
          }
        }
        if c !in rest && Distinct(rest) {
          forall i, j | 0 <= i < j < |chips|
            ensures chips[i] != chips[j]
          {
            if i > 0 {
              assert chips[i] == rest[i - 1] && chips[j] == rest[j - 1];
            } else {
              assert chips[j] == rest[j - 1];
            }
          }
        }
      }
      if ChipStatusIn(validChips, c) == 0 && c in contracts {
        var all := forall i :: 0 <= i < |chips| ==> chips[i] in contracts && ChipStatusIn(validChips, chips[i]) == 0;
        var allRest := forall i :: 0 <= i < |rest| ==> rest[i] in contracts && ChipStatusIn(vc', rest[i]) == 0;
        if all && Distinct(chips) {
          forall i | 0 <= i < |rest|
            ensures rest[i] in contracts && ChipStatusIn(vc', rest[i]) == 0
          {
            assert rest[i] == chips[i + 1];
          }
        }
        if allRest && Distinct(rest) && c !in rest {
          forall i | 0 <= i < |chips|
            ensures chips[i] in contracts && ChipStatusIn(validChips, chips[i]) == 0
          {
            if i > 0 {
              assert chips[i] == rest[i - 1];
            }
          }
        }
      } else {
        assert !(chips[0] in contracts && ChipStatusIn(validChips, chips[0]) == 0);
      }
    }
  }

  /**
   * `withdrawToVault(ids)`: sweeps each settled pair in turn, paying its
   * `calcAvailableAmount` from the contract to the vault and setting its
   * claimedToVault flag; the first pair that fails reverts the whole call.
   */
  function Swept(b: Book, window: nat, bal: Balances, self: Address, vault: Address, ids: seq<PairId>)
    : (res: Result<(Book, Balances)>)
    requires BookOk(b, window)
    ensures res.Ok? ==> BookOk(res.value.0, window)
    decreases |ids|
  {
    if |ids| == 0 then Ok((b, bal))
    else
      var id := ids[0];
      match SweepGuard(b, window, id, bal, self)
      case Some(e) => Err(e)
      case None =>
        assert PairOk(View(b), window, id);
        var b' := WithFlags(b, id, b.pairs[id].paused, b.pairs[id].claimedReward, true);
        FlagsKeepOk(b, window, id, b.pairs[id].paused, b.pairs[id].claimedReward, true);
        Swept(b', window, Transfer(bal, b.pairs[id].chip, self, vault, VaultFee(b, id)), self, vault, ids[1..])
  }

  /** Sweeping one pair succeeds exactly when the pair passes its checks. */
  lemma SweptOnePairOk(b: Book, window: nat, bal: Balances, self: Address, vault: Address, id: PairId)
    requires BookOk(b, window)
    ensures Swept(b, window, bal, self, vault, [id]).Ok? <==> SweepGuard(b, window, id, bal, self) == None
  {
    assert [id][1..] == [];
  }

  /**
   * A successful sweep of one pair raises the vault's chip balance by
   * exactly `calcAvailableAmount`, lowers the contract's by as much, flags
   * the pair as swept and leaves the pair's result and stakes alone.
   */
  lemma SweptOnePair(b: Book, window: nat, bal: Balances, self: Address, vault: Address, id: PairId,
                     b': Book, bal': Balances)
    requires BookOk(b, window) && vault != self
    requires Swept(b, window, bal, self, vault, [id]) == Ok((b', bal'))
    ensures Settled(b, id) && b.pairs[id].creationRatio <= RATIO_BASE
    ensures BalanceOf(bal', b.pairs[id].chip, vault) == BalanceOf(bal, b.pairs[id].chip, vault) + VaultFee(b, id)
    ensures BalanceOf(bal', b.pairs[id].chip, self) == BalanceOf(bal, b.pairs[id].chip, self) - VaultFee(b, id)
    ensures id in b'.pairs && b'.pairs[id].claimedToVault && b'.innerPairs == b.innerPairs && b'.players == b.players
  {
    SweptOnePairOk(b, window, bal, self, vault, id);
    assert PairOk(View(b), window, id);
    FlagsKeepOk(b, window, id, b.pairs[id].paused, b.pairs[id].claimedReward, true);
    assert [id][1..] == [];
  }

  /** The vault fees of those listed pairs that are settled and staked in `chip`. */
  function VaultFeesIn(b: Book, window: nat, chip: Address, ids: seq<PairId>): nat
    requires BookOk(b, window)
    decreases |ids|
  {
    if |ids| == 0 then 0
    else
      var id := ids[0];
      var here := if Settled(b, id) && b.pairs[id].chip == chip
                  then assert PairOk(View(b), window, id); VaultFee(b, id)
                  else 0;
      here + VaultFeesIn(b, window, chip, ids[1..])
  }

  /** Setting a pair's flags changes no pair's vault fee. */
  lemma {:induction false} VaultFeesFlags(b: Book, window: nat, chip: Address, ids: seq<PairId>, id: PairId,
                                          paused: bool, claimedReward: bool, claimedToVault: bool)
    requires BookOk(b, window) && id in b.pairs
    ensures BookOk(WithFlags(b, id, paused, claimedReward, claimedToVault), window)
    ensures VaultFeesIn(WithFlags(b, id, paused, claimedReward, claimedToVault), window, chip, ids)
            == VaultFeesIn(b, window, chip, ids)
    decreases |ids|
  {
    FlagsKeepOk(b, window, id, paused, claimedReward, claimedToVault);
    if |ids| > 0 {
      VaultFeesFlags(b, window, chip, ids[1..], id, paused, claimedReward, claimedToVault);
    }
  }

  /** The first step of a successful sweep: the first pair passes its checks and is paid and flagged. */
  lemma SweptStep(b: Book, window: nat, bal: Balances, self: Address, vault: Address, ids: seq<PairId>)
    requires BookOk(b, window) && |ids| > 0
    requires Swept(b, window, bal, self, vault, ids).Ok?
    ensures Settled(b, ids[0]) && b.pairs[ids[0]].creationRatio <= RATIO_BASE
    ensures SweepGuard(b, window, ids[0], bal, self) == None
    ensures BookOk(WithFlags(b, ids[0], b.pairs[ids[0]].paused, b.pairs[ids[0]].claimedReward, true), window)
    ensures BalanceOf(bal, b.pairs[ids[0]].chip, self) >= VaultFee(b, ids[0])
    ensures Swept(b, window, bal, self, vault, ids)
            == Swept(WithFlags(b, ids[0], b.pairs[ids[0]].paused, b.pairs[ids[0]].claimedReward, true), window,
                     Transfer(bal, b.pairs[ids[0]].chip, self, vault, VaultFee(b, ids[0])), self, vault, ids[1..])
  {
    var id := ids[0];
    assert PairOk(View(b), window, id);
    FlagsKeepOk(b, window, id, b.pairs[id].paused, b.pairs[id].claimedReward, true);
  }

  /**
   * A successful `withdrawToVault(ids)` raises the vault's balance of each
   * chip by exactly the summed `calcAvailableAmount` of the listed pairs
   * staked in that chip.
   */
  lemma {:induction false} SweptPaysVault(b: Book, window: nat, bal: Balances, self: Address, vault: Address,
                                          ids: seq<PairId>, chip: Address)
    requires BookOk(b, window) && vault != self
    requires Swept(b, window, bal, self, vault, ids).Ok?
    ensures BalanceOf(Swept(b, window, bal, self, vault, ids).value.1, chip, vault)
            == BalanceOf(bal, chip, vault) + VaultFeesIn(b, window, chip, ids)
    decreases |ids|
  {
    if |ids| > 0 {
      var id := ids[0];
      SweptStep(b, window, bal, self, vault, ids);
      var b1 := WithFlags(b, id, b.pairs[id].paused, b.pairs[id].claimedReward, true);
      VaultFeesFlags(b, window, chip, ids[1..], id, b.pairs[id].paused, b.pairs[id].claimedReward, true);
      var bal1 := Transfer(bal, b.pairs[id].chip, self, vault, VaultFee(b, id));
      assert BalanceOf(bal1, chip, vault)
             == BalanceOf(bal, chip, vault) + (if b.pairs[id].chip == chip then VaultFee(b, id) else 0);
      SweptPaysVault(b1, window, bal1, self, vault, ids[1..], chip);
    }
  }

  /**
   * A successful `withdrawToVault(ids)` flags every listed pair as swept
   * and keeps every earlier sweep flag.
   */
  lemma {:induction false} SweptFlagsAll(b: Book, window: nat, bal: Balances, self: Address, vault: Address,
                                         ids: seq<PairId>)
    requires BookOk(b, window)
    requires Swept(b, window, bal, self, vault, ids).Ok?
    ensures forall id :: id in ids ==>
              id in Swept(b, window, bal, self, vault, ids).value.0.pairs
              && Swept(b, window, bal, self, vault, ids).value.0.pairs[id].claimedToVault
    ensures forall id :: id in b.pairs && b.pairs[id].claimedToVault ==>
              id in Swept(b, window, bal, self, vault, ids).value.0.pairs
              && Swept(b, window, bal, self, vault, ids).value.0.pairs[id].claimedToVault
    decreases |ids|
  {
    if |ids| > 0 {
      var id := ids[0];
      SweptStep(b, window, bal, self, vault, ids);
      var b1 := WithFlags(b, id, b.pairs[id].paused, b.pairs[id].claimedReward, true);
      var bal1 := Transfer(bal, b.pairs[id].chip, self, vault, VaultFee(b, id));
      SweptFlagsAll(b1, window, bal1, self, vault, ids[1..]);
      var after := Swept(b1, window, bal1, self, vault, ids[1..]).value.0;
      assert id in b1.pairs && b1.pairs[id].claimedToVault;
      forall x | x in b.pairs && b.pairs[x].claimedToVault
        ensures x in after.pairs && after.pairs[x].claimedToVault
      {
        assert x in b1.pairs && b1.pairs[x].claimedToVault;
      }
      forall x | x in ids
        ensures x in after.pairs && after.pairs[x].claimedToVault
      {
        if x != id {
          assert x in ids[1..];
        }
      }
    }
  }

  /** A new, non-zero resolver keeps the resolver list free of zeros and repeats. */
  lemma CleanStep(rs: seq<Address>, a: Address)
    requires ZERO_ADDRESS !in rs && Distinct(rs) && a != ZERO_ADDRESS && a !in rs
    ensures ZERO_ADDRESS !in rs + [a] && Distinct(rs + [a])
  {
  }

  /** Writing the ballot of one more resolver extends `FreshBallots` by that resolver. */
  lemma BallotsStep(ballots0: map<(PairId, Address), ResolverBallot>, id: PairId, rs: seq<Address>, a: Address)
    ensures (ballots0 + FreshBallots(id, rs))[(id, a) := ResolverBallot(true, false, 0)]
            == ballots0 + FreshBallots(id, rs + [a])
  {
    assert (rs + [a])[..|rs|] == rs;
  }

  /**
   * The resolver loop of `open`: writes a fresh ballot for each listed
   * resolver in turn and fails on the zero address or on a resolver listed
   * twice.
   */
  method CollectBallots(ballots0: map<(PairId, Address), ResolverBallot>, id: PairId, resolvers: seq<Address>)
    returns (ok: bool, ballots: map<(PairId, Address), ResolverBallot>)
    requires forall i, a :: (i, a) in ballots0 ==> i != id
    ensures ok <==> ZERO_ADDRESS !in resolvers && Distinct(resolvers)
    ensures ok ==> ballots == ballots0 + FreshBallots(id, resolvers)
  {
    ballots := ballots0;
    var i := 0;
    while i < |resolvers|
      invariant 0 <= i <= |resolvers|
      invariant ZERO_ADDRESS !in resolvers[..i] && Distinct(resolvers[..i])
      invariant ballots == ballots0 + FreshBallots(id, resolvers[..i])
    {
      var a := resolvers[i];
      if a == ZERO_ADDRESS {
        assert resolvers[i] in resolvers;
        return false, ballots;
      }
      if (id, a) in ballots {
        assert a in resolvers[..i];
        var j :| 0 <= j < i && resolvers[j] == a;
        assert !Distinct(resolvers);
        return false, ballots;
      }
      assert resolvers[..i + 1] == resolvers[..i] + [a];
      CleanStep(resolvers[..i], a);
      BallotsStep(ballots0, id, resolvers[..i], a);
      ballots := ballots[(id, a) := ResolverBallot(true, false, 0)];
      i := i + 1;
    }
    assert resolvers[..i] == resolvers;
    return true, ballots;
  }

  // ---------------------------------------------------------------------
  // The contract
  // ---------------------------------------------------------------------

  class BetUpEvents {
    /** The contract's own address: the holder of every staked chip. */
    const self: Address
    /** The protocol vault that `withdrawToVault` pays. */
    const vault: Address
    /** The resolution window: votes are accepted up to resolutionAt + resolveDeadlineSecond. */
    const resolveDeadlineSecond: nat

    /** The contract's storage. */
    var storage: Book
    /** The chip token balances of every holder, the contract included. */
    var balances: Balances

    /** The storage invariant (Store.BookOk). */
    ghost predicate Valid()
      reads this
    {
      BookOk(storage, resolveDeadlineSecond)
    }

    constructor(self: Address, vault: Address, resolveDeadlineSecond: nat, createRewardsRatio: nat, balances: Balances)
      requires createRewardsRatio <= RATIO_BASE
      ensures Valid()
      ensures this.self == self && this.vault == vault && this.resolveDeadlineSecond == resolveDeadlineSecond
      ensures storage == Deployed(createRewardsRatio) && this.balances == balances
    {
      this.self := self;
      this.vault := vault;
      this.resolveDeadlineSecond := resolveDeadlineSecond;
      storage := Deployed(createRewardsRatio);
      this.balances := balances;
      DeployedOk(createRewardsRatio, resolveDeadlineSecond);
    }

    // -------------------------------------------------------------------
    // open
    // -------------------------------------------------------------------

    /**
     * `open`: registers pair `pairIDCounter` staked in `chip`, with stakes
     * accepted until endStackAt and votes from resolutionAt to resolutionAt
     * + resolveDeadlineSecond, and returns its id. The pair snapshots the
     * current creation ratio.
     */
    method Open(endStackAt: nat, resolutionAt: nat, chip: Address, optionsQty: nat, resolvers: seq<Address>,
                caller: Address, now: nat) returns (res: Result<PairId>)
      requires Valid()
      modifies this`storage
      ensures Valid()
      ensures res.Err? <==> OpenGuard(old(storage), endStackAt, resolutionAt, chip, optionsQty, resolvers, now).Some?
      ensures res.Err? ==> res.error == OpenGuard(old(storage), endStackAt, resolutionAt, chip, optionsQty, resolvers, now).value
                           && storage == old(storage)
      ensures res.Ok? ==>
        res.value == old(storage).pairIDCounter
        && storage == Opened(old(storage),
                             Pair(resolutionAt, caller, |resolvers|, endStackAt, chip, optionsQty,
                                  old(storage).createRewardsRatio, false, false, false),
                             InnerPair(0, now, resolutionAt + resolveDeadlineSecond, 0), resolvers)
    {
      if optionsQty < 2 || optionsQty > MAX_OPTIONS {
        return Err(InvalidOptionsQty);
      }
      if endStackAt <= now || resolutionAt <= endStackAt {
        return Err(InvalidTime);
      }
      if |resolvers| == 0 || |resolvers| % 2 == 0 {
        return Err(InvalidResolvers);
      }
      if ChipStatus(storage, chip) != 1 {
        return Err(InvalidChip);
      }
      var id := storage.pairIDCounter;
      var ok, ballots := CollectBallots(storage.pairsResolver, id, resolvers);
      if !ok {
        return Err(InvalidResolver);
      }
      var pair := Pair(resolutionAt, caller, |resolvers|, endStackAt, chip, optionsQty,
                       storage.createRewardsRatio, false, false, false);
      var ip := InnerPair(0, now, resolutionAt + resolveDeadlineSecond, 0);
      OpenKeepsOk(storage, resolveDeadlineSecond, pair, ip, resolvers);
      storage := Opened(storage, pair, ip, resolvers).(pairsResolver := ballots);
      return Ok(id);
    }

    // -------------------------------------------------------------------
    // stack
    // -------------------------------------------------------------------

    /** `stack`: `player` stakes `amount` of the pair's chip on outcome r; the chip moves to the contract. */
    method Stack(id: PairId, r: OutcomeId, amount: nat, player: Address, now: nat) returns (res: Result<()>)
      requires Valid()
      modifies this`storage, this`balances
      ensures Valid()
      ensures res.Err? <==> StackGuard(old(storage), id, r, amount, player, old(balances), now).Some?
      ensures res.Err? ==> res.error == StackGuard(old(storage), id, r, amount, player, old(balances), now).value
                           && storage == old(storage) && balances == old(balances)
      ensures res.Ok? ==>
        id in old(storage).innerPairs
        && storage == Staked(old(storage), id, r, player, amount)
        && balances == Transfer(old(balances), old(storage).pairs[id].chip, player, self, amount)
    {
      if id !in storage.pairs {
        return Err(InvalidPairID(id));
      }
      var pair := storage.pairs[id];
      if pair.paused {
        return Err(PairPaused(id));
      }
      if now >= pair.endStackAt {
        return Err(InvalidStackTime);
      }
      if r < 1 || r > pair.optionsQty {
        return Err(InvalidResultID(r));
      }
      if amount == 0 {
        return Err(InvalidAmount);
      }
      if BalanceOf(balances, pair.chip, player) < amount {
        return Err(InsufficientBalance);
      }
      StakeKeepsOk(storage, resolveDeadlineSecond, id, r, player, amount);
      balances := Transfer(balances, pair.chip, player, self, amount);
      storage := Staked(storage, id, r, player, amount);
      return Ok(());
    }

    // -------------------------------------------------------------------
    // close
    // -------------------------------------------------------------------

    /** `close`: resolver `caller` votes for outcome r during the resolution window. */
    method Close(id: PairId, r: OutcomeId, caller: Address, now: nat) returns (res: Result<()>)
      requires Valid()
      modifies this`storage
      ensures Valid()
      ensures res.Err? <==> CloseGuard(old(storage), id, r, caller, now).Some?
      ensures res.Err? ==> res.error == CloseGuard(old(storage), id, r, caller, now).value && storage == old(storage)
      ensures res.Ok? ==>
        MayVote(old(storage), id, r, caller) && id in old(storage).voters
        && storage == Voted(old(storage), id, r, caller)
    {
      if id !in storage.pairs || r < 1 || r > storage.pairs[id].optionsQty {
        return Err(InvalidVote);
      }
      if (id, caller) !in storage.pairsResolver || !storage.pairsResolver[(id, caller)].eligible {
        return Err(Unauthorized);
      }
      if id !in storage.innerPairs || now < storage.pairs[id].resolutionAt || now > storage.innerPairs[id].deadlineAt {
        return Err(Outdated);
      }
      if storage.pairsResolver[(id, caller)].resultID != 0 {
        return Err(ResolvedAlready);
      }
      if storage.innerPairs[id].resultID != 0 {
        return Err(PairResolved);
      }
      VoteKeepsOk(storage, resolveDeadlineSecond, id, r, caller);
      storage := Voted(storage, id, r, caller);
      return Ok(());
    }

    // -------------------------------------------------------------------
    // claim
    // -------------------------------------------------------------------

    /**
     * `claim`: pays `player` what `getRewardOf` reports for its stake on
     * outcome r, principal plus profit, and zeroes that stake; returns the
     * (principal, profit) pair.
     */
    method Claim(id: PairId, r: OutcomeId, maxLevel: nat, eligibleLevel: nat, player: Address, now: nat)
      returns (res: Result<(nat, nat)>)
      requires Valid()
      modifies this`storage, this`balances
      ensures Valid()
      ensures res.Err? <==>
        ClaimGuard(old(storage), resolveDeadlineSecond, id, r, maxLevel, eligibleLevel, player, old(balances), self, now).Some?
      ensures res.Err? ==>
        res.error == ClaimGuard(old(storage), resolveDeadlineSecond, id, r, maxLevel, eligibleLevel, player,
                                old(balances), self, now).value
        && storage == old(storage) && balances == old(balances)
      ensures res.Ok? ==>
        id in old(storage).pairs
        && res.value == RewardOf(old(storage), resolveDeadlineSecond, id, r, player, now)
        && storage == Withdrawn(old(storage), id, r, player)
        && balances == Transfer(old(balances), old(storage).pairs[id].chip, self, player,
                                ClaimAmount(old(storage), resolveDeadlineSecond, id, r, player, now))
    {
      if id !in storage.pairs {
        return Err(InvalidPairID(id));
      }
      var pair := storage.pairs[id];
      if pair.paused {
        return Err(PairPaused(id));
      }
      if now < pair.endStackAt {
        return Err(Ongoing);
      }
      if StakeOf(storage, id, r, player) == 0 {
        return Err(InvalidResultID(r));
      }
      if maxLevel > eligibleLevel {
        return Err(InvalidMaxLevel);
      }
      var reward := RewardOf(storage, resolveDeadlineSecond, id, r, player, now);
      if reward == (0, 0) {
        return Err(NothingBeWithdrew);
      }
      var amount := reward.0 + reward.1;
      if BalanceOf(balances, pair.chip, self) < amount {
        return Err(InsufficientBalance);
      }
      WithdrawKeepsOk(storage, resolveDeadlineSecond, id, r, player);
      balances := Transfer(balances, pair.chip, self, player, amount);
      storage := Withdrawn(storage, id, r, player);
      return Ok(reward);
    }

    // -------------------------------------------------------------------
    // Fees
    // -------------------------------------------------------------------

    /** `claimCreationRewards`: pays the creator of a settled pair its reward, once; returns the amount. */
    method ClaimCreationRewards(id: PairId) returns (res: Result<nat>)
      requires Valid()
      modifies this`storage, this`balances
      ensures Valid()
      ensures res.Err? <==> CreationGuard(old(storage), id, old(balances), self).Some?
      ensures res.Err? ==> res.error == CreationGuard(old(storage), id, old(balances), self).value
                           && storage == old(storage) && balances == old(balances)
      ensures res.Ok? ==>
        Settled(old(storage), id) && res.value == CreatorFee(old(storage), id)
        && storage == WithFlags(old(storage), id, old(storage).pairs[id].paused, true,
                                old(storage).pairs[id].claimedToVault)
        && balances == Transfer(old(balances), old(storage).pairs[id].chip, self, old(storage).pairs[id].creator,
                                CreatorFee(old(storage), id))
    {
      if !Settled(storage, id) {
        return Err(InvalidPairID(id));
      }
      var pair := storage.pairs[id];
      if pair.claimedReward {
        return Err(Claimed);
      }
      var fee := CreatorFee(storage, id);
      if BalanceOf(balances, pair.chip, self) < fee {
        return Err(InsufficientBalance);
      }
      FlagsKeepOk(storage, resolveDeadlineSecond, id, pair.paused, true, pair.claimedToVault);
      storage := WithFlags(storage, id, pair.paused, true, pair.claimedToVault);
      balances := Transfer(balances, pair.chip, self, pair.creator, fee);
      return Ok(fee);
    }

    /** `withdrawToVault(ids)`: sweeps each listed pair's vault share, all or nothing. */
    method WithdrawToVault(ids: seq<PairId>) returns (res: Result<()>)
      requires Valid()
      modifies this`storage, this`balances
      ensures Valid()
      ensures res.Err? <==> Swept(old(storage), resolveDeadlineSecond, old(balances), self, vault, ids).Err?
      ensures res.Err? ==> res.error == Swept(old(storage), resolveDeadlineSecond, old(balances), self, vault, ids).error
                           && storage == old(storage) && balances == old(balances)
      ensures res.Ok? ==> (storage, balances) == Swept(old(storage), resolveDeadlineSecond, old(balances), self, vault, ids).value
    {
      var b, bal := storage, balances;
      var i := 0;
      while i < |ids|
        invariant 0 <= i <= |ids|
        invariant BookOk(b, resolveDeadlineSecond)
        invariant storage == old(storage) && balances == old(balances)
        invariant Swept(old(storage), resolveDeadlineSecond, old(balances), self, vault, ids)
                  == Swept(b, resolveDeadlineSecond, bal, self, vault, ids[i..])
      {
        var id := ids[i];
        assert ids[i..][0] == id && ids[i..][1..] == ids[i + 1..];
        var g := SweepGuard(b, resolveDeadlineSecond, id, bal, self);
        if g.Some? {
          return Err(g.value);
        }
        assert PairOk(View(b), resolveDeadlineSecond, id);
        var pair := b.pairs[id];
        FlagsKeepOk(b, resolveDeadlineSecond, id, pair.paused, pair.claimedReward, true);
        bal := Transfer(bal, pair.chip, self, vault, VaultFee(b, id));
        b := WithFlags(b, id, pair.paused, pair.claimedReward, true);
        i := i + 1;
      }
      storage, balances := b, bal;
      return Ok(());
    }

    // -------------------------------------------------------------------
    // Governance
    // -------------------------------------------------------------------

    /** `addChips(chips)`: registers each listed contract as a chip with status 1, all or nothing. */
    method AddChips(chips: seq<Address>, contracts: set<Address>) returns (res: Result<()>)
      requires Valid()
      modifies this`storage
      ensures Valid()
      ensures res.Err? <==> ChipsAdded(old(storage).validChips, chips, contracts).Err?
      ensures res.Err? ==> res.error == ChipsAdded(old(storage).validChips, chips, contracts).error
                           && storage == old(storage)
      ensures res.Ok? ==> storage == old(storage).(validChips := ChipsAdded(old(storage).validChips, chips, contracts).value)
    {
      var vc := storage.validChips;
      var i := 0;
      while i < |chips|
        invariant 0 <= i <= |chips|
        invariant storage == old(storage)
        invariant ChipsAdded(old(storage).validChips, chips, contracts) == ChipsAdded(vc, chips[i..], contracts)
      {
        var c := chips[i];
        assert chips[i..][0] == c && chips[i..][1..] == chips[i + 1..];
        if ChipStatusIn(vc, c) != 0 {
          return Err(Duplicate);
        }
        if c !in contracts {
          return Err(InvalidAddress);
        }
        vc := vc[c := 1];
        i := i + 1;
      }
      ChipsKeepOk(storage, resolveDeadlineSecond, vc);
      storage := storage.(validChips := vc);
      return Ok(());
    }

    /** `updateChip(chip, status)`: changes the status of a registered chip (0 retires it). */
    method UpdateChip(chip: Address, status: nat) returns (res: Result<()>)
      requires Valid()
      modifies this`storage
      ensures Valid()
      ensures res.Err? <==> ChipStatus(old(storage), chip) == 0 || ChipStatus(old(storage), chip) == status
      ensures res.Err? ==> res.error == InvalidChip && storage == old(storage)
      ensures res.Ok? ==> storage == old(storage).(validChips := old(storage).validChips[chip := status])
    {
      var current := ChipStatus(storage, chip);
      if current == 0 || current == status {
        return Err(InvalidChip);
      }
      ChipsKeepOk(storage, resolveDeadlineSecond, storage.validChips[chip := status]);
      storage := storage.(validChips := storage.validChips[chip := status]);
      return Ok(());
    }

    /** `setCreationFee(fee)`: sets the ratio new pairs snapshot; returns the previous one. */
    method SetCreationFee(fee: nat) returns (res: Result<nat>)
      requires Valid()
      modifies this`storage
      ensures Valid()
      ensures res.Err? <==> fee > RATIO_BASE
      ensures res.Err? ==> res.error == InvalidCreateFee && storage == old(storage)
      ensures res.Ok? ==> res.value == old(storage).createRewardsRatio
                          && storage == old(storage).(createRewardsRatio := fee)
    {
      if fee > RATIO_BASE {
        return Err(InvalidCreateFee);
      }
      var prior := storage.createRewardsRatio;
      RatioKeepsOk(storage, resolveDeadlineSecond, fee);
      storage := storage.(createRewardsRatio := fee);
      return Ok(prior);
    }

    /** `setResultID(id, r, force)`: the governance override of an unresolved pair's result; `force` voids it. */
    method SetResultID(id: PairId, r: OutcomeId, force: bool) returns (res: Result<()>)
      requires Valid()
      modifies this`storage
      ensures Valid()
      ensures res.Err? <==> ResultGuard(old(storage), id, r, force).Some?
      ensures res.Err? ==> res.error == ResultGuard(old(storage), id, r, force).value && storage == old(storage)
      ensures res.Ok? ==>
        id in old(storage).innerPairs
        && storage == WithResult(old(storage), id, if force then VOID else r)
    {
      if id !in storage.pairs || id !in storage.innerPairs {
        return Err(InvalidPairID(id));
      }
      if storage.innerPairs[id].resultID != 0 {
        return Err(PairResolved);
      }
      if !force && (r < 1 || r > storage.pairs[id].optionsQty) {
        return Err(InvalidVote);
      }
      var result := if force then VOID else r;
      ResultKeepsOk(storage, resolveDeadlineSecond, id, result);
      storage := WithResult(storage, id, result);
      return Ok(());
    }

    /** `pausePair(id, paused)`: pauses or resumes staking and claiming on a pair. */
    method PausePair(id: PairId, paused: bool) returns (res: Result<()>)
      requires Valid()
      modifies this`storage
      ensures Valid()
      ensures res.Err? <==> id !in old(storage).pairs
      ensures res.Err? ==> res.error == InvalidPairID(id) && storage == old(storage)
      ensures res.Ok? ==> storage == WithFlags(old(storage), id, paused, old(storage).pairs[id].claimedReward,
                                               old(storage).pairs[id].claimedToVault)
    {
      if id !in storage.pairs {
        return Err(InvalidPairID(id));
      }
      var pair := storage.pairs[id];
      FlagsKeepOk(storage, resolveDeadlineSecond, id, paused, pair.claimedReward, pair.claimedToVault);
      storage := WithFlags(storage, id, paused, pair.claimedReward, pair.claimedToVault);
      return Ok(());
    }
  }
}
