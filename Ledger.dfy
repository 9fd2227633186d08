/**
 * The storage records of the event-market contract and the per-outcome sums
 * its invariants are stated with. The contract keys its mappings by keccak
 * hashes of (pairID, resultID[, address]); here the keys are the tuples.
 */
module Ledger {

  type Address = nat
  type PairId = nat
  type OutcomeId = nat

  /** The zero address. */
  const ZERO_ADDRESS: Address := 0
  /** resultID of a pair that governance voided: principal-only refunds. */
  const VOID: OutcomeId := 65535
  /** Largest number of outcomes; 65535 is reserved for VOID. */
  const MAX_OPTIONS: nat := 65534

  /** `pairs(pairID)`: the fields fixed when a pair is opened, and its three flags. */
  datatype Pair = Pair(
    resolutionAt: nat,
    creator: Address,
    resolverQty: nat,
    endStackAt: nat,
    chip: Address,
    optionsQty: nat,
    creationRatio: nat,
    paused: bool,
    claimedReward: bool,
    claimedToVault: bool)

  /** `innerPairs(pairID)`: the settlement facet of a pair. */
  datatype InnerPair = InnerPair(
    total: nat,
    startAt: nat,
    deadlineAt: nat,
    resultID: OutcomeId)

  /**
   * `pairsResolver(pairID, address)`: whether the address may vote on the
   * pair, a second flag the tests only ever observe as false, and the
   * outcome it voted for (0 before it votes).
   */
  datatype ResolverBallot = ResolverBallot(eligible: bool, flag: bool, resultID: OutcomeId)

  /** `players(pairID, resultID, address)`: a player's stake on one outcome. */
  datatype PlayerStake = PlayerStake(amount: nat, amountWithBonus: nat)

  /** `optionsVolume(pairID, resultID)`: everything staked on one outcome. */
  datatype OptionVolume = OptionVolume(amount: nat, amountWithBonus: nat)

  function VolumeAmount(v: OptionVolume): nat { v.amount }

  function Count(c: nat): nat { c }

  /** The weight of entry (id, o) of m, 0 when absent. */
  function Entry<V>(m: map<(PairId, OutcomeId), V>, w: V -> nat, id: PairId, o: OutcomeId): nat
  {
    if (id, o) in m then w(m[(id, o)]) else 0
  }

  /** The sum of the weights of entries (id, 1) .. (id, n). */
  function SumOutcomes<V>(m: map<(PairId, OutcomeId), V>, w: V -> nat, id: PairId, n: nat): nat
  {
    if n == 0 then 0 else SumOutcomes(m, w, id, n - 1) + Entry(m, w, id, n)
  }

  /** A pair with no entries sums to 0. */
  lemma {:induction false} SumOutcomesEmpty<V>(m: map<(PairId, OutcomeId), V>, w: V -> nat, id: PairId, n: nat)
    requires forall k :: k in m ==> k.0 != id
    ensures SumOutcomes(m, w, id, n) == 0
  {
    if n > 0 {
      SumOutcomesEmpty(m, w, id, n - 1);
    }
  }

  /** Writing an entry outside (id, 1..n) leaves the sum of pair id unchanged. */
  lemma {:induction false} SumOutcomesElsewhere<V>(m: map<(PairId, OutcomeId), V>, w: V -> nat, id: PairId, n: nat,
                                                   k: (PairId, OutcomeId), v: V)
    requires k.0 != id || k.1 == 0 || k.1 > n
    ensures SumOutcomes(m[k := v], w, id, n) == SumOutcomes(m, w, id, n)
  {
    if n > 0 {
      SumOutcomesElsewhere(m, w, id, n - 1, k, v);
      assert Entry(m[k := v], w, id, n) == Entry(m, w, id, n);
    }
  }

  /** Writing entry (id, o) with 1 <= o <= n changes the sum by exactly the change of that entry. */
  lemma {:induction false} SumOutcomesUpdate<V>(m: map<(PairId, OutcomeId), V>, w: V -> nat, id: PairId, n: nat,
                                                o: OutcomeId, v: V)
    requires 1 <= o <= n
    ensures SumOutcomes(m[(id, o) := v], w, id, n) + Entry(m, w, id, o)
         == SumOutcomes(m, w, id, n) + w(v)
  {
    if o < n {
      SumOutcomesUpdate(m, w, id, n - 1, o, v);
      assert Entry(m[(id, o) := v], w, id, n) == Entry(m, w, id, n);
    } else {
      SumOutcomesElsewhere(m, w, id, n - 1, (id, o), v);
    }
  }

  /** Every single entry is bounded by the sum. */
  lemma {:induction false} EntryAtMostSum<V>(m: map<(PairId, OutcomeId), V>, w: V -> nat, id: PairId, n: nat, o: OutcomeId)
    requires 1 <= o <= n
    ensures Entry(m, w, id, o) <= SumOutcomes(m, w, id, n)
  {
    if o < n {
      EntryAtMostSum(m, w, id, n - 1, o);
    }
  }

  /** Two distinct entries together are bounded by the sum. */
  lemma {:induction false} TwoEntriesAtMostSum<V>(m: map<(PairId, OutcomeId), V>, w: V -> nat, id: PairId, n: nat,
                                                  a: OutcomeId, b: OutcomeId)
    requires 1 <= a < b <= n
    ensures Entry(m, w, id, a) + Entry(m, w, id, b) <= SumOutcomes(m, w, id, n)
  {
    if b < n {
      TwoEntriesAtMostSum(m, w, id, n - 1, a, b);
    } else {
      EntryAtMostSum(m, w, id, n - 1, a);
    }
  }

  /** An entry equal to the whole sum leaves every other entry empty: the pool is one-sided. */
  lemma OneSided<V>(m: map<(PairId, OutcomeId), V>, w: V -> nat, id: PairId, n: nat, a: OutcomeId, b: OutcomeId)
    requires 1 <= a <= n && 1 <= b <= n && a != b
    requires Entry(m, w, id, a) == SumOutcomes(m, w, id, n)
    ensures Entry(m, w, id, b) == 0
  {
    if a < b {
      TwoEntriesAtMostSum(m, w, id, n, a, b);
    } else {
      TwoEntriesAtMostSum(m, w, id, n, b, a);
    }
  }

  /**
   * With at most `qty` votes in all, no two outcomes can both hold a strict
   * majority (more than qty / 2 votes): consensus is unique.
   */
  lemma MajorityUnique(tally: map<(PairId, OutcomeId), nat>, id: PairId, n: nat, qty: nat, a: OutcomeId, b: OutcomeId)
    requires 1 <= a <= n && 1 <= b <= n
    requires SumOutcomes(tally, Count, id, n) <= qty
    requires Entry(tally, Count, id, a) > qty / 2 && Entry(tally, Count, id, b) > qty / 2
    ensures a == b
  {
    if a < b {
      TwoEntriesAtMostSum(tally, Count, id, n, a, b);
    } else if b < a {
      TwoEntriesAtMostSum(tally, Count, id, n, b, a);
    }
  }

  /** No element of rs occurs twice. */
  predicate Distinct(rs: seq<Address>)
  {
    forall i, j :: 0 <= i < j < |rs| ==> rs[i] != rs[j]
  }

  /** A list without repeats has as many elements as its set. */
  lemma {:induction false} DistinctCard(rs: seq<Address>)
    requires Distinct(rs)
    ensures |ElementsOf(rs)| == |rs|
  {
    if |rs| > 0 {
      var init := rs[..|rs| - 1];
      var last := rs[|rs| - 1];
      assert rs == init + [last];
      assert Distinct(init);
      DistinctCard(init);
      assert ElementsOf(rs) == ElementsOf(init) + {last};
      forall i | 0 <= i < |init|
        ensures init[i] != last
      {
        assert init[i] == rs[i];
      }
      assert last !in ElementsOf(init);
      assert |ElementsOf(init) + {last}| == |ElementsOf(init)| + 1;
    } else {
      assert ElementsOf(rs) == {};
    }
  }

  /** The set of the elements of rs. */
  function ElementsOf(rs: seq<Address>): set<Address>
  {
    set a | a in rs
  }
}
