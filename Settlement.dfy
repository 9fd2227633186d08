/**
 * Settlement of a pair: what one claim pays, what the creator and the vault
 * receive, and the aggregate bound that the pool is never overdrawn.
 *
 * A claim falls in one of three regimes: the player backed the genuine
 * winner and gets principal plus `CalcProfit`, the pair is refund-only and
 * every staker gets exactly the principal back, or nothing is payable
 * ("nothing be withdrew").
 */
module Settlement {
  import opened Common
  import opened Ledger

  datatype Regime = Payable | RefundOnly | NothingPayable

  /**
   * A finalised pair with a genuine winner: the outcome is one of the
   * pair's options and it has stakes both on it and against it. Only such a
   * pair pays profits, the creation reward and the vault sweep.
   */
  predicate HasWinner(resultID: OutcomeId, qty: nat, winVol: nat, total: nat)
  {
    1 <= resultID <= qty && 0 < winVol < total
  }

  /**
   * The regime of a claim on outcome r, whose volume is ownVol, of a pair
   * whose recorded result is resultID and whose winning volume is winVol.
   * A voided pair, a pool staked on one outcome only, an unresolved pair
   * past its deadline and a winner nobody backed are all refund-only.
   */
  function RegimeOf(r: OutcomeId, resultID: OutcomeId, qty: nat, ownVol: nat, winVol: nat, total: nat,
                    pastDeadline: bool): (g: Regime)
    requires qty <= MAX_OPTIONS && ownVol <= total && (r == resultID ==> ownVol == winVol)
    ensures g == Payable ==> r == resultID && HasWinner(resultID, qty, winVol, total)
    ensures HasWinner(resultID, qty, winVol, total) && r == resultID ==> g == Payable
  {
    if resultID == VOID || ownVol == total then RefundOnly
    else if resultID == 0 then (if pastDeadline then RefundOnly else NothingPayable)
    else if resultID > qty then NothingPayable
    else if winVol == 0 then RefundOnly
    else if r == resultID then Payable
    else NothingPayable
  }

  /**
   * What a claim of a stake `amount` on outcome r pays, as (principal,
   * profit). The profit is the only part that comes out of other players'
   * stakes, and it is bounded by 90% of the losers' pool.
   */
  function Payout(amount: nat, r: OutcomeId, resultID: OutcomeId, qty: nat, ownVol: nat, winVol: nat, total: nat,
                  pastDeadline: bool): (p: (nat, nat))
    requires qty <= MAX_OPTIONS && amount <= ownVol <= total && winVol <= total && (r == resultID ==> ownVol == winVol)
    ensures p.0 == 0 || p.0 == amount
    ensures p.1 > 0 ==> r == resultID && HasWinner(resultID, qty, winVol, total)
    ensures 10 * p.1 <= 9 * (total - winVol)
    ensures resultID == VOID || ownVol == total || (resultID == 0 && pastDeadline) ==> p == (amount, 0)
    ensures HasWinner(resultID, qty, winVol, total) && r == resultID ==> p == (amount, CalcProfit(winVol, amount, total))
    ensures HasWinner(resultID, qty, winVol, total) && r != resultID && ownVol < total ==> p == (0, 0)
    ensures resultID == 0 && !pastDeadline && ownVol < total ==> p == (0, 0)
    ensures 1 <= resultID <= qty && winVol == 0 ==> p == (amount, 0)
  {
    match RegimeOf(r, resultID, qty, ownVol, winVol, total, pastDeadline)
    case RefundOnly => (amount, 0)
    case NothingPayable => (0, 0)
    case Payable =>
      ProfitIsFloor(winVol, amount, total);
      ProfitAtMostNinetyPercent(winVol, amount, total);
      (amount, CalcProfit(winVol, amount, total))
  }

  /**
   * The creator's reward: the creation ratio's share of the rake, i.e.
   * (T - OP) * ratio / (10 * 10000). Together with `CalcAvailableAmount`
   * it splits the tenth of the losers' pool that winners do not receive.
   */
  function CreationReward(total: nat, op: nat, ratio: nat): nat
    requires op <= total
  {
    ((total - op) * ratio) / 100000
  }

  // ---------------------------------------------------------------------
  // Aggregates over the winning stakes of a pair
  // ---------------------------------------------------------------------

  function SumSeq(s: seq<nat>): nat
  {
    if |s| == 0 then 0 else s[0] + SumSeq(s[1..])
  }

  /** The profits paid to the winning stakes `ps` of a pair with winning volume op and total T. */
  function SumProfits(op: nat, ps: seq<nat>, total: nat): nat
    requires 0 < op <= total
  {
    if |ps| == 0 then 0
    else
      ProfitIsFloor(op, ps[0], total);
      CalcProfit(op, ps[0], total) + SumProfits(op, ps[1..], total)
  }

  /** Everything the claims of the winning stakes `ps` pay, principal and profit together. */
  function WinnersPaid(ps: seq<nat>, resultID: OutcomeId, qty: nat, winVol: nat, total: nat, pastDeadline: bool): nat
    requires qty <= MAX_OPTIONS && winVol <= total
    requires forall i :: 0 <= i < |ps| ==> ps[i] <= winVol
  {
    if |ps| == 0 then 0
    else
      var p := Payout(ps[0], resultID, resultID, qty, winVol, winVol, total, pastDeadline);
      p.0 + p.1 + WinnersPaid(ps[1..], resultID, qty, winVol, total, pastDeadline)
  }

  /** One profit, scaled: 10 * OP * profit <= 9 * (T - OP) * P. */
  lemma ProfitScaled(op: nat, p: nat, total: nat)
    requires 0 < op <= total
    ensures (10 * op) * CalcProfit(op, p, total) <= (9 * (total - op)) * p
  {
    ProfitIsFloor(op, p, total);
    var x := 9 * p * (total - op);
    DivBounds(x, 10 * op);
    assert (10 * op) * CalcProfit(op, p, total) <= x;
  }

  /** Summed profits, scaled: 10 * OP * sum <= 9 * (T - OP) * (sum of the stakes). */
  lemma {:induction false} SumProfitsScaled(op: nat, ps: seq<nat>, total: nat)
    requires 0 < op <= total
    ensures (10 * op) * SumProfits(op, ps, total) <= (9 * (total - op)) * SumSeq(ps)
  {
    if |ps| > 0 {
      var x, y := 10 * op, 9 * (total - op);
      var q, rest := CalcProfit(op, ps[0], total), SumProfits(op, ps[1..], total);
      ProfitScaled(op, ps[0], total);
      SumProfitsScaled(op, ps[1..], total);
      Distribute(x, q, rest);
      Distribute(y, ps[0], SumSeq(ps[1..]));
      assert x * SumProfits(op, ps, total) == x * q + x * rest;
    }
  }

  /**
   * When the winning stakes add up to the winning volume OP, their profits
   * together are at most 90% of the losers' pool T - OP.
   */
  lemma SumProfitsAtMostNinetyPercent(op: nat, ps: seq<nat>, total: nat)
    requires 0 < op <= total && SumSeq(ps) == op
    ensures 10 * SumProfits(op, ps, total) <= 9 * (total - op)
  {
    SumProfitsScaled(op, ps, total);
    var sp := SumProfits(op, ps, total);
    assert (10 * op) * sp == (10 * sp) * op;
    MulCancel(10 * sp, 9 * (total - op), op);
  }

  /** If d * q <= x then q <= x / d. */
  lemma QuotientLowerBound(x: nat, d: nat, q: nat)
    requires d > 0 && d * q <= x
    ensures q <= x / d
  {
    DivBounds(x, d);
    if q > x / d {
      MulMonotone(x / d + 1, q, d);
    }
  }

  /** The creation reward and the vault sweep together take at most a tenth of the losers' pool. */
  lemma FeesAtMostTenth(total: nat, op: nat, ratio: nat)
    requires op <= total && ratio <= RATIO_BASE
    ensures CreationReward(total, op, ratio) + CalcAvailableAmount(total, op, ratio) <= (total - op) / 10
  {
    var other := total - op;
    AvailableIsFloor(total, op, ratio);
    var a := other * ratio;
    var b := other * (RATIO_BASE - ratio);
    assert a + b == other * 10000;
    DivBounds(a, 100000);
    DivBounds(b, 100000);
    assert 100000 * (a / 100000 + b / 100000) <= a + b;
    QuotientLowerBound(a + b, 100000, a / 100000 + b / 100000);
    assert (other * 10000) / 100000 == other / 10;
  }

  /** Each winning claim pays its stake plus `CalcProfit` on it. */
  lemma {:induction false} WinnersPaidIsStakesPlusProfits(ps: seq<nat>, resultID: OutcomeId, qty: nat, winVol: nat,
                                                          total: nat, pastDeadline: bool)
    requires qty <= MAX_OPTIONS && HasWinner(resultID, qty, winVol, total)
    requires forall i :: 0 <= i < |ps| ==> ps[i] <= winVol
    ensures WinnersPaid(ps, resultID, qty, winVol, total, pastDeadline) == SumSeq(ps) + SumProfits(winVol, ps, total)
  {
    if |ps| > 0 {
      WinnersPaidIsStakesPlusProfits(ps[1..], resultID, qty, winVol, total, pastDeadline);
    }
  }

  /**
   * No overdraw: when the winners of a pair with a genuine winner all claim,
   * and the creator and the vault take their fees, the payments together
   * never exceed the pair's total T.
   */
  lemma NoOverdraw(ps: seq<nat>, resultID: OutcomeId, qty: nat, winVol: nat, total: nat, ratio: nat,
                   pastDeadline: bool)
    requires qty <= MAX_OPTIONS && HasWinner(resultID, qty, winVol, total) && ratio <= RATIO_BASE
    requires forall i :: 0 <= i < |ps| ==> ps[i] <= winVol
    requires SumSeq(ps) == winVol
    ensures WinnersPaid(ps, resultID, qty, winVol, total, pastDeadline)
            + CreationReward(total, winVol, ratio) + CalcAvailableAmount(total, winVol, ratio) <= total
  {
    WinnersPaidIsStakesPlusProfits(ps, resultID, qty, winVol, total, pastDeadline);
    SumProfitsAtMostNinetyPercent(winVol, ps, total);
    FeesAtMostTenth(total, winVol, ratio);
  }

  /** The deduced creation reward matches the unit test: stakes 10 and 20 ether, outcome 1 wins, ratio 5000, reward 1 ether. */
  lemma CreationRewardExample()
    ensures CreationReward(30 * 1000000000000000000, 10 * 1000000000000000000, 5000) == 1000000000000000000
  {
  }

  /**
   * The unit tests' payouts on a three-outcome pair resolved to 1: stakes of
   * 10 and 20 ether on 1 and 30 on 2 pay the two winners 9 and 18 ether of
   * profit and the loser nothing; a pool staked on outcome 1 alone refunds.
   */
  lemma PayoutExamples()
    ensures Payout(10 * 1000000000000000000, 1, 1, 3, 30 * 1000000000000000000, 30 * 1000000000000000000,
                   60 * 1000000000000000000, false) == (10 * 1000000000000000000, 9 * 1000000000000000000)
    ensures Payout(20 * 1000000000000000000, 1, 1, 3, 30 * 1000000000000000000, 30 * 1000000000000000000,
                   60 * 1000000000000000000, false) == (20 * 1000000000000000000, 18 * 1000000000000000000)
    ensures Payout(30 * 1000000000000000000, 2, 1, 3, 30 * 1000000000000000000, 30 * 1000000000000000000,
                   60 * 1000000000000000000, false) == (0, 0)
    ensures Payout(10 * 1000000000000000000, 1, 1, 3, 10 * 1000000000000000000, 10 * 1000000000000000000,
                   10 * 1000000000000000000, false) == (10 * 1000000000000000000, 0)
  {
  }
}
