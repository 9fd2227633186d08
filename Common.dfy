/**
 * The reward arithmetic and the byte packing that the test helpers of the
 * repository reproduce (test/common.ts): the winner's profit, the vault
 * sweep, and the 8-bit big-endian packing of card serials.
 *
 * Amounts are BigNumber values; they are modelled as unbounded `int`s, and
 * BigNumber's `div`, which rounds toward zero, as `Quot`.
 */
module Common {

  /** Denominator of the creation-fee ratio. */
  const RATIO_BASE: nat := 10000

  function Abs(x: int): nat {
    if x < 0 then -x else x
  }

  /** Quotient rounded toward zero, as BigNumber's `div` computes it. */
  function Quot(a: int, b: int): (q: int)
    requires b != 0
    ensures 0 <= Abs(a) - Abs(q) * Abs(b) < Abs(b)
    ensures (a >= 0) == (b > 0) ==> q >= 0
    ensures (a > 0 && b < 0) || (a < 0 && b > 0) ==> q <= 0
  {
    var m := Abs(a) / Abs(b);
    DivBounds(Abs(a), Abs(b));
    DivNat(Abs(a), Abs(b));
    if (a < 0) == (b < 0) then m else -m
  }

  lemma DivBounds(x: int, d: int)
    requires x >= 0 && d > 0
    ensures x == d * (x / d) + x % d && 0 <= x % d < d
  {
  }

  /** A non-negative value divided by a positive one is non-negative. */
  lemma DivNat(x: int, d: int)
    requires x >= 0 && d > 0
    ensures x / d >= 0
  {
    DivBounds(x, d);
    MulCancelStrict(-1, x / d, d);
  }

  lemma MulCancelStrict(a: int, b: int, c: int)
    requires c > 0 && a * c < b * c
    ensures a < b
  {
    MulCancel(a, b, c);
  }

  /** On a non-negative dividend and a positive divisor, rounding toward zero is floor division. */
  lemma QuotIsFloor(a: int, b: int)
    requires a >= 0 && b > 0
    ensures Quot(a, b) == a / b
  {
  }

  // ---------------------------------------------------------------------
  // Reward arithmetic
  // ---------------------------------------------------------------------

  /**
   * The winner's profit: 9 * P * (T - OP) / (10 * OP), where OP is the
   * volume staked on the winning outcome, P the player's stake on it and
   * T the pair's total. Dividing by a zero OP throws in the source.
   */
  function CalcProfit(op: int, playerAmount: int, total: int): int
    requires op != 0
  {
    Quot(9 * playerAmount * (total - op), 10 * op)
  }

  /**
   * The vault sweep: (T - OP) * 10000 - (T - OP) * ratio, divided by
   * 10 * 10000 (not by 10000): the rake is a tenth of the losers' pool and
   * the vault keeps the part of it the creator does not get.
   */
  function CalcAvailableAmount(total: int, op: int, creationRatio: int): int
  {
    var other := total - op;
    Quot(other * 10000 - other * creationRatio, 10 * 10000)
  }

  /** On the inputs the ledger produces, the profit is the floor of 9*P*(T-OP) / (10*OP). */
  lemma ProfitIsFloor(op: int, p: int, total: int)
    requires op > 0 && p >= 0 && total >= op
    ensures CalcProfit(op, p, total) == (9 * p * (total - op)) / (10 * op)
    ensures CalcProfit(op, p, total) >= 0
  {
    assert 9 * p * (total - op) >= 0 by { NonNegProduct(9 * p, total - op); }
    QuotIsFloor(9 * p * (total - op), 10 * op);
  }

  lemma NonNegProduct(a: int, b: int)
    requires a >= 0 && b >= 0
    ensures a * b >= 0
  {
  }

  /** Nobody staked against the winner: the profit is zero. */
  lemma ProfitZeroWithoutOpposition(op: int, p: int)
    requires op > 0
    ensures CalcProfit(op, p, op) == 0
  {
  }

  /** A larger stake on the winning outcome never earns a smaller profit. */
  lemma ProfitMonotone(op: int, p1: int, p2: int, total: int)
    requires op > 0 && 0 <= p1 <= p2 && total >= op
    ensures 0 <= CalcProfit(op, p1, total) <= CalcProfit(op, p2, total)
  {
    ProfitIsFloor(op, p1, total);
    ProfitIsFloor(op, p2, total);
    var losers := total - op;
    assert 9 * p1 * losers <= 9 * p2 * losers by { MulMonotone(9 * p1, 9 * p2, losers); }
    DivMonotone(9 * p1 * losers, 9 * p2 * losers, 10 * op);
  }

  lemma Distribute(a: int, b: int, c: int)
    ensures a * (b + c) == a * b + a * c
  {
  }

  lemma MulMonotone(a: int, b: int, c: int)
    requires a <= b && c >= 0
    ensures a * c <= b * c
  {
  }

  lemma DivMonotone(a: int, b: int, d: int)
    requires a <= b && d > 0
    ensures a / d <= b / d
  {
    var qa, qb := a / d, b / d;
    assert a == d * qa + a % d && b == d * qb + b % d;
    if qa > qb {
      MulMonotone(qb + 1, qa, d);
    }
  }

  /**
   * A single winner's profit is at most 90% of the losers' pool T - OP as
   * long as its stake does not exceed OP.
   */
  lemma ProfitAtMostNinetyPercent(op: int, p: int, total: int)
    requires op > 0 && 0 <= p <= op && total >= op
    ensures 10 * CalcProfit(op, p, total) <= 9 * (total - op)
  {
    ProfitIsFloor(op, p, total);
    var losers := total - op;
    var q := CalcProfit(op, p, total);
    assert q * (10 * op) <= 9 * p * losers;
    assert 9 * p * losers <= 9 * op * losers by { MulMonotone(9 * p, 9 * op, losers); }
    assert (10 * q) * op <= (9 * losers) * op;
    MulCancel(10 * q, 9 * losers, op);
  }

  lemma MulCancel(a: int, b: int, c: int)
    requires c > 0 && a * c <= b * c
    ensures a <= b
  {
    if a > b {
      assert (a - b) * c > 0 by { PosProduct(a - b, c); }
    }
  }

  lemma PosProduct(a: int, b: int)
    requires a > 0 && b > 0
    ensures a * b > 0
  {
  }

  /** The vault sweep equals floor((T - OP) * (10000 - ratio) / 100000) on ledger inputs. */
  lemma AvailableIsFloor(total: int, op: int, ratio: int)
    requires total >= op && 0 <= ratio <= RATIO_BASE
    ensures CalcAvailableAmount(total, op, ratio) == ((total - op) * (RATIO_BASE - ratio)) / 100000
    ensures CalcAvailableAmount(total, op, ratio) >= 0
  {
    var other := total - op;
    assert other * 10000 - other * ratio == other * (RATIO_BASE - ratio);
    NonNegProduct(other, RATIO_BASE - ratio);
    QuotIsFloor(other * (RATIO_BASE - ratio), 100000);
  }

  /** The vault never receives more than a tenth of the losers' pool. */
  lemma AvailableAtMostTenth(total: int, op: int, ratio: int)
    requires total >= op && 0 <= ratio <= RATIO_BASE
    ensures 0 <= CalcAvailableAmount(total, op, ratio) <= (total - op) / 10
  {
    AvailableIsFloor(total, op, ratio);
    var other := total - op;
    MulMonotone(RATIO_BASE - ratio, RATIO_BASE, other);
    assert other * (RATIO_BASE - ratio) <= other * 10000;
    DivMonotone(other * (RATIO_BASE - ratio), other * 10000, 100000);
    assert (other * 10000) / 100000 == other / 10;
  }

  /** Nothing is swept from a pair in which nobody lost. */
  lemma AvailableZeroWithoutLosers(op: int, ratio: int)
    ensures CalcAvailableAmount(op, op, ratio) == 0
  {
  }

  /** A larger creation ratio never leaves more for the vault. */
  lemma AvailableAntitone(total: int, op: int, r1: int, r2: int)
    requires total >= op && 0 <= r1 <= r2 <= RATIO_BASE
    ensures CalcAvailableAmount(total, op, r2) <= CalcAvailableAmount(total, op, r1)
  {
    AvailableIsFloor(total, op, r1);
    AvailableIsFloor(total, op, r2);
    var other := total - op;
    MulMonotone(RATIO_BASE - r2, RATIO_BASE - r1, other);
    assert other * (RATIO_BASE - r2) <= other * (RATIO_BASE - r1);
    DivMonotone(other * (RATIO_BASE - r2), other * (RATIO_BASE - r1), 100000);
  }

  // ---------------------------------------------------------------------
  // Bit operations on non-negative BigNumbers
  // ---------------------------------------------------------------------

  function Pow2(k: nat): (p: nat)
    ensures p >= 1
  {
    if k == 0 then 1 else 2 * Pow2(k - 1)
  }

  lemma {:induction false} Pow2Add(a: nat, b: nat)
    ensures Pow2(a + b) == Pow2(a) * Pow2(b)
  {
    if a > 0 {
      Pow2Add(a - 1, b);
      assert Pow2(a + b) == 2 * Pow2(a - 1 + b);
    }
  }

  /** `x.shl(k)` */
  function ShiftLeft(x: nat, k: nat): nat {
    x * Pow2(k)
  }

  /** `x.shr(k)` on a non-negative value */
  function ShiftRight(x: nat, k: nat): int {
    x / Pow2(k)
  }

  /** `x.and("0xff")` on a non-negative value: its lowest byte */
  function LowByte(x: int): nat {
    x % 256
  }

  /** `x.or(y)`: bitwise or, computed one bit at a time from the least significant one. */
  function BitOr(x: nat, y: nat): nat
    decreases x + y
  {
    if x == 0 then y
    else if y == 0 then x
    else 2 * BitOr(x / 2, y / 2) + (if x % 2 == 1 || y % 2 == 1 then 1 else 0)
  }

  /** Or-ing a value into the zero bits below a shift adds it. */
  lemma {:induction false} OrIntoShifted(x: nat, k: nat, y: nat)
    requires y < Pow2(k)
    ensures BitOr(ShiftLeft(x, k), y) == ShiftLeft(x, k) + y
  {
    var s := ShiftLeft(x, k);
    if k == 0 || s == 0 || y == 0 {
    } else {
      assert s == 2 * ShiftLeft(x, k - 1) by {
        assert Pow2(k) == 2 * Pow2(k - 1);
        assert x * (2 * Pow2(k - 1)) == 2 * (x * Pow2(k - 1));
      }
      OrIntoShifted(x, k - 1, y / 2);
      assert BitOr(s, y) == 2 * BitOr(s / 2, y / 2) + y % 2;
    }
  }

  // ---------------------------------------------------------------------
  // pack / unPack
  // ---------------------------------------------------------------------

  /** The value `pack` accumulates over `a`: s := (s << 8) | a[i] for each element in turn. */
  function PackOf(a: seq<nat>): nat
  {
    if |a| == 0 then 0 else BitOr(ShiftLeft(PackOf(a[..|a| - 1]), 8), a[|a| - 1])
  }

  /**
   * `pack(_amounts, count)`: folds the first `count` amounts into one number.
   * When `count` runs past the end of `_amounts`, the helper reads an
   * undefined element and throws; `ok` is false exactly then.
   */
  method Pack(amounts: seq<nat>, count: nat) returns (ok: bool, s: nat)
    ensures ok <==> count <= |amounts|
    ensures ok ==> s == PackOf(amounts[..count])
  {
    s := 0;
    var i := 0;
    while i < count
      invariant 0 <= i <= count && i <= |amounts|
      invariant s == PackOf(amounts[..i])
    {
      if i == |amounts| {
        return false, 0;
      }
      assert amounts[..i + 1][..i] == amounts[..i];
      s := BitOr(ShiftLeft(s, 8), amounts[i]);
      i := i + 1;
    }
    ok := true;
  }

  /** Byte `i` of `x`, counting from the least significant: `x.shr(8 * i).and("0xff")`. */
  function ByteAt(x: nat, i: nat): (b: nat)
    ensures b < 256
  {
    LowByte(ShiftRight(x, 8 * i))
  }

  /** What `unPack(x, n)` returns: the low `n` bytes of `x`, most significant first. */
  function UnPackOf(x: nat, n: nat): (bytes: seq<nat>)
    ensures |bytes| == n
    ensures forall j :: 0 <= j < n ==> bytes[j] < 256
  {
    seq(n, j requires 0 <= j < n => ByteAt(x, n - 1 - j))
  }

  /**
   * `unPack(resource, count)`: pushes the bytes least significant first,
   * then reverses the array in place.
   */
  method UnPack(resource: nat, count: nat) returns (arr: seq<nat>)
    ensures |arr| == count
    ensures forall j :: 0 <= j < count ==> 0 <= arr[j] <= 255
    ensures arr == UnPackOf(resource, count)
  {
    arr := [];
    var i := 0;
    while i < count
      invariant 0 <= i <= count
      invariant |arr| == i
      invariant forall j :: 0 <= j < i ==> arr[j] == ByteAt(resource, j)
    {
      arr := arr + [ByteAt(resource, i)];
      i := i + 1;
    }
    // reverse in place
    var lo, hi := 0, count;
    while lo + 1 < hi
      invariant 0 <= lo <= hi <= count && lo + hi == count
      invariant |arr| == count
      invariant forall j :: 0 <= j < lo ==> arr[j] == ByteAt(resource, count - 1 - j)
      invariant forall j :: hi <= j < count ==> arr[j] == ByteAt(resource, count - 1 - j)
      invariant forall j :: lo <= j < hi ==> arr[j] == ByteAt(resource, j)
    {
      arr := arr[lo := arr[hi - 1]][hi - 1 := arr[lo]];
      lo, hi := lo + 1, hi - 1;
    }
  }

  lemma DivUnique(x: int, d: int, q: int, r: int)
    requires d > 0 && 0 <= r < d && x == d * q + r
    ensures x / d == q && x % d == r
  {
    var q', r' := x / d, x % d;
    assert x == d * q' + r';
    if q' < q {
      MulMonotone(q' + 1, q, d);
    } else if q < q' {
      MulMonotone(q + 1, q', d);
    }
  }

  lemma {:induction false} DivDiv(x: nat, a: nat, b: nat)
    requires a > 0 && b > 0
    ensures x / (a * b) == (x / a) / b
  {
    var q, r := x / a, x % a;
    var q2, r2 := q / b, q % b;
    assert x == a * (b * q2 + r2) + r;
    assert x == (a * b) * q2 + (a * r2 + r);
    assert a * r2 <= a * (b - 1) by { MulMonotone(r2, b - 1, a); }
    DivUnique(x, a * b, q2, a * r2 + r);
  }

  /** Byte i+1 of s*256 + y is byte i of s; byte 0 is y. */
  lemma ByteAtShifted(s: nat, y: nat, i: nat)
    requires y < 256
    ensures ByteAt(s * 256 + y, 0) == y
    ensures ByteAt(s * 256 + y, i + 1) == ByteAt(s, i)
  {
    assert Pow2(8) == 256;
    Pow2Add(8, 8 * i);
    assert 8 * (i + 1) == 8 + 8 * i;
    DivDiv(s * 256 + y, 256, Pow2(8 * i));
    DivUnique(s * 256 + y, 256, s, y);
  }

  /** Packing bytes and reading byte i back gives the element i places from the end. */
  lemma {:induction false} PackByte(a: seq<nat>, i: nat)
    requires forall k :: 0 <= k < |a| ==> a[k] < 256
    requires i < |a|
    ensures ByteAt(PackOf(a), i) == a[|a| - 1 - i]
  {
    var init := a[..|a| - 1];
    var s := PackOf(init);
    assert Pow2(8) == 256;
    OrIntoShifted(s, 8, a[|a| - 1]);
    assert PackOf(a) == s * 256 + a[|a| - 1];
    ByteAtShifted(s, a[|a| - 1], if i == 0 then 0 else i - 1);
    if i > 0 {
      PackByte(init, i - 1);
    }
  }

  /** `unPack(pack(a, n), n)` gives back the first n elements when each is a byte. */
  lemma PackRoundTrip(a: seq<nat>, n: nat)
    requires n <= |a|
    requires forall k :: 0 <= k < |a| ==> a[k] < 256
    ensures UnPackOf(PackOf(a[..n]), n) == a[..n]
  {
    var prefix := a[..n];
    forall j | 0 <= j < n
      ensures UnPackOf(PackOf(prefix), n)[j] == prefix[j]
    {
      PackByte(prefix, n - 1 - j);
    }
  }

  /** The packed value of n bytes fits in 8 * n bits. */
  lemma {:induction false} PackBound(a: seq<nat>)
    requires forall k :: 0 <= k < |a| ==> a[k] < 256
    ensures PackOf(a) < Pow2(8 * |a|)
  {
    if |a| > 0 {
      var init := a[..|a| - 1];
      var s := PackOf(init);
      PackBound(init);
      assert Pow2(8) == 256;
      OrIntoShifted(s, 8, a[|a| - 1]);
      Pow2Add(8 * |init|, 8);
      assert 8 * |a| == 8 * |init| + 8;
      assert s + 1 <= Pow2(8 * |init|);
      MulMonotone(s + 1, Pow2(8 * |init|), 256);
    }
  }
}
