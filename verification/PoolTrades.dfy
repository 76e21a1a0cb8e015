/** No-profit results of the pool: round trips, split trades, trimmed deposits, and where the promises stop. */
module PoolTrades {
  import opened Common
  import opened IntegerSqrt
  import opened PoolSpec
  import opened PoolBacking

  // ---------- Swaps ----------

  /** With both reserves positive, a swap pays out less than the whole reserve and the product does not fall. */
  lemma {:induction false} SwapKeepsProduct(
    p: Pool, now: nat, user: Address, tokenIn: Token, amountIn: int, outMin: int)
    requires 0 < p.reserveA && 0 < p.reserveB
    requires Swap(p, now, user, tokenIn, amountIn, outMin).Ok?
    ensures var (q, out) := Swap(p, now, user, tokenIn, amountIn, outMin).value;
      && p.reserveA * p.reserveB <= q.reserveA * q.reserveB
      && 0 <= out < (if tokenIn == Bst then p.reserveB else p.reserveA)
      && 0 < q.reserveA && 0 < q.reserveB
  {
    SwapMovesReserves(p, now, user, tokenIn, amountIn, outMin);
  }

  /** Swapping the proceeds straight back returns at most the original input. */
  lemma {:induction false} SwapRoundTrip(
    p: Pool, now: nat, later: nat, user: Address, tokenIn: Token, amountIn: int, min1: int, min2: int)
    requires 0 < p.reserveA && 0 < p.reserveB
    ensures Swap(p, now, user, tokenIn, amountIn, min1).Ok? ==>
      var (q, out) := Swap(p, now, user, tokenIn, amountIn, min1).value;
      var back := Swap(q, later, user, Opposite(tokenIn), out, min2);
      back.Ok? ==> back.value.1 <= amountIn
  {
    if Swap(p, now, user, tokenIn, amountIn, min1).Ok? {
      if tokenIn == Bst {
        RoundTripAmounts(p.reserveA, p.reserveB, amountIn);
      } else {
        RoundTripAmounts(p.reserveB, p.reserveA, amountIn);
      }
    }
  }

  lemma {:induction false} RoundTripAmounts(rIn: int, rOut: int, x: int)
    requires 0 < rIn && 0 < rOut && 0 < x && SwapDenominator(rIn, x) > 0
    ensures var out := AmountOut(rIn, rOut, x);
      0 < out ==> SwapDenominator(rOut - out, out) > 0 && AmountOut(rOut - out, rIn + x, out) <= x
  {
    var out := AmountOut(rIn, rOut, x);
    SwapOutput(rIn, rOut, x);
    if 0 < out {
      SwapOutput(rOut - out, rIn + x, out);
      var back := AmountOut(rOut - out, rIn + x, out);
      assert (rIn + x) * (rOut - out) == (rOut - out) * (rIn + x);
      assert rIn * rOut <= rOut * (rIn + x - back);
      assert rOut * (rIn + x - back) == (rIn + x - back) * rOut;
      MulCancel(rIn, rIn + x - back, rOut);
    }
  }

  /**
   * The reserve left after one swap of `x + y`, and after a swap of `x` then of `y`, when nothing is rounded:
   * (1000*rIn) / (1000*rIn + 997*(x+y)) of it is no more than the product of the two separate fractions.
   */
  lemma {:induction false} SplitFractions(rIn: int, x: int, y: int)
    requires 0 <= rIn && 0 < x && 0 < y
    ensures SwapDenominator(rIn, x) * SwapDenominator(rIn + x, y)
         <= (FEE_DENOMINATOR * (rIn + x)) * SwapDenominator(rIn, x + y)
  {
    var a := 1000 * rIn;
    var xx := x * x;
    var xy := x * y;
    MulNonNegative(x, y);
    assert (a + 997 * x) * (a + 1000 * x + 997 * y)
        == a * a + 1997 * (a * x) + 997 * (a * y) + 997000 * xx + 994009 * xy;
    assert (a + 1000 * x) * (a + 997 * x + 997 * y)
        == a * a + 1997 * (a * x) + 997 * (a * y) + 997000 * xx + 997000 * xy;
  }

  /** What an unrounded swap leaves, times its denominator: `left * d` is at least `reserveOut * 1000 * reserveIn`. */
  lemma {:induction false} LeftAfterSwap(rIn: int, rOut: int, x: int)
    requires 0 < rIn && 0 < rOut && 0 < x
    ensures 0 < SwapDenominator(rIn, x)
    ensures var out := AmountOut(rIn, rOut, x); var d := SwapDenominator(rIn, x);
      && 0 <= out < rOut
      && rOut * (1000 * rIn) <= (rOut - out) * d
      && (forall u :: u * d <= rOut * d - rOut * (1000 * rIn) ==> u <= out)
  {
    var d := SwapDenominator(rIn, x);
    var f := WithFee(x);
    SwapOutput(rIn, rOut, x);
    var out := AmountOut(rIn, rOut, x);
    MulNonNegative(f, rOut);
    TruncDivBounds(f * rOut, d);
    assert rOut * d == rOut * (1000 * rIn) + f * rOut;
    assert (rOut - out) * d == rOut * d - out * d;
    forall u | u * d <= rOut * d - rOut * (1000 * rIn)
      ensures u <= out
    {
      QuotientIsGreatest(f * rOut, d, u);
    }
  }

  /** Two consecutive swaps in the same direction never yield more than one swap of the sum. */
  lemma {:induction false} SplitAmounts(rIn: int, rOut: int, x: int, y: int)
    requires 0 < rIn && 0 < rOut && 0 < x && 0 < y
    ensures SwapDenominator(rIn, x) > 0 && SwapDenominator(rIn, x + y) > 0 && SwapDenominator(rIn + x, y) > 0
    ensures var first := AmountOut(rIn, rOut, x);
            first + AmountOut(rIn + x, rOut - first, y) <= AmountOut(rIn, rOut, x + y)
  {
    LeftAfterSwap(rIn, rOut, x);
    var first := AmountOut(rIn, rOut, x);
    LeftAfterSwap(rIn + x, rOut - first, y);
    var second := AmountOut(rIn + x, rOut - first, y);
    LeftAfterSwap(rIn, rOut, x + y);
    var d1, d2, d := SwapDenominator(rIn, x), SwapDenominator(rIn + x, y), SwapDenominator(rIn, x + y);
    SplitFractions(rIn, x, y);
    SplitLeft(rOut, 1000 * rIn, d1, rOut - first, 1000 * (rIn + x), d2, rOut - first - second, d);
    assert (first + second) * d == rOut * d - (rOut - first - second) * d;
  }

  /** From `left1/rOut >= m1/d1`, `left2/left1 >= m2/d2` and `d1*d2 <= m2*d`: `left2/rOut >= m1/d`. */
  lemma {:induction false} SplitLeft(rOut: int, m1: int, d1: int, left1: int, m2: int, d2: int, left2: int, d: int)
    requires 0 < rOut && 0 < m1 && 0 < d1 && 0 < left1 && 0 < m2 && 0 < d2 && 0 < left2 && 0 < d
    requires rOut * m1 <= left1 * d1
    requires left1 * m2 <= left2 * d2
    requires d1 * d2 <= m2 * d
    ensures rOut * m1 <= left2 * d
  {
    // multiply the first by m2, the second by d1, the third by left2
    MulMonoLeft(rOut * m1, left1 * d1, m2);
    MulMonoLeft(left1 * m2, left2 * d2, d1);
    MulMonoLeft(d1 * d2, m2 * d, left2);
    MulExchange(left1, d1, m2);
    MulExchange(left2, d2, d1);
    MulSwap(left2 * d1, d2);
    MulExchange(d1, d2, left2);
    MulSwap(left2, d1);
    MulExchange(m2, d, left2);
    MulSwap(m2, left2);
    MulExchange(left2, m2, d);
    MulCancel(rOut * m1, left2 * d, m2);
  }

  lemma {:induction false} SplittingASwapNeverPaysMore(
    p: Pool, now: nat, user: Address, t: Token, x: int, y: int, m1: int, m2: int, m: int)
    requires 0 < p.reserveA && 0 < p.reserveB
    ensures Swap(p, now, user, t, x, m1).Ok? && Swap(p, now, user, t, x + y, m).Ok? ==>
      var (q, first) := Swap(p, now, user, t, x, m1).value;
      var second := Swap(q, now, user, t, y, m2);
      second.Ok? ==> first + second.value.1 <= Swap(p, now, user, t, x + y, m).value.1
  {
    if 0 < x && 0 < y {
      if t == Bst {
        SplitAmounts(p.reserveA, p.reserveB, x, y);
      } else {
        SplitAmounts(p.reserveB, p.reserveA, x, y);
      }
    }
  }

  lemma {:induction false} WholeReserve(reserve: int, amountIn: int)
    requires 0 <= reserve && 0 < amountIn
    ensures 0 < SwapDenominator(0, amountIn) && AmountOut(0, reserve, amountIn) == reserve
  {
    SwapOutput(0, reserve, amountIn);
    var d := SwapDenominator(0, amountIn);
    MulSwap(WithFee(amountIn), reserve);
    MulNonNegative(reserve, d);
    QuotientIsGreatest(WithFee(amountIn) * reserve, d, reserve);
  }

  /**
   * A pool with nothing on the input side still trades: in either direction a swap is accepted exactly when swaps are
   * enabled, the amount is positive and the whole other reserve meets the demand, and that whole reserve is paid.
   */
  lemma {:induction false} SwapAgainstEmptyReserve(
    p: Pool, now: nat, user: Address, t: Token, amountIn: int, outMin: int)
    requires !t.Other? && (if t == Bst then p.reserveA else p.reserveB) == 0
    requires 0 <= (if t == Bst then p.reserveB else p.reserveA)
    ensures var r := Swap(p, now, user, t, amountIn, outMin); var other := if t == Bst then p.reserveB else p.reserveA;
      && (r.Ok? <==> p.swapEnabled && !p.drained && 0 < amountIn && outMin <= other)
      && (r.Ok? ==> r.value.1 == other)
  {
    if 0 < amountIn {
      WholeReserve(if t == Bst then p.reserveB else p.reserveA, amountIn);
    }
  }

  // ---------- Deposits ----------

  /**
   * The assertion at line 180 cannot fail once reserves are positive, whatever the signs of the offer.
   * So a deposit is refused there only for the minima.
   */
  lemma {:induction false} MatchingBNeverNeedsMoreA(p: Pool, aDesired: int, bDesired: int)
    requires 0 < p.reserveA && 0 < p.reserveB
    ensures !NeedsMoreAThanOffered(p, aDesired, bDesired)
  {
    TruncDivAbove(aDesired * p.reserveB, p.reserveA, bDesired);
    TruncDivAbove(bDesired * p.reserveA, p.reserveB, aDesired);
  }

  lemma {:induction false} TruncDivAbove(n: int, d: int, k: int)
    requires 0 < d
    ensures k < TruncDiv(n, d) ==> k * d < n
  {
    TruncDivBounds(n, d);
    if k < TruncDiv(n, d) {
      MulMonoLeft(k, TruncDiv(n, d) - 1, d);
    }
  }

  /** The matched amounts never exceed the offer, for any pool in a sound state. */
  lemma {:induction false} MatchedWithinOffer(p: Pool, aDesired: int, bDesired: int, aMin: int, bMin: int)
    requires SoundPool(p) && MatchedAmounts(p, aDesired, bDesired, aMin, bMin).Ok?
    ensures var (a, b) := MatchedAmounts(p, aDesired, bDesired, aMin, bMin).value;
      aMin <= a <= aDesired && bMin <= b <= bDesired && (a == aDesired || b == bDesired)
  {
    if p.total > 0 {
      MatchingBNeverNeedsMoreA(p, aDesired, bDesired);
    }
  }

  /** Adding liquidity to a pool with shares and removing the minted shares at once returns no more of either asset. */
  lemma {:induction false} DepositRoundTrip(p: Pool, w: Address, aDes: int, bDes: int, aMin: int, bMin: int)
    requires SoundPool(p) && 0 < p.total
    ensures AddLiquidity(p, w, aDes, bDes, aMin, bMin).Ok? ==>
      var (a, b) := MatchedAmounts(p, aDes, bDes, aMin, bMin).value;
      var (q, minted) := AddLiquidity(p, w, aDes, bDes, aMin, bMin).value;
      var back := RemoveLiquidity(q, w, minted);
      back.Ok? ==> back.value.1.0 <= a && back.value.1.1 <= b
  {
    if AddLiquidity(p, w, aDes, bDes, aMin, bMin).Ok? {
      var (a, b) := MatchedAmounts(p, aDes, bDes, aMin, bMin).value;
      var (q, minted) := AddLiquidity(p, w, aDes, bDes, aMin, bMin).value;
      DepositProportion(p, a, b);
      PaidBack(p.reserveA, p.total, a, minted);
      PaidBack(p.reserveB, p.total, b, minted);
    }
  }

  lemma {:induction false} PaidBack(r: int, t: int, deposit: int, minted: int)
    requires 0 < r && 0 < t && 0 < deposit && 0 < minted && minted * r <= deposit * t
    ensures TruncDiv(minted * (r + deposit), t + minted) <= deposit
  {
    MulNonNegative(minted, r + deposit);
    assert minted * (r + deposit) == minted * r + minted * deposit;
    assert deposit * (t + minted) == deposit * t + minted * deposit;
    AtMostQuotient(minted * (r + deposit), t + minted, deposit);
  }

  lemma {:induction false} AtMostQuotient(n: int, d: int, k: int)
    requires 0 <= n <= k * d && 0 < d
    ensures TruncDiv(n, d) <= k
  {
    TruncDivBounds(n, d);
    MulCancel(TruncDiv(n, d), k, d);
  }

  /**
   * For a first provision the same holds exactly when the reserves were empty: shares restart from nothing, so
   * the provider withdraws every token earlier swaps had left behind as well.
   */
  lemma {:induction false} FirstProvisionRoundTripIff(p: Pool, w: Address, a: int, b: int, aMin: int, bMin: int)
    requires SoundPool(p) && p.total == 0 && 0 <= a
    requires AddLiquidity(p, w, a, b, aMin, bMin).Ok? && p.removeEnabled
    ensures var (q, minted) := AddLiquidity(p, w, a, b, aMin, bMin).value;
      && RemoveLiquidity(q, w, minted).Ok?
      && var (backA, backB) := RemoveLiquidity(q, w, minted).value.1;
         && backA == p.reserveA + a && backB == p.reserveB + b
         && (backA <= a && backB <= b <==> p.reserveA == 0 && p.reserveB == 0)
  {
    var (q, minted) := AddLiquidity(p, w, a, b, aMin, bMin).value;
    FirstProvision(p, w, a, b, aMin, bMin);
    EntryAtMostSum(p.positions, w);
    RemainingReserve(q.reserveA, minted, minted, TruncDiv(minted * q.reserveA, minted));
    RemainingReserve(q.reserveB, minted, minted, TruncDiv(minted * q.reserveB, minted));
  }

  // ---------- Where the promises stop ----------

  const ALICE := Address(1)

  /** The code does not refuse negative amounts at first provision: reserves of -2000 back 1000 shares. */
  lemma {:induction false} NegativeProvisionIsAccepted()
    ensures var p := Initial(ALICE);
      && AddLiquidity(p, ALICE, -2000, -2000, -2000, -2000).Ok?
      && AddLiquidity(p, ALICE, -2000, -2000, -2000, -2000).value.0.reserveA == -2000
      && !SoundPool(AddLiquidity(p, ALICE, -2000, -2000, -2000, -2000).value.0)
  {
    FloorSqrtUnique(4000000, FloorSqrt(4000000), 2000);
  }

  /** A reachable pool without shares and with a reserve: one swap leaves tokens that nobody owns a share of. */
  lemma {:induction false} StrayReserveIsReachable()
    ensures var p := Step(Initial(ALICE), SwapOp(0, ALICE, Bst, 1000, 0));
      p.total == 0 && p.reserveA == 1000 && p.reserveB == 0 && p.addEnabled && p.removeEnabled && p.positions == map[]
  {
    SwapAgainstEmptyReserve(Initial(ALICE), 0, ALICE, Bst, 1000, 0);
  }

  lemma {:induction false} TwoThousandOfEach(p: Pool)
    requires p.total == 0 && p.addEnabled
    ensures AddLiquidity(p, ALICE, 2000, 2000, 0, 0).Ok?
  {
    FloorSqrtUnique(4000000, FloorSqrt(4000000), 2000);
  }

  /** From it the first provider takes out more than was put in: 3000 of A for 2000. */
  lemma {:induction false} StrayReserveGoesToTheFirstProvider()
    ensures var p := Step(Initial(ALICE), SwapOp(0, ALICE, Bst, 1000, 0));
      var added := AddLiquidity(p, ALICE, 2000, 2000, 0, 0);
      && added.Ok?
      && RemoveLiquidity(added.value.0, ALICE, added.value.1).Ok?
      && RemoveLiquidity(added.value.0, ALICE, added.value.1).value.1 == (3000, 2000)
  {
    var p := Step(Initial(ALICE), SwapOp(0, ALICE, Bst, 1000, 0));
    StrayReserveIsReachable();
    TwoThousandOfEach(p);
    FirstProvisionRoundTripIff(p, ALICE, 2000, 2000, 0, 0);
  }

  /**
   * Why "never emptied" is needed: a sole provider can leave with everything, and the next first provision may be
   * backed less well. Here one share backed by 1001 tokens of each is followed by 2000 shares backed by 3000.
   */
  lemma {:induction false} BackingMayFallThroughAnEmptyPool()
    ensures var start := Step(Initial(ALICE), Add(ALICE, 1001, 1001, 0, 0));
            var ops := [Remove(ALICE, 1), Add(ALICE, 3000, 3000, 0, 0)];
            SoundPool(start) && start.total == 1 && !BackedAtLeast(Run(start, ops), start)
  {
    var start := Step(Initial(ALICE), Add(ALICE, 1001, 1001, 0, 0));
    OneShare();
    EmptiedAndRefilled(start);
    WorseBacking(start, Run(start, [Remove(ALICE, 1), Add(ALICE, 3000, 3000, 0, 0)]));
  }

  lemma {:induction false} OneShare()
    ensures var start := Step(Initial(ALICE), Add(ALICE, 1001, 1001, 0, 0));
      && SoundPool(start) && start.reserveA == start.reserveB == 1001 && start.total == 1
      && Get(start.positions, ALICE) == 1 && start.addEnabled && start.removeEnabled
  {
    EqualProvision(Initial(ALICE), 1001);
    FirstProvision(Initial(ALICE), ALICE, 1001, 1001, 0, 0);
  }

  lemma {:induction false} EmptiedAndRefilled(start: Pool)
    requires start.reserveA == start.reserveB == 1001 && start.total == 1
    requires Get(start.positions, ALICE) == 1 && start.addEnabled && start.removeEnabled
    ensures var last := Run(start, [Remove(ALICE, 1), Add(ALICE, 3000, 3000, 0, 0)]);
      last.reserveA == last.reserveB == 3000 && last.total == 2000
  {
    RunOfTwo(start, Remove(ALICE, 1), Add(ALICE, 3000, 3000, 0, 0));
    LastShareLeaves(start, 1001);
    EqualProvision(Step(start, Remove(ALICE, 1)), 3000);
  }

  lemma {:induction false} RunOfTwo(p: Pool, first: Op, second: Op)
    ensures Run(p, [first, second]) == Step(Step(p, first), second)
  {
    var ops := [first, second];
    assert ops[1..] == [second] && ops[1..][1..] == [];
    assert Run(p, ops) == Run(Step(p, first), ops[1..]);
  }

  lemma {:induction false} WorseBacking(p: Pool, q: Pool)
    requires p.reserveA == p.reserveB == 1001 && p.total == 1
    requires q.reserveA == q.reserveB == 3000 && q.total == 2000
    ensures !BackedAtLeast(q, p)
  {
    assert p.reserveA * p.reserveB == 1002001 && q.total * q.total == 4000000;
  }

  lemma {:induction false} EqualProvision(p: Pool, n: int)
    requires p.total == 0 && p.addEnabled && 1000 < n
    ensures var q := Step(p, Add(ALICE, n, n, 0, 0));
      && q.reserveA == p.reserveA + n && q.reserveB == p.reserveB + n && q.total == n - 1000
      && q.positions == p.positions[ALICE := Get(p.positions, ALICE) + n - 1000]
      && q.removeEnabled == p.removeEnabled && q.addEnabled && AddLiquidity(p, ALICE, n, n, 0, 0).Ok?
  {
    MulNonNegative(n, n);
    FloorSqrtUnique(n * n, FloorSqrt(n * n), n);
  }

  lemma {:induction false} LastShareLeaves(p: Pool, n: int)
    requires p.total == 1 && p.reserveA == n && p.reserveB == n && 0 < n && p.removeEnabled
    requires Get(p.positions, ALICE) == 1
    ensures var q := Step(p, Remove(ALICE, 1));
      q.reserveA == 0 && q.reserveB == 0 && q.total == 0 && q.addEnabled == p.addEnabled
  {
  }

  /** After the emergency drain only the fee counter can still be collected: nothing else ever changes again. */
  lemma {:induction false} DrainIsFinal(p: Pool, ops: seq<Op>)
    requires SoundPool(p) && p.drained
    ensures Run(p, ops).(fees := p.fees) == p
    decreases |ops|
  {
    if ops != [] {
      DrainIsFinal(Step(p, ops[0]), ops[1..]);
    }
  }

  // ---------- Fees ----------

  function FeesOf(history: seq<SwapRecord>): int {
    if history == [] then 0 else FeesOf(history[..|history| - 1]) + history[|history| - 1].fee
  }

  /** Fees handed out by the accepted collections of a run. */
  function Collected(p: Pool, ops: seq<Op>): int
    decreases |ops|
  {
    if ops == [] then 0
    else CollectedBy(p, ops[0]) + Collected(Step(p, ops[0]), ops[1..])
  }

  function CollectedBy(p: Pool, op: Op): int {
    if op.Collect? && CollectFees(p, op.admin).Ok? then CollectFees(p, op.admin).value.1 else 0
  }

  /** The part of a swap's fee that the saturating accumulator drops. */
  function LostBy(p: Pool, op: Op): int {
    if op.SwapOp? && Swap(p, op.now, op.user, op.tokenIn, op.amountIn, op.outMin).Ok? then
      Max(0, p.fees + SwapFee(op.amountIn) - I128_MAX)
    else 0
  }

  function Lost(p: Pool, ops: seq<Op>): int
    decreases |ops|
  {
    if ops == [] then 0 else LostBy(p, ops[0]) + Lost(Step(p, ops[0]), ops[1..])
  }

  lemma {:induction false} StepAccountsFees(p: Pool, op: Op)
    requires 0 <= p.fees
    ensures var q := Step(p, op);
      CollectedBy(p, op) + q.fees + LostBy(p, op) == p.fees + FeesOf(q.history) - FeesOf(p.history)
    ensures 0 <= LostBy(p, op) && 0 <= Step(p, op).fees
  {
    if op.SwapOp? && Swap(p, op.now, op.user, op.tokenIn, op.amountIn, op.outMin).Ok? {
      var q := Step(p, op);
      assert q.history[..|q.history| - 1] == p.history;
      TruncDivBounds(op.amountIn * FEE_NUMERATOR, FEE_DENOMINATOR);
    }
  }

  /**
   * Fee accounting over any run: the fees of all recorded swaps were handed to a collection, are still accumulated,
   * or were dropped by a saturating swap.
   */
  lemma {:induction false} FeesAreAccounted(p: Pool, ops: seq<Op>)
    requires 0 <= p.fees
    ensures Collected(p, ops) + Run(p, ops).fees + Lost(p, ops)
         == p.fees + FeesOf(Run(p, ops).history) - FeesOf(p.history)
    ensures 0 <= Lost(p, ops)
    decreases |ops|
  {
    if ops != [] {
      StepAccountsFees(p, ops[0]);
      FeesAreAccounted(Step(p, ops[0]), ops[1..]);
    }
  }

  /** No swap of the run finds too little room in the accumulator; collections make room. */
  predicate NeverSaturates(p: Pool, ops: seq<Op>)
    decreases |ops|
  {
    ops == [] || (LostBy(p, ops[0]) == 0 && NeverSaturates(Step(p, ops[0]), ops[1..]))
  }

  /** Fees are conserved exactly on the runs on which no swap saturates the accumulator. */
  lemma {:induction false} FeesAreConservedIff(p: Pool, ops: seq<Op>)
    requires 0 <= p.fees
    ensures Collected(p, ops) + Run(p, ops).fees == p.fees + FeesOf(Run(p, ops).history) - FeesOf(p.history)
       <==> NeverSaturates(p, ops)
  {
    FeesAreAccounted(p, ops);
    NothingLostIff(p, ops);
  }

  lemma {:induction false} NothingLostIff(p: Pool, ops: seq<Op>)
    requires 0 <= p.fees
    ensures 0 <= Lost(p, ops) && (Lost(p, ops) == 0 <==> NeverSaturates(p, ops))
    decreases |ops|
  {
    if ops != [] {
      StepAccountsFees(p, ops[0]);
      NothingLostIff(Step(p, ops[0]), ops[1..]);
    }
  }

  /** Into a full accumulator every swap's fee is recorded and lost. */
  lemma {:induction false} FullAccumulatorLosesFees(p: Pool, op: Op)
    requires p.fees == I128_MAX && op.SwapOp?
    requires Swap(p, op.now, op.user, op.tokenIn, op.amountIn, op.outMin).Ok?
    ensures var q := Step(p, op);
      && q.fees == I128_MAX && FeesOf(q.history) == FeesOf(p.history) + SwapFee(op.amountIn)
      && LostBy(p, op) == SwapFee(op.amountIn)
  {
    TruncDivBounds(op.amountIn * FEE_NUMERATOR, FEE_DENOMINATOR);
    assert Step(p, op).history[..|p.history|] == p.history;
  }

  // ---------- A full accumulator ----------

  /** Ten to the 34: neither its product with 997 nor any other intermediate value below passes an `i128`. */
  const LARGE := 10_000_000_000_000_000_000_000_000_000_000_000
  const LARGE_FEE := 30_000_000_000_000_000_000_000_000_000_000

  const A_SWAP := SwapOp(0, ALICE, Bst, LARGE, 0)
  const B_SWAP := SwapOp(0, ALICE, Xlm, 1, 0)

  /** The pool between two cycles: a swap of A for the one B in it, then a swap of that B for all of A. */
  predicate Cycling(p: Pool) {
    p.reserveA == 0 && p.reserveB == 1 && p.swapEnabled && !p.drained && 0 <= p.fees <= I128_MAX
  }

  function Cycles(n: nat): seq<Op> {
    if n == 0 then [] else [A_SWAP, B_SWAP] + Cycles(n - 1)
  }

  lemma {:induction false} CycleFees()
    ensures SwapFee(LARGE) == LARGE_FEE && SwapFee(1) == 0
  {
  }

  lemma {:induction false} OneCycle(p: Pool)
    requires Cycling(p)
    ensures var q := Step(Step(p, A_SWAP), B_SWAP); Cycling(q) && q.fees == Min(p.fees + LARGE_FEE, I128_MAX)
  {
    CycleFees();
    SwapAgainstEmptyReserve(p, 0, ALICE, Bst, LARGE, 0);
    SwapAgainstEmptyReserve(Step(p, A_SWAP), 0, ALICE, Xlm, 1, 0);
  }

  lemma {:induction false} CyclesAccumulate(p: Pool, n: nat)
    requires Cycling(p)
    ensures var q := Run(p, Cycles(n)); Cycling(q) && q.fees == Min(p.fees + n * LARGE_FEE, I128_MAX)
    decreases n
  {
    if n > 0 {
      var ops := Cycles(n);
      var q := Step(Step(p, A_SWAP), B_SWAP);
      OneCycle(p);
      CyclesAccumulate(q, n - 1);
      assert ops[1..][1..] == Cycles(n - 1) && ops[0] == A_SWAP && ops[1..][0] == B_SWAP;
      assert Run(p, ops) == Run(Step(p, A_SWAP), ops[1..]) == Run(q, ops[1..][1..]);
    }
  }

  const FULL_CYCLES: nat := I128_MAX / LARGE_FEE + 1

  lemma {:induction false} EnoughCycles()
    ensures I128_MAX <= FULL_CYCLES * LARGE_FEE
  {
  }

  /** From a fresh pool, swaps alone fill the accumulator, and the fee of the next large one is lost. */
  lemma {:induction false} FullAccumulatorIsReachable()
    ensures var p := Run(Initial(ALICE), [B_SWAP] + Cycles(FULL_CYCLES));
      p.fees == I128_MAX && LostBy(p, A_SWAP) == LARGE_FEE && Step(p, A_SWAP).fees == I128_MAX
  {
    var p0 := Initial(ALICE);
    var ops := [B_SWAP] + Cycles(FULL_CYCLES);
    CycleFees();
    SwapAgainstEmptyReserve(p0, 0, ALICE, Xlm, 1, 0);
    var p1 := Step(p0, B_SWAP);
    CyclesAccumulate(p1, FULL_CYCLES);
    EnoughCycles();
    assert ops[1..] == Cycles(FULL_CYCLES) && ops[0] == B_SWAP;
    assert Run(p0, ops) == Run(p1, ops[1..]);
    var p := Run(p0, ops);
    SwapAgainstEmptyReserve(p, 0, ALICE, Bst, LARGE, 0);
    FullAccumulatorLosesFees(p, A_SWAP);
  }
}
