/** Share backing: what every run of the pool keeps about reserves, shares and positions. */
module PoolBacking {
  import opened Common
  import opened IntegerSqrt
  import opened PoolSpec

  /** The accounting and backing invariant. */
  ghost predicate SoundPool(p: Pool) {
    && 0 <= p.reserveA && 0 <= p.reserveB && 0 <= p.total
    && NonNegative(p.positions)
    && (!p.drained ==> Sum(p.positions) == p.total)
    && (p.drained ==> p.reserveA == p.reserveB == p.total == 0)
    && (p.drained ==> !p.swapEnabled && !p.addEnabled && !p.removeEnabled)
    && (p.total > 0 ==> p.reserveA > 0 && p.reserveB > 0)
    && (p.total == 0 ==> p.reserveA * p.reserveB == 0)
    && p.total * p.total <= p.reserveA * p.reserveB
  }

  /** Backing per share squared, reserveA * reserveB / total^2, is no lower in `q` than in `p` (cross-multiplied). */
  ghost predicate BackedAtLeast(q: Pool, p: Pool) {
    (p.reserveA * p.reserveB) * (q.total * q.total) <= (q.reserveA * q.reserveB) * (p.total * p.total)
  }

  /** The one accepted call that leaves the invariant: a first provision of negative amounts. */
  predicate NegativeFirstProvision(p: Pool, op: Op) {
    && op.Add? && p.total == 0 && op.aDesired < 0
    && AddLiquidity(p, op.provider, op.aDesired, op.bDesired, op.aMin, op.bMin).Ok?
  }

  // ---------- Arithmetic of one step ----------

  /** Scaling both reserves by at least the growth of the total raises the product by at least its square. */
  lemma {:induction false} ScaledProduct(ra: int, rb: int, t: int, ra': int, rb': int, t': int)
    requires 0 <= ra && 0 <= rb && 0 <= t'
    requires ra * t' <= ra' * t && rb * t' <= rb' * t
    ensures (ra * rb) * (t' * t') <= (ra' * rb') * (t * t)
  {
    MulNonNegative(ra, t');
    MulNonNegative(rb, t');
    MulMono(ra * t', rb * t', ra' * t, rb' * t);
    assert (ra * t') * (rb * t') == (ra * rb) * (t' * t');
    assert (ra' * t) * (rb' * t) == (ra' * rb') * (t * t);
  }

  /** If backing does not fall and shares were covered, they stay covered. */
  lemma {:induction false} CoverCarriesOver(k: int, tt: int, k': int, tt': int)
    requires 0 < k && 0 <= tt <= k && 0 <= k'
    requires k * tt' <= k' * tt
    ensures tt' <= k'
  {
    MulMono(k', tt, k', k);
    assert tt' * k <= k' * k;
    MulCancel(tt', k', k);
  }

  lemma {:induction false} ShareCovers(amount: int, t: int, r: int)
    requires 0 < r && 0 < t
    ensures 0 < TruncDiv(amount * t, r) ==> 0 < amount
    ensures 0 < amount ==> TruncDiv(amount * t, r) * r <= amount * t
  {
    TruncDivBounds(amount * t, r);
    if amount <= 0 {
      MulNonNegative(-amount, t);
    } else {
      MulNonNegative(amount, t);
    }
  }

  /** A later deposit: each reserve grows at least in proportion to the shares. */
  lemma {:induction false} DepositProportion(p: Pool, a: int, b: int)
    requires p.total > 0 && p.reserveA > 0 && p.reserveB > 0
    requires SharesFor(p, a, b) > 0
    ensures a > 0 && b > 0
    ensures SharesFor(p, a, b) * p.reserveA <= a * p.total
    ensures SharesFor(p, a, b) * p.reserveB <= b * p.total
    ensures p.reserveA * (p.total + SharesFor(p, a, b)) <= (p.reserveA + a) * p.total
    ensures p.reserveB * (p.total + SharesFor(p, a, b)) <= (p.reserveB + b) * p.total
  {
    ShareCovers(a, p.total, p.reserveA);
    ShareCovers(b, p.total, p.reserveB);
    var m := SharesFor(p, a, b);
    MulMono(m, p.reserveA, TruncDiv(a * p.total, p.reserveA), p.reserveA);
    MulMono(m, p.reserveB, TruncDiv(b * p.total, p.reserveB), p.reserveB);
  }

  /** A withdrawal that pays something: 0 < liquidity, and each payout is at most its exact share. */
  lemma {:induction false} PayoutProportion(liquidity: int, r: int, t: int)
    requires 0 < r && 0 < t && TruncDiv(liquidity * r, t) > 0
    ensures 0 < liquidity
    ensures TruncDiv(liquidity * r, t) * t <= liquidity * r
    ensures r * (t - liquidity) <= (r - TruncDiv(liquidity * r, t)) * t
  {
    TruncDivBounds(liquidity * r, t);
    if liquidity <= 0 {
      MulNonNegative(-liquidity, r);
    }
  }

  /** `out` is the floor of `f * rOut / (m + f)` for `m == 1000 * rIn`: what is left covers the input's share. */
  lemma {:induction false} LeftCovers(rIn: int, rOut: int, f: int, d: int, out: int)
    requires 0 <= rIn && 0 <= rOut && 0 < f && d == 1000 * rIn + f
    requires 0 <= out && out * d <= f * rOut
    ensures 1000 * (rIn * rOut) <= (rOut - out) * d
    ensures 0 <= rOut - out
    ensures 0 < rIn && 0 < rOut ==> 0 < rOut - out
  {
    var left := rOut - out;
    assert left * d == rOut * d - out * d;
    assert rOut * d == 1000 * (rIn * rOut) + f * rOut;
    MulNonNegative(rIn, rOut);
    MulCancel(-1, left, d);
    if 0 < rIn && 0 < rOut {
      MulMono(1, 1, rIn, rOut);
      MulCancel(0, left, d);
    }
  }

  /** Charging a fee only adds to the product: the denominator is at most 1000 times the new input reserve. */
  lemma {:induction false} ProductGrows(k: int, left: int, d: int, rIn': int)
    requires 0 <= left && 0 < d <= 1000 * rIn' && 1000 * k <= left * d
    ensures k <= rIn' * left
  {
    MulMono(left, d, left, 1000 * rIn');
    assert left * (1000 * rIn') == 1000 * (rIn' * left);
  }

  /** The output of a swap, for reserves that may be zero. */
  lemma {:induction false} SwapOutput(reserveIn: int, reserveOut: int, amountIn: int)
    requires 0 <= reserveIn && 0 <= reserveOut && 0 < amountIn
    ensures SwapDenominator(reserveIn, amountIn) > 0
    ensures var out := AmountOut(reserveIn, reserveOut, amountIn);
      && 0 <= out <= reserveOut
      && (0 < reserveIn && 0 < reserveOut ==> out < reserveOut)
      && reserveIn * reserveOut <= (reserveIn + amountIn) * (reserveOut - out)
      && (reserveIn * reserveOut == 0 ==> (reserveIn + amountIn) * (reserveOut - out) == 0)
  {
    var d, f := SwapDenominator(reserveIn, amountIn), WithFee(amountIn);
    var out := AmountOut(reserveIn, reserveOut, amountIn);
    MulNonNegative(f, reserveOut);
    TruncDivBounds(f * reserveOut, d);
    LeftCovers(reserveIn, reserveOut, f, d, out);
    ProductGrows(reserveIn * reserveOut, reserveOut - out, d, reserveIn + amountIn);
    if reserveIn == 0 {
      MulSwap(f, reserveOut);
      QuotientIsGreatest(f * reserveOut, d, reserveOut);
    } else if reserveOut > 0 {
      MulMono(1, 1, reserveIn, reserveOut);
    }
  }

  // ---------- One call ----------

  /** Amounts of the same sign have a positive product, so a positive number of shares tells their sign. */
  lemma {:induction false} SameSign(a: int, b: int)
    requires 0 < a * b
    ensures 0 < a <==> 0 < b
    ensures a != 0
  {
    if 0 < a && b <= 0 { MulNonNegative(a, -b); }
    if a <= 0 && 0 < b { MulNonNegative(-a, b); }
  }

  lemma {:induction false} MintedFirst(a: int, b: int)
    requires 0 < (if a * b < 0 then a * b else FloorSqrt(a * b)) - MINIMUM_LIQUIDITY
    ensures 0 < a * b
    ensures var minted := FloorSqrt(a * b) - MINIMUM_LIQUIDITY; minted * minted <= a * b
  {
    var root := FloorSqrt(a * b);
    SquareMono(root - MINIMUM_LIQUIDITY, root);
  }

  lemma {:induction false} FirstProvision(p: Pool, provider: Address, a: int, b: int, aMin: int, bMin: int)
    requires SoundPool(p) && p.total == 0
    requires AddLiquidity(p, provider, a, b, aMin, bMin).Ok?
    ensures var q := AddLiquidity(p, provider, a, b, aMin, bMin).value.0; SoundPool(q) <==> 0 <= a
  {
    var (q, minted) := AddLiquidity(p, provider, a, b, aMin, bMin).value;
    SumUpdate(p.positions, provider, q.positions[provider]);
    EntryAtMostSum(p.positions, provider);
    MintedFirst(a, b);
    SameSign(a, b);
    if 0 <= a {
      MulMono(a, b, q.reserveA, q.reserveB);
    } else {
      ZeroProduct(p.reserveA, p.reserveB);
    }
  }

  lemma {:induction false} ZeroProduct(x: int, y: int)
    requires x * y == 0
    ensures x == 0 || y == 0
  {
  }

  lemma {:induction false} LaterProvision(p: Pool, provider: Address, aDes: int, bDes: int, aMin: int, bMin: int)
    requires SoundPool(p) && 0 < p.total
    ensures AddLiquidity(p, provider, aDes, bDes, aMin, bMin).Ok? ==>
      var q := AddLiquidity(p, provider, aDes, bDes, aMin, bMin).value.0; SoundPool(q) && BackedAtLeast(q, p)
  {
    if AddLiquidity(p, provider, aDes, bDes, aMin, bMin).Ok? {
      var (q, minted) := AddLiquidity(p, provider, aDes, bDes, aMin, bMin).value;
      var (a, b) := MatchedAmounts(p, aDes, bDes, aMin, bMin).value;
      DepositProportion(p, a, b);
      SumUpdate(p.positions, provider, q.positions[provider]);
      EntryAtMostSum(p.positions, provider);
      KeepsCover(p, q);
    }
  }

  lemma {:induction false} KeepsCover(p: Pool, q: Pool)
    requires 0 < p.total && 0 < p.reserveA && 0 < p.reserveB && p.total * p.total <= p.reserveA * p.reserveB
    requires 0 <= q.total && 0 <= q.reserveA && 0 <= q.reserveB
    requires p.reserveA * q.total <= q.reserveA * p.total
    requires p.reserveB * q.total <= q.reserveB * p.total
    ensures BackedAtLeast(q, p)
    ensures q.total * q.total <= q.reserveA * q.reserveB
  {
    ScaledProduct(p.reserveA, p.reserveB, p.total, q.reserveA, q.reserveB, q.total);
    MulMono(1, 1, p.reserveA, p.reserveB);
    MulNonNegative(q.reserveA, q.reserveB);
    MulNonNegative(p.total, p.total);
    CoverCarriesOver(p.reserveA * p.reserveB, p.total * p.total, q.reserveA * q.reserveB, q.total * q.total);
  }

  lemma {:induction false} Withdrawal(p: Pool, provider: Address, liquidity: int)
    requires SoundPool(p)
    ensures RemoveLiquidity(p, provider, liquidity).Ok? ==>
      var (q, (a, b)) := RemoveLiquidity(p, provider, liquidity).value;
      && SoundPool(q) && BackedAtLeast(q, p)
      && 0 < a <= p.reserveA && 0 < b <= p.reserveB && 0 < liquidity <= Get(p.positions, provider)
  {
    if RemoveLiquidity(p, provider, liquidity).Ok? {
      var (q, (a, b)) := RemoveLiquidity(p, provider, liquidity).value;
      PayoutProportion(liquidity, p.reserveA, p.total);
      PayoutProportion(liquidity, p.reserveB, p.total);
      EntryAtMostSum(p.positions, provider);
      SumUpdate(p.positions, provider, q.positions[provider]);
      RemainingReserve(p.reserveA, p.total, liquidity, a);
      RemainingReserve(p.reserveB, p.total, liquidity, b);
      KeepsCover(p, q);
    }
  }

  /** What stays behind is positive while shares remain, and zero when the last share leaves. */
  lemma {:induction false} RemainingReserve(r: int, t: int, liquidity: int, paid: int)
    requires 0 < r && 0 < liquidity <= t && paid == TruncDiv(liquidity * r, t)
    ensures 0 <= r - paid
    ensures liquidity < t ==> 0 < r - paid
    ensures liquidity == t ==> r == paid
  {
    MulMono(liquidity, r, t, r);
    TruncDivBounds(liquidity * r, t);
    MulSwap(r, t);
    MulCancel(paid, r, t);
    if liquidity < t {
      StrictlyLess(liquidity, t, r);
    } else {
      QuotientIsGreatest(liquidity * r, t, r);
    }
  }

  lemma {:induction false} StrictlyLess(x: int, y: int, r: int)
    requires x < y && 0 < r
    ensures x * r < y * r
  {
  }

  /** What an accepted swap does to the two reserves, whichever way it goes. */
  lemma {:induction false} SwapMovesReserves(
    p: Pool, now: nat, user: Address, tokenIn: Token, amountIn: int, outMin: int)
    requires 0 <= p.reserveA && 0 <= p.reserveB && Swap(p, now, user, tokenIn, amountIn, outMin).Ok?
    ensures var (q, out) := Swap(p, now, user, tokenIn, amountIn, outMin).value;
      && 0 <= q.reserveA && 0 <= q.reserveB && 0 <= out
      && p.reserveA * p.reserveB <= q.reserveA * q.reserveB
      && (0 < p.reserveA && 0 < p.reserveB ==> 0 < q.reserveA && 0 < q.reserveB)
      && (p.reserveA * p.reserveB == 0 ==> q.reserveA * q.reserveB == 0)
  {
    if tokenIn == Bst {
      SwapOutput(p.reserveA, p.reserveB, amountIn);
    } else {
      SwapOutput(p.reserveB, p.reserveA, amountIn);
      var out := AmountOut(p.reserveB, p.reserveA, amountIn);
      MulSwap(p.reserveB, p.reserveA);
      MulSwap(p.reserveB + amountIn, p.reserveA - out);
    }
  }

  lemma {:induction false} Swapping(p: Pool, now: nat, user: Address, tokenIn: Token, amountIn: int, outMin: int)
    requires SoundPool(p) && Swap(p, now, user, tokenIn, amountIn, outMin).Ok?
    ensures var (q, out) := Swap(p, now, user, tokenIn, amountIn, outMin).value;
      SoundPool(q) && BackedAtLeast(q, p) && q.total == p.total
  {
    var (q, out) := Swap(p, now, user, tokenIn, amountIn, outMin).value;
    SwapMovesReserves(p, now, user, tokenIn, amountIn, outMin);
    assert p.total * p.total <= q.reserveA * q.reserveB;
    MulNonNegative(p.reserveA, p.reserveB);
    GrownProduct(p, q);
  }

  lemma {:induction false} GrownProduct(p: Pool, q: Pool)
    requires 0 <= p.reserveA * p.reserveB <= q.reserveA * q.reserveB && 0 <= q.total == p.total
    ensures BackedAtLeast(q, p)
  {
    MulNonNegative(p.total, p.total);
    MulMono(p.reserveA * p.reserveB, p.total * p.total, q.reserveA * q.reserveB, p.total * p.total);
  }

  /** Every call keeps the invariant, except exactly a first provision of negative amounts. */
  lemma {:induction false} StepKeepsSoundIff(p: Pool, op: Op)
    requires SoundPool(p)
    ensures SoundPool(Step(p, op)) <==> !NegativeFirstProvision(p, op)
  {
    match op
    case Add(w, a, b, am, bm) =>
      if AddLiquidity(p, w, a, b, am, bm).Ok? {
        if p.total == 0 { FirstProvision(p, w, a, b, am, bm); } else { LaterProvision(p, w, a, b, am, bm); }
      }
    case Remove(w, l) =>
      Withdrawal(p, w, l);
    case SwapOp(n, u, t, x, m) =>
      if Swap(p, n, u, t, x, m).Ok? { Swapping(p, n, u, t, x, m); }
    case Collect(_) =>
    case Drain(_) =>
  }

  lemma {:induction false} StepKeepsBacking(p: Pool, op: Op)
    requires SoundPool(p) && 0 < p.total
    ensures BackedAtLeast(Step(p, op), p)
  {
    match op
    case Add(w, a, b, am, bm) =>
      LaterProvision(p, w, a, b, am, bm);
    case Remove(w, l) =>
      Withdrawal(p, w, l);
    case SwapOp(n, u, t, x, m) =>
      if Swap(p, n, u, t, x, m).Ok? { Swapping(p, n, u, t, x, m); }
    case Collect(_) =>
    case Drain(_) =>
  }

  // ---------- Whole runs ----------

  ghost predicate AlwaysSound(p: Pool, ops: seq<Op>)
    decreases |ops|
  {
    SoundPool(p) && (ops == [] || AlwaysSound(Step(p, ops[0]), ops[1..]))
  }

  predicate NoNegativeFirstProvision(p: Pool, ops: seq<Op>)
    decreases |ops|
  {
    ops == [] || (!NegativeFirstProvision(p, ops[0]) && NoNegativeFirstProvision(Step(p, ops[0]), ops[1..]))
  }

  /**
   * Over any run from a fresh pool (deposits, withdrawals, swaps, collections and the drain, accepted or
   * rejected): every state is sound, in particular total^2 <= reserveA * reserveB and the positions sum to
   * the total, if and only if no first provision of negative amounts was accepted.
   */
  lemma {:induction false} RunsAreSoundIff(admin: Address, ops: seq<Op>)
    ensures AlwaysSound(Initial(admin), ops) <==> NoNegativeFirstProvision(Initial(admin), ops)
  {
    SoundRun(Initial(admin), ops);
  }

  lemma {:induction false} SoundRun(p: Pool, ops: seq<Op>)
    requires SoundPool(p)
    ensures AlwaysSound(p, ops) <==> NoNegativeFirstProvision(p, ops)
    ensures AlwaysSound(p, ops) ==> SoundPool(Run(p, ops))
    decreases |ops|
  {
    if ops != [] {
      StepKeepsSoundIff(p, ops[0]);
      if SoundPool(Step(p, ops[0])) {
        SoundRun(Step(p, ops[0]), ops[1..]);
      }
    }
  }

  /** Shares are never all withdrawn (nor the pool drained) on the way. */
  predicate NeverEmptied(p: Pool, ops: seq<Op>)
    decreases |ops|
  {
    0 < p.total && (ops == [] || NeverEmptied(Step(p, ops[0]), ops[1..]))
  }

  /**
   * From any sound state with shares outstanding, over any run on which the pool is not emptied, the backing
   * reserveA * reserveB / total^2 of the last state is at least that of the first, despite all the rounding.
   */
  lemma {:induction false} BackingNeverFalls(p: Pool, ops: seq<Op>)
    requires SoundPool(p) && NeverEmptied(p, ops)
    ensures SoundPool(Run(p, ops)) && BackedAtLeast(Run(p, ops), p)
    decreases |ops|
  {
    if ops != [] {
      var q := Step(p, ops[0]);
      StepKeepsSoundIff(p, ops[0]);
      StepKeepsBacking(p, ops[0]);
      BackingNeverFalls(q, ops[1..]);
      BackingTransitive(p, q, Run(p, ops));
    }
  }

  // ---------- Runs that empty the pool ----------

  /**
   * The shares a first provision would mint are backed at least as well as those of `start`: what a provider can
   * compute from the two amounts before calling. Every other call meets it trivially.
   */
  predicate ProvisionBackedLike(start: Pool, p: Pool, op: Op) {
    op.Add? && p.total == 0 && op.aDesired * op.bDesired >= 0
      && AddLiquidity(p, op.provider, op.aDesired, op.bDesired, op.aMin, op.bMin).Ok? ==>
      var shares := FloorSqrt(op.aDesired * op.bDesired) - MINIMUM_LIQUIDITY;
      (start.reserveA * start.reserveB) * (shares * shares)
        <= ((p.reserveA + op.aDesired) * (p.reserveB + op.bDesired)) * (start.total * start.total)
  }

  predicate ProvisionsBackedLike(start: Pool, p: Pool, ops: seq<Op>)
    decreases |ops|
  {
    ops == [] || (ProvisionBackedLike(start, p, ops[0]) && ProvisionsBackedLike(start, Step(p, ops[0]), ops[1..]))
  }

  ghost predicate AlwaysBackedLike(start: Pool, p: Pool, ops: seq<Op>)
    decreases |ops|
  {
    BackedAtLeast(p, start) && (ops == [] || AlwaysBackedLike(start, Step(p, ops[0]), ops[1..]))
  }

  /**
   * Exactly when backing never falls below where it started, on any run, emptied pools included: if and only if
   * every first provision made after the last share left is backed at least as well. No other call can lower it.
   */
  lemma {:induction false} BackingFallsOnlyAtFirstProvision(start: Pool, ops: seq<Op>)
    requires SoundPool(start) && 0 < start.total && NoNegativeFirstProvision(start, ops)
    ensures AlwaysBackedLike(start, start, ops) <==> ProvisionsBackedLike(start, start, ops)
  {
    BackedRun(start, start, ops);
  }

  lemma {:induction false} BackedRun(start: Pool, p: Pool, ops: seq<Op>)
    requires 0 < start.total && SoundPool(p) && BackedAtLeast(p, start) && NoNegativeFirstProvision(p, ops)
    ensures AlwaysBackedLike(start, p, ops) <==> ProvisionsBackedLike(start, p, ops)
    decreases |ops|
  {
    if ops != [] {
      var q := Step(p, ops[0]);
      StepKeepsSoundIff(p, ops[0]);
      StepBackedIff(start, p, ops[0]);
      if BackedAtLeast(q, start) {
        BackedRun(start, q, ops[1..]);
      }
    }
  }

  lemma {:induction false} StepBackedIff(start: Pool, p: Pool, op: Op)
    requires 0 < start.total && SoundPool(p) && SoundPool(Step(p, op)) && BackedAtLeast(p, start)
    requires !NegativeFirstProvision(p, op)
    ensures BackedAtLeast(Step(p, op), start) <==> ProvisionBackedLike(start, p, op)
  {
    var q := Step(p, op);
    MulNonNegative(q.reserveA, q.reserveB);
    MulNonNegative(start.total, start.total);
    if 0 < p.total {
      StepKeepsBacking(p, op);
      BackingTransitive(start, p, q);
    } else if op.Add? && AddLiquidity(p, op.provider, op.aDesired, op.bDesired, op.aMin, op.bMin).Ok? {
      FirstProvisionAmounts(p, op);
    } else {
      NoSharesAppear(p, op);
      MulNonNegative(q.reserveA * q.reserveB, start.total * start.total);
    }
  }

  lemma {:induction false} FirstProvisionAmounts(p: Pool, op: Op)
    requires SoundPool(p) && p.total == 0 && op.Add? && 0 <= op.aDesired
    requires AddLiquidity(p, op.provider, op.aDesired, op.bDesired, op.aMin, op.bMin).Ok?
    ensures op.aDesired * op.bDesired >= 0
    ensures var q := Step(p, op);
      && q.reserveA == p.reserveA + op.aDesired && q.reserveB == p.reserveB + op.bDesired
      && q.total == FloorSqrt(op.aDesired * op.bDesired) - MINIMUM_LIQUIDITY
  {
  }

  /** Shares only start from nothing through a first provision. */
  lemma {:induction false} NoSharesAppear(p: Pool, op: Op)
    requires p.total == 0
    requires !op.Add? || AddLiquidity(p, op.provider, op.aDesired, op.bDesired, op.aMin, op.bMin).Err?
    ensures Step(p, op).total == 0
  {
  }

  lemma {:induction false} BackingTransitive(p: Pool, q: Pool, r: Pool)
    requires 0 < p.total && 0 < q.total && 0 <= r.reserveA * r.reserveB
    requires BackedAtLeast(q, p) && BackedAtLeast(r, q)
    ensures BackedAtLeast(r, p)
  {
    MulMono(1, 1, q.total, q.total);
    CrossTransitive(p.reserveA * p.reserveB, p.total * p.total, q.reserveA * q.reserveB, q.total * q.total,
                    r.reserveA * r.reserveB, r.total * r.total);
  }

  lemma {:induction false} CrossTransitive(k1: int, t1: int, k2: int, t2: int, k3: int, t3: int)
    requires 0 <= t1 && 0 < t2 && 0 <= t3
    requires k1 * t2 <= k2 * t1 && k2 * t3 <= k3 * t2
    ensures k1 * t3 <= k3 * t1
  {
    assert (k1 * t2) * t3 <= (k2 * t1) * t3;
    assert (k2 * t3) * t1 <= (k3 * t2) * t1;
    assert (k1 * t2) * t3 == (k1 * t3) * t2;
    assert (k2 * t1) * t3 == (k2 * t3) * t1;
    assert (k3 * t2) * t1 == (k3 * t1) * t2;
    MulCancel(k1 * t3, k3 * t1, t2);
  }
}
