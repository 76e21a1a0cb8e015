/** What the calls of the pool pay, mint and refuse, in plain numbers. */
module PoolAmounts {
  import opened Common
  import opened IntegerSqrt
  import opened PoolSpec
  import opened PoolBacking
  import opened PoolTrades

  // ---------- Swaps ----------

  function ReserveOf(p: Pool, t: Token): int { if t == Bst then p.reserveA else p.reserveB }

  /** Paying `out` for `x` leaves the product of the reserves no lower, with 997 of every 1000 tokens of `x` counted. */
  predicate CoversProduct(rIn: int, rOut: int, x: int, out: int) {
    1000 * (rIn * rOut) <= (1000 * rIn + 997 * x) * (rOut - out)
  }

  /** What an accepted swap leaves: both reserves moved, the fee added up to the limit, one more record. */
  predicate Swapped(p: Pool, q: Pool, record: SwapRecord) {
    && ReserveOf(q, record.tokenIn) == ReserveOf(p, record.tokenIn) + record.amountIn
    && ReserveOf(q, record.tokenOut) == ReserveOf(p, record.tokenOut) - record.amountOut
    && q.fees == (if p.fees + record.fee <= I128_MAX then p.fees + record.fee else I128_MAX)
    && q.history == p.history + [record]
    && q.(reserveA := p.reserveA, reserveB := p.reserveB, fees := p.fees, history := p.history) == p
  }

  lemma {:induction false} OutIsFloor(rIn: int, rOut: int, x: int, out: int)
    requires 0 <= rIn && 0 <= rOut && 0 < x && Rounded(out, 997 * x * rOut, 1000 * rIn + 997 * x)
    ensures SwapDenominator(rIn, x) > 0 && out == AmountOut(rIn, rOut, x) && out <= rOut
  {
    SwapOutput(rIn, rOut, x);
    RoundedIsTruncDiv(out, 997 * x * rOut, 1000 * rIn + 997 * x);
  }

  /**
   * A swap of `x` against reserves `rIn` and `rOut` pays `997 * x * rOut / (1000 * rIn + 997 * x)`, rounded down, in
   * either direction; it is refused for its output exactly when that is less than the caller asks for.
   */
  lemma {:induction false} SwapPaysTheFloor(
    p: Pool, now: nat, user: Address, t: Token, x: int, outMin: int, out: int, fee: int)
    requires 0 <= p.reserveA && 0 <= p.reserveB && !t.Other?
    requires var rIn, rOut := ReserveOf(p, t), ReserveOf(p, if t == Bst then Xlm else Bst);
      0 < x ==> Rounded(out, 997 * x * rOut, 1000 * rIn + 997 * x) && Rounded(fee, 3 * x, 1000)
    ensures var r := Swap(p, now, user, t, x, outMin);
      && (r.Ok? <==> p.swapEnabled && 0 < x && !p.drained && outMin <= out)
      && (r == Err(InsufficientOutput) <==> p.swapEnabled && 0 < x && !p.drained && out < outMin)
      && (r.Ok? ==> r.value.1 == out
                    && Swapped(p, r.value.0, SwapRecord(now, user, t, x, if t == Bst then Xlm else Bst, out, fee)))
  {
    if 0 < x {
      OutIsFloor(ReserveOf(p, t), ReserveOf(p, Opposite(t)), x, out);
      RoundedIsTruncDiv(fee, 3 * x, 1000);
    }
  }

  /** That is the most the product formula allows: exactly the amounts up to it leave the product covered. */
  lemma {:induction false} SwapPaysTheMost(
    p: Pool, now: nat, user: Address, t: Token, x: int, outMin: int, amount: int)
    requires 0 <= p.reserveA && 0 <= p.reserveB && Swap(p, now, user, t, x, outMin).Ok?
    ensures var rIn, rOut := ReserveOf(p, t), ReserveOf(p, if t == Bst then Xlm else Bst);
      amount <= Swap(p, now, user, t, x, outMin).value.1 <==> CoversProduct(rIn, rOut, x, amount)
  {
    var rIn, rOut := ReserveOf(p, t), ReserveOf(p, Opposite(t));
    MostOut(rIn, rOut, x, amount);
  }

  lemma {:induction false} MostOut(rIn: int, rOut: int, x: int, amount: int)
    requires 0 <= rIn && 0 <= rOut && 0 < x
    ensures SwapDenominator(rIn, x) > 0
    ensures amount <= AmountOut(rIn, rOut, x) <==> CoversProduct(rIn, rOut, x, amount)
  {
    var d := 1000 * rIn + 997 * x;
    SwapOutput(rIn, rOut, x);
    MulNonNegative(997 * x, rOut);
    AtMostFloor(amount, 997 * x * rOut, d);
    CoveredAmount(rIn, rOut, x, amount);
  }

  lemma {:induction false} CoveredAmount(rIn: int, rOut: int, x: int, amount: int)
    ensures CoversProduct(rIn, rOut, x, amount) <==> amount * (1000 * rIn + 997 * x) <= 997 * x * rOut
  {
    var d := 1000 * rIn + 997 * x;
    assert d * (rOut - amount) == d * rOut - amount * d;
    assert d * rOut == 1000 * (rIn * rOut) + 997 * x * rOut;
  }

  /** A number is at most a floor exactly when its product is at most the dividend. */
  lemma {:induction false} AtMostFloor(m: int, n: int, d: int)
    requires 0 <= n && 0 < d
    ensures m <= TruncDiv(n, d) <==> m * d <= n
  {
    TruncDivBounds(n, d);
    if m <= TruncDiv(n, d) {
      MulMonoLeft(m, TruncDiv(n, d), d);
    } else {
      MulMonoLeft(TruncDiv(n, d) + 1, m, d);
    }
  }

  // ---------- Deposits ----------

  /** Both assets cover `m` shares at the present proportions. */
  predicate CoversShares(p: Pool, a: int, b: int, m: int) {
    m * p.reserveA <= a * p.total && m * p.reserveB <= b * p.total
  }

  /** What an accepted deposit leaves: reserves, total and the provider's position grown, and the pool's own entry. */
  ghost predicate Provided(p: Pool, q: Pool, provider: Address, a: int, b: int, minted: int, own: int) {
    && q.reserveA == p.reserveA + a && q.reserveB == p.reserveB + b && q.total == p.total + minted
    && Grown(p.positions, q.positions, provider, minted) && q.poolShare == own
    && q.(reserveA := p.reserveA, reserveB := p.reserveB, total := p.total, positions := p.positions,
          poolShare := p.poolShare) == p
  }

  lemma {:induction false} AtLeastOne(n: int, d: int)
    requires 0 < d
    ensures 1 <= TruncDiv(n, d) <==> d <= n
  {
    if 0 <= n { AtMostFloor(1, n, d); } else { TruncDivBounds(n, d); }
  }

  lemma {:induction false} MostShares(p: Pool, a: int, b: int, m: int)
    requires 0 < p.total && 0 < p.reserveA && 0 < p.reserveB && 0 < SharesFor(p, a, b)
    ensures m <= SharesFor(p, a, b) <==> CoversShares(p, a, b, m)
  {
    DepositProportion(p, a, b);
    MulNonNegative(a, p.total);
    MulNonNegative(b, p.total);
    AtMostFloor(m, a * p.total, p.reserveA);
    AtMostFloor(m, b * p.total, p.reserveB);
  }

  /** The offer that is kept: all of A with the B that goes with it, if that much B is offered, and else the reverse. */
  function Kept(aDesired: int, bDesired: int, aFor: int, bFor: int): (int, int) {
    if bFor <= bDesired then (aDesired, bFor) else (aFor, bDesired)
  }

  /**
   * A deposit into a pool with shares: `bFor` and `aFor` are the offers of A and B converted at the reserves, rounded
   * toward zero. The kept offer is refused exactly for a minimum, or when it covers not even one share; otherwise the
   * provider gets the most shares that both kept amounts cover.
   */
  lemma {:induction false} DepositMintsTheMost(
    p: Pool, provider: Address, aDesired: int, bDesired: int, aMin: int, bMin: int, aFor: int, bFor: int, m: int)
    requires 0 < p.total
    requires 0 < p.reserveA && 0 < p.reserveB ==>
      Rounded(bFor, aDesired * p.reserveB, p.reserveA) && Rounded(aFor, bDesired * p.reserveA, p.reserveB)
    ensures var (a, b) := Kept(aDesired, bDesired, aFor, bFor);
      var r := AddLiquidity(p, provider, aDesired, bDesired, aMin, bMin);
      var admitted := p.addEnabled && 0 < p.reserveA && 0 < p.reserveB && aMin <= a && bMin <= b;
      && (r.Ok? <==> admitted && CoversShares(p, a, b, 1))
      && (r == Err(InsufficientMinted) <==> admitted && !CoversShares(p, a, b, 1))
      && (r.Ok? ==> (m <= r.value.1 <==> CoversShares(p, a, b, m))
                    && Provided(p, r.value.0, provider, a, b, r.value.1, p.poolShare))
  {
    if 0 < p.reserveA && 0 < p.reserveB {
      RoundedIsTruncDiv(bFor, aDesired * p.reserveB, p.reserveA);
      RoundedIsTruncDiv(aFor, bDesired * p.reserveA, p.reserveB);
      MatchingBNeverNeedsMoreA(p, aDesired, bDesired);
      var (a, b) := Kept(aDesired, bDesired, aFor, bFor);
      AtLeastOne(a * p.total, p.reserveA);
      AtLeastOne(b * p.total, p.reserveB);
      if 0 < SharesFor(p, a, b) { MostShares(p, a, b, m); }
    }
  }

  /**
   * A first deposit is taken as offered. For a product below zero it is refused, and otherwise mints the square root
   * of the product, rounded down, less 1000, unless nothing is left of it; the pool's own entry is set to 1000.
   */
  lemma {:induction false} FirstDepositMintsTheRoot(
    p: Pool, provider: Address, a: int, b: int, aMin: int, bMin: int, root: nat)
    requires p.total == 0 && (0 <= a * b ==> root * root <= a * b < (root + 1) * (root + 1))
    ensures var r := AddLiquidity(p, provider, a, b, aMin, bMin);
      var admitted := p.addEnabled && aMin <= a && bMin <= b;
      && (r.Ok? <==> admitted && 0 <= a * b && 1000 < root)
      && (r == Err(InsufficientMinted) <==> admitted && (a * b < 0 || root <= 1000))
      && (r.Ok? ==> r.value.1 == root - 1000 && Provided(p, r.value.0, provider, a, b, root - 1000, 1000))
  {
    if 0 <= a * b {
      FloorSqrtUnique(a * b, FloorSqrt(a * b), root);
    }
  }

  // ---------- Withdrawals ----------

  /**
   * Removing shares pays each reserve's part, rounded down: accepted exactly when the caller has that many shares and
   * both parts are positive; what is not paid stays in the reserves.
   */
  lemma {:induction false} RemovalPaysTheFloors(p: Pool, provider: Address, liquidity: int, a: int, b: int)
    requires 0 < p.total
    requires Rounded(a, liquidity * p.reserveA, p.total) && Rounded(b, liquidity * p.reserveB, p.total)
    ensures var r := RemoveLiquidity(p, provider, liquidity);
      && (r.Ok? <==> p.removeEnabled && liquidity <= Get(p.positions, provider) && 0 < a && 0 < b)
      && (r.Ok? ==> r.value.1 == (a, b)
                    && Provided(p, r.value.0, provider, -a, -b, -liquidity, p.poolShare))
  {
    RoundedIsTruncDiv(a, liquidity * p.reserveA, p.total);
    RoundedIsTruncDiv(b, liquidity * p.reserveB, p.total);
  }

  // ---------- Administration ----------

  /** Only the admin collects the fees, all of them, or drains both reserves, once, which disables the pool. */
  lemma {:induction false} AdminTakesExactly(p: Pool, admin: Address)
    ensures var r := CollectFees(p, admin);
      && (r.Ok? <==> admin == p.admin && 0 < p.fees)
      && (r.Ok? ==> r.value == (p.(fees := 0), p.fees))
    ensures var r := EmergencyDrain(p, admin);
      && (r.Ok? <==> admin == p.admin && !p.drained)
      && (r.Ok? ==> var (q, paid) := r.value;
            && paid == (p.reserveA, p.reserveB) && q.reserveA == q.reserveB == q.total == 0
            && q.drained && !q.swapEnabled && !q.addEnabled && !q.removeEnabled
            && q.positions == p.positions && q.fees == p.fees && q.history == p.history
            && q.admin == p.admin && q.poolShare == p.poolShare)
  {
  }

  // ---------- Whole runs ----------

  /** The amounts of A and B that an accepted call puts in (takes out when negative), as it reports them. */
  function Flow(p: Pool, op: Op): (int, int) {
    match op
    case Add(w, a, b, am, bm) =>
      if AddLiquidity(p, w, a, b, am, bm).Ok? then MatchedAmounts(p, a, b, am, bm).value else (0, 0)
    case Remove(w, l) =>
      (match RemoveLiquidity(p, w, l) case Ok((_, paid)) => (-paid.0, -paid.1) case Err(_) => (0, 0))
    case SwapOp(n, u, t, x, m) =>
      (match Swap(p, n, u, t, x, m)
       case Ok((_, out)) => if t == Bst then (x, -out) else (-out, x)
       case Err(_) => (0, 0))
    case Drain(w) =>
      (match EmergencyDrain(p, w) case Ok((_, paid)) => (-paid.0, -paid.1) case Err(_) => (0, 0))
    case Collect(_) => (0, 0)
  }

  function Flows(p: Pool, ops: seq<Op>): (int, int)
    decreases |ops|
  {
    if ops == [] then (0, 0)
    else
      var (first, rest) := (Flow(p, ops[0]), Flows(Step(p, ops[0]), ops[1..]));
      (first.0 + rest.0, first.1 + rest.1)
  }

  lemma {:induction false} StepMovesFlow(p: Pool, op: Op)
    ensures Moves(p, Step(p, op), Flow(p, op))
  {
    match op
    case Add(w, a, b, am, bm) => AddMovesFlow(p, w, a, b, am, bm);
    case Remove(w, l) => RemoveMovesFlow(p, w, l);
    case SwapOp(n, u, t, x, m) => SwapMovesFlow(p, n, u, t, x, m);
    case _ =>
  }

  predicate Moves(p: Pool, q: Pool, flow: (int, int)) {
    q.reserveA == p.reserveA + flow.0 && q.reserveB == p.reserveB + flow.1
  }

  lemma {:induction false} AddMovesFlow(p: Pool, w: Address, a: int, b: int, aMin: int, bMin: int)
    ensures AddLiquidity(p, w, a, b, aMin, bMin).Ok? ==>
      && MatchedAmounts(p, a, b, aMin, bMin).Ok?
      && Moves(p, AddLiquidity(p, w, a, b, aMin, bMin).value.0, MatchedAmounts(p, a, b, aMin, bMin).value)
  {
  }

  lemma {:induction false} RemoveMovesFlow(p: Pool, w: Address, liquidity: int)
    ensures RemoveLiquidity(p, w, liquidity).Ok? ==>
      var (q, paid) := RemoveLiquidity(p, w, liquidity).value; Moves(p, q, (-paid.0, -paid.1))
  {
  }

  lemma {:induction false} SwapMovesFlow(p: Pool, now: nat, user: Address, t: Token, x: int, outMin: int)
    ensures Swap(p, now, user, t, x, outMin).Ok? ==>
      var (q, out) := Swap(p, now, user, t, x, outMin).value; Moves(p, q, if t == Bst then (x, -out) else (-out, x))
  {
  }

  /** Nothing is lost on the way: over any run each reserve moves by exactly what the accepted calls report. */
  lemma {:induction false} ReservesFollowFlows(p: Pool, ops: seq<Op>)
    ensures Moves(p, Run(p, ops), Flows(p, ops))
    decreases |ops|
  {
    if ops != [] {
      StepMovesFlow(p, ops[0]);
      ReservesFollowFlows(Step(p, ops[0]), ops[1..]);
    }
  }
}
