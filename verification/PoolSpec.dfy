/** What each call of the liquidity pool does to its storage. */
module PoolSpec {
  import opened Common
  import opened IntegerSqrt

  const MINIMUM_LIQUIDITY := 1000
  const FEE_NUMERATOR := 3
  const FEE_DENOMINATOR := 1000

  datatype Token = Bst | Xlm | Other(name: string)

  datatype SwapRecord = SwapRecord(
    timestamp: nat, user: Address, tokenIn: Token, amountIn: int, tokenOut: Token, amountOut: int, fee: int)

  /** `poolShare` is the `Liquidity` entry of the pool itself: instance storage, outside `positions` and `total`. */
  datatype Pool = Pool(
    admin: Address,
    reserveA: int, reserveB: int, total: int,
    positions: map<Address, int>, poolShare: int,
    fees: int, history: seq<SwapRecord>,
    swapEnabled: bool, addEnabled: bool, removeEnabled: bool, drained: bool)

  datatype Error =
    | OperationDisabled | InsufficientReserves | InsufficientA | InsufficientB | InsufficientMinted
    | InsufficientLiquidity | InsufficientAmounts | DivisionByZero
    | AmountNotPositive | Drained | InvalidToken | InsufficientOutput | NotAdmin | NoFees

  function Initial(admin: Address): Pool {
    Pool(admin, 0, 0, 0, map[], 0, 0, [], true, true, true, false)
  }

  // ---------- Liquidity ----------

  function Quote(amount: int, reserveFrom: int, reserveTo: int): Result<int, Error> {
    if reserveFrom <= 0 || reserveTo <= 0 then Err(InsufficientReserves)
    else Ok(TruncDiv(amount * reserveTo, reserveFrom))
  }

  /** The guard at line 180: does matching B's desired amount need more A than was offered? */
  predicate NeedsMoreAThanOffered(p: Pool, aDesired: int, bDesired: int)
    requires p.reserveA > 0 && p.reserveB > 0
  {
    && TruncDiv(aDesired * p.reserveB, p.reserveA) > bDesired
    && TruncDiv(bDesired * p.reserveA, p.reserveB) > aDesired
  }

  /** The amounts of A and B that an offer is trimmed to. */
  function MatchedAmounts(p: Pool, aDesired: int, bDesired: int, aMin: int, bMin: int): Result<(int, int), Error> {
    if p.total == 0 then
      if aDesired < aMin then Err(InsufficientA)
      else if bDesired < bMin then Err(InsufficientB)
      else Ok((aDesired, bDesired))
    else
      match Quote(aDesired, p.reserveA, p.reserveB)
      case Err(e) => Err(e)
      case Ok(bOptimal) =>
        if bOptimal <= bDesired then
          if bOptimal < bMin then Err(InsufficientB)
          else if aDesired < aMin then Err(InsufficientA)
          else Ok((aDesired, bOptimal))
        else
          var aOptimal := TruncDiv(bDesired * p.reserveA, p.reserveB);
          if NeedsMoreAThanOffered(p, aDesired, bDesired) then Err(InsufficientA)
          else if aOptimal < aMin then Err(InsufficientA)
          else if bDesired < bMin then Err(InsufficientB)
          else Ok((aOptimal, bDesired))
  }

  /** Shares for a deposit of `a` and `b`. */
  function SharesFor(p: Pool, a: int, b: int): int
    requires p.total != 0 ==> p.reserveA > 0 && p.reserveB > 0
  {
    if p.total == 0 then
      (if a * b < 0 then a * b else FloorSqrt(a * b)) - MINIMUM_LIQUIDITY
    else
      Min(TruncDiv(a * p.total, p.reserveA), TruncDiv(b * p.total, p.reserveB))
  }

  function AddLiquidity(p: Pool, provider: Address, aDesired: int, bDesired: int, aMin: int, bMin: int)
    : Result<(Pool, int), Error>
  {
    if !p.addEnabled then Err(OperationDisabled)
    else
      match MatchedAmounts(p, aDesired, bDesired, aMin, bMin)
      case Err(e) => Err(e)
      case Ok((a, b)) =>
        var minted := SharesFor(p, a, b);
        if minted <= 0 then Err(InsufficientMinted)
        else
          Ok((p.(reserveA := p.reserveA + a, reserveB := p.reserveB + b, total := p.total + minted,
                 positions := p.positions[provider := Get(p.positions, provider) + minted],
                 poolShare := if p.total == 0 then MINIMUM_LIQUIDITY else p.poolShare),
              minted))
  }

  function RemoveLiquidity(p: Pool, provider: Address, liquidity: int): Result<(Pool, (int, int)), Error> {
    if !p.removeEnabled then Err(OperationDisabled)
    else if Get(p.positions, provider) < liquidity then Err(InsufficientLiquidity)
    else if p.total == 0 then Err(DivisionByZero)
    else
      var a := TruncDiv(liquidity * p.reserveA, p.total);
      var b := TruncDiv(liquidity * p.reserveB, p.total);
      if a <= 0 || b <= 0 then Err(InsufficientAmounts)
      else
        Ok((p.(reserveA := p.reserveA - a, reserveB := p.reserveB - b, total := p.total - liquidity,
               positions := p.positions[provider := Get(p.positions, provider) - liquidity]),
            (a, b)))
  }

  // ---------- Swaps ----------

  function WithFee(amountIn: int): int { amountIn * (FEE_DENOMINATOR - FEE_NUMERATOR) }

  function SwapDenominator(reserveIn: int, amountIn: int): int {
    reserveIn * FEE_DENOMINATOR + WithFee(amountIn)
  }

  function AmountOut(reserveIn: int, reserveOut: int, amountIn: int): int
    requires SwapDenominator(reserveIn, amountIn) != 0
  {
    TruncDiv(WithFee(amountIn) * reserveOut, SwapDenominator(reserveIn, amountIn))
  }

  function SwapFee(amountIn: int): int { TruncDiv(amountIn * FEE_NUMERATOR, FEE_DENOMINATOR) }

  function Opposite(t: Token): Token { if t == Bst then Xlm else Bst }

  function Swap(p: Pool, now: nat, user: Address, tokenIn: Token, amountIn: int, outMin: int)
    : Result<(Pool, int), Error>
  {
    if !p.swapEnabled then Err(OperationDisabled)
    else if amountIn <= 0 then Err(AmountNotPositive)
    else if p.drained then Err(Drained)
    else if tokenIn.Other? then Err(InvalidToken)
    else
      var (reserveIn, reserveOut) := if tokenIn == Bst then (p.reserveA, p.reserveB) else (p.reserveB, p.reserveA);
      if SwapDenominator(reserveIn, amountIn) == 0 then Err(DivisionByZero)
      else
        var out := AmountOut(reserveIn, reserveOut, amountIn);
        if out < outMin then Err(InsufficientOutput)
        else if reserveOut < out then Err(InsufficientLiquidity)
        else
          var record := SwapRecord(now, user, tokenIn, amountIn, Opposite(tokenIn), out, SwapFee(amountIn));
          Ok((p.(reserveA := if tokenIn == Bst then p.reserveA + amountIn else p.reserveA - out,
                 reserveB := if tokenIn == Bst then p.reserveB - out else p.reserveB + amountIn,
                 fees := Min(p.fees + SwapFee(amountIn), I128_MAX),
                 history := p.history + [record]),
              out))
  }

  // ---------- Administration ----------

  function CollectFees(p: Pool, admin: Address): Result<(Pool, int), Error> {
    if admin != p.admin then Err(NotAdmin)
    else if p.fees <= 0 then Err(NoFees)
    else Ok((p.(fees := 0), p.fees))
  }

  function EmergencyDrain(p: Pool, admin: Address): Result<(Pool, (int, int)), Error> {
    if admin != p.admin then Err(NotAdmin)
    else if p.drained then Err(Drained)
    else
      Ok((p.(reserveA := 0, reserveB := 0, total := 0, drained := true,
             swapEnabled := false, addEnabled := false, removeEnabled := false),
          (p.reserveA, p.reserveB)))
  }

  // ---------- Runs ----------

  datatype Op =
    | Add(provider: Address, aDesired: int, bDesired: int, aMin: int, bMin: int)
    | Remove(provider: Address, liquidity: int)
    | SwapOp(now: nat, user: Address, tokenIn: Token, amountIn: int, outMin: int)
    | Collect(admin: Address)
    | Drain(admin: Address)

  /** One call; a call that panics leaves the state as it was. */
  function Step(p: Pool, op: Op): Pool {
    match op
    case Add(w, a, b, am, bm) => (match AddLiquidity(p, w, a, b, am, bm) case Ok((q, _)) => q case Err(_) => p)
    case Remove(w, l) => (match RemoveLiquidity(p, w, l) case Ok((q, _)) => q case Err(_) => p)
    case SwapOp(n, u, t, x, m) => (match Swap(p, n, u, t, x, m) case Ok((q, _)) => q case Err(_) => p)
    case Collect(w) => (match CollectFees(p, w) case Ok((q, _)) => q case Err(_) => p)
    case Drain(w) => (match EmergencyDrain(p, w) case Ok((q, _)) => q case Err(_) => p)
  }

  function Run(p: Pool, ops: seq<Op>): Pool
    decreases |ops|
  {
    if ops == [] then p else Run(Step(p, ops[0]), ops[1..])
  }
}
