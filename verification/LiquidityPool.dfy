/** The liquidity pool contract over its storage fields. */
module LiquidityPool {
  import opened Common
  import opened IntegerSqrt
  import opened PoolSpec

  class PoolContract {
    var admin: Address
    var reserveA: int
    var reserveB: int
    var totalLiquidity: int
    var positions: map<Address, int>
    var poolShare: int
    var accumulatedFees: int
    var swapHistory: seq<SwapRecord>
    var swapEnabled: bool
    var addEnabled: bool
    var removeEnabled: bool
    var emergencyDrained: bool

    function State(): Pool
      reads this
    {
      Pool(admin, reserveA, reserveB, totalLiquidity, positions, poolShare, accumulatedFees, swapHistory,
           swapEnabled, addEnabled, removeEnabled, emergencyDrained)
    }

    constructor (admin: Address)
      ensures State() == Initial(admin)
    {
      this.admin := admin;
      reserveA, reserveB, totalLiquidity := 0, 0, 0;
      positions, poolShare := map[], 0;
      accumulatedFees, swapHistory := 0, [];
      swapEnabled, addEnabled, removeEnabled, emergencyDrained := true, true, true, false;
    }

    /** The amounts an offer is trimmed to. */
    method MatchOffer(aDesired: int, bDesired: int, aMin: int, bMin: int) returns (r: Result<(int, int), Error>)
      ensures r == MatchedAmounts(State(), aDesired, bDesired, aMin, bMin)
    {
      var a, b := aDesired, bDesired;
      if totalLiquidity != 0 {
        if reserveA <= 0 || reserveB <= 0 { return Err(InsufficientReserves); }
        var bOptimal := TruncDiv(aDesired * reserveB, reserveA);
        if bOptimal <= bDesired {
          if bOptimal < bMin { return Err(InsufficientB); }
          b := bOptimal;
        } else {
          var aOptimal := TruncDiv(bDesired * reserveA, reserveB);
          if aOptimal > aDesired { return Err(InsufficientA); }
          if aOptimal < aMin { return Err(InsufficientA); }
          a := aOptimal;
        }
      }
      if a < aMin { return Err(InsufficientA); }
      if b < bMin { return Err(InsufficientB); }
      return Ok((a, b));
    }

    method MintedShares(a: int, b: int) returns (minted: int)
      requires totalLiquidity != 0 ==> reserveA > 0 && reserveB > 0
      ensures minted == SharesFor(State(), a, b)
    {
      if totalLiquidity == 0 {
        var root := Sqrt(a * b);
        minted := root - MINIMUM_LIQUIDITY;
      } else {
        var mintedA := TruncDiv(a * totalLiquidity, reserveA);
        var mintedB := TruncDiv(b * totalLiquidity, reserveB);
        minted := if mintedA <= mintedB then mintedA else mintedB;
      }
    }

    method AddLiquidity(provider: Address, aDesired: int, bDesired: int, aMin: int, bMin: int)
      returns (r: Result<int, Error>)
      modifies this
      ensures Matches(old(State()), State(), r,
                      PoolSpec.AddLiquidity(old(State()), provider, aDesired, bDesired, aMin, bMin))
    {
      if !addEnabled { return Err(OperationDisabled); }
      var offer := MatchOffer(aDesired, bDesired, aMin, bMin);
      if offer.Err? { return Err(offer.error); }
      var (a, b) := offer.value;
      var minted := MintedShares(a, b);
      if minted <= 0 { return Err(InsufficientMinted); }
      if totalLiquidity == 0 { poolShare := MINIMUM_LIQUIDITY; }
      reserveA := reserveA + a;
      reserveB := reserveB + b;
      totalLiquidity := totalLiquidity + minted;
      positions := positions[provider := Get(positions, provider) + minted];
      return Ok(minted);
    }

    method RemoveLiquidity(provider: Address, liquidity: int) returns (r: Result<(int, int), Error>)
      modifies this
      ensures Matches(old(State()), State(), r, PoolSpec.RemoveLiquidity(old(State()), provider, liquidity))
    {
      if !removeEnabled { return Err(OperationDisabled); }
      var userLiquidity := Get(positions, provider);
      if userLiquidity < liquidity { return Err(InsufficientLiquidity); }
      if totalLiquidity == 0 { return Err(DivisionByZero); }
      var a := TruncDiv(liquidity * reserveA, totalLiquidity);
      var b := TruncDiv(liquidity * reserveB, totalLiquidity);
      if !(a > 0 && b > 0) { return Err(InsufficientAmounts); }
      positions := positions[provider := userLiquidity - liquidity];
      totalLiquidity := totalLiquidity - liquidity;
      reserveA := reserveA - a;
      reserveB := reserveB - b;
      return Ok((a, b));
    }

    method Swap(now: nat, user: Address, tokenIn: Token, amountIn: int, outMin: int) returns (r: Result<int, Error>)
      modifies this
      ensures Matches(old(State()), State(), r, PoolSpec.Swap(old(State()), now, user, tokenIn, amountIn, outMin))
    {
      if !swapEnabled { return Err(OperationDisabled); }
      if amountIn <= 0 { return Err(AmountNotPositive); }
      if emergencyDrained { return Err(Drained); }
      var reserveIn, reserveOut;
      match tokenIn {
        case Bst => reserveIn, reserveOut := reserveA, reserveB;
        case Xlm => reserveIn, reserveOut := reserveB, reserveA;
        case Other(_) => return Err(InvalidToken);
      }
      var withFee := amountIn * (FEE_DENOMINATOR - FEE_NUMERATOR);
      var denominator := reserveIn * FEE_DENOMINATOR + withFee;
      if denominator == 0 { return Err(DivisionByZero); }
      var out := TruncDiv(withFee * reserveOut, denominator);
      if out < outMin { return Err(InsufficientOutput); }
      if reserveOut < out { return Err(InsufficientLiquidity); }
      if tokenIn == Bst {
        reserveA := reserveA + amountIn;
        reserveB := reserveB - out;
      } else {
        reserveB := reserveB + amountIn;
        reserveA := reserveA - out;
      }
      var fee := TruncDiv(amountIn * FEE_NUMERATOR, FEE_DENOMINATOR);
      accumulatedFees := if accumulatedFees + fee > I128_MAX then I128_MAX else accumulatedFees + fee;
      var tokenOut := if tokenIn == Bst then Xlm else Bst;
      swapHistory := swapHistory + [SwapRecord(now, user, tokenIn, amountIn, tokenOut, out, fee)];
      return Ok(out);
    }

    method CollectFees(caller: Address) returns (r: Result<int, Error>)
      modifies this
      ensures Matches(old(State()), State(), r, PoolSpec.CollectFees(old(State()), caller))
    {
      if caller != admin { return Err(NotAdmin); }
      var fees := accumulatedFees;
      if fees <= 0 { return Err(NoFees); }
      accumulatedFees := 0;
      return Ok(fees);
    }

    method EmergencyDrain(caller: Address) returns (r: Result<(int, int), Error>)
      modifies this
      ensures Matches(old(State()), State(), r, PoolSpec.EmergencyDrain(old(State()), caller))
    {
      if caller != admin { return Err(NotAdmin); }
      if emergencyDrained { return Err(Drained); }
      r := Ok((reserveA, reserveB));
      reserveA, reserveB, totalLiquidity := 0, 0, 0;
      emergencyDrained := true;
      swapEnabled, addEnabled, removeEnabled := false, false, false;
    }
  }
}
