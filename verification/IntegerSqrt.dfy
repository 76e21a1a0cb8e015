/** The pool's Newton square root, and the floor square root it computes. */
module IntegerSqrt {

  ghost predicate IsFloorSqrt(x: nat, y: nat) {
    y * y <= x < (y + 1) * (y + 1)
  }

  /** The floor square root by counting up; the reference the Newton loop is compared with. */
  function FloorSqrt(x: nat): (y: nat)
    ensures IsFloorSqrt(x, y)
  {
    if x == 0 then 0
    else
      var y := FloorSqrt(x - 1);
      if (y + 1) * (y + 1) <= x then y + 1 else y
  }

  lemma {:induction false} SquareMono(x: nat, y: nat)
    ensures x <= y ==> x * x <= y * y
  {
  }

  lemma {:induction false} FloorSqrtUnique(x: nat, y: nat, z: nat)
    requires IsFloorSqrt(x, y) && IsFloorSqrt(x, z)
    ensures y == z
  {
    SquareMono(y + 1, z);
    SquareMono(z + 1, y);
  }

  /** Four times a product is at most the square of the sum. */
  lemma {:induction false} ProductBelowMean(a: int, b: int)
    ensures 4 * (a * b) <= (a + b) * (a + b)
  {
    var d := a - b;
    assert 0 <= d * d;
    assert (a + b) * (a + b) == d * d + 4 * (a * b);
  }

  lemma {:induction false} DoubledSquare(w: int)
    ensures (2 * w) * (2 * w) == 4 * (w * w)
  {
  }

  lemma {:induction false} BelowNextMultiple(x: nat, y: nat)
    requires 0 < y
    ensures x < (x / y + 1) * y
  {
    var q := x / y;
    assert x == q * y + x % y;
    assert (q + 1) * y == q * y + y;
  }

  /** The loop's next guess. */
  function Newton(x: nat, y: nat): (z: nat)
    requires 0 < y
    ensures 1 < x ==> 0 < z
  {
    (x / y + y) / 2
  }

  ghost predicate AboveRoot(x: nat, y: nat) { x < (y + 1) * (y + 1) }

  /** One Newton step from any positive guess does not fall below the floor square root. */
  lemma {:induction false} NewtonStepStaysAbove(x: nat, y: nat)
    requires 0 < y
    ensures AboveRoot(x, Newton(x, y))
  {
    var q := x / y;
    var w := (q + y) / 2 + 1;
    BelowNextMultiple(x, y);
    ProductBelowMean(q + 1, y);
    SquareMono(q + 1 + y, 2 * w);
    DoubledSquare(w);
  }

  /** When Newton stops decreasing, the guess is no larger than the root. */
  lemma {:induction false} NewtonStop(x: nat, y: nat)
    requires 0 < y <= Newton(x, y)
    ensures y * y <= x
  {
    var q := x / y;
    assert x == q * y + x % y;
    assert y <= q;
    assert y * y <= q * y;
  }

  lemma {:induction false} NewtonStart(x: nat)
    requires 1 < x
    ensures Newton(x, x) == (x + 1) / 2 && AboveRoot(x, x)
  {
    assert x / x == 1;
    assert (x + 1) * (x + 1) == x * x + 2 * x + 1;
  }

  /**
   * `sqrt`. For a negative `x` the loop is not entered, and `x` itself comes back;
   * otherwise the result is the exact floor square root. In Rust `(x + 1) / 2` rounds toward zero.
   */
  method Sqrt(x: int) returns (root: int)
    ensures x < 0 ==> root == x
    ensures 0 <= x ==> 0 <= root && IsFloorSqrt(x, root) && root == FloorSqrt(x)
  {
    if x == 0 || x == 1 {
      if x == 1 { FloorSqrtUnique(1, FloorSqrt(1), 1); }
      return x;
    }
    var z := if 0 <= x + 1 then (x + 1) / 2 else -((-(x + 1)) / 2);
    var y := x;
    if 1 < x {
      NewtonStart(x);
      NewtonStepStaysAbove(x, x);
    }
    while z < y
      invariant x < 0 ==> y == x <= z
      invariant 1 < x ==> 0 < y && z == Newton(x, y) && AboveRoot(x, z) && AboveRoot(x, y)
      decreases y
    {
      y := z;
      NewtonStepStaysAbove(x, y);
      z := (x / z + z) / 2;
    }
    if 1 < x {
      NewtonStop(x, y);
      FloorSqrtUnique(x, FloorSqrt(x), y);
    }
    root := y;
  }
}
