/** The two vesting curves of the token contract, and what claiming along them mints. */
module VestingCurves {
  import opened Common

  /** `kind` is 0 for linear and 1 for step vesting; a version 1 schedule is a linear one. */
  datatype Schedule = Schedule(
    total: int, start: nat, cliff: nat, end: nat, claimed: int, kind: nat, steps: nat)

  /** What the creating calls check, and every later call keeps. */
  predicate SoundSchedule(s: Schedule) {
    s.total > 0 && s.start <= s.cliff < s.end && 0 <= s.claimed <= s.total && s.kind <= 1
  }

  function Linear(s: Schedule, ledger: nat): int
    requires SoundSchedule(s)
  {
    if ledger < s.cliff then 0
    else if ledger >= s.end then s.total
    else TruncDiv(s.total * (ledger - s.start), s.end - s.start)
  }

  /** The steps completed at `ledger`; with fewer ledgers than steps the step length is 0 and none completes. */
  function StepsDone(s: Schedule, ledger: nat): nat
    requires SoundSchedule(s) && s.steps > 0 && s.cliff <= ledger
  {
    var stepLength := (s.end - s.start) / s.steps;
    if stepLength == 0 then 0 else Min((ledger - s.start) / stepLength, s.steps)
  }

  function Stepped(s: Schedule, ledger: nat): int
    requires SoundSchedule(s)
  {
    if ledger < s.cliff then 0
    else if ledger >= s.end then s.total
    else if s.steps == 0 then s.total
    else TruncDiv(s.total * StepsDone(s, ledger), s.steps)
  }

  function Vested(s: Schedule, ledger: nat): int
    requires SoundSchedule(s)
  {
    if s.kind == 0 then Linear(s, ledger) else Stepped(s, ledger)
  }

  // ---------- Both curves: bounded and monotone ----------

  /** total * x / y for 0 <= x <= y lies between 0 and total, and below total when x < y. */
  lemma {:induction false} Fraction(total: int, x: int, y: int)
    requires 0 < total && 0 <= x <= y && 0 < y
    ensures 0 <= TruncDiv(total * x, y) <= total
    ensures x < y ==> TruncDiv(total * x, y) < total
    ensures x == y ==> TruncDiv(total * x, y) == total
  {
    MulNonNegative(total, x);
    TruncDivBounds(total * x, y);
    var q := TruncDiv(total * x, y);
    MulMono(total, x, total, y);
    MulCancel(q, total, y);
    if x < y {
      assert total * x < total * y;
      MulCancel(q, total, y);
    } else {
      QuotientIsGreatest(total * x, y, total);
    }
  }

  lemma {:induction false} FractionMono(total: int, x: int, x': int, y: int)
    requires 0 < total && 0 <= x <= x' && 0 < y
    ensures TruncDiv(total * x, y) <= TruncDiv(total * x', y)
  {
    MulMono(total, x, total, x');
    TruncDivBounds(total * x, y);
    QuotientIsGreatest(total * x', y, TruncDiv(total * x, y));
  }

  lemma {:induction false} DivMono(x: int, y: int, d: int)
    requires 0 <= x <= y && 0 < d
    ensures x / d <= y / d
  {
    FloorDivBounds(x, d);
    QuotientIsGreatest(y, d, x / d);
  }

  lemma {:induction false} VestedBounds(s: Schedule, ledger: nat)
    requires SoundSchedule(s)
    ensures 0 <= Linear(s, ledger) <= s.total && 0 <= Stepped(s, ledger) <= s.total
    ensures ledger < s.cliff ==> Vested(s, ledger) == 0
    ensures s.end <= ledger ==> Vested(s, ledger) == s.total
  {
    if s.cliff <= ledger < s.end {
      Fraction(s.total, ledger - s.start, s.end - s.start);
      if s.steps > 0 {
        Fraction(s.total, StepsDone(s, ledger), s.steps);
      }
    }
  }

  lemma {:induction false} LinearMonotone(s: Schedule, earlier: nat, later: nat)
    requires SoundSchedule(s) && earlier <= later
    ensures Linear(s, earlier) <= Linear(s, later)
  {
    VestedBounds(s, earlier);
    VestedBounds(s, later);
    if s.cliff <= earlier && later < s.end {
      FractionMono(s.total, earlier - s.start, later - s.start, s.end - s.start);
    }
  }

  lemma {:induction false} StepsDoneMonotone(s: Schedule, earlier: nat, later: nat)
    requires SoundSchedule(s) && s.steps > 0 && s.cliff <= earlier <= later
    ensures 0 <= StepsDone(s, earlier) <= StepsDone(s, later)
  {
    var stepLength := (s.end - s.start) / s.steps;
    if stepLength > 0 {
      DivMono(earlier - s.start, later - s.start, stepLength);
    }
  }

  lemma {:induction false} SteppedMonotone(s: Schedule, earlier: nat, later: nat)
    requires SoundSchedule(s) && earlier <= later
    ensures Stepped(s, earlier) <= Stepped(s, later)
  {
    VestedBounds(s, earlier);
    VestedBounds(s, later);
    if s.cliff <= earlier && later < s.end && s.steps > 0 {
      StepsDoneMonotone(s, earlier, later);
      FractionMono(s.total, StepsDone(s, earlier), StepsDone(s, later), s.steps);
    }
  }

  lemma {:induction false} VestedMonotone(s: Schedule, earlier: nat, later: nat)
    requires SoundSchedule(s) && earlier <= later
    ensures Linear(s, earlier) <= Linear(s, later) && Stepped(s, earlier) <= Stepped(s, later)
  {
    LinearMonotone(s, earlier, later);
    SteppedMonotone(s, earlier, later);
  }

  /** Between cliff and end the linear curve is the elapsed part of the total, rounded down. */
  lemma {:induction false} LinearIsElapsedPart(s: Schedule, ledger: nat, vested: int)
    requires SoundSchedule(s) && s.kind == 0 && s.cliff <= ledger < s.end
    requires Rounded(vested, s.total * (ledger - s.start), s.end - s.start)
    ensures Vested(s, ledger) == vested
  {
    RoundedIsTruncDiv(vested, s.total * (ledger - s.start), s.end - s.start);
  }

  /** `k` is the number of whole steps of `length` ledgers that fit into `elapsed`, at most `steps`. */
  predicate StepsIn(k: nat, length: int, elapsed: int, steps: nat) {
    k <= steps && k * length <= elapsed && (k == steps || elapsed < (k + 1) * length)
  }

  lemma {:induction false} StepsInIsQuotient(k: nat, length: int, elapsed: int, steps: nat)
    requires 0 < length && 0 <= elapsed && StepsIn(k, length, elapsed, steps)
    ensures k == Min(elapsed / length, steps)
  {
    FloorDivBounds(elapsed, length);
    QuotientIsGreatest(elapsed, length, k);
    if k < steps {
      assert elapsed / length * length < (k + 1) * length;
      MulCancel(elapsed / length, k + 1, length);
    }
  }

  /**
   * The step curve releases one of `steps` equal parts for every whole step elapsed, a step being the duration over
   * the number of steps, rounded down; steps of no length release nothing before the end, and no steps everything.
   */
  lemma {:induction false} SteppedIsWholeSteps(s: Schedule, ledger: nat, length: int, k: nat, vested: int)
    requires SoundSchedule(s) && s.kind == 1 && s.cliff <= ledger < s.end
    requires s.steps > 0 ==>
      && Rounded(length, s.end - s.start, s.steps)
      && (if length == 0 then k == 0 else StepsIn(k, length, ledger - s.start, s.steps))
      && Rounded(vested, s.total * k, s.steps)
    ensures Vested(s, ledger) == if s.steps > 0 then vested else s.total
  {
    if s.steps > 0 {
      RoundedIsTruncDiv(length, s.end - s.start, s.steps);
      FloorDivBounds(s.end - s.start, s.steps);
      if length > 0 { StepsInIsQuotient(k, length, ledger - s.start, s.steps); }
      RoundedIsTruncDiv(vested, s.total * k, s.steps);
    }
  }

  // ---------- Step against linear ----------

  /** `k` whole steps out of `n` are at most `e` ledgers out of `n * q`. */
  lemma {:induction false} StepBelowLinear(total: int, k: int, n: int, e: int, q: int)
    requires 0 < total && 0 <= k && 0 < n && 0 < q && k * q <= e
    ensures n * q > 0
    ensures TruncDiv(total * k, n) <= TruncDiv(total * e, n * q)
  {
    MulMono(1, 1, n, q);
    MulNonNegative(total, k);
    MulNonNegative(k, q);
    MulNonNegative(total, e);
    TruncDivBounds(total * k, n);
    var p := TruncDiv(total * k, n);
    assert (p * n) * q <= (total * k) * q;
    assert (total * k) * q == total * (k * q);
    MulMono(total, k * q, total, e);
    assert p * (n * q) == (p * n) * q;
    QuotientIsGreatest(total * e, n * q, p);
  }

  /** `lin` of `n * q` parts out of less than `k + 1` whole steps is less than `k + 1` of `n` parts. */
  lemma {:induction false} LinearBelowNextStep(total: int, k: int, n: int, e: int, q: int, lin: int)
    requires 0 < total && 0 < q && 0 <= e < k * q + q && lin * (n * q) <= total * e
    ensures lin * n < total * k + total
  {
    var next := k * q + q;
    assert total * e + total == total * (e + 1);
    assert total * (e + 1) <= total * next by { MulMono(total, e + 1, total, next); }
    assert total * next == (total * k + total) * q;
    assert lin * (n * q) == (lin * n) * q;
    MulCancel(lin * n, total * k + total, q);
  }

  /** ... and behind by less than one step and one rounding. */
  lemma {:induction false} StepNotFarBehind(total: int, k: int, n: int, e: int, q: int)
    requires 0 < total && 0 <= k && 0 < n && 0 < q && 0 <= e < k * q + q
    ensures n * q > 0
    ensures (TruncDiv(total * e, n * q) - TruncDiv(total * k, n)) * n < total + n
  {
    MulMono(1, 1, n, q);
    MulNonNegative(total, k);
    MulNonNegative(total, e);
    var lin, p := TruncDiv(total * e, n * q), TruncDiv(total * k, n);
    TruncDivBounds(total * e, n * q);
    LinearBelowNextStep(total, k, n, e, q, lin);
    TruncDivBounds(total * k, n);
    BehindInSteps(lin, p, n, total * k, total);
  }

  lemma {:induction false} BehindInSteps(lin: int, p: int, n: int, vested: int, total: int)
    requires lin * n < vested + total && vested < p * n + n
    ensures (lin - p) * n < total + n
  {
    assert (lin - p) * n == lin * n - p * n;
  }

  lemma {:induction false} WholeSteps(e: int, q: int, n: int)
    requires 0 <= e < n * q && 0 < q && 0 < n
    ensures Min(e / q, n) == e / q && (e / q) * q <= e < (e / q) * q + q
  {
    FloorDivBounds(e, q);
    MulCancel(e / q, n, q);
  }

  predicate Divides(n: nat, d: nat) { n > 0 && d % n == 0 }

  /** When the steps divide the duration, step vesting trails linear vesting by less than total / steps + 1. */
  lemma {:induction false} StepTrailsLinear(s: Schedule, ledger: nat)
    requires SoundSchedule(s) && Divides(s.steps, s.end - s.start)
    ensures Stepped(s, ledger) <= Linear(s, ledger)
    ensures (Linear(s, ledger) - Stepped(s, ledger)) * s.steps < s.total + s.steps
  {
    if s.cliff <= ledger < s.end {
      StepTrailsWithin(s.total, ledger - s.start, s.steps, s.end - s.start);
    } else {
      MulNonNegative(0, s.steps);
    }
  }

  lemma {:induction false} WholeStepLength(n: int, d: int)
    requires 0 < n && 0 < d && d % n == 0
    ensures 0 < d / n && n * (d / n) == d
  {
    var q := d / n;
    assert d == n * q + d % n;
    MulSwap(n, q);
    MulCancel(0, q, n);
  }

  lemma {:induction false} StepTrailsWithin(total: int, e: int, n: nat, d: int)
    requires 0 < total && 0 <= e < d && Divides(n, d)
    ensures 0 < d / n
    ensures var lin, step := TruncDiv(total * e, d), TruncDiv(total * Min(e / (d / n), n), n);
      step <= lin && (lin - step) * n < total + n
  {
    WholeStepLength(n, d);
    WholeSteps(e, d / n, n);
    StepBelowLinear(total, e / (d / n), n, e, d / n);
    StepNotFarBehind(total, e / (d / n), n, e, d / n);
  }

  /** A ledger at which step vesting has run ahead: all steps are done but the end is not reached. */
  function AheadAt(s: Schedule): nat
    requires SoundSchedule(s)
  {
    if s.steps == 0 then s.cliff
    else Max(s.cliff, s.start + s.steps * ((s.end - s.start) / s.steps))
  }

  lemma {:induction false} StepsLeaveARemainder(d: nat, n: nat)
    requires 0 < n <= d && d % n != 0
    ensures 0 < d / n && n * (d / n) < d
  {
    FloorDivBounds(d, n);
    QuotientIsGreatest(d, n, 1);
  }

  lemma {:induction false} StepRunsAhead(s: Schedule)
    requires SoundSchedule(s) && (s.steps == 0 || (s.steps <= s.end - s.start && (s.end - s.start) % s.steps != 0))
    ensures Linear(s, AheadAt(s)) < Stepped(s, AheadAt(s))
  {
    var m := AheadAt(s);
    var d, n := s.end - s.start, s.steps;
    if n > 0 {
      StepsLeaveARemainder(d, n);
      var q := d / n;
      QuotientIsGreatest(m - s.start, q, n);
      Fraction(s.total, n, n);
    }
    Fraction(s.total, m - s.start, d);
  }

  lemma {:induction false} StepTrails(s: Schedule, ledger: nat)
    requires SoundSchedule(s) && s.steps > 0 && (Divides(s.steps, s.end - s.start) || s.end - s.start < s.steps)
    ensures Stepped(s, ledger) <= Linear(s, ledger)
  {
    if Divides(s.steps, s.end - s.start) {
      StepTrailsLinear(s, ledger);
    } else {
      NoStepCompletes(s.end - s.start, s.steps);
      VestedBounds(s, ledger);
    }
  }

  lemma {:induction false} NoStepCompletes(d: nat, n: nat)
    requires d < n
    ensures d / n == 0
  {
  }

  /**
   * Step vesting never runs ahead of linear vesting if and only if there are steps and they divide the duration,
   * or there are more steps than ledgers (when nothing is released before the end).
   */
  lemma {:induction false} StepNeverAheadIff(s: Schedule)
    requires SoundSchedule(s)
    ensures (forall ledger: nat :: Stepped(s, ledger) <= Linear(s, ledger))
       <==> s.steps > 0 && (Divides(s.steps, s.end - s.start) || s.end - s.start < s.steps)
  {
    if s.steps > 0 && (Divides(s.steps, s.end - s.start) || s.end - s.start < s.steps) {
      forall ledger: nat ensures Stepped(s, ledger) <= Linear(s, ledger) { StepTrails(s, ledger); }
    } else {
      StepRunsAhead(s);
    }
  }

  // ---------- Claiming ----------

  /** What a claim at `ledger` mints; a claim of nothing is refused and mints nothing. */
  function Claimable(s: Schedule, ledger: nat): int
    requires SoundSchedule(s)
  {
    Vested(s, ledger) - s.claimed
  }

  function AfterClaim(s: Schedule, ledger: nat): (t: Schedule)
    requires SoundSchedule(s)
    ensures SoundSchedule(t)
  {
    VestedBounds(s, ledger);
    if Claimable(s, ledger) > 0 then s.(claimed := s.claimed + Claimable(s, ledger)) else s
  }

  predicate Ascending(ledgers: seq<nat>) {
    forall i, j :: 0 <= i < j < |ledgers| ==> ledgers[i] <= ledgers[j]
  }

  function AfterClaims(s: Schedule, ledgers: seq<nat>): Schedule
    requires SoundSchedule(s)
    decreases |ledgers|
  {
    if ledgers == [] then s else AfterClaims(AfterClaim(s, ledgers[0]), ledgers[1..])
  }

  /** Without changes to the schedule, claiming often mints the same in total as claiming once at the last ledger. */
  lemma {:induction false} ClaimingOftenIsClaimingOnce(s: Schedule, ledgers: seq<nat>)
    requires SoundSchedule(s) && ledgers != [] && Ascending(ledgers)
    ensures AfterClaims(s, ledgers) == AfterClaim(s, ledgers[|ledgers| - 1])
    ensures AfterClaims(s, ledgers).claimed == Max(s.claimed, Vested(s, ledgers[|ledgers| - 1]))
    decreases |ledgers|
  {
    if |ledgers| > 1 {
      var t := AfterClaim(s, ledgers[0]);
      assert Ascending(ledgers[1..]);
      ClaimingOftenIsClaimingOnce(t, ledgers[1..]);
      VestedMonotone(s, ledgers[0], ledgers[|ledgers| - 1]);
    }
  }
}
