/** What a campaign has raised against what it holds, and when the raised funds can be paid out at all. */
module CampaignPayout {
  import opened Common
  import opened Validation
  import opened CampaignSpec
  import opened CampaignFrames
  import opened CampaignSolvency
  import EM = Emergency

  /** The part of the raised total that is nobody's current contribution. */
  ghost function Beyond(c: Campaign): int { c.total - Sum(c.books.contributions) }

  /**
   * What one call adds to it: the sponsor's match of a contribution, and what a full refund pays out; a payout or a
   * clone clears the total and takes all of it away.
   */
  function BeyondBy(c: Campaign, t: Timed): int {
    match t.op
    case ContributeOp(_, _, _, _, _) => Step(c, t).matched - c.matched
    case RefundSingleOp(_) => c.books.held - Step(c, t).books.held
    case RefundBatchOp(_) => c.books.held - Step(c, t).books.held
    case WithdrawOp => Step(c, t).total - c.total
    case ExecuteEmergencyOp => Step(c, t).total - c.total
    case CloneOp(_, _, _) => Step(c, t).total - c.total
    case _ => 0
  }

  function TotalBeyond(c: Campaign, calls: seq<Timed>): int
    decreases |calls|
  {
    if calls == [] then 0 else BeyondBy(c, calls[0]) + TotalBeyond(Step(c, calls[0]), calls[1..])
  }

  predicate Clears(k: Kind) { k == Payouts || k == Restarts }

  predicate NeverCleared(calls: seq<Timed>) {
    forall i :: 0 <= i < |calls| ==> !Clears(KindOf(calls[i].op))
  }

  // ---------- One call ----------

  lemma {:induction false} RefundAllMovesAlike(b: Books, list: seq<Address>)
    requires RefundAll(b, list).Ok?
    ensures var d := RefundAll(b, list).value;
      && 0 <= b.held - d.held
      && b.held - d.held == Sum(b.contributions) - Sum(d.contributions)
    decreases |list|
  {
    if list != [] {
      SumUpdate(b.contributions, list[0], 0);
      RefundAllMovesAlike(RefundOne(b, list[0]).value, list[1..]);
    }
  }

  lemma {:induction false} ContributeBeyond(c: Campaign, t: Timed)
    requires t.op.ContributeOp? && Apply(c, t).Ok?
    ensures Beyond(Step(c, t)) == Beyond(c) + BeyondBy(c, t) && 0 <= BeyondBy(c, t)
  {
    var before := c.books.contributions;
    SumUpdate(before, t.op.who, Get(before, t.op.who) + t.op.amount - InsuranceFee(c.insurance, t.op.amount));
  }

  lemma {:induction false} FullRefundsBeyond(c: Campaign, t: Timed)
    requires (t.op.RefundSingleOp? || t.op.RefundBatchOp?) && Apply(c, t).Ok?
    ensures Beyond(Step(c, t)) == Beyond(c) + BeyondBy(c, t) && 0 <= BeyondBy(c, t)
  {
    if t.op.RefundSingleOp? {
      SumUpdate(c.books.contributions, t.op.who, 0);
    } else {
      RefundAllMovesAlike(c.books, BatchPrefix(t.op.list));
    }
  }

  /** Recurring, delegated and partially refunded amounts move the total and the contribution alike. */
  lemma {:induction false} RecurringKeepsBeyond(c: Campaign, now: nat, who: Address)
    requires ExecuteRecurring(c, now, who).Ok?
    ensures Beyond(ExecuteRecurring(c, now, who).value) == Beyond(c)
  {
    SumUpdate(c.books.contributions, who, Get(c.books.contributions, who) + c.plans[who].amount);
  }

  lemma {:induction false} OnBehalfKeepsBeyond(
    c: Campaign, now: nat, access: Access, delegator: Address, delegate: Address, amount: int, token: Token)
    requires ContributeOnBehalf(c, now, access, delegator, delegate, amount, token).Ok?
    ensures Beyond(ContributeOnBehalf(c, now, access, delegator, delegate, amount, token).value) == Beyond(c)
  {
    var paid := Receive(c.books, delegate, amount, token).value;
    assert ContributeOnBehalf(c, now, access, delegator, delegate, amount, token).value
      == OnBehalf(c, delegator, amount, paid);
    SumUpdate(c.books.contributions, delegator, Get(c.books.contributions, delegator) + amount);
  }

  lemma {:induction false} PartialRefundKeepsBeyond(c: Campaign, who: Address, amount: int)
    requires RefundPartial(c, who, amount).Ok?
    ensures Beyond(RefundPartial(c, who, amount).value) == Beyond(c)
  {
    SumUpdate(c.books.contributions, who, Get(c.books.contributions, who) - amount);
  }

  lemma {:induction false} DepositsBeyond(c: Campaign, t: Timed)
    requires KindOf(t.op) == Deposits && Apply(c, t).Ok?
    ensures Beyond(Step(c, t)) == Beyond(c) + BeyondBy(c, t) && 0 <= BeyondBy(c, t)
  {
    match t.op
    case ContributeOp(_, _, _, _, _) => ContributeBeyond(c, t);
    case OnBehalfOp(access, delegator, delegate, amount, token) =>
      OnBehalfKeepsBeyond(c, t.now, access, delegator, delegate, amount, token);
    case ExecuteRecurringOp(who) => RecurringKeepsBeyond(c, t.now, who);
  }

  lemma {:induction false} RefundsBeyond(c: Campaign, t: Timed)
    requires KindOf(t.op) == Refunds && Apply(c, t).Ok?
    ensures Beyond(Step(c, t)) == Beyond(c) + BeyondBy(c, t) && 0 <= BeyondBy(c, t)
  {
    match t.op
    case RefundSingleOp(_) => FullRefundsBeyond(c, t);
    case RefundBatchOp(_) => FullRefundsBeyond(c, t);
    case RefundPartialOp(who, amount) => PartialRefundKeepsBeyond(c, who, amount);
    case ClaimInsuranceOp(_) =>
  }

  lemma {:induction false} PayoutsBeyond(c: Campaign, t: Timed)
    requires KindOf(t.op) == Payouts
    ensures Step(c, t).books.contributions == c.books.contributions
  {
    if t.op.WithdrawOp? {
      WithdrawKeepsContributions(c, t.now);
    } else {
      EmergencyKeepsContributions(c, t.now);
    }
  }

  lemma {:induction false} WithdrawKeepsContributions(c: Campaign, now: nat)
    ensures Withdraw(c, now).Ok? ==> Withdraw(c, now).value.books.contributions == c.books.contributions
  {
  }

  lemma {:induction false} EmergencyKeepsContributions(c: Campaign, now: nat)
    ensures ExecuteEmergency(c, now).Ok? ==> ExecuteEmergency(c, now).value.books.contributions == c.books.contributions
  {
  }

  lemma {:induction false} StepBeyond(c: Campaign, t: Timed)
    ensures Beyond(Step(c, t)) == Beyond(c) + BeyondBy(c, t)
    ensures !Clears(KindOf(t.op)) ==> 0 <= BeyondBy(c, t)
  {
    if Apply(c, t).Ok? {
      match KindOf(t.op)
      case Deposits => DepositsBeyond(c, t);
      case Refunds => RefundsBeyond(c, t);
      case Payouts => PayoutsBeyond(c, t);
      case Settings => SettingsFrame(c, t);
      case Rewarding => RewardsFrame(c, t);
      case Restarts => RestartsFrame(c, t);
      case _ => MoneyFrame(c, t);
    }
  }

  // ---------- Whole runs ----------

  /**
   * Over any run the raised total differs from the contributions by exactly the matches granted and the full refunds
   * paid, less what payouts and clones cleared; and it never falls behind while nothing clears it.
   */
  lemma {:induction false} RaisedIsAccounted(c: Campaign, calls: seq<Timed>)
    ensures Beyond(Run(c, calls)) == Beyond(c) + TotalBeyond(c, calls)
    ensures NeverCleared(calls) ==> 0 <= TotalBeyond(c, calls)
    decreases |calls|
  {
    if calls != [] {
      StepBeyond(c, calls[0]);
      RaisedIsAccounted(Step(c, calls[0]), calls[1..]);
    }
  }

  /** What `initialize` checks and `adjust_goal` keeps. */
  predicate Checked(c: Campaign) {
    0 < c.goal && (c.terms.platform.Some? ==> c.terms.platform.value.feeBps <= BPS)
  }

  lemma {:induction false} RunKeepsChecked(c: Campaign, calls: seq<Timed>)
    requires Checked(c)
    ensures Checked(Run(c, calls)) && Run(c, calls).terms == c.terms
    decreases |calls|
  {
    if calls != [] {
      TermsFrame(c, calls[0]);
      RunKeepsChecked(Step(c, calls[0]), calls[1..]);
    }
  }

  // ---------- Paying out ----------

  predicate PastCliff(c: Campaign, now: nat) {
    c.terms.vesting.Some? ==> c.terms.vesting.value.cliff <= now
  }

  predicate FullyVested(c: Campaign, now: nat) {
    c.terms.vesting.Some? ==> c.terms.vesting.value.cliff + c.terms.vesting.value.duration <= now
  }

  /** The conditions `withdraw` documents. */
  predicate MayWithdraw(c: Campaign, now: nat) {
    c.status == Active && c.deadline <= now && c.goal <= c.total
  }

  /** What a withdrawal transfers: the platform's fee and the creator's vested part of the rest. */
  function Paid(c: Campaign, now: nat): int { PlatformFee(c) + Payout(c, now) }

  /** `x * n / d` for a part `n` of `d` is a part of `x`. */
  lemma {:induction false} PartOf(x: int, n: int, d: int)
    requires 0 <= x && 0 <= n <= d && 0 < d
    ensures 0 <= TruncDiv(x * n, d) <= x
  {
    MulNonNegative(x, n);
    TruncDivBounds(x * n, d);
    MulMono(x, n, x, d);
    MulCancel(TruncDiv(x * n, d), x, d);
  }

  lemma {:induction false} PaidWithinTotal(c: Campaign, now: nat)
    requires Checked(c) && 0 <= c.total
    ensures 0 <= PlatformFee(c) && 0 <= Payout(c, now) && Paid(c, now) <= c.total
    ensures FullyVested(c, now) ==> Paid(c, now) == c.total
  {
    if c.terms.platform.Some? {
      PartOf(c.total, c.terms.platform.value.feeBps, BPS);
    }
    if c.terms.vesting.Some? {
      var v := c.terms.vesting.value;
      if v.cliff <= now < v.cliff + v.duration {
        PartOf(c.total - PlatformFee(c), now - v.cliff, v.duration);
      }
    }
  }

  /** In any state: both transfers go through exactly when their sum is held, and the cliff is the one other guard. */
  lemma {:induction false} WithdrawNeedsPaidHeld(c: Campaign, now: nat)
    requires Checked(c)
    ensures Withdraw(c, now).Ok? <==> MayWithdraw(c, now) && PastCliff(c, now) && Paid(c, now) <= c.books.held
  {
    if MayWithdraw(c, now) {
      PaidWithinTotal(c, now);
    }
  }

  /**
   * When a campaign can be paid out: after any run that keeps a solvent campaign solvent, a withdrawal past the cliff
   * that meets the documented conditions goes through if and only if the matches granted and the full refunds paid,
   * less what clones cleared, are covered by the insurance pool and what is not paid yet: matched amounts are counted
   * but never received.
   */
  lemma {:induction false} WithdrawalNeedsBeyondCovered(c: Campaign, calls: seq<Timed>, now: nat)
    requires Solvent(c) && Checked(c) && NothingUnbalances(c, calls)
    ensures var last := Run(c, calls); var unpaid := last.total - Paid(last, now);
      Withdraw(last, now).Ok?
      <==> (&& MayWithdraw(last, now) && PastCliff(last, now)
            && Beyond(c) + TotalBeyond(c, calls) <= last.books.pool + unpaid)
  {
    RunsAreSolventIff(c, calls);
    RaisedIsAccounted(c, calls);
    RunKeepsChecked(c, calls);
    WithdrawNeedsPaidHeld(Run(c, calls), now);
  }

  /** Once everything is vested, the pool alone has to cover them. */
  lemma {:induction false} WithdrawalNeedsMatchesCovered(c: Campaign, calls: seq<Timed>, now: nat)
    requires Solvent(c) && Checked(c) && FullyVested(c, now) && NothingUnbalances(c, calls)
    ensures var last := Run(c, calls);
      Withdraw(last, now).Ok? <==> MayWithdraw(last, now) && Beyond(c) + TotalBeyond(c, calls) <= last.books.pool
  {
    var last := Run(c, calls);
    WithdrawalNeedsBeyondCovered(c, calls, now);
    RunKeepsChecked(c, calls);
    if MayWithdraw(last, now) {
      PaidWithinTotal(last, now);
    }
  }

  lemma {:induction false} FreshCampaign(
    now: nat, creator: Address, terms: Terms, deadline: nat, goal: int, wallets: map<Address, int>)
    requires Initialize(now, creator, terms, deadline, goal, wallets).Ok?
    ensures var c := Initialize(now, creator, terms, deadline, goal, wallets).value; Checked(c) && Beyond(c) == 0
  {
  }

  /** For the whole life of a campaign that `initialize` accepts: the matches and refunds of its own run decide. */
  lemma {:induction false} LifeNeedsMatchesCovered(
    start: nat, creator: Address, terms: Terms, deadline: nat, goal: int, wallets: map<Address, int>,
    calls: seq<Timed>, now: nat)
    requires Initialize(start, creator, terms, deadline, goal, wallets).Ok?
    requires NothingUnbalances(Initialize(start, creator, terms, deadline, goal, wallets).value, calls)
    ensures var c := Initialize(start, creator, terms, deadline, goal, wallets).value;
      var last := Run(c, calls); var unpaid := last.total - Paid(last, now);
      Withdraw(last, now).Ok?
      <==> MayWithdraw(last, now) && PastCliff(last, now) && TotalBeyond(c, calls) <= last.books.pool + unpaid
  {
    InitializedIsSolvent(start, creator, terms, deadline, goal, wallets);
    FreshCampaign(start, creator, terms, deadline, goal, wallets);
    WithdrawalNeedsBeyondCovered(Initialize(start, creator, terms, deadline, goal, wallets).value, calls, now);
  }

  /** The emergency withdrawal is stuck in the same way. */
  lemma {:induction false} EmergencyNeedsTotalHeld(c: Campaign, now: nat)
    requires Solvent(c) && EM.Execute(c.emergency, now).Ok? && 0 < c.total
    ensures ExecuteEmergency(c, now).Ok? <==> Beyond(c) <= c.books.pool
  {
  }

  const ALICE := Address(1)
  const BOB := Address(2)

  const TERMS := Terms(0, 0, None, None, None)

  /** Alice's campaign is matched one to one, and Bob contributes. */
  function MatchedLife(): seq<Timed> {
    [Timed(1, SetupMatchingOp(BPS, 100)), Timed(2, ContributeOp(Allowed, BOB, 100, CampaignToken, 0))]
  }

  lemma {:induction false} BobIsMatched(c: Campaign)
    requires c == Initial(ALICE, TERMS, 10, 150, map[BOB := 100]).(matching := Some(Matching(BPS, 100)))
    ensures Contribute(c, 2, Allowed, BOB, 100, CampaignToken, 0).Ok?
    ensures var d := Contribute(c, 2, Allowed, BOB, 100, CampaignToken, 0).value;
      && d.total == 200 && d.books.held == 100 && d.status == Active
      && d.deadline == c.deadline && d.goal == c.goal && d.terms == c.terms
  {
    assert MatchFor(c.matching, 0, 100) == 100;
  }

  lemma {:induction false} RunOfTwo(c: Campaign, x: Timed, y: Timed)
    ensures Run(c, [x, y]) == Step(Step(c, x), y)
  {
    var d := Step(c, x);
    assert [x, y][1..] == [y] && [y][1..] == [];
    assert Run(c, [x, y]) == Run(d, [y]);
    assert Run(d, [y]) == Run(Step(d, y), []);
  }

  /** A concrete campaign that reaches its goal thanks to a match and can then not be withdrawn. */
  lemma {:induction false} MatchedCampaignIsStuck()
    ensures var c := Run(Initial(ALICE, TERMS, 10, 150, map[BOB := 100]), MatchedLife());
      MayWithdraw(c, 10) && c.total == 200 && c.books.held == 100 && Withdraw(c, 10) == Err(TransferFailed)
  {
    var c0 := Initial(ALICE, TERMS, 10, 150, map[BOB := 100]);
    var life := MatchedLife();
    var c1 := Step(c0, life[0]);
    assert c1 == c0.(matching := Some(Matching(BPS, 100)));
    BobIsMatched(c1);
    RunOfTwo(c0, life[0], life[1]);
    PaidWithinTotal(Step(c1, life[1]), 10);
    WithdrawNeedsPaidHeld(Step(c1, life[1]), 10);
  }
}
