/** Who pays and who is paid by each call of the campaign, and how much, in plain numbers. */
module CampaignMoney {
  import opened Common
  import opened CampaignSpec
  import opened CampaignFrames
  import opened CampaignSolvency
  import opened CampaignSettlement
  import opened CampaignPayout
  import RL = RateLimiter

  /** The contract pays `amount` to `to`, and nobody else's tokens move. */
  ghost predicate PaidTo(b: Books, d: Books, to: Address, amount: int) {
    d.held == b.held - amount && Grown(b.wallets, d.wallets, to, amount)
  }

  ghost predicate TakenFrom(b: Books, d: Books, from: Address, amount: int) {
    0 <= amount <= Get(b.wallets, from) && PaidTo(b, d, from, -amount)
  }

  ghost predicate Received(b: Books, d: Books, from: Address, amount: int, token: Token) {
    if token == CampaignToken then TakenFrom(b, d, from, amount) else d.held == b.held && d.wallets == b.wallets
  }

  /** What is owed to `who` grows, by `amount` as contribution and `fee` as insurance; to everybody else it stays. */
  ghost predicate Credited(b: Books, d: Books, who: Address, amount: int, fee: int) {
    && Grown(b.contributions, d.contributions, who, amount)
    && Grown(b.insuranceFees, d.insuranceFees, who, fee) && d.pool == b.pool + fee
  }

  predicate SameDebts(b: Books, d: Books) { d.(held := b.held, wallets := b.wallets) == b }

  predicate CanPay(b: Books, from: Address, amount: int, token: Token) {
    match token
    case CampaignToken => 0 <= amount <= Get(b.wallets, from)
    case Foreign(_, pays) => pays && 0 <= amount
  }

  // ---------- Paying out ----------

  /** The platform's part of the total in basis points, and the creator's part of the rest, vested from the cliff on. */
  predicate DueOnWithdrawal(c: Campaign, now: nat, fee: int, paid: int) {
    && Rounded(fee, c.total * (if c.terms.platform.Some? then c.terms.platform.value.feeBps else 0), 10_000)
    && match c.terms.vesting
       case None => paid == c.total - fee
       case Some(v) =>
         if v.cliff <= now < v.cliff + v.duration then Rounded(paid, (c.total - fee) * (now - v.cliff), v.duration)
         else paid == c.total - fee
  }

  lemma {:induction false} DueIsPaid(c: Campaign, now: nat, fee: int, paid: int)
    requires Checked(c) && 0 <= c.total && DueOnWithdrawal(c, now, fee, paid) && PastCliff(c, now)
    ensures fee == PlatformFee(c) && paid == Payout(c, now) && 0 <= fee && 0 <= paid
  {
    PaidWithinTotal(c, now);
    RoundedIsTruncDiv(fee, c.total * (if c.terms.platform.Some? then c.terms.platform.value.feeBps else 0), 10_000);
    if c.terms.vesting.Some? {
      var v := c.terms.vesting.value;
      if now < v.cliff + v.duration {
        RoundedIsTruncDiv(paid, (c.total - fee) * (now - v.cliff), v.duration);
      }
    }
  }

  /** Each wallet after a withdrawal: the platform's has its fee and the creator's has what is vested. */
  ghost predicate WithdrawalPaid(c: Campaign, d: Campaign, fee: int, paid: int) {
    && (forall a :: Get(d.books.wallets, a) == Get(c.books.wallets, a)
          + (if c.terms.platform.Some? && a == c.terms.platform.value.address then fee else 0)
          + (if a == c.creator then paid else 0))
    && d.books.held == c.books.held - fee - paid && d.total == 0 && d.status == Successful
    && d.(books := c.books, total := c.total, status := c.status) == c
    && SameDebts(c.books, d.books)
  }

  /**
   * A withdrawal is accepted exactly when the campaign is active, deadline and cliff are over, its goal is met and both
   * amounts are held; it pays the fee to the platform, the vested part to the creator, and nobody else.
   */
  lemma {:induction false} WithdrawPays(c: Campaign, now: nat, fee: int, paid: int)
    requires Checked(c) && (0 <= c.total ==> DueOnWithdrawal(c, now, fee, paid))
    ensures var r := Withdraw(c, now);
      && (r.Ok? <==> && c.status == Active && c.deadline <= now && c.goal <= c.total
                     && (c.terms.vesting.Some? ==> c.terms.vesting.value.cliff <= now) && fee + paid <= c.books.held)
      && (r.Ok? ==> WithdrawalPaid(c, r.value, fee, paid))
  {
    if 0 <= c.total && PastCliff(c, now) { DueIsPaid(c, now, fee, paid); }
  }

  /**
   * An emergency execution is accepted exactly when the session's lock is over, its approvals suffice and the total is
   * held; it pays the whole total to the creator, who is the admin, and ends the session.
   */
  lemma {:induction false} EmergencyPays(c: Campaign, now: nat)
    ensures var r, e := ExecuteEmergency(c, now), c.emergency;
      && (r.Ok? <==> 0 < e.lock <= now && (0 < e.required ==> e.required <= e.count)
                     && (0 < c.total ==> c.total <= c.books.held))
      && (r.Ok? ==> var d := r.value; var paid := if 0 < c.total then c.total else 0;
            && PaidTo(c.books, d.books, c.creator, paid) && SameDebts(c.books, d.books)
            && d.total == c.total - paid && d.emergency == e.(lock := 0)
            && d.(books := c.books, total := c.total, emergency := e) == c)
  {
  }

  // ---------- Contributing ----------

  /** `fee` in basis points of `amount`, when there is an insurance. */
  predicate IsInsuranceFee(c: Campaign, amount: int, fee: int) {
    Rounded(fee, amount * (if c.insurance.Some? then c.insurance.value else 0), 10_000)
  }

  /** The sponsor's part in basis points of `amount`, as far as the rest of the maximum match reaches. */
  predicate IsMatch(c: Campaign, amount: int, wanted: int, topUp: int) {
    match c.matching
    case None => topUp == 0
    case Some(m) =>
      && Rounded(wanted, amount * m.ratioBps, 10_000)
      && topUp == (if m.maxMatch <= c.matched || wanted < 0 then 0
                   else if wanted <= m.maxMatch - c.matched then wanted else m.maxMatch - c.matched)
  }

  lemma {:induction false} FeeAndMatch(c: Campaign, amount: int, fee: int, wanted: int, topUp: int)
    requires 0 < amount && IsInsuranceFee(c, amount, fee) && IsMatch(c, amount - fee, wanted, topUp)
    ensures 0 <= fee == InsuranceFee(c.insurance, amount) && topUp == MatchFor(c.matching, c.matched, amount - fee)
  {
    var bps := if c.insurance.Some? then c.insurance.value else 0;
    MulNonNegative(amount, bps);
    RoundedIsTruncDiv(fee, amount * bps, 10_000);
    TruncDivBounds(amount * bps, 10_000);
    if c.matching.Some? {
      RoundedIsTruncDiv(wanted, (amount - fee) * c.matching.value.ratioBps, 10_000);
    }
  }

  /** The conditions of a contribution besides the rate limit. */
  predicate MayContribute(
    c: Campaign, now: nat, access: Access, who: Address, amount: int, token: Token, message: nat)
  {
    && 0 < amount && message <= 256 && c.status == Active && now < c.deadline && access == Allowed
    && c.terms.minAmount <= amount
    && (0 < c.terms.maxAmount ==> Get(c.books.contributions, who) + amount <= c.terms.maxAmount)
    && TokenAccepted(c.terms.accepted, token)
    && CanPay(c.books, who, amount, token)
  }

  lemma {:induction false} ContributeAccepted(
    c: Campaign, now: nat, access: Access, who: Address, amount: int, token: Token, message: nat)
    ensures Contribute(c, now, access, who, amount, token, message).Ok?
       <==> MayContribute(c, now, access, who, amount, token, message) && Limited(c.limiter, who, now, amount).Some?
  {
  }

  /**
   * An accepted contribution: the contributor pays `amount`; of it the fee goes to the insurance, the rest is the
   * contribution; and the total grows by that and the sponsor's match.
   */
  lemma {:induction false} ContributePays(
    c: Campaign, now: nat, access: Access, who: Address, amount: int, token: Token, message: nat,
    fee: int, wanted: int, topUp: int)
    requires Contribute(c, now, access, who, amount, token, message).Ok?
    requires IsInsuranceFee(c, amount, fee) && IsMatch(c, amount - fee, wanted, topUp)
    ensures var d := Contribute(c, now, access, who, amount, token, message).value;
      && Received(c.books, d.books, who, amount, token)
      && Credited(c.books, d.books, who, amount - fee, fee)
      && d.total == c.total + (amount - fee) + topUp && d.matched == c.matched + topUp
      && d.(books := c.books, total := c.total, matched := c.matched, limiter := c.limiter) == c
  {
    FeeAndMatch(c, amount, fee, wanted, topUp);
    DepositCredits(Receive(c.books, who, amount, token).value, who, amount, fee);
    PullTakes(c.books, who, amount);
  }

  /** The history notes the amount paid, its time, and the contribution as it stands then. */
  lemma {:induction false} ContributionIsNoted(
    c: Campaign, now: nat, access: Access, who: Address, amount: int, token: Token, message: nat)
    requires Contribute(c, now, access, who, amount, token, message).Ok?
    ensures var d := Contribute(c, now, access, who, amount, token, message).value;
      var noted := if who in c.limiter.history then c.limiter.history[who] else [];
      d.limiter.history
      == c.limiter.history[who := noted + [Contribution(RL.Entry(amount, now), Get(d.books.contributions, who))]]
  {
  }

  lemma {:induction false} DepositCredits(b: Books, who: Address, amount: int, fee: int)
    requires 0 <= fee
    ensures var d := Deposit(b, who, amount, fee);
      Credited(b, d, who, amount - fee, fee) && d.held == b.held && d.wallets == b.wallets
  {
  }

  lemma {:induction false} PullTakes(b: Books, from: Address, amount: int)
    ensures Pull(b, from, amount).Ok? ==>
      TakenFrom(b, Pull(b, from, amount).value, from, amount) && SameDebts(b, Pull(b, from, amount).value)
  {
  }

  /** A delegated contribution: the delegate pays, the delegator is credited, within what was delegated. */
  lemma {:induction false} OnBehalfPays(
    c: Campaign, now: nat, access: Access, delegator: Address, delegate: Address, amount: int, token: Token)
    ensures var r := ContributeOnBehalf(c, now, access, delegator, delegate, amount, token);
      && (r.Ok? <==> && delegator in c.delegations && c.delegations[delegator].active
                     && c.delegations[delegator].delegate == delegate
                     && Get(c.delegated, delegator) + amount <= c.delegations[delegator].amount
                     && c.terms.minAmount <= amount && c.status == Active && now < c.deadline && access == Allowed
                     && CanPay(c.books, delegate, amount, token))
      && (r.Ok? ==> var d := r.value;
            && Received(c.books, d.books, delegate, amount, token)
            && Credited(c.books, d.books, delegator, amount, 0)
            && Grown(c.delegated, d.delegated, delegator, amount) && d.total == c.total + amount
            && d.(books := c.books, total := c.total, delegated := c.delegated) == c)
  {
  }

  /** An instalment: due one interval after the last one, paid by and credited to the owner of the plan. */
  lemma {:induction false} RecurringPays(c: Campaign, now: nat, who: Address)
    ensures var r := ExecuteRecurring(c, now, who);
      && (r.Ok? <==> && who in c.plans && now <= c.plans[who].endDate
                     && c.plans[who].lastExecuted + c.plans[who].interval <= now
                     && 0 <= c.plans[who].amount <= Get(c.books.wallets, who))
      && (r.Ok? ==> var d, plan := r.value, c.plans[who];
            && TakenFrom(c.books, d.books, who, plan.amount) && Credited(c.books, d.books, who, plan.amount, 0)
            && d.total == c.total + plan.amount && d.plans == c.plans[who := plan.(lastExecuted := now)]
            && d.(books := c.books, total := c.total, plans := c.plans) == c)
  {
  }

  // ---------- Refunds and rewards ----------

  /** A partial refund, in any status: at most half goes to the contributor, and comes off contribution and total. */
  lemma {:induction false} PartialRefundPays(c: Campaign, who: Address, amount: int, half: int)
    requires Rounded(half, Get(c.books.contributions, who), 2)
    ensures var r := RefundPartial(c, who, amount);
      && (r.Ok? <==> 0 <= amount <= half && amount <= c.books.held)
      && (r.Ok? ==> var d := r.value;
            && PaidTo(c.books, d.books, who, amount) && Credited(c.books, d.books, who, -amount, 0)
            && d.total == c.total - amount && d.(books := c.books, total := c.total) == c)
  {
    RoundedIsTruncDiv(half, Get(c.books.contributions, who), 2);
  }

  /** When refunds are open, on any books: the refund goes to the contributor, and clears what is paid. */
  lemma {:induction false} RefundPays(c: Campaign, now: nat, who: Address)
    ensures var r := RefundSingle(c, now, who); var owed := Get(c.books.contributions, who);
      && (r.Ok? <==> (c.status == Cancelled || (c.deadline <= now && c.total < c.goal))
                     && (0 < owed ==> owed <= c.books.held))
      && (r.Ok? ==> var d := r.value; var paid := if 0 < owed then owed else 0;
            && PaidTo(c.books, d.books, who, paid) && Credited(c.books, d.books, who, -paid, 0)
            && d.(books := c.books) == c)
  {
  }

  /** An insurance claim likewise pays the fees of the contributor out of the pool. */
  lemma {:induction false} ClaimPays(c: Campaign, now: nat, who: Address)
    ensures var r := ClaimInsurance(c, now, who); var fee := Get(c.books.insuranceFees, who);
      && (r.Ok? <==> (c.status == Cancelled || (c.deadline <= now && c.total < c.goal))
                     && (fee != 0 ==> 0 <= fee <= c.books.pool && fee <= c.books.held))
      && (r.Ok? ==> var d := r.value;
            && PaidTo(c.books, d.books, who, fee) && Credited(c.books, d.books, who, 0, -fee)
            && d.(books := c.books) == c)
  {
  }

  predicate InFirst(list: seq<Address>, n: nat, a: Address) { a in (if |list| <= n then list else list[..n]) }

  /** A batch pays everybody among its first 25 entries in full, and nobody else. */
  lemma {:induction false} BatchPaysTheFirst25(c: Campaign, now: nat, list: seq<Address>)
    requires Balanced(c.books) && (c.status == Cancelled || (c.deadline <= now && c.total < c.goal))
    ensures RefundBatch(c, now, list).Ok?
    ensures var (d, n) := RefundBatch(c, now, list).value;
      && d.(books := c.books) == c
      && forall a ::
         && Get(d.books.wallets, a) == Get(c.books.wallets, a)
            + (if InFirst(list, 25, a) then Get(c.books.contributions, a) else 0)
         && Get(d.books.contributions, a) == (if InFirst(list, 25, a) then 0 else Get(c.books.contributions, a))
  {
    RefundAllSettles(c.books, BatchPrefix(list));
  }

  /**
   * A reward is paid out of the contract only in its own token: `perUnit` for every million contributed, rounded
   * toward zero, unless the contributor was paid a positive one before.
   */
  lemma {:induction false} RewardPays(c: Campaign, who: Address, pays: bool, reward: int)
    requires c.rewards.config.Some?
    requires Rounded(reward, Get(c.books.contributions, who) * c.rewards.config.value.perUnit, 1_000_000)
    ensures var r, own := DistributeRewards(c, who, pays), c.rewards.config.value.own;
      var again := 0 < Get(c.rewards.claimed, who);
      && (r.Ok? <==> Get(c.books.contributions, who) != 0
                     && (again || (0 <= reward && if own then reward <= c.books.held else pays)))
      && (r.Ok? && again ==> r.value == c)
      && (r.Ok? && !again ==> var d := r.value;
            && PaidTo(c.books, d.books, who, if own then reward else 0) && SameDebts(c.books, d.books)
            && d.rewards == c.rewards.(claimed := c.rewards.claimed[who := reward],
                                       distributed := c.rewards.distributed + reward)
            && d.(books := c.books, rewards := c.rewards) == c)
  {
    RoundedIsTruncDiv(reward, Get(c.books.contributions, who) * c.rewards.config.value.perUnit, 1_000_000);
  }

  // ---------- Conservation ----------

  /** All tokens of the campaign's own kind: what it holds and what is in the wallets. */
  ghost function AllTokens(b: Books): int { b.held + Sum(b.wallets) }

  lemma {:induction false} PullConserves(b: Books, from: Address, amount: int)
    ensures Pull(b, from, amount).Ok? ==> AllTokens(Pull(b, from, amount).value) == AllTokens(b)
  {
    SumUpdate(b.wallets, from, Get(b.wallets, from) - amount);
  }

  lemma {:induction false} PayConserves(b: Books, to: Address, amount: int)
    ensures Pay(b, to, amount).Ok? ==> AllTokens(Pay(b, to, amount).value) == AllTokens(b)
  {
    SumUpdate(b.wallets, to, Get(b.wallets, to) + amount);
  }

  lemma {:induction false} RefundAllConserves(b: Books, list: seq<Address>)
    requires RefundAll(b, list).Ok?
    ensures AllTokens(RefundAll(b, list).value) == AllTokens(b)
    decreases |list|
  {
    if list != [] {
      PayConserves(b, list[0], Get(b.contributions, list[0]));
      RefundAllConserves(RefundOne(b, list[0]).value, list[1..]);
    }
  }

  lemma {:induction false} DepositsConserve(c: Campaign, t: Timed)
    requires KindOf(t.op) == Deposits
    ensures AllTokens(Step(c, t).books) == AllTokens(c.books)
  {
    match t.op
    case ContributeOp(_, who, amount, _, _) => PullConserves(c.books, who, amount);
    case OnBehalfOp(_, _, delegate, amount, _) => PullConserves(c.books, delegate, amount);
    case ExecuteRecurringOp(who) => if who in c.plans { PullConserves(c.books, who, c.plans[who].amount); }
  }

  lemma {:induction false} RefundsConserve(c: Campaign, t: Timed)
    requires KindOf(t.op) == Refunds && Apply(c, t).Ok?
    ensures AllTokens(Step(c, t).books) == AllTokens(c.books)
  {
    match t.op
    case RefundSingleOp(who) => PayConserves(c.books, who, Get(c.books.contributions, who));
    case RefundBatchOp(list) => RefundAllConserves(c.books, BatchPrefix(list));
    case RefundPartialOp(who, amount) => PayConserves(c.books, who, amount);
    case ClaimInsuranceOp(who) => PayConserves(c.books, who, Get(c.books.insuranceFees, who));
  }

  lemma {:induction false} WithdrawConserves(c: Campaign, now: nat)
    requires Withdraw(c, now).Ok?
    ensures AllTokens(Withdraw(c, now).value.books) == AllTokens(c.books)
  {
    match c.terms.platform
    case None => PayConserves(c.books, c.creator, Payout(c, now));
    case Some(p) =>
      PayConserves(c.books, p.address, PlatformFee(c));
      PayConserves(Pay(c.books, p.address, PlatformFee(c)).value, c.creator, Payout(c, now));
  }

  lemma {:induction false} StepConserves(c: Campaign, t: Timed)
    ensures AllTokens(Step(c, t).books) == AllTokens(c.books)
  {
    if Apply(c, t).Ok? {
      match KindOf(t.op)
      case Deposits => DepositsConserve(c, t);
      case Refunds => RefundsConserve(c, t);
      case Payouts =>
        if t.op.WithdrawOp? { WithdrawConserves(c, t.now); } else { PayConserves(c.books, c.creator, c.total); }
      case Settings => SettingsFrame(c, t);
      case Rewarding => if t.op.DistributeOp? { RewardsConserve(c, t.op.who, t.op.pays); }
      case Restarts => RestartsFrame(c, t);
      case _ => MoneyFrame(c, t);
    }
  }

  lemma {:induction false} RewardsConserve(c: Campaign, who: Address, pays: bool)
    requires DistributeRewards(c, who, pays).Ok?
    ensures AllTokens(DistributeRewards(c, who, pays).value.books) == AllTokens(c.books)
  {
    if c.rewards.config.Some? { PayConserves(c.books, who, RewardFor(c, c.rewards.config.value, who)); }
  }

  /** Over any run no token of the campaign's own kind is made or lost: contract and wallets only exchange them. */
  lemma {:induction false} TokensAreConserved(c: Campaign, calls: seq<Timed>)
    ensures AllTokens(Run(c, calls).books) == AllTokens(c.books)
    decreases |calls|
  {
    if calls != [] {
      StepConserves(c, calls[0]);
      TokensAreConserved(Step(c, calls[0]), calls[1..]);
    }
  }
}
