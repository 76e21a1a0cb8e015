/** Solvency of a campaign: what it holds covers, to the unit, what it owes. */
module CampaignSolvency {
  import opened Common
  import opened Validation
  import opened CampaignSpec
  import opened CampaignFrames

  /** Tokens held are the contributions plus the insurance pool, and the pool is the sum of the fees paid in. */
  ghost predicate Balanced(b: Books) {
    && NonNegative(b.contributions) && NonNegative(b.insuranceFees)
    && b.pool == Sum(b.insuranceFees)
    && b.held == Sum(b.contributions) + b.pool
  }

  ghost predicate Solvent(c: Campaign) {
    && 0 <= c.terms.minAmount
    && (c.insurance.Some? ==> c.insurance.value <= BPS)
    && Balanced(c.books)
  }

  /** What distributing rewards to `who` takes out of the campaign's own token. */
  function OwnReward(c: Campaign, who: Address): int {
    if c.rewards.config.None? || !c.rewards.config.value.own || Get(c.rewards.claimed, who) > 0 then 0
    else RewardFor(c, c.rewards.config.value, who)
  }

  /** The accepted calls that break the balance: foreign tokens, a restarted insurance pool, and funds leaving. */
  predicate Unbalances(c: Campaign, t: Timed) {
    && Apply(c, t).Ok?
    && match t.op
       case ContributeOp(_, _, _, token, _) => token.Foreign?
       case OnBehalfOp(_, _, _, amount, token) => token.Foreign? && amount > 0
       case EnableInsuranceOp(_, _) => c.books.pool != 0
       case WithdrawOp => PlatformFee(c) + Payout(c, t.now) > 0
       case ExecuteEmergencyOp => c.total > 0
       case DistributeOp(who, _) => OwnReward(c, who) > 0
       case _ => false
  }

  lemma {:induction false} InitializedIsSolvent(
    now: nat, creator: Address, terms: Terms, deadline: nat, goal: int, wallets: map<Address, int>)
    requires Initialize(now, creator, terms, deadline, goal, wallets).Ok?
    ensures Solvent(Initialize(now, creator, terms, deadline, goal, wallets).value)
  {
  }

  // ---------- The books ----------

  lemma {:induction false} EntryMoved(m: map<Address, int>, who: Address, delta: int)
    requires NonNegative(m) && 0 <= Get(m, who) + delta
    ensures var m' := m[who := Get(m, who) + delta]; NonNegative(m') && Sum(m') == Sum(m) + delta
  {
    SumUpdate(m, who, Get(m, who) + delta);
  }

  lemma {:induction false} DepositMovesSums(b: Books, who: Address, amount: int, fee: int)
    requires NonNegative(b.contributions) && NonNegative(b.insuranceFees)
    requires 0 <= fee && 0 <= Get(b.contributions, who) + amount - fee
    ensures var d := Deposit(b, who, amount, fee);
      && NonNegative(d.contributions) && NonNegative(d.insuranceFees)
      && Sum(d.contributions) == Sum(b.contributions) + amount - fee
      && Sum(d.insuranceFees) == Sum(b.insuranceFees) + fee
      && d.pool == b.pool + fee && d.held == b.held
  {
    EntryMoved(b.contributions, who, amount - fee);
    EntryAtMostSum(b.insuranceFees, who);
    EntryMoved(b.insuranceFees, who, fee);
  }

  /** With balanced books a refund never fails: it pays the contributor exactly the contribution, once. */
  lemma {:induction false} RefundOneSucceeds(b: Books, who: Address)
    requires Balanced(b)
    ensures RefundOne(b, who).Ok? && Balanced(RefundOne(b, who).value)
    ensures var d := RefundOne(b, who).value; var owed := Get(b.contributions, who);
      && Get(d.contributions, who) == 0
      && Get(d.wallets, who) == Get(b.wallets, who) + owed
      && d.held == b.held - owed
      && d.pool == b.pool && d.insuranceFees == b.insuranceFees
      && (forall a :: a != who ==>
            Get(d.contributions, a) == Get(b.contributions, a) && Get(d.wallets, a) == Get(b.wallets, a))
  {
    EntryAtMostSum(b.contributions, who);
    SumNonNegative(b.insuranceFees);
    EntryMoved(b.contributions, who, -Get(b.contributions, who));
  }

  /** With balanced books a claim never fails, so the `InsufficientFunds` branch is dead; it pays exactly the fees. */
  lemma {:induction false} ClaimOneSucceeds(b: Books, who: Address)
    requires Balanced(b)
    ensures ClaimOne(b, who).Ok? && Balanced(ClaimOne(b, who).value)
    ensures var d := ClaimOne(b, who).value; var fee := Get(b.insuranceFees, who);
      && Get(d.insuranceFees, who) == 0
      && Get(d.wallets, who) == Get(b.wallets, who) + fee
      && d.held == b.held - fee && d.pool == b.pool - fee
      && d.contributions == b.contributions
      && (forall a :: a != who ==>
            Get(d.insuranceFees, a) == Get(b.insuranceFees, a) && Get(d.wallets, a) == Get(b.wallets, a))
  {
    EntryAtMostSum(b.insuranceFees, who);
    SumNonNegative(b.contributions);
    EntryMoved(b.insuranceFees, who, -Get(b.insuranceFees, who));
  }

  lemma {:induction false} RefundAllSucceeds(b: Books, list: seq<Address>)
    requires Balanced(b)
    ensures RefundAll(b, list).Ok? && Balanced(RefundAll(b, list).value)
    decreases |list|
  {
    if list != [] {
      RefundOneSucceeds(b, list[0]);
      RefundAllSucceeds(RefundOne(b, list[0]).value, list[1..]);
    }
  }

  // ---------- One call ----------

  lemma {:induction false} FeeWithinAmount(c: Campaign, amount: int)
    requires 0 <= amount && (c.insurance.Some? ==> c.insurance.value <= BPS)
    ensures 0 <= InsuranceFee(c.insurance, amount) <= amount
  {
    if c.insurance.Some? {
      var bps := c.insurance.value;
      MulNonNegative(amount, bps);
      TruncDivBounds(amount * bps, BPS);
      MulMono(amount, bps, amount, BPS);
      MulCancel(InsuranceFee(c.insurance, amount), amount, BPS);
    }
  }

  lemma {:induction false} ContributeKeepsSolventIff(
    c: Campaign, now: nat, access: Access, who: Address, amount: int, token: Token, message: nat)
    requires Solvent(c) && Contribute(c, now, access, who, amount, token, message).Ok?
    ensures Solvent(Contribute(c, now, access, who, amount, token, message).value) <==> token == CampaignToken
  {
    var fee := InsuranceFee(c.insurance, amount);
    FeeWithinAmount(c, amount);
    EntryAtMostSum(c.books.contributions, who);
    DepositMovesSums(Receive(c.books, who, amount, token).value, who, amount, fee);
  }

  lemma {:induction false} OnBehalfKeepsSolventIff(
    c: Campaign, now: nat, access: Access, delegator: Address, delegate: Address, amount: int, token: Token)
    requires Solvent(c) && ContributeOnBehalf(c, now, access, delegator, delegate, amount, token).Ok?
    ensures Solvent(ContributeOnBehalf(c, now, access, delegator, delegate, amount, token).value)
       <==> !(token.Foreign? && amount > 0)
  {
    EntryAtMostSum(c.books.contributions, delegator);
    DepositMovesSums(Receive(c.books, delegate, amount, token).value, delegator, amount, 0);
  }

  lemma {:induction false} RecurringKeepsSolvent(c: Campaign, now: nat, who: Address)
    requires Solvent(c) && ExecuteRecurring(c, now, who).Ok?
    ensures Solvent(ExecuteRecurring(c, now, who).value)
  {
    EntryAtMostSum(c.books.contributions, who);
    DepositMovesSums(Pull(c.books, who, c.plans[who].amount).value, who, c.plans[who].amount, 0);
  }

  lemma {:induction false} PartialRefundKeepsSolvent(c: Campaign, who: Address, amount: int)
    requires Solvent(c) && RefundPartial(c, who, amount).Ok?
    ensures Solvent(RefundPartial(c, who, amount).value)
  {
    EntryAtMostSum(c.books.contributions, who);
    DepositMovesSums(Pay(c.books, who, amount).value, who, -amount, 0);
  }

  lemma {:induction false} WithdrawUnbalancesIff(c: Campaign, now: nat)
    requires Solvent(c) && Withdraw(c, now).Ok?
    ensures Solvent(Withdraw(c, now).value) <==> PlatformFee(c) + Payout(c, now) <= 0
  {
    var d := Withdraw(c, now).value;
    assert d.books.held == c.books.held - PlatformFee(c) - Payout(c, now);
  }

  lemma {:induction false} EmergencyUnbalancesIff(c: Campaign, now: nat)
    requires Solvent(c) && ExecuteEmergency(c, now).Ok?
    ensures Solvent(ExecuteEmergency(c, now).value) <==> c.total <= 0
  {
  }

  lemma {:induction false} InsuranceUnbalancesIff(c: Campaign, feeBps: nat, provider: Address)
    requires Solvent(c) && EnableInsurance(c, feeBps, provider).Ok?
    ensures Solvent(EnableInsurance(c, feeBps, provider).value) <==> c.books.pool == 0
  {
  }

  lemma {:induction false} DepositsKeepSolventIff(c: Campaign, t: Timed)
    requires Solvent(c) && KindOf(t.op) == Deposits && Apply(c, t).Ok?
    ensures Solvent(Step(c, t)) <==> !Unbalances(c, t)
  {
    match t.op
    case ContributeOp(access, who, amount, token, message) =>
      ContributeKeepsSolventIff(c, t.now, access, who, amount, token, message);
    case OnBehalfOp(access, delegator, delegate, amount, token) =>
      OnBehalfKeepsSolventIff(c, t.now, access, delegator, delegate, amount, token);
    case ExecuteRecurringOp(who) => RecurringKeepsSolvent(c, t.now, who);
  }

  lemma {:induction false} RefundsKeepSolvent(c: Campaign, t: Timed)
    requires Solvent(c) && KindOf(t.op) == Refunds && Apply(c, t).Ok?
    ensures Solvent(Step(c, t))
  {
    match t.op
    case RefundSingleOp(who) => RefundOneSucceeds(c.books, who);
    case RefundBatchOp(list) => RefundAllSucceeds(c.books, BatchPrefix(list));
    case RefundPartialOp(who, amount) => PartialRefundKeepsSolvent(c, who, amount);
    case ClaimInsuranceOp(who) => ClaimOneSucceeds(c.books, who);
  }

  lemma {:induction false} PayoutsKeepSolventIff(c: Campaign, t: Timed)
    requires Solvent(c) && KindOf(t.op) == Payouts && Apply(c, t).Ok?
    ensures Solvent(Step(c, t)) <==> !Unbalances(c, t)
  {
    match t.op
    case WithdrawOp => WithdrawUnbalancesIff(c, t.now);
    case ExecuteEmergencyOp => EmergencyUnbalancesIff(c, t.now);
  }

  lemma {:induction false} SettingsKeepSolventIff(c: Campaign, t: Timed)
    requires Solvent(c) && KindOf(t.op) == Settings && Apply(c, t).Ok?
    ensures Solvent(Step(c, t)) <==> !Unbalances(c, t)
  {
    if t.op.EnableInsuranceOp? {
      InsuranceUnbalancesIff(c, t.op.feeBps, t.op.provider);
    } else {
      SettingsFrame(c, t);
    }
  }

  lemma {:induction false} RewardsUnbalanceIff(c: Campaign, who: Address, pays: bool)
    requires Solvent(c) && DistributeRewards(c, who, pays).Ok?
    ensures Solvent(DistributeRewards(c, who, pays).value) <==> OwnReward(c, who) <= 0
  {
  }

  lemma {:induction false} RewardingKeepsSolventIff(c: Campaign, t: Timed)
    requires Solvent(c) && KindOf(t.op) == Rewarding && Apply(c, t).Ok?
    ensures Solvent(Step(c, t)) <==> !Unbalances(c, t)
  {
    if t.op.DistributeOp? { RewardsUnbalanceIff(c, t.op.who, t.op.pays); }
  }

  /** Every call keeps solvency, except exactly those of `Unbalances`. */
  lemma {:induction false} StepKeepsSolventIff(c: Campaign, t: Timed)
    requires Solvent(c)
    ensures Solvent(Step(c, t)) <==> !Unbalances(c, t)
  {
    if Apply(c, t).Ok? {
      match KindOf(t.op)
      case Deposits => DepositsKeepSolventIff(c, t);
      case Refunds => RefundsKeepSolvent(c, t);
      case Payouts => PayoutsKeepSolventIff(c, t);
      case Settings => SettingsKeepSolventIff(c, t);
      case Rewarding => RewardingKeepsSolventIff(c, t);
      case Restarts => RestartsFrame(c, t);
      case _ => MoneyFrame(c, t);
    }
  }

  // ---------- Whole runs ----------

  ghost predicate AlwaysSolvent(c: Campaign, calls: seq<Timed>)
    decreases |calls|
  {
    Solvent(c) && (calls == [] || AlwaysSolvent(Step(c, calls[0]), calls[1..]))
  }

  predicate NothingUnbalances(c: Campaign, calls: seq<Timed>)
    decreases |calls|
  {
    calls == [] || (!Unbalances(c, calls[0]) && NothingUnbalances(Step(c, calls[0]), calls[1..]))
  }

  /**
   * Over any run from any solvent campaign: every state is solvent if and only if no call of the run credited a
   * foreign token, restarted a filled insurance pool, or paid funds out to the creator, the platform or as rewards.
   */
  lemma {:induction false} RunsAreSolventIff(c: Campaign, calls: seq<Timed>)
    requires Solvent(c)
    ensures AlwaysSolvent(c, calls) <==> NothingUnbalances(c, calls)
    ensures AlwaysSolvent(c, calls) ==> Solvent(Run(c, calls))
    decreases |calls|
  {
    if calls != [] {
      StepKeepsSolventIff(c, calls[0]);
      if Solvent(Step(c, calls[0])) {
        RunsAreSolventIff(Step(c, calls[0]), calls[1..]);
      }
    }
  }

  /** So for the whole life of every campaign that `initialize` accepts. */
  lemma {:induction false} LivesAreSolventIff(
    now: nat, creator: Address, terms: Terms, deadline: nat, goal: int, wallets: map<Address, int>, calls: seq<Timed>)
    requires Initialize(now, creator, terms, deadline, goal, wallets).Ok?
    ensures var c := Initialize(now, creator, terms, deadline, goal, wallets).value;
      AlwaysSolvent(c, calls) <==> NothingUnbalances(c, calls)
  {
    InitializedIsSolvent(now, creator, terms, deadline, goal, wallets);
    RunsAreSolventIff(Initialize(now, creator, terms, deadline, goal, wallets).value, calls);
  }

  predicate NeverArchivedOrCloned(calls: seq<Timed>) {
    forall i :: 0 <= i < |calls| ==> !calls[i].op.ArchiveOp? && !calls[i].op.CloneOp?
  }

  /** Once cancelled, a campaign stays cancelled, hence open for refunds, until it is archived or cloned. */
  lemma {:induction false} CancelledStaysOpen(c: Campaign, calls: seq<Timed>, now: nat)
    requires c.status == Cancelled
    requires NeverArchivedOrCloned(calls)
    ensures RefundsClosed(Run(c, calls), now).None? && Run(c, calls).status == Cancelled
    decreases |calls|
  {
    if calls != [] {
      StepKeepsCancelled(c, calls[0]);
      CancelledStaysOpen(Step(c, calls[0]), calls[1..], now);
    }
  }

  lemma {:induction false} StepKeepsCancelled(c: Campaign, t: Timed)
    requires c.status == Cancelled && !t.op.ArchiveOp? && !t.op.CloneOp?
    ensures Step(c, t).status == Cancelled
  {
    if KindOf(t.op) == Lifecycle {
      LifecycleFrame(c, t);
    } else {
      StatusFrame(c, t);
    }
  }

  /** Archiving is what may shut the refunds of a cancelled campaign again, and exactly when. */
  lemma {:induction false} ArchivingMayCloseRefunds(c: Campaign, now: nat)
    requires c.status == Cancelled
    ensures RefundsClosed(Step(c, Timed(now, ArchiveOp)), now).Some? <==> now < c.deadline || c.goal <= c.total
  {
  }

  /** Cloning closes them at once, for the new deadline lies ahead, whatever contributors are still owed. */
  lemma {:induction false} CloningClosesRefunds(c: Campaign, now: nat, owner: Address, goal: int, deadline: nat)
    requires CloneCampaign(c, now, owner, goal, deadline).Ok?
    ensures var d := CloneCampaign(c, now, owner, goal, deadline).value;
      RefundsClosed(d, now) == Some(CampaignStillActive) && d.books == c.books
  {
  }

  // ---------- Where solvency stops ----------

  const ALICE := Address(1)
  const BOB := Address(2)

  /** In which Bob, as Alice's delegate, pays with a foreign token, and the creator then cancels. */
  function ForeignPaymentLife(): seq<Timed> {
    [Timed(1, DelegateOp(ALICE, BOB, 100)),
     Timed(2, OnBehalfOp(Allowed, ALICE, BOB, 100, Foreign(0, true))),
     Timed(3, CancelOp)]
  }

  lemma {:induction false} BobPaysForAlice(c: Campaign)
    requires c.delegations == map[ALICE := Delegation(100, BOB, true)] && c.delegated == map[]
    requires c.status == Active && 2 < c.deadline && c.terms.minAmount <= 100
    requires c.books.contributions == map[] && c.books.held == 0
    ensures ContributeOnBehalf(c, 2, Allowed, ALICE, BOB, 100, Foreign(0, true)).Ok?
    ensures var d := ContributeOnBehalf(c, 2, Allowed, ALICE, BOB, 100, Foreign(0, true)).value;
      d.books == c.books.(contributions := map[ALICE := 100]) && d.status == Active && d.terms == c.terms
  {
  }

  lemma {:induction false} NothingHeldForAlice(c: Campaign)
    requires c.status == Cancelled && c.books.contributions == map[ALICE := 100] && c.books.held == 0
    requires c.books.insuranceFees == map[]
    ensures RefundSingle(c, 4, ALICE) == Err(TransferFailed) && !Balanced(c.books)
  {
    SumRemove(c.books.contributions, ALICE);
  }

  /** The token is not checked: the contribution is credited, nothing is held, and its refund cannot be paid. */
  lemma {:induction false} ForeignTokenIsCredited(terms: Terms, goal: int, wallets: map<Address, int>)
    requires 0 <= terms.minAmount <= 100
    ensures var c := Run(Initial(ALICE, terms, 10, goal, wallets), ForeignPaymentLife());
      && Get(c.books.contributions, ALICE) == 100 && c.books.held == 0 && !Solvent(c)
      && RefundSingle(c, 4, ALICE) == Err(TransferFailed)
  {
    var c0 := Initial(ALICE, terms, 10, goal, wallets);
    var life := ForeignPaymentLife();
    RunOfThree(c0, life[0], life[1], life[2]);
    var c1 := c0.(delegations := map[ALICE := Delegation(100, BOB, true)]);
    assert Step(c0, life[0]) == c1;
    BobPaysForAlice(c1);
    NothingHeldForAlice(Step(Step(c1, life[1]), life[2]));
  }

  lemma {:induction false} RunOfThree(c: Campaign, x: Timed, y: Timed, z: Timed)
    ensures Run(c, [x, y, z]) == Step(Step(Step(c, x), y), z)
  {
    var d := Step(c, x);
    assert [x, y, z][1..] == [y, z] && [y, z][1..] == [z] && [z][1..] == [];
    assert Run(c, [x, y, z]) == Run(d, [y, z]);
    assert Run(d, [y, z]) == Run(Step(d, y), [z]);
    assert Run(Step(d, y), [z]) == Run(Step(Step(d, y), z), []);
  }
}
