/** What remains possible once a campaign has been withdrawn: refunds open again, at the cost of the insurance. */
module CampaignAftermath {
  import opened Common
  import opened Validation
  import opened CampaignSpec
  import opened CampaignFrames
  import opened CampaignVoting
  import opened CampaignSolvency
  import opened CampaignPayout
  import opened CampaignSettlement

  predicate NeverCloned(calls: seq<Timed>) {
    forall i :: 0 <= i < |calls| ==> !calls[i].op.CloneOp?
  }

  /** No call of the run executes a carried extension. */
  predicate NeverExtended(c: Campaign, calls: seq<Timed>)
    decreases |calls|
  {
    calls == [] || (!Extends(c, calls[0]) && NeverExtended(Step(c, calls[0]), calls[1..]))
  }

  lemma {:induction false} EndedStays(c: Campaign, t: Timed)
    requires Ended(c.status) && !t.op.CloneOp?
    ensures var d := Step(c, t);
      Ended(d.status) && d.goal == c.goal && (!Extends(c, t) ==> d.deadline == c.deadline)
  {
    match KindOf(t.op)
    case Deposits => DepositsFrame(c, t);
    case Refunds => RefundsFrame(c, t);
    case Payouts => PayoutsFrame(c, t);
    case Plans => PlansFrame(c, t);
    case Settings => SettingsFrame(c, t);
    case Lifecycle => LifecycleFrame(c, t);
    case Votes =>
      VotesFrame(c, t);
      DeadlineMovesByVote(c, t);
    case Rewarding => RewardsFrame(c, t);
    case Guards => GuardsFrame(c, t);
  }

  lemma {:induction false} RunStaysEnded(c: Campaign, calls: seq<Timed>)
    requires Ended(c.status) && NeverCloned(calls)
    ensures var d := Run(c, calls);
      Ended(d.status) && d.goal == c.goal && (NeverExtended(c, calls) ==> d.deadline == c.deadline)
    decreases |calls|
  {
    if calls != [] {
      EndedStays(c, calls[0]);
      RunStaysEnded(Step(c, calls[0]), calls[1..]);
    }
  }

  predicate NeverRecurs(calls: seq<Timed>) {
    forall i :: 0 <= i < |calls| ==> !calls[i].op.ExecuteRecurringOp?
  }

  /** Of an ended campaign only a recurring instalment can raise the total again. */
  lemma {:induction false} EndedTotal(c: Campaign, t: Timed)
    requires Ended(c.status) && c.total <= 0 && !t.op.ExecuteRecurringOp?
    ensures Step(c, t).total <= 0
  {
    match KindOf(t.op)
    case Deposits =>
    case Refunds => EndedRefundTotal(c, t);
    case Payouts =>
    case Settings => SettingsFrame(c, t);
    case Rewarding => RewardsFrame(c, t);
    case Restarts => RestartsFrame(c, t);
    case _ => MoneyFrame(c, t);
  }

  lemma {:induction false} EndedRefundTotal(c: Campaign, t: Timed)
    requires KindOf(t.op) == Refunds
    ensures Step(c, t).total <= c.total
  {
  }

  lemma {:induction false} EndedRunTotal(c: Campaign, calls: seq<Timed>)
    requires Ended(c.status) && c.total <= 0 && NeverRecurs(calls) && NeverCloned(calls)
    ensures Run(c, calls).total <= 0
    decreases |calls|
  {
    if calls != [] {
      EndedStays(c, calls[0]);
      EndedTotal(c, calls[0]);
      EndedRunTotal(Step(c, calls[0]), calls[1..]);
    }
  }

  /**
   * After an accepted withdrawal and any further calls, refunds are open if and only if the campaign is cancelled or
   * the deadline is over and the total, cleared by the withdrawal, below the goal. Unless the campaign was cloned the
   * goal is still the one it met; and unless a carried extension was executed as well, the deadline is over for good.
   */
  lemma {:induction false} WithdrawnIsRefundableIff(c: Campaign, now: nat, calls: seq<Timed>, later: nat)
    requires Withdraw(c, now).Ok?
    ensures var w := Withdraw(c, now).value; var d := Run(w, calls);
      && (RefundsClosed(d, later).None? <==> d.status == Cancelled || (d.deadline <= later && d.total < d.goal))
      && (NeverCloned(calls) ==> Ended(d.status) && d.goal == c.goal)
      && (NeverCloned(calls) && NeverExtended(w, calls) && now <= later ==>
            (RefundsClosed(d, later).None? <==> d.status == Cancelled || d.total < c.goal))
  {
    if NeverCloned(calls) {
      RunStaysEnded(Withdraw(c, now).value, calls);
    }
  }

  /** Without recurring instalments, carried extensions and clones that is for ever. */
  lemma {:induction false} WithdrawnStaysRefundable(c: Campaign, now: nat, calls: seq<Timed>, later: nat)
    requires Checked(c) && Withdraw(c, now).Ok? && now <= later
    requires NeverRecurs(calls) && NeverCloned(calls) && NeverExtended(Withdraw(c, now).value, calls)
    ensures RefundsClosed(Run(Withdraw(c, now).value, calls), later).None?
  {
    EndedRunTotal(Withdraw(c, now).value, calls);
    WithdrawnIsRefundableIff(c, now, calls, later);
  }

  // ---------- What such refunds cost ----------

  /** Sound books that hold `gap` less than they owe to contributors and insurance claims. */
  ghost predicate Short(b: Books, gap: int) {
    && NonNegative(b.contributions) && NonNegative(b.insuranceFees) && b.pool == Sum(b.insuranceFees)
    && 0 <= b.held == Sum(b.contributions) + b.pool - gap
  }

  /** A withdrawal leaves the books short by exactly what it paid. */
  lemma {:induction false} WithdrawalLeavesShort(c: Campaign, now: nat)
    requires Solvent(c) && Checked(c) && Withdraw(c, now).Ok?
    ensures Short(Withdraw(c, now).value.books, Paid(c, now))
  {
    WithdrawNeedsPaidHeld(c, now);
  }

  /** On short books a refund is paid exactly as long as enough is held, and leaves the same gap to everybody else. */
  lemma {:induction false} RefundOnShortBooks(b: Books, gap: int, who: Address)
    requires Short(b, gap)
    ensures RefundOne(b, who).Ok? <==> Get(b.contributions, who) <= b.held
    ensures RefundOne(b, who).Ok? ==> Short(RefundOne(b, who).value, gap)
  {
    EntryAtMostSum(b.contributions, who);
    EntryMoved(b.contributions, who, -Get(b.contributions, who));
  }

  lemma {:induction false} ClaimOnShortBooks(b: Books, gap: int, who: Address)
    requires Short(b, gap)
    ensures ClaimOne(b, who).Ok? <==> Get(b.insuranceFees, who) <= b.held
    ensures ClaimOne(b, who).Ok? ==> Short(ClaimOne(b, who).value, gap)
  {
    EntryAtMostSum(b.insuranceFees, who);
    EntryMoved(b.insuranceFees, who, -Get(b.insuranceFees, who));
  }

  lemma {:induction false} RefundsOnShortBooks(b: Books, gap: int, list: seq<Address>)
    requires Short(b, gap) && RefundAll(b, list).Ok?
    ensures Short(RefundAll(b, list).value, gap)
    decreases |list|
  {
    if list != [] {
      RefundOnShortBooks(b, gap, list[0]);
      RefundsOnShortBooks(RefundOne(b, list[0]).value, gap, list[1..]);
    }
  }

  lemma {:induction false} SettlementOnShortBooks(c: Campaign, t: Timed, gap: int)
    requires IsSettlement(t.op) && Short(c.books, gap)
    ensures Short(Step(c, t).books, gap)
  {
    if Apply(c, t).Ok? {
      match t.op
      case RefundSingleOp(who) => RefundOnShortBooks(c.books, gap, who);
      case RefundBatchOp(list) => RefundsOnShortBooks(c.books, gap, BatchPrefix(list));
      case ClaimInsuranceOp(who) => ClaimOnShortBooks(c.books, gap, who);
    }
  }

  lemma {:induction false} RunOnShortBooks(c: Campaign, calls: seq<Timed>, gap: int)
    requires AllSettlements(calls) && Short(c.books, gap)
    ensures Short(Run(c, calls).books, gap)
    decreases |calls|
  {
    if calls != [] {
      SettlementOnShortBooks(c, calls[0], gap);
      RunOnShortBooks(Step(c, calls[0]), calls[1..], gap);
    }
  }

  /**
   * After a withdrawal and any refunds, batches and claims, accepted or refused: the next refund is accepted exactly
   * when contributions and pool still owed exceed what was paid out by the amount it owes, and the insurance pool is
   * then short by however much that payout exceeds the contributions left.
   */
  lemma {:induction false} RefundAfterWithdrawal(c: Campaign, now: nat, calls: seq<Timed>, later: nat, who: Address)
    requires Solvent(c) && Checked(c) && Withdraw(c, now).Ok? && now <= later && AllSettlements(calls)
    ensures var d := Run(Withdraw(c, now).value, calls); var owed := Get(d.books.contributions, who);
      var r := RefundSingle(d, later, who);
      && (r.Ok? <==> owed <= Sum(d.books.contributions) + d.books.pool - Paid(c, now))
      && (r.Ok? ==> r.value.books.held - r.value.books.pool == Sum(d.books.contributions) - owed - Paid(c, now))
  {
    var d := Run(Withdraw(c, now).value, calls);
    SettlementsMoveNoDeadline(Withdraw(c, now).value, calls);
    WithdrawnStaysRefundable(c, now, calls, later);
    WithdrawalLeavesShort(c, now);
    RunOnShortBooks(Withdraw(c, now).value, calls, Paid(c, now));
    RefundOnShortBooks(d.books, Paid(c, now), who);
    EntryMoved(d.books.contributions, who, -Get(d.books.contributions, who));
  }

  lemma {:induction false} SettlementsMoveNoDeadline(c: Campaign, calls: seq<Timed>)
    requires AllSettlements(calls)
    ensures NeverRecurs(calls) && NeverCloned(calls) && NeverExtended(c, calls)
    decreases |calls|
  {
    if calls != [] {
      SettlementsMoveNoDeadline(Step(c, calls[0]), calls[1..]);
      assert !calls[0].op.ExecuteRecurringOp? && !calls[0].op.CloneOp?;
      assert forall i :: 1 <= i < |calls| ==> calls[i] == calls[1..][i - 1];
    }
  }

  /** When nothing but contributions was raised and all of it is vested, the first refund is taken from the pool. */
  lemma {:induction false} RefundComesFromThePool(c: Campaign, now: nat, later: nat, who: Address)
    requires Solvent(c) && Checked(c) && Withdraw(c, now).Ok? && now <= later && Beyond(c) == 0 && FullyVested(c, now)
    ensures var owed := Get(c.books.contributions, who); var r := RefundSingle(Withdraw(c, now).value, later, who);
      (r.Ok? <==> owed <= c.books.pool) && (r.Ok? ==> r.value.books.held == r.value.books.pool - owed)
  {
    RefundAfterWithdrawal(c, now, [], later, who);
    PaidWithinTotal(c, now);
  }

  // ---------- A campaign in which all of this happens ----------

  const ALICE := Address(1)
  const BOB := Address(2)
  const CAROL := Address(3)
  const DAVE := Address(4)

  const FRESH := Initial(ALICE, Terms(0, 0, None, None, None), 10, 900, map[BOB := 1000, CAROL := 100])

  const INSURE := Timed(1, EnableInsuranceOp(1000, DAVE))
  const BOB_PAYS := Timed(2, ContributeOp(Allowed, BOB, 1000, CampaignToken, 0))
  const CAROL_PAYS := Timed(3, ContributeOp(Allowed, CAROL, 100, CampaignToken, 0))
  const WITHDRAW := Timed(10, WithdrawOp)

  /** Insured at 10%, with contributions of 1000 and 100, and withdrawn at its deadline. */
  const WITHDRAWN_LIFE: seq<Timed> := [INSURE, BOB_PAYS, CAROL_PAYS, WITHDRAW]

  /** What the life leaves: the whole total went to Alice, and 110 of fees are held for the insurance. */
  predicate LeftByLife(c: Campaign) {
    && c.status == Successful && c.total == 0 && c.goal == 900 && c.deadline == 10 && c.voting == Voting(None, map[])
    && c.books == Books(110, map[ALICE := 990, BOB := 0, CAROL := 0], map[BOB := 900, CAROL := 90], 110,
                        map[BOB := 100, CAROL := 10])
  }

  lemma {:induction false} RunOfFour(c: Campaign, w: Timed, x: Timed, y: Timed, z: Timed)
    ensures Run(c, [w, x, y, z]) == Step(Step(Step(Step(c, w), x), y), z)
  {
    var c1 := Step(c, w);
    var c2 := Step(c1, x);
    var c3 := Step(c2, y);
    assert [w, x, y, z][1..] == [x, y, z] && [x, y, z][1..] == [y, z] && [y, z][1..] == [z] && [z][1..] == [];
    assert Run(c, [w, x, y, z]) == Run(c1, [x, y, z]);
    assert Run(c1, [x, y, z]) == Run(c2, [y, z]);
    assert Run(c2, [y, z]) == Run(c3, [z]);
    assert Run(c3, [z]) == Run(Step(c3, z), []);
  }

  /** A campaign like `FRESH`, insured at 10% and without limits, on the way through its life. */
  predicate Running(c: Campaign, books: Books, total: int) {
    && c.status == Active && c.deadline == 10 && c.goal == 900 && c.creator == ALICE && c.terms == FRESH.terms
    && c.insurance == Some(1000) && c.limiter.limit == None && c.matching == None && c.voting == Voting(None, map[])
    && c.books == books && c.total == total
  }

  lemma {:induction false} InsuredContribution(c: Campaign, now: nat, who: Address, amount: int, fee: int)
    requires Running(c, c.books, c.total) && now < 10 && 0 < amount == 10 * fee
    requires amount <= Get(c.books.wallets, who)
    ensures var r := Contribute(c, now, Allowed, who, amount, CampaignToken, 0);
      && r.Ok?
      && Running(r.value, Deposit(Pull(c.books, who, amount).value, who, amount, fee), c.total + amount - fee)
  {
    assert InsuranceFee(c.insurance, amount) == fee;
  }

  lemma {:induction false} LifeIsInsured()
    ensures Running(Step(FRESH, INSURE), FRESH.books, 0)
  {
    assert EnableInsurance(FRESH, 1000, DAVE).Ok?;
  }

  const AFTER_BOB := Books(1000, map[BOB := 0, CAROL := 100], map[BOB := 900], 100, map[BOB := 100])

  lemma {:induction false} BobContributes(c: Campaign)
    requires Running(c, FRESH.books, 0)
    ensures Running(Step(c, BOB_PAYS), AFTER_BOB, 900)
  {
    InsuredContribution(c, 2, BOB, 1000, 100);
    assert Deposit(Pull(FRESH.books, BOB, 1000).value, BOB, 1000, 100) == AFTER_BOB;
  }

  const AFTER_BOTH :=
    Books(1100, map[BOB := 0, CAROL := 0], map[BOB := 900, CAROL := 90], 110, map[BOB := 100, CAROL := 10])

  lemma {:induction false} CarolContributes(c: Campaign)
    requires Running(c, AFTER_BOB, 900)
    ensures Running(Step(c, CAROL_PAYS), AFTER_BOTH, 990)
  {
    InsuredContribution(c, 3, CAROL, 100, 10);
    assert Deposit(Pull(AFTER_BOB, CAROL, 100).value, CAROL, 100, 10) == AFTER_BOTH;
  }

  lemma {:induction false} LifeIsWithdrawn(c: Campaign)
    requires Running(c, AFTER_BOTH, 990)
    ensures Withdraw(c, 10).Ok? && LeftByLife(Withdraw(c, 10).value)
  {
  }

  lemma {:induction false} WithdrawStep(c: Campaign)
    requires Running(c, AFTER_BOTH, 990)
    ensures LeftByLife(Step(c, WITHDRAW))
  {
    LifeIsWithdrawn(c);
  }

  lemma {:induction false} LifeLeaves()
    ensures LeftByLife(Run(FRESH, WITHDRAWN_LIFE))
  {
    RunOfFour(FRESH, INSURE, BOB_PAYS, CAROL_PAYS, WITHDRAW);
    LifeIsInsured();
    BobContributes(Step(FRESH, INSURE));
    CarolContributes(Step(Step(FRESH, INSURE), BOB_PAYS));
    WithdrawStep(Step(Step(Step(FRESH, INSURE), BOB_PAYS), CAROL_PAYS));
  }

  /** A contributor of this successful campaign is refunded out of the insurance pool, and Bob's claim then fails. */
  lemma {:induction false} RefundDrainsTheInsurance()
    ensures var c := Run(FRESH, WITHDRAWN_LIFE); var d := Step(c, Timed(11, RefundSingleOp(CAROL)));
      && c.books.held == c.books.pool == 110
      && RefundSingle(c, 11, CAROL).Ok? && Get(d.books.wallets, CAROL) == 90 && d.books.held == 20
      && ClaimInsurance(d, 12, BOB) == Err(TransferFailed)
  {
    LifeLeaves();
  }

  /** After the withdrawal Alice proposes a new deadline, Bob alone votes for it, and somebody executes it. */
  const EXTENSION: seq<Timed> := [PROPOSE, VOTE, EXECUTE]

  const PROPOSE := Timed(11, ProposeOp(1_000_000))
  const VOTE := Timed(12, VoteOp(BOB, true))
  const EXECUTE := Timed(604_812, ExecuteExtensionOp)

  const PROPOSAL := Proposal(1_000_000, 0, 0, 11, 604_811, false)

  lemma {:induction false} AliceProposes(c: Campaign)
    requires LeftByLife(c)
    ensures Step(c, PROPOSE) == c.(voting := Voting(Some(PROPOSAL), map[]))
  {
    assert ProposeExtension(c, 11, 1_000_000).Ok?;
  }

  lemma {:induction false} BobVotes(c: Campaign)
    requires Get(c.books.contributions, BOB) == 900 && c.voting == Voting(Some(PROPOSAL), map[])
    ensures Step(c, VOTE) == c.(voting := Voting(Some(PROPOSAL.(votesFor := 900)), map[BOB := 11]))
  {
    assert VoteOnExtension(c, 12, BOB, true).Ok?;
  }

  lemma {:induction false} AnybodyExecutes(c: Campaign)
    requires c.voting.proposal == Some(PROPOSAL.(votesFor := 900))
    ensures Step(c, EXECUTE).(voting := c.voting) == c.(deadline := 1_000_000)
  {
    assert Carried(c.voting.proposal.value);
  }

  lemma {:induction false} ExtensionCarries(c: Campaign)
    requires LeftByLife(c)
    ensures var d := Run(c, EXTENSION);
      d.deadline == 1_000_000 && d.status == Successful && d.total == 0 && d.goal == 900 && d.books == c.books
  {
    RunOfThree(c, PROPOSE, VOTE, EXECUTE);
    AliceProposes(c);
    BobVotes(Step(c, PROPOSE));
    AnybodyExecutes(Step(Step(c, PROPOSE), VOTE));
  }

  /** Refunds that were open close again: a proposal, one vote and seven days after the withdrawal. */
  lemma {:induction false} ExtensionClosesRefundsAgain()
    ensures var c := Run(FRESH, WITHDRAWN_LIFE); var d := Run(c, EXTENSION);
      && RefundSingle(c, 604_813, CAROL).Ok?
      && RefundSingle(d, 604_813, CAROL) == Err(CampaignStillActive)
      && ClaimInsurance(d, 604_813, BOB) == Err(CampaignStillActive)
  {
    LifeLeaves();
    ExtensionCarries(Run(FRESH, WITHDRAWN_LIFE));
  }
}
