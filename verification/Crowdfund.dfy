/**
 * The crowdfunding contract over its storage fields. An error return reverts a Soroban call, so the methods write
 * only after the last check that can fail.
 */
module Crowdfund {
  import opened Common
  import opened Validation
  import opened CampaignSpec
  import opened CampaignSettlement
  import RL = RateLimiter
  import EM = Emergency

  class CrowdfundContract {
    var creator: Address
    const terms: Terms
    var status: Status
    var deadline: nat
    var goal: int
    var total: int
    /** The campaign token's ledger, and the per-contributor entries and the pool that it backs. */
    var books: Books
    var insuranceBps: Option<nat>
    var limiter: Limiter
    var matching: Option<Matching>
    var totalMatched: int
    var plans: map<Address, Plan>
    var delegations: map<Address, Delegation>
    var delegated: map<Address, int>
    var voting: Voting
    var rewards: Rewards
    var emergency: EM.Emergency

    function State(): Campaign
      reads this
    {
      Campaign(creator, terms, status, deadline, goal, total, books, insuranceBps, limiter, matching, totalMatched,
               plans, delegations, delegated, voting, rewards, emergency)
    }

    constructor (creator: Address, terms: Terms, deadline: nat, goal: int, wallets: map<Address, int>)
      ensures State() == Initial(creator, terms, deadline, goal, wallets)
    {
      this.creator, this.terms, this.deadline, this.goal := creator, terms, deadline, goal;
      status, total, books := Active, 0, Books(0, wallets, map[], 0, map[]);
      insuranceBps, limiter := None, Limiter(None, map[], map[]);
      matching, totalMatched := None, 0;
      plans, delegations, delegated := map[], map[], map[];
      voting, rewards, emergency := Voting(None, map[]), Rewards(None, map[], 0), EM.UNSET;
    }

    /** `initialize` of a newly deployed contract. */
    static method Initialize(
      now: nat, creator: Address, terms: Terms, deadline: nat, goal: int, wallets: map<Address, int>)
      returns (r: Result<CrowdfundContract, Error>)
      ensures r.Ok? <==> CampaignSpec.Initialize(now, creator, terms, deadline, goal, wallets).Ok?
      ensures r.Ok? ==>
        fresh(r.value) && Ok(r.value.State()) == CampaignSpec.Initialize(now, creator, terms, deadline, goal, wallets)
      ensures r.Err? ==> Err(r.error) == CampaignSpec.Initialize(now, creator, terms, deadline, goal, wallets)
    {
      if goal <= 0 { return Err(InvalidGoal); }
      if goal > I128_MAX / 2 { return Err(GoalOverflow); }
      if deadline <= now { return Err(InvalidDeadline); }
      if terms.minAmount < 0 { return Err(BelowMinimum); }
      if terms.maxAmount < 0 { return Err(ExceedsMaximum); }
      if terms.maxAmount > 0 && terms.maxAmount < terms.minAmount { return Err(ExceedsMaximum); }
      if terms.platform.Some? {
        var invalid := ValidateFeeBps(terms.platform.value.feeBps);
        if invalid.Some? { return Err(invalid.value); }
        if terms.platform.value.address == creator { return Err(SelfFeeAddress); }
      }
      var contract := new CrowdfundContract(creator, terms, deadline, goal, wallets);
      return Ok(contract);
    }

    // ---------- Token transfers ----------

    method TransferIn(from: Address, amount: int) returns (ok: bool)
      modifies this`books
      ensures ok == Pull(old(books), from, amount).Ok?
      ensures books == if ok then Pull(old(books), from, amount).value else old(books)
    {
      ok := 0 <= amount <= Get(books.wallets, from);
      if ok {
        books := books.(wallets := books.wallets[from := Get(books.wallets, from) - amount]);
        books := books.(held := books.held + amount);
      }
    }

    /** A transfer into the contract in the token a caller names. */
    method TransferTokenIn(token: Token, from: Address, amount: int) returns (ok: bool)
      modifies this`books
      ensures ok == Receive(old(books), from, amount, token).Ok?
      ensures books == if ok then Receive(old(books), from, amount, token).value else old(books)
    {
      match token {
        case CampaignToken => ok := TransferIn(from, amount);
        case Foreign(_, pays) => ok := pays && amount >= 0;
      }
    }

    method TransferOut(to: Address, amount: int) returns (ok: bool)
      modifies this`books
      ensures ok == Pay(old(books), to, amount).Ok?
      ensures books == if ok then Pay(old(books), to, amount).value else old(books)
    {
      ok := 0 <= amount <= books.held;
      if ok {
        books := books.(held := books.held - amount);
        books := books.(wallets := books.wallets[to := Get(books.wallets, to) + amount]);
      }
    }

    // ---------- Contributing ----------

    /** The limiter: whether the amount is admitted now, and the windows to store. */
    method CheckRateLimit(who: Address, now: nat, amount: int) returns (ok: bool, updated: map<Address, RL.Window>)
      ensures var spec := Limited(limiter, who, now, amount);
              ok == spec.Some? && (ok ==> updated == spec.value)
    {
      var windows := limiter.windows;
      ok, updated := true, windows;
      if limiter.limit.Some? && limiter.limit.value.maxAmount > 0 && limiter.limit.value.seconds > 0 {
        var limit := limiter.limit.value;
        var window := if who in windows then windows[who] else RL.NO_WINDOW;
        var elapsed := if now >= window.anchor then now - window.anchor else 0;
        var inWindow := window.anchor > 0 && elapsed < limit.seconds;
        var periodAmount := if inWindow then window.amount else 0;
        var newPeriod := periodAmount + amount;
        if newPeriod > limit.maxAmount { return false, windows; }
        updated := if inWindow then windows[who := RL.Window(window.anchor, newPeriod)]
                   else windows[who := RL.Window(now, amount)];
      }
    }

    method CheckContribution(now: nat, access: Access, who: Address, amount: int, token: Token, message: nat)
      returns (error: Option<Error>, updated: map<Address, RL.Window>)
      ensures error == ContributeError(State(), now, access, who, amount, token, message)
      ensures error.None? ==> Limited(limiter, who, now, amount) == Some(updated)
    {
      updated := limiter.windows;
      if amount <= 0 { return Some(AmountNotPositive), updated; }
      if message > MAX_MESSAGE { return Some(MessageTooLong), updated; }
      if status == Paused { return Some(CampaignPaused), updated; }
      if status != Active { return Some(NotActive), updated; }
      if now >= deadline { return Some(CampaignEnded), updated; }
      if access == OnBlacklist { return Some(Blacklisted), updated; }
      if access == OffWhitelist { return Some(NotWhitelisted), updated; }
      if amount < terms.minAmount { return Some(BelowMinimum), updated; }
      if terms.maxAmount > 0 && Get(books.contributions, who) + amount > terms.maxAmount {
        return Some(ExceedsMaximum), updated;
      }
      var admitted;
      admitted, updated := CheckRateLimit(who, now, amount);
      if !admitted { return Some(RateLimitExceeded), updated; }
      if !TokenAccepted(terms.accepted, token) { return Some(TokenNotAccepted), updated; }
      error := None;
    }

    /** Books `amount` received from `who`, split into the insurance fee and the contribution. */
    method RecordDeposit(who: Address, amount: int, fee: int)
      modifies this`books
      ensures books == Deposit(old(books), who, amount, fee)
    {
      if fee > 0 {
        books := books.(insuranceFees := books.insuranceFees[who := Get(books.insuranceFees, who) + fee]);
        books := books.(pool := books.pool + fee);
      }
      books := books.(contributions := books.contributions[who := Get(books.contributions, who) + amount - fee]);
    }

    /** Stores the limiter's window and appends the contribution record. */
    method RecordHistory(who: Address, now: nat, amount: int, contribution: int, updated: map<Address, RL.Window>)
      requires Limited(limiter, who, now, amount) == Some(updated)
      modifies this`limiter
      ensures limiter == Recorded(old(limiter), who, now, amount, contribution)
    {
      var records := if who in limiter.history then limiter.history[who] else [];
      records := records + [Contribution(RL.Entry(amount, now), contribution)];
      limiter := limiter.(windows := updated);
      limiter := limiter.(history := limiter.history[who := records]);
    }

    method ApplyMatching(effective: int) returns (topUp: int)
      modifies this`totalMatched
      ensures topUp == MatchFor(matching, old(totalMatched), effective) && totalMatched == old(totalMatched) + topUp
    {
      topUp := 0;
      if matching.Some? {
        var wanted := TruncDiv(effective * matching.value.ratioBps, BPS);
        var available := matching.value.maxMatch - totalMatched;
        topUp := Max(Min(wanted, available), 0);
        if topUp > 0 { totalMatched := totalMatched + topUp; }
      }
    }

    method InsurancePart(amount: int) returns (fee: int)
      ensures fee == InsuranceFee(insuranceBps, amount)
    {
      fee := if insuranceBps.Some? then TruncDiv(amount * insuranceBps.value, BPS) else 0;
    }

    /** Books the fee, the contribution and the match of `amount`. */
    method Credit(who: Address, amount: int)
      modifies this`books, this`total, this`totalMatched
      ensures var fee := InsuranceFee(insuranceBps, amount);
              var topUp := MatchFor(matching, old(totalMatched), amount - fee);
              && books == Deposit(old(books), who, amount, fee)
              && totalMatched == old(totalMatched) + topUp && total == old(total) + (amount - fee) + topUp
    {
      var fee := InsurancePart(amount);
      RecordDeposit(who, amount, fee);
      var effective := amount - fee;
      var topUp := ApplyMatching(effective);
      total := total + effective + topUp;
    }

    /** Books an admitted contribution whose tokens have arrived. */
    method AcceptContribution(now: nat, who: Address, amount: int, updated: map<Address, RL.Window>)
      requires Limited(limiter, who, now, amount) == Some(updated)
      modifies this`books, this`limiter, this`total, this`totalMatched
      ensures State() == Contributed(old(State()), now, who, amount, old(books))
    {
      Credit(who, amount);
      RecordHistory(who, now, amount, books.contributions[who], updated);
    }

    method Contribute(now: nat, access: Access, who: Address, amount: int, token: Token, message: nat)
      returns (r: Result<(), Error>)
      modifies this`books, this`limiter, this`total, this`totalMatched
      ensures Ends(old(State()), State(), r,
                   CampaignSpec.Contribute(old(State()), now, access, who, amount, token, message))
    {
      var error, updated := CheckContribution(now, access, who, amount, token, message);
      if error.Some? { return Err(error.value); }
      var paid := TransferTokenIn(token, who, amount);
      if !paid { return Err(TransferFailed); }
      AcceptContribution(now, who, amount, updated);
      return Ok(());
    }

    method SetupRecurring(
      now: nat, who: Address, amount: int, interval: nat, endDate: nat) returns (r: Result<(), Error>)
      modifies this
      ensures Ends(old(State()), State(), r,
                   CampaignSpec.SetupRecurring(old(State()), now, who, amount, interval, endDate))
    {
      var invalid := ValidateRecurringPlan(amount, interval, endDate, now);
      if invalid.Some? { return Err(invalid.value); }
      plans := plans[who := Plan(amount, interval, endDate, now)];
      return Ok(());
    }

    method ExecuteRecurring(now: nat, who: Address) returns (r: Result<(), Error>)
      modifies this
      ensures Ends(old(State()), State(), r, CampaignSpec.ExecuteRecurring(old(State()), now, who))
    {
      if who !in plans { return Err(InvalidRecurringPlan); }
      var plan := plans[who];
      if now > plan.endDate { return Err(InvalidRecurringPlan); }
      if now < plan.lastExecuted + plan.interval { return Err(InvalidRecurringPlan); }
      var paid := TransferIn(who, plan.amount);
      if !paid { return Err(TransferFailed); }
      plans := plans[who := plan.(lastExecuted := now)];
      RecordDeposit(who, plan.amount, 0);
      total := total + plan.amount;
      return Ok(());
    }

    method CancelRecurring(who: Address)
      modifies this
      ensures State() == CampaignSpec.CancelRecurring(old(State()), who)
    {
      plans := plans - {who};
    }

    method DelegateContribution(delegator: Address, delegate: Address, amount: int) returns (r: Result<(), Error>)
      modifies this
      ensures Ends(old(State()), State(), r, CampaignSpec.Delegate(old(State()), delegator, delegate, amount))
    {
      if amount <= 0 { return Err(InvalidDelegation); }
      delegations := delegations[delegator := Delegation(amount, delegate, true)];
      return Ok(());
    }

    method RevokeDelegation(delegator: Address) returns (r: Result<(), Error>)
      modifies this
      ensures Ends(old(State()), State(), r, CampaignSpec.RevokeDelegation(old(State()), delegator))
    {
      if delegator !in delegations { return Err(DelegationNotFound); }
      delegations := delegations[delegator := delegations[delegator].(active := false)];
      return Ok(());
    }

    method CheckOnBehalf(now: nat, access: Access, delegator: Address, delegate: Address, amount: int)
      returns (error: Option<Error>)
      ensures error == OnBehalfError(State(), now, access, delegator, delegate, amount)
    {
      if delegator !in delegations { return Some(DelegationNotFound); }
      var delegation := delegations[delegator];
      if !delegation.active || delegation.delegate != delegate { return Some(InvalidDelegation); }
      if Get(delegated, delegator) + amount > delegation.amount { return Some(ExceedsMaximum); }
      if amount < terms.minAmount { return Some(BelowMinimum); }
      if status != Active { return Some(NotActive); }
      if now >= deadline { return Some(CampaignEnded); }
      if access == OnBlacklist { return Some(Blacklisted); }
      if access == OffWhitelist { return Some(NotWhitelisted); }
      error := None;
    }

    /** Books an admitted delegated contribution whose tokens have arrived. */
    method AcceptOnBehalf(delegator: Address, amount: int)
      modifies this`books, this`total, this`delegated
      ensures State() == OnBehalf(old(State()), delegator, amount, old(books))
    {
      RecordDeposit(delegator, amount, 0);
      delegated := delegated[delegator := Get(delegated, delegator) + amount];
      total := total + amount;
    }

    method ContributeOnBehalf(
      now: nat, access: Access, delegator: Address, delegate: Address, amount: int, token: Token)
      returns (r: Result<(), Error>)
      modifies this`books, this`total, this`delegated
      ensures Ends(old(State()), State(), r,
                   CampaignSpec.ContributeOnBehalf(old(State()), now, access, delegator, delegate, amount, token))
    {
      var error := CheckOnBehalf(now, access, delegator, delegate, amount);
      if error.Some? { return Err(error.value); }
      var paid := TransferTokenIn(token, delegate, amount);
      if !paid { return Err(TransferFailed); }
      AcceptOnBehalf(delegator, amount);
      return Ok(());
    }

    // ---------- Refunds ----------

    /** The guard in front of refunds and insurance claims. */
    method CheckRefundsOpen(now: nat) returns (error: Option<Error>)
      ensures error == RefundsClosed(State(), now)
    {
      if status != Cancelled {
        if now < deadline { return Some(CampaignStillActive); }
        if total >= goal { return Some(GoalReached); }
      }
      error := None;
    }

    /** Pays one contributor back in full and says whether anything was due; not `ok` when the transfer fails. */
    method RefundContribution(who: Address) returns (ok: bool, due: bool)
      modifies this`books
      ensures due <==> Get(old(books).contributions, who) > 0
      ensures ok == RefundOne(old(books), who).Ok?
      ensures books == if ok then RefundOne(old(books), who).value else old(books)
    {
      var amount := Get(books.contributions, who);
      ok, due := true, amount > 0;
      if due {
        ok := TransferOut(who, amount);
        if ok { books := books.(contributions := books.contributions[who := 0]); }
      }
    }

    method RefundSingle(now: nat, who: Address) returns (r: Result<(), Error>)
      modifies this`books
      ensures Ends(old(State()), State(), r, CampaignSpec.RefundSingle(old(State()), now, who))
    {
      var error := CheckRefundsOpen(now);
      if error.Some? { return Err(error.value); }
      var ok, due := RefundContribution(who);
      if !ok { return Err(TransferFailed); }
      return Ok(());
    }

    /** The loop over the batch; on a failed transfer the ledger is left as it then is, for the caller to revert. */
    method RefundPrefix(list: seq<Address>, limit: nat) returns (ok: bool, refunded: nat)
      requires limit <= |list|
      modifies this`books
      ensures ok == RefundAll(old(books), list[..limit]).Ok?
      ensures ok ==> books == RefundAll(old(books), list[..limit]).value
      ensures ok ==> refunded == |Owed(old(books), list[..limit])|
    {
      ghost var start, prefix := books, list[..limit];
      refunded := 0;
      var i := 0;
      assert prefix[0..] == prefix;
      while i < limit
        invariant 0 <= i <= limit
        invariant RefundAll(start, prefix) == RefundAll(books, prefix[i..])
        invariant refunded + PaidEntries(books, prefix[i..]) == PaidEntries(start, prefix)
      {
        assert prefix[i..][0] == list[i] && prefix[i..][1..] == prefix[i + 1..];
        var due;
        ok, due := RefundContribution(list[i]);
        if !ok { return; }
        if due { refunded := refunded + 1; }
        i := i + 1;
      }
      ok := true;
      PaidEntriesAreDistinct(start, prefix);
    }

    method RefundBatch(now: nat, list: seq<Address>) returns (r: Result<nat, Error>)
      modifies this`books
      ensures Matches(old(State()), State(), r, CampaignSpec.RefundBatch(old(State()), now, list))
    {
      var error := CheckRefundsOpen(now);
      if error.Some? { return Err(error.value); }
      var before := books;
      var limit := if |list| <= MAX_BATCH then |list| else MAX_BATCH;
      assert list[..limit] == BatchPrefix(list);
      var ok, refunded := RefundPrefix(list, limit);
      if !ok {
        books := before;
        FailureIsTransfer(books, BatchPrefix(list));
        return Err(TransferFailed);
      }
      return Ok(refunded);
    }

    method RefundPartial(who: Address, amount: int) returns (r: Result<(), Error>)
      modifies this
      ensures Ends(old(State()), State(), r, CampaignSpec.RefundPartial(old(State()), who, amount))
    {
      var contribution := Get(books.contributions, who);
      var invalid := ValidatePartialRefund(amount, contribution);
      if invalid.Some? { return Err(invalid.value); }
      var paid := TransferOut(who, amount);
      if !paid { return Err(TransferFailed); }
      RecordDeposit(who, -amount, 0);
      total := total - amount;
      return Ok(());
    }

    method ClaimInsurancePayout(now: nat, who: Address) returns (r: Result<(), Error>)
      modifies this`books
      ensures Ends(old(State()), State(), r, CampaignSpec.ClaimInsurance(old(State()), now, who))
    {
      var error := CheckRefundsOpen(now);
      if error.Some? { return Err(error.value); }
      var fee := Get(books.insuranceFees, who);
      if fee == 0 { return Ok(()); }
      if books.pool < fee { return Err(InsufficientFunds); }
      var paid := TransferOut(who, fee);
      if !paid { return Err(TransferFailed); }
      books := books.(pool := books.pool - fee);
      books := books.(insuranceFees := books.insuranceFees[who := 0]);
      return Ok(());
    }

    // ---------- Closing ----------

    method CancelCampaign() returns (r: Result<(), Error>)
      modifies this
      ensures Ends(old(State()), State(), r, CampaignSpec.CancelCampaign(old(State())))
    {
      if status == Cancelled || status == Successful || status == Refunded { return Err(NotActive); }
      status := Cancelled;
      return Ok(());
    }

    method Archive() returns (r: Result<(), Error>)
      modifies this
      ensures Ends(old(State()), State(), r, CampaignSpec.Archive(old(State())))
    {
      if status == Active || status == Paused || status == Archived { return Err(NotActive); }
      status := Archived;
      return Ok(());
    }

    method Withdraw(now: nat) returns (r: Result<(), Error>)
      modifies this
      ensures Ends(old(State()), State(), r, CampaignSpec.Withdraw(old(State()), now))
    {
      if status != Active { return Err(NotActive); }
      if now < deadline { return Err(CampaignStillActive); }
      if total < goal { return Err(GoalNotReached); }
      var before := books;
      var fee := 0;
      if terms.platform.Some? {
        fee := TruncDiv(total * terms.platform.value.feeBps, BPS);
        var feePaid := TransferOut(terms.platform.value.address, fee);
        if !feePaid { return Err(TransferFailed); }
      }
      var payout := total - fee;
      if terms.vesting.Some? {
        var v := terms.vesting.value;
        if now < v.cliff {
          books := before;
          return Err(VestingNotComplete);
        }
        if now < v.cliff + v.duration {
          payout := TruncDiv(payout * (now - v.cliff), v.duration);
        }
      }
      var paid := TransferOut(creator, payout);
      if !paid {
        books := before;
        return Err(TransferFailed);
      }
      total := 0;
      status := Successful;
      return Ok(());
    }

    // ---------- Emergency withdrawal ----------

    method InitiateEmergencyWithdrawal(now: nat, lockPeriod: nat)
      modifies this`emergency
      ensures emergency == EM.Initiate(old(emergency), now, lockPeriod)
    {
      emergency := emergency.(lock := now + lockPeriod);
      emergency := emergency.(count := 0);
    }

    method ExecuteEmergencyWithdrawal(now: nat) returns (r: Result<(), Error>)
      modifies this`books, this`total, this`emergency
      ensures Ends(old(State()), State(), r, CampaignSpec.ExecuteEmergency(old(State()), now))
    {
      if emergency.lock == 0 || now < emergency.lock { return Err(EmergencyError(EM.EmergencyLocked)); }
      if emergency.required > 0 && emergency.count < emergency.required {
        return Err(EmergencyError(EM.MultiSigNotMet));
      }
      if total > 0 {
        var paid := TransferOut(creator, total);
        if !paid { return Err(TransferFailed); }
        total := 0;
      }
      emergency := emergency.(lock := 0);
      return Ok(());
    }

    method CancelEmergencyWithdrawal()
      modifies this`emergency
      ensures emergency == EM.Cancel(old(emergency))
    {
      emergency := emergency.(lock := 0);
    }

    method SetupEmergencyMultisig(required: nat, list: seq<Address>) returns (r: Result<(), Error>)
      modifies this`emergency
      ensures Ends(old(State()), State(), r, Guarded(old(State()), EM.Setup(old(emergency), required, list)))
    {
      if required == 0 || required > |list| { return Err(EmergencyError(EM.Unauthorized)); }
      emergency := emergency.(required := required);
      emergency := emergency.(approvers := list);
      return Ok(());
    }

    method ApproveEmergencyWithdrawal(approver: Address) returns (r: Result<(), Error>)
      modifies this`emergency
      ensures Ends(old(State()), State(), r, Guarded(old(State()), EM.Approve(old(emergency), approver)))
    {
      var lockUntil := emergency.lock;
      if lockUntil == 0 { return Err(EmergencyError(EM.EmergencyLocked)); }
      if emergency.required == 0 { return Err(EmergencyError(EM.Unauthorized)); }
      if approver !in emergency.approvers { return Err(EmergencyError(EM.Unauthorized)); }
      if Get(emergency.approvals, approver) == lockUntil { return Ok(()); }
      emergency := emergency.(approvals := emergency.approvals[approver := lockUntil]);
      emergency := emergency.(count := emergency.count + 1);
      return Ok(());
    }

    // ---------- Settings ----------

    method Pause() returns (r: Result<(), Error>)
      modifies this
      ensures Ends(old(State()), State(), r, CampaignSpec.Pause(old(State())))
    {
      if status != Active { return Err(NotActive); }
      status := Paused;
      return Ok(());
    }

    method Resume() returns (r: Result<(), Error>)
      modifies this
      ensures Ends(old(State()), State(), r, CampaignSpec.Resume(old(State())))
    {
      if status != Paused { return Err(NotActive); }
      status := Active;
      return Ok(());
    }

    method ExtendDeadline(newDeadline: nat) returns (r: Result<(), Error>)
      modifies this
      ensures Ends(old(State()), State(), r, CampaignSpec.ExtendDeadline(old(State()), newDeadline))
    {
      if status != Active { return Err(NotActive); }
      if newDeadline <= deadline { return Err(InvalidDeadline); }
      deadline := newDeadline;
      return Ok(());
    }

    method AdjustGoal(newGoal: int) returns (r: Result<(), Error>)
      modifies this
      ensures Ends(old(State()), State(), r, CampaignSpec.AdjustGoal(old(State()), newGoal))
    {
      if status != Active { return Err(NotActive); }
      if newGoal <= 0 { return Err(InvalidGoal); }
      if newGoal > I128_MAX / 2 { return Err(GoalOverflow); }
      goal := newGoal;
      return Ok(());
    }

    method SetRateLimit(maxAmount: int, seconds: nat) returns (r: Result<(), Error>)
      modifies this
      ensures Ends(old(State()), State(), r, CampaignSpec.SetRateLimit(old(State()), maxAmount, seconds))
    {
      if maxAmount < 0 { return Err(InvalidRateLimit); }
      if maxAmount == 0 {
        limiter := limiter.(limit := None);
        return Ok(());
      }
      if seconds == 0 { return Err(InvalidRateLimit); }
      limiter := limiter.(limit := Some(RL.Limit(maxAmount, seconds)));
      return Ok(());
    }

    method EnableInsurance(feeBps: nat, provider: Address) returns (r: Result<(), Error>)
      modifies this
      ensures Ends(old(State()), State(), r, CampaignSpec.EnableInsurance(old(State()), feeBps, provider))
    {
      var invalid := ValidateFeeBps(feeBps);
      if invalid.Some? { return Err(invalid.value); }
      if provider == creator { return Err(SelfFeeAddress); }
      insuranceBps := Some(feeBps);
      books := books.(pool := 0);
      return Ok(());
    }

    method SetupMatching(ratioBps: nat, maxMatch: int) returns (r: Result<(), Error>)
      modifies this
      ensures Ends(old(State()), State(), r, CampaignSpec.SetupMatching(old(State()), ratioBps, maxMatch))
    {
      if ratioBps > BPS { return Err(InvalidFee); }
      if maxMatch <= 0 { return Err(AmountNotPositive); }
      matching := Some(Matching(ratioBps, maxMatch));
      totalMatched := 0;
      return Ok(());
    }

    // ---------- Deadline extensions ----------

    method ProposeExtension(now: nat, newDeadline: nat) returns (r: Result<(), Error>)
      modifies this`voting
      ensures Ends(old(State()), State(), r, CampaignSpec.ProposeExtension(old(State()), now, newDeadline))
    {
      if newDeadline <= deadline { return Err(InvalidDeadline); }
      voting := voting.(proposal := Some(Proposal(newDeadline, 0, 0, now, now + VOTING_PERIOD, false)));
      return Ok(());
    }

    method VoteOnExtension(now: nat, who: Address, approve: bool) returns (r: Result<(), Error>)
      modifies this`voting
      ensures Ends(old(State()), State(), r, CampaignSpec.VoteOnExtension(old(State()), now, who, approve))
    {
      if voting.proposal.None? { return Err(ProposalNotFound); }
      var proposal := voting.proposal.value;
      if now > proposal.endsAt { return Err(VotingEnded); }
      var lastVoted := if who in voting.votes then voting.votes[who] else 0;
      if lastVoted == proposal.createdAt { return Err(AlreadyVoted); }
      var weight := Get(books.contributions, who);
      if approve {
        proposal := proposal.(votesFor := proposal.votesFor + weight);
      } else {
        proposal := proposal.(votesAgainst := proposal.votesAgainst + weight);
      }
      voting := Voting(Some(proposal), voting.votes[who := proposal.createdAt]);
      return Ok(());
    }

    method ExecuteExtension(now: nat) returns (r: Result<(), Error>)
      modifies this`voting, this`deadline
      ensures Ends(old(State()), State(), r, CampaignSpec.ExecuteExtension(old(State()), now))
    {
      if voting.proposal.None? { return Err(InvalidRecurringPlan); }
      var proposal := voting.proposal.value;
      if now <= proposal.endsAt { return Err(VotingEnded); }
      if proposal.executed { return Ok(()); }
      var totalVotes := proposal.votesFor + proposal.votesAgainst;
      if totalVotes > 0 && proposal.votesFor * 2 > totalVotes { deadline := proposal.deadline; }
      voting := voting.(proposal := Some(proposal.(executed := true)));
      return Ok(());
    }

    // ---------- Rewards, owners and clones ----------

    method ConfigureRewards(own: bool, perUnit: int) returns (r: Result<(), Error>)
      modifies this`rewards
      ensures Ends(old(State()), State(), r, CampaignSpec.ConfigureRewards(old(State()), own, perUnit))
    {
      if perUnit <= 0 { return Err(AmountNotPositive); }
      rewards := rewards.(config := Some(RewardConfig(own, perUnit)), distributed := 0);
      return Ok(());
    }

    method DistributeRewards(who: Address, pays: bool) returns (r: Result<(), Error>)
      modifies this`books, this`rewards
      ensures Ends(old(State()), State(), r, CampaignSpec.DistributeRewards(old(State()), who, pays))
    {
      if rewards.config.None? { return Err(NoRewardsConfigured); }
      var config := rewards.config.value;
      var contribution := Get(books.contributions, who);
      if contribution == 0 { return Err(BelowMinimum); }
      var reward := TruncDiv(contribution * config.perUnit, REWARD_UNIT);
      if Get(rewards.claimed, who) > 0 { return Ok(()); }
      var paid := pays && reward >= 0;
      if config.own { paid := TransferOut(who, reward); }
      if !paid { return Err(TransferFailed); }
      rewards := rewards.(distributed := rewards.distributed + reward, claimed := rewards.claimed[who := reward]);
      return Ok(());
    }

    method TransferOwnership(newOwner: Address) returns (r: Result<(), Error>)
      modifies this`creator
      ensures Ends(old(State()), State(), r, CampaignSpec.TransferOwnership(old(State()), newOwner))
    {
      if newOwner == creator { return Err(Unauthorized); }
      creator := newOwner;
      return Ok(());
    }

    method CloneCampaign(now: nat, newCreator: Address, newGoal: int, newDeadline: nat) returns (r: Result<(), Error>)
      modifies this`creator, this`goal, this`deadline, this`total, this`status
      ensures Ends(old(State()), State(), r,
                   CampaignSpec.CloneCampaign(old(State()), now, newCreator, newGoal, newDeadline))
    {
      if newGoal <= 0 { return Err(InvalidGoal); }
      if newGoal > I128_MAX / 2 { return Err(GoalOverflow); }
      if newDeadline <= now { return Err(InvalidDeadline); }
      creator, goal, deadline := newCreator, newGoal, newDeadline;
      total, status := 0, Active;
      return Ok(());
    }
  }
}
