/** Who may do what when, and what plans, delegations, matches and deadlines are bound by over whole runs. */
module CampaignConditions {
  import opened Common
  import opened Validation
  import opened CampaignSpec
  import opened CampaignFrames
  import opened CampaignVoting
  import opened CampaignSolvency
  import opened CampaignPayout
  import RL = RateLimiter

  // ---------- Administration ----------

  /** The status after a call: the table of the calls that may change it, and everything else keeps it. */
  lemma {:induction false} StatusFollowsTable(c: Campaign, t: Timed)
    ensures Step(c, t).status ==
      match t.op
      case CancelOp => if c.status in {Successful, Refunded} then c.status else Cancelled
      case ArchiveOp => if c.status in {Active, Paused} then c.status else Archived
      case PauseOp => if c.status == Active then Paused else c.status
      case ResumeOp => if c.status == Paused then Active else c.status
      case WithdrawOp => if Apply(c, t).Ok? then Successful else c.status
      case CloneOp(_, _, _) => if Apply(c, t).Ok? then Active else c.status
      case _ => c.status
  {
    if KindOf(t.op) != Lifecycle && KindOf(t.op) != Restarts && !t.op.WithdrawOp? {
      StatusFrame(c, t);
    }
  }

  predicate GoalInRange(goal: int) { 0 < goal <= 0x3fff_ffff_ffff_ffff_ffff_ffff_ffff_ffff }

  /** When the calls that set conditions and plans are accepted. */
  lemma {:induction false} SettingsAcceptedIff(c: Campaign, t: Timed)
    requires KindOf(t.op) == Settings || KindOf(t.op) == Plans || KindOf(t.op) == Restarts
    ensures Apply(c, t).Ok? <==>
      match t.op
      case ExtendOp(deadline) => c.status == Active && c.deadline < deadline
      case AdjustGoalOp(goal) => c.status == Active && GoalInRange(goal)
      case SetRateLimitOp(maxAmount, seconds) => maxAmount == 0 || (0 < maxAmount && 0 < seconds)
      case EnableInsuranceOp(feeBps, provider) => feeBps <= 10_000 && provider != c.creator
      case SetupMatchingOp(ratioBps, maxMatch) => ratioBps <= 10_000 && 0 < maxMatch
      case SetupRecurringOp(_, amount, interval, endDate) => 0 < amount && 0 < interval && t.now < endDate
      case DelegateOp(_, _, amount) => 0 < amount
      case RevokeOp(delegator) => delegator in c.delegations
      case CloneOp(_, goal, deadline) => GoalInRange(goal) && t.now < deadline
      case CancelRecurringOp(_) => true
  {
  }

  /** What those calls store, of the whole campaign. */
  lemma {:induction false} SettingsStoreExactly(c: Campaign, t: Timed)
    requires KindOf(t.op) == Settings && ApplySetting(c, t).Ok?
    ensures ApplySetting(c, t).value ==
      match t.op
      case ExtendOp(deadline) => c.(deadline := deadline)
      case AdjustGoalOp(goal) => c.(goal := goal)
      case SetRateLimitOp(maxAmount, seconds) =>
        c.(limiter := c.limiter.(limit := if maxAmount == 0 then None else Some(RL.Limit(maxAmount, seconds))))
      case EnableInsuranceOp(feeBps, _) => c.(insurance := Some(feeBps), books := c.books.(pool := 0))
      case SetupMatchingOp(ratioBps, maxMatch) => c.(matching := Some(Matching(ratioBps, maxMatch)), matched := 0)
  {
  }

  lemma {:induction false} PlansStoreExactly(c: Campaign, t: Timed)
    requires KindOf(t.op) == Plans && ApplyPlan(c, t).Ok?
    ensures ApplyPlan(c, t).value ==
      match t.op
      case SetupRecurringOp(who, amount, interval, endDate) =>
        c.(plans := c.plans[who := Plan(amount, interval, endDate, t.now)])
      case CancelRecurringOp(who) => c.(plans := c.plans - {who})
      case DelegateOp(delegator, delegate, amount) =>
        c.(delegations := c.delegations[delegator := Delegation(amount, delegate, true)])
      case RevokeOp(delegator) =>
        c.(delegations := c.delegations[delegator := c.delegations[delegator].(active := false)])
  {
  }

  /** Owner, reward and clone: the new owner, who is the one withdrawals pay, must be another one. */
  lemma {:induction false} OwnersAndRewardsStoreExactly(
    c: Campaign, now: nat, owner: Address, own: bool, perUnit: int, goal: int, deadline: nat)
    ensures TransferOwnership(c, owner) == if owner == c.creator then Err(Unauthorized) else Ok(c.(creator := owner))
    ensures var r := ConfigureRewards(c, own, perUnit);
      && (r.Ok? <==> 0 < perUnit)
      && (r.Ok? ==> var d := r.value;
            && d.rewards == Rewards(Some(RewardConfig(own, perUnit)), c.rewards.claimed, 0)
            && d.(rewards := c.rewards) == c)
    ensures var r := CloneCampaign(c, now, owner, goal, deadline); r.Ok? ==>
      r.value == c.(creator := owner, goal := goal, deadline := deadline, total := 0, status := Active)
  {
  }

  /** `initialize` takes the terms as they are, when they make sense. */
  lemma {:induction false} InitializeAcceptedIff(
    now: nat, creator: Address, terms: Terms, deadline: nat, goal: int, wallets: map<Address, int>)
    ensures var r := Initialize(now, creator, terms, deadline, goal, wallets);
      && (r.Ok? <==> && GoalInRange(goal) && now < deadline && 0 <= terms.minAmount
                     && (terms.maxAmount == 0 || terms.minAmount <= terms.maxAmount)
                     && 0 <= terms.maxAmount
                     && (terms.platform.Some? ==>
                           terms.platform.value.feeBps <= 10_000 && terms.platform.value.address != creator))
      && (r.Ok? ==> var c := r.value;
            && c.creator == creator && c.terms == terms && c.goal == goal && c.deadline == deadline
            && c.status == Active && c.total == 0 && c.books == Books(0, wallets, map[], 0, map[]))
  {
  }

  /** No call ever sets the status Refunded. */
  lemma {:induction false} NeverRefunded(c: Campaign, calls: seq<Timed>)
    requires c.status != Refunded
    ensures Run(c, calls).status != Refunded
    decreases |calls|
  {
    if calls != [] {
      StatusFollowsTable(c, calls[0]);
      NeverRefunded(Step(c, calls[0]), calls[1..]);
    }
  }

  /** A withdrawn campaign cannot be cancelled, but an archived one can, and its refunds are then open. */
  lemma {:induction false} ArchivedCanBeCancelled(c: Campaign, now: nat)
    requires c.status == Successful
    ensures CancelCampaign(c) == Err(NotActive)
    ensures var d := Run(c, [Timed(now, ArchiveOp), Timed(now, CancelOp)]);
      d == c.(status := Cancelled) && RefundsClosed(d, now).None?
  {
    RunOfTwo(c, Timed(now, ArchiveOp), Timed(now, CancelOp));
  }

  // ---------- What other calls leave alone ----------

  predicate SamePlans(c: Campaign, d: Campaign) {
    d.plans == c.plans && d.delegations == c.delegations && d.delegated == c.delegated
  }

  predicate SameMatch(c: Campaign, d: Campaign) { d.matching == c.matching && d.matched == c.matched }

  lemma {:induction false} RefundsKeepPlans(c: Campaign, t: Timed)
    requires KindOf(t.op) == Refunds
    ensures SamePlans(c, Step(c, t)) && SameMatch(c, Step(c, t))
  {
  }

  lemma {:induction false} SettingsKeepPlans(c: Campaign, t: Timed)
    requires KindOf(t.op) == Settings
    ensures ApplySetting(c, t).Ok? ==>
      SamePlans(c, ApplySetting(c, t).value) && (!t.op.SetupMatchingOp? ==> SameMatch(c, ApplySetting(c, t).value))
  {
  }

  lemma {:induction false} DepositsKeepPlans(c: Campaign, t: Timed)
    requires KindOf(t.op) == Deposits
    ensures var d := Step(c, t);
      && d.delegations == c.delegations && d.matching == c.matching
      && (!t.op.ExecuteRecurringOp? ==> d.plans == c.plans)
      && (!t.op.OnBehalfOp? ==> d.delegated == c.delegated) && (!t.op.ContributeOp? ==> d.matched == c.matched)
  {
  }

  lemma {:induction false} PayoutsKeepPlans(c: Campaign, t: Timed)
    requires KindOf(t.op) == Payouts
    ensures SamePlans(c, Step(c, t)) && SameMatch(c, Step(c, t))
  {
  }

  lemma {:induction false} RewardsKeepPlans(c: Campaign, t: Timed)
    requires KindOf(t.op) == Rewarding
    ensures SamePlans(c, Step(c, t)) && SameMatch(c, Step(c, t))
  {
  }

  lemma {:induction false} VotesKeepPlans(c: Campaign, t: Timed)
    requires KindOf(t.op) == Votes
    ensures SamePlans(c, Step(c, t)) && SameMatch(c, Step(c, t))
  {
  }

  lemma {:induction false} OthersKeepPlans(c: Campaign, t: Timed)
    requires KindOf(t.op) != Deposits && KindOf(t.op) != Plans && !t.op.SetupMatchingOp?
    ensures SamePlans(c, Step(c, t)) && SameMatch(c, Step(c, t))
  {
    match KindOf(t.op)
    case Refunds => RefundsKeepPlans(c, t);
    case Settings => SettingsKeepPlans(c, t);
    case Payouts => PayoutsKeepPlans(c, t);
    case Rewarding => RewardsKeepPlans(c, t);
    case Votes => VotesKeepPlans(c, t);
    case _ =>
  }

  // ---------- Recurring plans ----------

  /** When instalments of `who` were accepted. */
  function Instalments(c: Campaign, calls: seq<Timed>, who: Address): seq<nat>
    decreases |calls|
  {
    if calls == [] then []
    else
      (if calls[0].op == ExecuteRecurringOp(who) && Apply(c, calls[0]).Ok? then [calls[0].now] else [])
      + Instalments(Step(c, calls[0]), calls[1..], who)
  }

  predicate NeverSetsUp(calls: seq<Timed>, who: Address) {
    forall i :: 0 <= i < |calls| ==> !(calls[i].op.SetupRecurringOp? && calls[i].op.who == who)
  }

  /** The `k`-th instalment after `last` comes no earlier than `k` intervals later, and none after the end. */
  predicate Spaced(times: seq<nat>, last: nat, interval: nat, endDate: nat) {
    forall k :: 0 <= k < |times| ==> last + (k + 1) * interval <= times[k] <= endDate
  }

  /** What a call leaves of a plan: it is as before, or cancelled, or an instalment was due and restarts its clock. */
  lemma {:induction false} StepPlan(c: Campaign, t: Timed, who: Address)
    requires !(t.op.SetupRecurringOp? && t.op.who == who)
    ensures var paid := t.op == ExecuteRecurringOp(who) && Apply(c, t).Ok?; var d := Step(c, t);
      && (paid ==> who in c.plans && c.plans[who].lastExecuted + c.plans[who].interval <= t.now <= c.plans[who].endDate)
      && (who in d.plans ==>
            who in c.plans && d.plans[who] == if paid then c.plans[who].(lastExecuted := t.now) else c.plans[who])
  {
    match KindOf(t.op)
    case Deposits => if !t.op.ExecuteRecurringOp? { DepositsKeepPlans(c, t); }
    case Plans =>
    case _ => if !t.op.SetupMatchingOp? { OthersKeepPlans(c, t); } else { SettingsKeepPlans(c, t); }
  }

  lemma {:induction false} NoPlanNoInstalments(c: Campaign, calls: seq<Timed>, who: Address)
    requires NeverSetsUp(calls, who) && who !in c.plans
    ensures Instalments(c, calls, who) == []
    decreases |calls|
  {
    if calls != [] {
      StepPlan(c, calls[0], who);
      NoPlanNoInstalments(Step(c, calls[0]), calls[1..], who);
    }
  }

  lemma {:induction false} OneMoreInstalment(rest: seq<nat>, now: nat, last: nat, interval: nat, endDate: nat)
    requires Spaced(rest, now, interval, endDate) && last + interval <= now <= endDate
    ensures Spaced([now] + rest, last, interval, endDate)
  {
    var times := [now] + rest;
    forall k | 0 <= k < |times| ensures last + (k + 1) * interval <= times[k] <= endDate {
      if k > 0 {
        assert times[k] == rest[k - 1];
        assert (k + 1) * interval == k * interval + interval;
      } else {
        assert (k + 1) * interval == interval;
      }
    }
  }

  /** Anybody may trigger instalments, but over any run without a new plan they come an interval apart until its end. */
  lemma {:induction false} InstalmentsAreSpaced(c: Campaign, calls: seq<Timed>, who: Address)
    requires who in c.plans && NeverSetsUp(calls, who)
    ensures var plan := c.plans[who];
      Spaced(Instalments(c, calls, who), plan.lastExecuted, plan.interval, plan.endDate)
    decreases |calls|
  {
    if calls != [] {
      var d, plan := Step(c, calls[0]), c.plans[who];
      StepPlan(c, calls[0], who);
      if who in d.plans {
        InstalmentsAreSpaced(d, calls[1..], who);
      } else {
        NoPlanNoInstalments(d, calls[1..], who);
      }
      var rest := Instalments(d, calls[1..], who);
      if calls[0].op == ExecuteRecurringOp(who) && Apply(c, calls[0]).Ok? {
        assert Spaced(rest, calls[0].now, plan.interval, plan.endDate);
        OneMoreInstalment(rest, calls[0].now, plan.lastExecuted, plan.interval, plan.endDate);
      } else {
        assert Instalments(c, calls, who) == rest;
      }
    }
  }

  /** So a plan never takes more than its amount for every whole interval from its setup to its end. */
  lemma {:induction false} PlanBoundsInstalments(
    c: Campaign, start: nat, who: Address, amount: int, interval: nat, endDate: nat, calls: seq<Timed>)
    requires SetupRecurring(c, start, who, amount, interval, endDate).Ok? && NeverSetsUp(calls, who)
    ensures var times := Instalments(SetupRecurring(c, start, who, amount, interval, endDate).value, calls, who);
      |times| * interval <= endDate - start && (times != [] ==> start + interval <= times[0])
  {
    var d := SetupRecurring(c, start, who, amount, interval, endDate).value;
    InstalmentsAreSpaced(d, calls, who);
    SpacedWithin(Instalments(d, calls, who), start, interval, endDate);
  }

  lemma {:induction false} SpacedWithin(times: seq<nat>, last: nat, interval: nat, endDate: nat)
    requires Spaced(times, last, interval, endDate) && last <= endDate
    ensures |times| * interval <= endDate - last && (times != [] ==> last + interval <= times[0])
  {
    if times != [] {
      var k := |times| - 1;
      assert last + (k + 1) * interval <= times[k] <= endDate;
      assert times[0] >= last + (0 + 1) * interval;
    }
  }

  /** A cancelled plan takes nothing more, over any run without a new one. */
  lemma {:induction false} CancelledPlanTakesNothing(c: Campaign, who: Address, calls: seq<Timed>)
    requires NeverSetsUp(calls, who)
    ensures Instalments(CancelRecurring(c, who), calls, who) == []
  {
    NoPlanNoInstalments(CancelRecurring(c, who), calls, who);
  }

  // ---------- Matches ----------

  predicate NeverMatchesAnew(calls: seq<Timed>) {
    forall i :: 0 <= i < |calls| ==> !calls[i].op.SetupMatchingOp?
  }

  predicate WithinMatch(c: Campaign, maxMatch: int) {
    c.matching.Some? && c.matching.value.maxMatch == maxMatch && 0 <= c.matched <= maxMatch
  }

  lemma {:induction false} StepKeepsWithinMatch(c: Campaign, t: Timed, maxMatch: int)
    requires WithinMatch(c, maxMatch) && !t.op.SetupMatchingOp?
    ensures WithinMatch(Step(c, t), maxMatch)
  {
    match KindOf(t.op)
    case Deposits => DepositsKeepPlans(c, t);
    case Plans => PlansFrame(c, t);
    case _ => OthersKeepPlans(c, t);
  }

  /** After the matching is set up, no run without another setup ever matches more than its maximum. */
  lemma {:induction false} MatchWithinMaximum(c: Campaign, ratioBps: nat, maxMatch: int, calls: seq<Timed>)
    requires SetupMatching(c, ratioBps, maxMatch).Ok? && NeverMatchesAnew(calls)
    ensures WithinMatch(Run(SetupMatching(c, ratioBps, maxMatch).value, calls), maxMatch)
  {
    MatchRun(SetupMatching(c, ratioBps, maxMatch).value, calls, maxMatch);
  }

  lemma {:induction false} MatchRun(c: Campaign, calls: seq<Timed>, maxMatch: int)
    requires WithinMatch(c, maxMatch) && NeverMatchesAnew(calls)
    ensures WithinMatch(Run(c, calls), maxMatch)
    decreases |calls|
  {
    if calls != [] {
      StepKeepsWithinMatch(c, calls[0], maxMatch);
      MatchRun(Step(c, calls[0]), calls[1..], maxMatch);
    }
  }

  // ---------- Delegations ----------

  /** What delegates contributed on behalf of `who` over a run. */
  function TotalOnBehalf(c: Campaign, calls: seq<Timed>, who: Address): int
    decreases |calls|
  {
    if calls == [] then 0
    else
      var t := calls[0];
      (if t.op.OnBehalfOp? && t.op.delegator == who && Apply(c, t).Ok? then t.op.amount else 0)
      + TotalOnBehalf(Step(c, t), calls[1..], who)
  }

  predicate NeverDelegates(calls: seq<Timed>, who: Address) {
    forall i :: 0 <= i < |calls| ==> !(calls[i].op.DelegateOp? && calls[i].op.delegator == who)
  }

  lemma {:induction false} StepDelegated(c: Campaign, t: Timed, who: Address)
    requires !(t.op.DelegateOp? && t.op.delegator == who) && who in c.delegations
    ensures var d := Step(c, t); var used := t.op.OnBehalfOp? && t.op.delegator == who && Apply(c, t).Ok?;
      && who in d.delegations && d.delegations[who].amount == c.delegations[who].amount
      && Get(d.delegated, who) == Get(c.delegated, who) + (if used then t.op.amount else 0)
      && (used ==> Get(d.delegated, who) <= d.delegations[who].amount)
  {
    match KindOf(t.op)
    case Deposits => if !t.op.OnBehalfOp? { DepositsKeepPlans(c, t); }
    case Plans =>
    case _ => if !t.op.SetupMatchingOp? { OthersKeepPlans(c, t); } else { SettingsKeepPlans(c, t); }
  }

  /** A revoked delegation admits nothing more, over any run without a new one. */
  lemma {:induction false} RevokedStaysRevoked(c: Campaign, delegator: Address, calls: seq<Timed>)
    requires RevokeDelegation(c, delegator).Ok? && NeverDelegates(calls, delegator)
    ensures TotalOnBehalf(RevokeDelegation(c, delegator).value, calls, delegator) == 0
  {
    InactiveAdmitsNothing(RevokeDelegation(c, delegator).value, calls, delegator);
  }

  lemma {:induction false} StepKeepsInactive(c: Campaign, t: Timed, who: Address)
    requires !(t.op.DelegateOp? && t.op.delegator == who) && who in c.delegations && !c.delegations[who].active
    ensures var d := Step(c, t); who in d.delegations && !d.delegations[who].active
    ensures t.op.OnBehalfOp? && t.op.delegator == who ==> Apply(c, t).Err?
  {
    match KindOf(t.op)
    case Deposits => DepositsKeepPlans(c, t);
    case Plans =>
    case _ => if !t.op.SetupMatchingOp? { OthersKeepPlans(c, t); } else { SettingsKeepPlans(c, t); }
  }

  lemma {:induction false} InactiveAdmitsNothing(c: Campaign, calls: seq<Timed>, who: Address)
    requires who in c.delegations && !c.delegations[who].active && NeverDelegates(calls, who)
    ensures TotalOnBehalf(c, calls, who) == 0
    decreases |calls|
  {
    if calls != [] {
      StepKeepsInactive(c, calls[0], who);
      InactiveAdmitsNothing(Step(c, calls[0]), calls[1..], who);
    }
  }

  /**
   * After a delegation, over any run without another one: what the delegate contributes counts, with what delegates
   * contributed before it, against the delegated amount; revoking does not lose that count.
   */
  lemma {:induction false} DelegatesStayWithinAmount(c: Campaign, calls: seq<Timed>, who: Address)
    requires who in c.delegations && NeverDelegates(calls, who)
    ensures var d := Run(c, calls);
      && Get(d.delegated, who) == Get(c.delegated, who) + TotalOnBehalf(c, calls, who)
      && Get(d.delegated, who) <= Max(Get(c.delegated, who), c.delegations[who].amount)
    decreases |calls|
  {
    if calls != [] {
      StepDelegated(c, calls[0], who);
      DelegatesStayWithinAmount(Step(c, calls[0]), calls[1..], who);
    }
  }

  // ---------- Deadlines ----------

  predicate DeadlineNeverFalls(c: Campaign, calls: seq<Timed>)
    decreases |calls|
  {
    calls == [] || (c.deadline <= Step(c, calls[0]).deadline && DeadlineNeverFalls(Step(c, calls[0]), calls[1..]))
  }

  /** A clone, or the execution of a proposal the creator has gone beyond in the meantime, to an earlier deadline. */
  predicate Shortens(c: Campaign, t: Timed) {
    || (t.op.CloneOp? && Apply(c, t).Ok? && t.op.deadline < c.deadline)
    || (Extends(c, t) && c.voting.proposal.value.deadline < c.deadline)
  }

  predicate NothingShortens(c: Campaign, calls: seq<Timed>)
    decreases |calls|
  {
    calls == [] || (!Shortens(c, calls[0]) && NothingShortens(Step(c, calls[0]), calls[1..]))
  }

  lemma {:induction false} ExtendMovesLater(c: Campaign, t: Timed)
    requires KindOf(t.op) == Settings
    ensures ApplySetting(c, t).Ok? ==> c.deadline <= ApplySetting(c, t).value.deadline
  {
  }

  lemma {:induction false} StepShortensIff(c: Campaign, t: Timed)
    ensures Step(c, t).deadline < c.deadline <==> Shortens(c, t)
  {
    match KindOf(t.op)
    case Deposits => DepositsFrame(c, t);
    case Refunds => RefundsFrame(c, t);
    case Payouts => PayoutsFrame(c, t);
    case Plans => PlansFrame(c, t);
    case Settings => ExtendMovesLater(c, t);
    case Lifecycle => LifecycleFrame(c, t);
    case Votes => DeadlineMovesByVote(c, t);
    case Rewarding => RewardsFrame(c, t);
    case Restarts =>
    case Guards => GuardsFrame(c, t);
  }

  /** Deadlines are only ever extended if and only if no clone and no outdated proposal moves one back. */
  lemma {:induction false} DeadlineNeverFallsIff(c: Campaign, calls: seq<Timed>)
    ensures DeadlineNeverFalls(c, calls) <==> NothingShortens(c, calls)
    decreases |calls|
  {
    if calls != [] {
      StepShortensIff(c, calls[0]);
      DeadlineNeverFallsIff(Step(c, calls[0]), calls[1..]);
    }
  }

  /**
   * A carried proposal executed after the creator extended the deadline beyond it moves the deadline back: for every
   * active campaign, contributor with weight, and two later deadlines.
   */
  lemma {:induction false} OutdatedProposalShortens(c: Campaign, now: nat, voter: Address, proposed: nat, extended: nat)
    requires c.status == Active && c.deadline < proposed < extended
    requires 0 < Get(c.books.contributions, voter) && LastVoted(c.voting, voter) != now
    ensures var d := Run(c, [Timed(now, ProposeOp(proposed)), Timed(now, VoteOp(voter, true)),
                             Timed(now, ExtendOp(extended))]);
      && d.deadline == extended
      && Step(d, Timed(now + 7 * 24 * 60 * 60 + 1, ExecuteExtensionOp)).deadline == proposed
  {
    var propose, vote := Timed(now, ProposeOp(proposed)), Timed(now, VoteOp(voter, true));
    RunOfThree(c, propose, vote, Timed(now, ExtendOp(extended)));
    Proposed(c, now, proposed);
    VotedAlone(Step(c, propose), now, voter);
    ExtendedAfterVote(Step(Step(c, propose), vote), now, extended);
  }

  /** Extended by the creator, then executed. */
  lemma {:induction false} ExtendedAfterVote(c: Campaign, now: nat, extended: nat)
    requires c.status == Active && c.deadline < extended && c.voting.proposal.Some?
    requires var p := c.voting.proposal.value; p.endsAt == now + VOTING_PERIOD && !p.executed && Carried(p)
    ensures var d := Step(c, Timed(now, ExtendOp(extended)));
      && d.deadline == extended
      && Step(d, Timed(now + VOTING_PERIOD + 1, ExecuteExtensionOp)).deadline == c.voting.proposal.value.deadline
  {
    Extended(c, now, extended);
    OutdatedExecution(c.(deadline := extended), now + VOTING_PERIOD + 1);
  }

  lemma {:induction false} Proposed(c: Campaign, now: nat, proposed: nat)
    requires c.deadline < proposed
    ensures Step(c, Timed(now, ProposeOp(proposed)))
         == c.(voting := c.voting.(proposal := Some(Proposal(proposed, 0, 0, now, now + VOTING_PERIOD, false))))
  {
  }

  lemma {:induction false} Extended(c: Campaign, now: nat, deadline: nat)
    requires c.status == Active && c.deadline < deadline
    ensures Step(c, Timed(now, ExtendOp(deadline))) == c.(deadline := deadline)
  {
  }

  lemma {:induction false} VotedAlone(c: Campaign, now: nat, voter: Address)
    requires c.voting.proposal.Some? && c.voting.proposal.value.createdAt == now <= c.voting.proposal.value.endsAt
    requires LastVoted(c.voting, voter) != now
    ensures var p := c.voting.proposal.value; var d := Step(c, Timed(now, VoteOp(voter, true)));
      && d == c.(voting := d.voting)
      && d.voting.proposal == Some(p.(votesFor := p.votesFor + Get(c.books.contributions, voter)))
  {
  }

  lemma {:induction false} OutdatedExecution(c: Campaign, now: nat)
    requires c.voting.proposal.Some? && Extends(c, Timed(now, ExecuteExtensionOp))
    ensures Step(c, Timed(now, ExecuteExtensionOp)).deadline == c.voting.proposal.value.deadline
  {
    DeadlineMovesByVote(c, Timed(now, ExecuteExtensionOp));
  }
}
