/** Which parts of a campaign each kind of call leaves alone. */
module CampaignFrames {
  import opened CampaignSpec

  // ---------- Kind by kind ----------

  /** Books, totals, windows and the conditions of the campaign are as before. */
  predicate SameMoney(c: Campaign, d: Campaign) {
    d.books == c.books && d.insurance == c.insurance && d.total == c.total && d.matched == c.matched
  }

  predicate SameConditions(c: Campaign, d: Campaign) {
    d.terms == c.terms && d.goal == c.goal && d.deadline == c.deadline
  }

  lemma {:induction false} DepositsFrame(c: Campaign, t: Timed)
    requires KindOf(t.op) == Deposits
    ensures var d := Step(c, t);
      && SameConditions(c, d) && d.status == c.status && d.insurance == c.insurance && d.emergency == c.emergency
      && (!t.op.ContributeOp? ==> d.limiter == c.limiter)
  {
  }

  lemma {:induction false} RefundsFrame(c: Campaign, t: Timed)
    requires KindOf(t.op) == Refunds
    ensures var d := Step(c, t);
      && SameConditions(c, d) && d.status == c.status && d.insurance == c.insurance && d.emergency == c.emergency
      && d.limiter == c.limiter && d.matched == c.matched
  {
  }

  lemma {:induction false} PayoutsFrame(c: Campaign, t: Timed)
    requires KindOf(t.op) == Payouts
    ensures var d := Step(c, t);
      && SameConditions(c, d) && d.insurance == c.insurance && d.limiter == c.limiter
      && (!t.op.WithdrawOp? || c.status != Active ==> d.status == c.status)
      && (!t.op.ExecuteEmergencyOp? ==> d.emergency == c.emergency)
  {
  }

  lemma {:induction false} PlansFrame(c: Campaign, t: Timed)
    requires KindOf(t.op) == Plans
    ensures var d := Step(c, t);
      && SameMoney(c, d) && SameConditions(c, d) && d.status == c.status && d.emergency == c.emergency
      && d.limiter == c.limiter
  {
  }

  /** What a setting may change: the conditions of an active campaign, the insurance, the matching or the limit. */
  predicate OnlySettings(c: Campaign, d: Campaign, op: Op) {
    && d.terms == c.terms && d.status == c.status && d.emergency == c.emergency && d.total == c.total
    && (0 < c.goal ==> 0 < d.goal) && (c.status != Active ==> d.goal == c.goal && d.deadline == c.deadline)
    && d.books.(pool := c.books.pool) == c.books
    && (!op.EnableInsuranceOp? ==> d.books == c.books && d.insurance == c.insurance)
    && d.limiter.(limit := c.limiter.limit) == c.limiter && (!op.SetRateLimitOp? ==> d.limiter == c.limiter)
  }

  lemma {:induction false} SettingApplied(c: Campaign, t: Timed)
    requires KindOf(t.op) == Settings
    ensures ApplySetting(c, t).Ok? ==> OnlySettings(c, ApplySetting(c, t).value, t.op)
  {
  }

  lemma {:induction false} SettingsFrame(c: Campaign, t: Timed)
    requires KindOf(t.op) == Settings
    ensures OnlySettings(c, Step(c, t), t.op)
  {
    SettingApplied(c, t);
  }

  /** Withdrawn, cancelled or archived: only a clone makes such a campaign active again. */
  predicate Ended(s: Status) { s != Active && s != Paused }

  lemma {:induction false} LifecycleFrame(c: Campaign, t: Timed)
    requires KindOf(t.op) == Lifecycle
    ensures var d := Step(c, t);
      && SameMoney(c, d) && SameConditions(c, d) && d.emergency == c.emergency && d.limiter == c.limiter
      && (c.status == Cancelled && !t.op.ArchiveOp? ==> d.status == Cancelled)
      && (Ended(c.status) ==> Ended(d.status))
  {
  }

  /** Votes move no money; the deadline moves only when a carried proposal is executed. */
  lemma {:induction false} VotesFrame(c: Campaign, t: Timed)
    requires KindOf(t.op) == Votes
    ensures var d := Step(c, t);
      && SameMoney(c, d) && d.terms == c.terms && d.goal == c.goal && d.status == c.status
      && d.emergency == c.emergency && d.limiter == c.limiter
      && (!t.op.ExecuteExtensionOp? ==> d.deadline == c.deadline)
  {
  }

  /** Rewards touch, besides their own record, only what is held and what is in the wallets. */
  lemma {:induction false} RewardsFrame(c: Campaign, t: Timed)
    requires KindOf(t.op) == Rewarding
    ensures var d := Step(c, t);
      && SameConditions(c, d) && d.status == c.status && d.insurance == c.insurance && d.emergency == c.emergency
      && d.limiter == c.limiter && d.total == c.total && d.matched == c.matched
      && d.books.(held := c.books.held, wallets := c.books.wallets) == c.books
  {
  }

  lemma {:induction false} RestartsFrame(c: Campaign, t: Timed)
    requires KindOf(t.op) == Restarts
    ensures var d := Step(c, t);
      && d.books == c.books && d.insurance == c.insurance && d.matched == c.matched && d.terms == c.terms
      && d.emergency == c.emergency && d.limiter == c.limiter && (0 < c.goal ==> 0 < d.goal)
      && d.total == (if Apply(c, t).Ok? then 0 else c.total)
  {
  }

  lemma {:induction false} GuardsFrame(c: Campaign, t: Timed)
    requires KindOf(t.op) == Guards
    ensures var d := Step(c, t);
      SameMoney(c, d) && SameConditions(c, d) && d.status == c.status && d.limiter == c.limiter
  {
  }

  // ---------- Part by part ----------

  /** The kinds of calls that move neither tokens nor totals. */
  predicate MovesNoMoney(k: Kind) { k == Plans || k == Lifecycle || k == Votes || k == Guards }

  lemma {:induction false} MoneyFrame(c: Campaign, t: Timed)
    requires MovesNoMoney(KindOf(t.op))
    ensures var d := Step(c, t); SameMoney(c, d) && d.terms == c.terms && d.goal == c.goal
  {
    match KindOf(t.op)
    case Plans => PlansFrame(c, t);
    case Lifecycle => LifecycleFrame(c, t);
    case Votes => VotesFrame(c, t);
    case Guards => GuardsFrame(c, t);
  }

  lemma {:induction false} LimiterFrame(c: Campaign, t: Timed)
    requires !t.op.ContributeOp?
    ensures var d := Step(c, t).limiter; d.windows == c.limiter.windows && d.history == c.limiter.history
    ensures !t.op.SetRateLimitOp? ==> Step(c, t).limiter == c.limiter
  {
    match KindOf(t.op)
    case Deposits => DepositsFrame(c, t);
    case Refunds => RefundsFrame(c, t);
    case Payouts => PayoutsFrame(c, t);
    case Plans => PlansFrame(c, t);
    case Settings => SettingsFrame(c, t);
    case Lifecycle => LifecycleFrame(c, t);
    case Votes => VotesFrame(c, t);
    case Rewarding => RewardsFrame(c, t);
    case Restarts => RestartsFrame(c, t);
    case Guards => GuardsFrame(c, t);
  }

  lemma {:induction false} EmergencyFrame(c: Campaign, t: Timed)
    requires KindOf(t.op) != Guards && !t.op.ExecuteEmergencyOp?
    ensures Step(c, t).emergency == c.emergency
  {
    match KindOf(t.op)
    case Deposits => DepositsFrame(c, t);
    case Refunds => RefundsFrame(c, t);
    case Payouts => PayoutsFrame(c, t);
    case Plans => PlansFrame(c, t);
    case Settings => SettingsFrame(c, t);
    case Lifecycle => LifecycleFrame(c, t);
    case Votes => VotesFrame(c, t);
    case Rewarding => RewardsFrame(c, t);
    case Restarts => RestartsFrame(c, t);
  }

  /** Terms never change, and a positive goal stays positive. */
  lemma {:induction false} TermsFrame(c: Campaign, t: Timed)
    ensures Step(c, t).terms == c.terms && (0 < c.goal ==> 0 < Step(c, t).goal)
  {
    match KindOf(t.op)
    case Deposits => DepositsFrame(c, t);
    case Refunds => RefundsFrame(c, t);
    case Payouts => PayoutsFrame(c, t);
    case Settings => SettingsFrame(c, t);
    case Rewarding => RewardsFrame(c, t);
    case Restarts => RestartsFrame(c, t);
    case _ => MoneyFrame(c, t);
  }

  /** Apart from the calls that end or restart a campaign, the status stays. */
  lemma {:induction false} StatusFrame(c: Campaign, t: Timed)
    requires KindOf(t.op) != Lifecycle && KindOf(t.op) != Restarts && (!t.op.WithdrawOp? || c.status != Active)
    ensures Step(c, t).status == c.status
  {
    match KindOf(t.op)
    case Deposits => DepositsFrame(c, t);
    case Refunds => RefundsFrame(c, t);
    case Payouts => PayoutsFrame(c, t);
    case Plans => PlansFrame(c, t);
    case Settings => SettingsFrame(c, t);
    case Votes => VotesFrame(c, t);
    case Rewarding => RewardsFrame(c, t);
    case Guards => GuardsFrame(c, t);
  }
}
