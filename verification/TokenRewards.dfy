/** What a stake is paid in rewards over a run: every payout covers the whole time since staking, paid before or not. */
module TokenRewards {
  import opened Common
  import opened Merkle
  import opened TokenSpec
  import opened TokenSupply

  /** A reward payout: when, at which rate, and how much. */
  datatype Payout = Payout(ledger: nat, rate: int, paid: int)

  /** The balance a call adds to `who`. */
  function Gain(h: Hashing, t: Token, c: Timed, who: Address): int
    requires SoundSchedules(t.vesting)
  {
    Get(Step(h, t, c).ledger.balances, who) - Get(t.ledger.balances, who)
  }

  /** The payouts of one call: what a claim adds, and what an unstake adds beyond the stake less its penalty. */
  function PayoutsOf(h: Hashing, t: Token, c: Timed, who: Address): seq<Payout>
    requires SoundSchedules(t.vesting)
  {
    if Apply(h, t, c).Err? || who !in t.staking.stakes then []
    else
      var s := t.staking.stakes[who];
      match c.op
      case ClaimRewardsOp(w) => if w == who then [Payout(c.now, t.staking.rate, Gain(h, t, c, who))] else []
      case UnstakeOp(w, early) =>
        if w == who then
          [Payout(c.now, t.staking.rate, Gain(h, t, c, who) - (s.amount - PenaltyOf(t.staking, s, c.now, early)))]
        else []
      case _ => []
  }

  function Payouts(h: Hashing, t: Token, calls: seq<Timed>, who: Address): seq<Payout>
    requires SoundSchedules(t.vesting)
    decreases |calls|
  {
    if calls == [] then [] else PayoutsOf(h, t, calls[0], who) + Payouts(h, Step(h, t, calls[0]), calls[1..], who)
  }

  /** Calls during the life of one stake: `who` does not stake again. */
  predicate NeverStakes(calls: seq<Timed>, who: Address) {
    forall i :: 0 <= i < |calls| ==> !(calls[i].op.StakeOp? && calls[i].op.who == who)
  }

  /** What a stake has accrued by `ledger` at `rate`, counted from the ledger it was made. */
  function Accrued(s: Stake, rate: int, ledger: int): int {
    TruncDiv(s.amount * rate * (ledger - s.lockStart), 1_000_000)
  }

  /** Each payout is the whole accrual of the stake since it was made, and no less than nothing. */
  predicate CoverWholeTime(s: Stake, payouts: seq<Payout>) {
    forall i :: 0 <= i < |payouts| ==>
      && s.lockStart <= payouts[i].ledger
      && payouts[i].paid == Accrued(s, payouts[i].rate, payouts[i].ledger) >= 0
  }

  // ---------- One call ----------

  /** A stake that stays open keeps its amount and its start, through claims too. */
  lemma {:induction false} StakeStays(h: Hashing, t: Token, c: Timed, who: Address)
    requires SoundSchedules(t.vesting) && !(c.op.StakeOp? && c.op.who == who)
    ensures var u := Step(h, t, c).staking.stakes; who in u ==>
      && who in t.staking.stakes
      && u[who].amount == t.staking.stakes[who].amount && u[who].lockStart == t.staking.stakes[who].lockStart
  {
    if KindOf(c.op) != Stakings {
      OthersKeepStakes(h, t, c);
    }
  }

  lemma {:induction false} PayoutCoversWholeTime(h: Hashing, t: Token, c: Timed, who: Address)
    requires SoundToken(t) && who in t.staking.stakes
    ensures CoverWholeTime(t.staking.stakes[who], PayoutsOf(h, t, c, who))
    ensures |PayoutsOf(h, t, c, who)| <= 1
  {
    var s := t.staking.stakes[who];
    if (c.op.ClaimRewardsOp? || c.op.UnstakeOp?) && c.op.who == who && s.lockStart <= c.now {
      PayoutBounds(t.staking, s, c.now, false);
      assert Rewards(t.staking, s, c.now) == Accrued(s, t.staking.rate, c.now);
    }
  }

  lemma {:induction false} NothingWithoutStake(h: Hashing, t: Token, calls: seq<Timed>, who: Address)
    requires SoundSchedules(t.vesting) && who !in t.staking.stakes && NeverStakes(calls, who)
    ensures Payouts(h, t, calls, who) == []
    decreases |calls|
  {
    if calls != [] {
      StakeStays(h, t, calls[0], who);
      NothingWithoutStake(h, Step(h, t, calls[0]), calls[1..], who);
    }
  }

  // ---------- Whole runs ----------

  /**
   * Over any run of any calls in which the staker does not stake again, rate changes included: every accepted claim
   * and the unstake pay the whole accrual since staking, whatever was paid before.
   */
  lemma {:induction false} PayoutsCoverWholeTime(h: Hashing, t: Token, calls: seq<Timed>, who: Address)
    requires SoundToken(t) && who in t.staking.stakes && NeverStakes(calls, who)
    ensures CoverWholeTime(t.staking.stakes[who], Payouts(h, t, calls, who))
    decreases |calls|
  {
    if calls != [] {
      var u := Step(h, t, calls[0]);
      PayoutCoversWholeTime(h, t, calls[0], who);
      StepAccounts(h, t, calls[0]);
      StakeStays(h, t, calls[0], who);
      if who in u.staking.stakes {
        PayoutsCoverWholeTime(h, u, calls[1..], who);
        SameClock(u.staking.stakes[who], t.staking.stakes[who], Payouts(h, u, calls[1..], who));
      } else {
        NothingWithoutStake(h, u, calls[1..], who);
      }
    }
  }

  lemma {:induction false} SameClock(s: Stake, s': Stake, payouts: seq<Payout>)
    requires s.amount == s'.amount && s.lockStart == s'.lockStart && CoverWholeTime(s, payouts)
    ensures CoverWholeTime(s', payouts)
  {
  }

  function TotalPaid(payouts: seq<Payout>): int {
    if payouts == [] then 0 else TotalPaid(payouts[..|payouts| - 1]) + payouts[|payouts| - 1].paid
  }

  function PositivePayouts(payouts: seq<Payout>): nat {
    if payouts == [] then 0
    else PositivePayouts(payouts[..|payouts| - 1]) + (if payouts[|payouts| - 1].paid > 0 then 1 else 0)
  }

  /** Whenever something is paid, everything paid so far has accrued by then. */
  predicate PaidAtMostOnce(s: Stake, payouts: seq<Payout>) {
    forall i :: 0 <= i < |payouts| && 0 < payouts[i].paid ==>
      TotalPaid(payouts[..i + 1]) <= Accrued(s, payouts[i].rate, payouts[i].ledger)
  }

  lemma {:induction false} PaidInTotal(s: Stake, payouts: seq<Payout>)
    requires CoverWholeTime(s, payouts)
    ensures 0 <= TotalPaid(payouts) && (TotalPaid(payouts) == 0 <==> PositivePayouts(payouts) == 0)
    decreases |payouts|
  {
    if payouts != [] {
      PaidInTotal(s, payouts[..|payouts| - 1]);
    }
  }

  lemma {:induction false} OneMorePayout(s: Stake, payouts: seq<Payout>)
    requires CoverWholeTime(s, payouts) && payouts != []
    ensures var n := |payouts| - 1;
      PaidAtMostOnce(s, payouts)
      <==> PaidAtMostOnce(s, payouts[..n]) && (0 < payouts[n].paid ==> TotalPaid(payouts[..n]) <= 0)
  {
    var n := |payouts| - 1;
    var before := payouts[..n];
    assert forall i :: 0 <= i < n ==> before[i] == payouts[i] && before[..i + 1] == payouts[..i + 1];
    assert payouts[..n + 1] == payouts;
    assert TotalPaid(payouts) == TotalPaid(before) + payouts[n].paid;
  }

  lemma {:induction false} PaidAtMostOnceIff(s: Stake, payouts: seq<Payout>)
    requires CoverWholeTime(s, payouts)
    ensures PaidAtMostOnce(s, payouts) <==> PositivePayouts(payouts) <= 1
    decreases |payouts|
  {
    if payouts != [] {
      var before := payouts[..|payouts| - 1];
      OneMorePayout(s, payouts);
      PaidAtMostOnceIff(s, before);
      PaidInTotal(s, before);
    }
  }

  /**
   * So no reward is paid twice over the life of a stake if and only if at most one payout of it is positive: claiming
   * at all and unstaking later, or claiming twice, pays the same time again.
   */
  lemma {:induction false} RewardsPaidOnceIff(h: Hashing, t: Token, calls: seq<Timed>, who: Address)
    requires SoundToken(t) && who in t.staking.stakes && NeverStakes(calls, who)
    ensures var payouts := Payouts(h, t, calls, who);
      PaidAtMostOnce(t.staking.stakes[who], payouts) <==> PositivePayouts(payouts) <= 1
  {
    PayoutsCoverWholeTime(h, t, calls, who);
    PaidAtMostOnceIff(t.staking.stakes[who], Payouts(h, t, calls, who));
  }

  /** With room under the maximum supply, two claims and an unstake at one ledger pay the accrual three times. */
  lemma {:induction false} OneAccrualIsPaidThrice(t: Token, now: nat, who: Address)
    requires SoundToken(t) && who in t.staking.stakes && t.staking.stakes[who].lockStart <= now
    requires var reward := Rewards(t.staking, t.staking.stakes[who], now);
      0 < reward && t.ledger.supply + 2 * reward <= MAX_SUPPLY
    ensures var s := t.staking.stakes[who]; var first := ClaimRewards(t, now, who);
      && first.Ok? && ClaimRewards(first.value, now, who).Ok?
      && var second := ClaimRewards(first.value, now, who).value;
         && Unstake(second, now, who, false).Ok?
         && Get(Unstake(second, now, who, false).value.ledger.balances, who)
            == Get(t.ledger.balances, who) + s.amount + 3 * Rewards(t.staking, s, now)
  {
  }

  /** Such a state is reachable: 1000 staked for 100 ledgers accrue 50. */
  lemma {:induction false} AccruingStakeIsReachable(h: Hashing)
    ensures var t := Run(h, Initial(ALICE), [Timed(0, MintOp(ALICE, 1000)), Timed(0, StakeOp(ALICE, 1000, 1))]);
      && SoundToken(t) && t.ledger.supply == 1000
      && ALICE in t.staking.stakes && Rewards(t.staking, t.staking.stakes[ALICE], 100) == 50
  {
    var first, second := Timed(0, MintOp(ALICE, 1000)), Timed(0, StakeOp(ALICE, 1000, 1));
    assert [first, second][1..] == [second] && [second][1..] == [];
    AliceMints(h);
    AliceStakes(h);
    assert Run(h, Initial(ALICE), [first, second]) == Run(h, AliceHolds(), [second]);
    assert Run(h, AliceHolds(), [second]) == Run(h, AliceStaked(), []);
    StepAccounts(h, Initial(ALICE), first);
    StepAccounts(h, AliceHolds(), second);
    assert AliceStaked().staking.stakes[ALICE] == Stake(1000, 0, 100, 0);
  }
}
