/** What each call of the token moves, between whom, and when it is accepted, in plain numbers. */
module TokenAmounts {
  import opened Common
  import opened VestingCurves
  import opened Merkle
  import opened TokenSpec
  import opened TokenSupply

  const CAP: int := 10_000_000_000_000_000

  /** One account grows by `amount`, all others stay, and the supply grows by `issued`. */
  ghost predicate Paid(l: Ledger, m: Ledger, who: Address, amount: int, issued: int) {
    Grown(l.balances, m.balances, who, amount) && m.supply == l.supply + issued
  }

  /** `amount` goes from one account to another (or the same one), all others and the supply stay. */
  ghost predicate Passed(l: Ledger, m: Ledger, from: Address, to: Address, amount: int) {
    && m.supply == l.supply
    && forall a :: Get(m.balances, a)
                   == Get(l.balances, a) - (if a == from then amount else 0) + (if a == to then amount else 0)
  }

  // ---------- Minting, burning, spending ----------

  lemma {:induction false} MintIssuesExactly(t: Token, to: Address, amount: int)
    ensures var r := Mint(t, to, amount);
      && (r.Ok? <==> 0 < amount && t.ledger.supply + amount <= CAP)
      && (r.Ok? ==> Paid(t.ledger, r.value.ledger, to, amount, amount) && r.value.(ledger := t.ledger) == t)
  {
  }

  /** A burn takes from the caller's account and the supply, and counts in the statistics. */
  lemma {:induction false} BurnTakesExactly(t: Token, from: Address, amount: int)
    ensures var r := Burn(t, from, amount);
      && (r.Ok? <==> 0 < amount <= Get(t.ledger.balances, from))
      && (r.Ok? ==>
            && Paid(t.ledger, r.value.ledger, from, -amount, -amount)
            && r.value.burns == BurnStats(t.burns.totalBurned + amount, t.burns.burnCount + 1)
            && r.value.(ledger := t.ledger, burns := t.burns) == t)
  {
  }

  /** A burn by a spender takes from the owner's account, and off the one allowance. */
  lemma {:induction false} BurnFromTakesExactly(t: Token, spender: Address, from: Address, amount: int)
    ensures var r := BurnFrom(t, spender, from, amount);
      && (r.Ok? <==> 0 < amount <= Get(t.allowances, (from, spender)) && amount <= Get(t.ledger.balances, from))
      && (r.Ok? ==>
            && Paid(t.ledger, r.value.ledger, from, -amount, -amount)
            && Grown(t.allowances, r.value.allowances, (from, spender), -amount)
            && r.value.burns == BurnStats(t.burns.totalBurned + amount, t.burns.burnCount + 1)
            && r.value.(ledger := t.ledger, allowances := t.allowances, burns := t.burns) == t)
  {
  }

  /** A transfer by a spender goes from the owner's account to the recipient's, and off the one allowance. */
  lemma {:induction false} TransferFromMovesExactly(
    t: Token, spender: Address, from: Address, to: Address, amount: int)
    ensures var r := TransferFrom(t, spender, from, to, amount);
      && (r.Ok? <==> 0 < amount <= Get(t.allowances, (from, spender)) && amount <= Get(t.ledger.balances, from))
      && (r.Ok? ==>
            && Passed(t.ledger, r.value.ledger, from, to, amount)
            && Grown(t.allowances, r.value.allowances, (from, spender), -amount)
            && r.value.(ledger := t.ledger, allowances := t.allowances) == t)
  {
  }

  /** An approval sets the one allowance, to zero as well, whatever it was. */
  lemma {:induction false} ApprovalSetsExactly(t: Token, owner: Address, spender: Address, amount: int)
    ensures var r := Approve(t, owner, spender, amount);
      && (r.Ok? <==> 0 <= amount)
      && (r.Ok? ==>
            && Grown(t.allowances, r.value.allowances, (owner, spender), amount - Get(t.allowances, (owner, spender)))
            && r.value.(allowances := t.allowances) == t)
  {
  }

  // ---------- Staking ----------

  /** A stake leaves the account for a record that is locked for 100 ledgers a period. */
  lemma {:induction false} StakeRecordsExactly(t: Token, now: nat, who: Address, amount: int, periods: nat)
    ensures var r := StakeTokens(t, now, who, amount, periods);
      && (r.Ok? <==> 0 < amount <= Get(t.ledger.balances, who))
      && (r.Ok? ==> var u := r.value;
            && Paid(t.ledger, u.ledger, who, -amount, 0)
            && u.staking.stakes == t.staking.stakes[who := Stake(amount, now, now + 100 * periods, 0)]
            && u.staking.total == t.staking.total + amount
            && u.(ledger := t.ledger, staking := t.staking) == t
            && u.staking.(stakes := t.staking.stakes, total := t.staking.total) == t.staking)
  {
  }

  /** The rate is in millionths per token and ledger, over all ledgers since the stake was made. */
  predicate IsReward(t: Token, s: Stake, now: nat, reward: int) {
    Rounded(reward, s.amount * t.staking.rate * (now - s.lockStart), 1_000_000)
  }

  /** The penalty is in basis points of the stake, for leaving early before the lock is over. */
  predicate IsPenalty(t: Token, s: Stake, now: nat, early: bool, penalty: int) {
    if early && now < s.lockEnd then Rounded(penalty, s.amount * t.staking.penalty, 10_000) else penalty == 0
  }

  ghost predicate StakeClosed(t: Token, u: Token, who: Address)
    requires who in t.staking.stakes
  {
    && u.staking.stakes == t.staking.stakes - {who}
    && u.staking.total == t.staking.total - t.staking.stakes[who].amount
    && u.(ledger := t.ledger, staking := t.staking) == t
    && u.staking.(stakes := t.staking.stakes, total := t.staking.total) == t.staking
  }

  /** Unstaking pays stake and rewards less the penalty, out of nobody's account, and closes the record. */
  lemma {:induction false} UnstakePaysExactly(
    t: Token, now: nat, who: Address, early: bool, reward: int, penalty: int)
    requires who in t.staking.stakes
    requires var s := t.staking.stakes[who]; IsReward(t, s, now, reward) && IsPenalty(t, s, now, early, penalty)
    ensures var r, s := Unstake(t, now, who, early), t.staking.stakes[who];
      && (r.Ok? <==> s.lockStart <= now)
      && (r.Ok? ==> Paid(t.ledger, r.value.ledger, who, s.amount + reward - penalty, 0) && StakeClosed(t, r.value, who))
  {
    var s := t.staking.stakes[who];
    RoundedIsTruncDiv(reward, s.amount * t.staking.rate * (now - s.lockStart), 1_000_000);
    if early && now < s.lockEnd { RoundedIsTruncDiv(penalty, s.amount * t.staking.penalty, 10_000); }
  }

  /** A reward claim issues the reward to the staker and notes it in the record, which stays as it is otherwise. */
  lemma {:induction false} RewardsAreIssuedExactly(t: Token, now: nat, who: Address, reward: int)
    requires who in t.staking.stakes && IsReward(t, t.staking.stakes[who], now, reward)
    ensures var r, s := ClaimRewards(t, now, who), t.staking.stakes[who];
      && (r.Ok? <==> s.lockStart <= now && 0 < reward && t.ledger.supply + reward <= CAP)
      && (r.Ok? ==> var u := r.value;
            && Paid(t.ledger, u.ledger, who, reward, reward)
            && u.staking.stakes == t.staking.stakes[who := s.(rewardsEarned := s.rewardsEarned + reward)]
            && u.(ledger := t.ledger, staking := t.staking) == t
            && u.staking.(stakes := t.staking.stakes) == t.staking)
  {
    var s := t.staking.stakes[who];
    RoundedIsTruncDiv(reward, s.amount * t.staking.rate * (now - s.lockStart), 1_000_000);
  }

  lemma {:induction false} EmergencyReturnsExactly(t: Token, admin: Address, who: Address)
    ensures var r := EmergencyWithdraw(t, admin, who);
      && (r.Ok? <==> admin == t.admin && who in t.staking.stakes)
      && (r.Ok? ==>
            && Paid(t.ledger, r.value.ledger, who, t.staking.stakes[who].amount, 0) && StakeClosed(t, r.value, who))
  {
  }

  // ---------- Vesting ----------

  /** A schedule starts at the ledger of the call, with nothing claimed. */
  lemma {:induction false} VestingStartsNow(
    t: Token, now: nat, admin: Address, to: Address, total: int, cliff: nat, end: nat, kind: nat, steps: nat)
    ensures var r := CreateVestingV2(t, now, admin, to, total, cliff, end, kind, steps);
      var key := ScheduleKey(to, if to in t.vesting.counts then t.vesting.counts[to] else 0);
      && (r.Ok? <==> admin == t.admin && 0 < total && now <= cliff < end && kind <= 1)
      && (r.Ok? ==> var (u, id) := r.value;
            && id == key.id
            && u.vesting.v2 == t.vesting.v2[key := Schedule(total, now, cliff, end, 0, kind, steps)]
            && u.vesting.counts == t.vesting.counts[to := id + 1] && u.vesting.v1 == t.vesting.v1
            && u.(vesting := t.vesting) == t)
  {
  }

  lemma {:induction false} FirstVestingStartsNow(
    t: Token, now: nat, admin: Address, to: Address, total: int, cliff: nat, end: nat)
    ensures var r := CreateVesting(t, now, admin, to, total, cliff, end);
      && (r.Ok? <==> admin == t.admin && 0 < total && now <= cliff < end)
      && (r.Ok? ==> var u := r.value;
            && u.vesting.v1 == t.vesting.v1[to := Schedule(total, now, cliff, end, 0, 0, 0)]
            && u.vesting.(v1 := t.vesting.v1) == t.vesting && u.(vesting := t.vesting) == t)
  {
  }

  /** A claim of what is `vested` by then: refused for nothing new, or past the maximum supply. */
  lemma {:induction false} VestingClaimIssuesExactly(t: Token, now: nat, to: Address)
    requires SoundSchedules(t.vesting) && to in t.vesting.v1
    ensures var r, s := ClaimVesting(t, now, to), t.vesting.v1[to]; var due := Vested(s, now) - s.claimed;
      && (r.Ok? <==> 0 < due && t.ledger.supply + due <= CAP)
      && (r.Ok? ==> var u := r.value;
            && Paid(t.ledger, u.ledger, to, due, due)
            && u.vesting.v1 == t.vesting.v1[to := s.(claimed := s.claimed + due)]
            && u.vesting.(v1 := t.vesting.v1) == t.vesting && u.(ledger := t.ledger, vesting := t.vesting) == t)
  {
  }

  lemma {:induction false} SecondVestingClaimIssuesExactly(t: Token, now: nat, key: ScheduleKey)
    requires SoundSchedules(t.vesting) && key in t.vesting.v2
    ensures var r, s := ClaimVestingV2(t, now, key), t.vesting.v2[key]; var due := Vested(s, now) - s.claimed;
      && (r.Ok? <==> 0 < due && t.ledger.supply + due <= CAP)
      && (r.Ok? ==> var u := r.value;
            && Paid(t.ledger, u.ledger, key.beneficiary, due, due)
            && u.vesting.v2 == t.vesting.v2[key := s.(claimed := s.claimed + due)]
            && u.vesting.(v2 := t.vesting.v2) == t.vesting && u.(ledger := t.ledger, vesting := t.vesting) == t)
  {
  }

  // ---------- Airdrops ----------

  /** An airdrop claim: accepted once per recipient, for a proof up to the root, within expiry, total and supply. */
  lemma {:induction false} AirdropIssuesExactly(
    h: Hashing, t: Token, now: nat, id: nat, who: Address, amount: int, proof: seq<Digest>)
    requires id in t.airdrops.campaigns
    ensures var r, c := ClaimAirdrop(h, t, now, id, who, amount, proof), t.airdrops.campaigns[id];
      && (r.Ok? <==> && 0 < amount && now <= c.expiry && (id, who) !in t.airdrops.claims
                     && Fold(h, h.leaf(who, amount), proof) == c.root
                     && c.claimed + amount <= c.total && t.ledger.supply + amount <= CAP)
      && (r.Ok? ==> var u := r.value;
            && Paid(t.ledger, u.ledger, who, amount, amount)
            && u.airdrops.campaigns == t.airdrops.campaigns[id := c.(claimed := c.claimed + amount)]
            && u.airdrops.claims == t.airdrops.claims + {(id, who)} && u.airdrops.count == t.airdrops.count
            && u.(ledger := t.ledger, airdrops := t.airdrops) == t)
  {
  }

  /** A recovery reports what was not claimed, from the first ledger after the expiry. */
  lemma {:induction false} RecoveryReportsExactly(t: Token, now: nat, id: nat)
    requires id in t.airdrops.campaigns
    ensures var r, c := RecoverUnclaimed(t, now, id), t.airdrops.campaigns[id];
      (r.Ok? <==> c.expiry < now) && (r.Ok? ==> r.value + c.claimed == c.total)
  {
  }

  // ---------- Administration ----------

  /** A new token pays 500 millionths per token and ledger, and charges 100 basis points for leaving early. */
  lemma {:induction false} NewTokenExactly(admin: Address)
    ensures var t := Initial(admin);
      && t.staking == Staking(map[], 0, 500, 100) && t.ledger == Ledger(map[], 0) && t.admin == admin
      && t.allowances == map[] && t.vesting == Vesting(map[], map[], map[]) && t.airdrops == Airdrops(map[], 0, {})
  {
  }

  /** Rate, penalty, a schedule's end, an airdrop: who may set them, to what, and that nothing else changes. */
  lemma {:induction false} RateIsSetExactly(t: Token, admin: Address, rate: int)
    ensures var r := SetRewardRate(t, admin, rate);
      && (r.Ok? <==> admin == t.admin && 0 <= rate)
      && (r.Ok? ==> r.value == t.(staking := t.staking.(rate := rate)))
  {
  }

  lemma {:induction false} PenaltyIsSetExactly(t: Token, admin: Address, penalty: int)
    ensures var r := SetPenalty(t, admin, penalty);
      && (r.Ok? <==> admin == t.admin && 0 <= penalty <= 10_000)
      && (r.Ok? ==> r.value == t.(staking := t.staking.(penalty := penalty)))
  {
  }

  lemma {:induction false} EndIsMovedExactly(t: Token, admin: Address, key: ScheduleKey, end: nat)
    requires key in t.vesting.v2
    ensures var r, s := ModifyVestingV2(t, admin, key, end), t.vesting.v2[key];
      && (r.Ok? <==> admin == t.admin && s.cliff < end)
      && (r.Ok? ==> r.value == t.(vesting := t.vesting.(v2 := t.vesting.v2[key := s.(end := end)])))
  {
  }

  lemma {:induction false} AirdropIsCreatedExactly(t: Token, now: nat, total: int, expiry: nat, root: Digest)
    ensures var r, a := CreateAirdrop(t, now, total, expiry, root), t.airdrops;
      && (r.Ok? <==> 0 < total && now < expiry)
      && (r.Ok? ==> var (u, id) := r.value;
            && id == a.count && u.airdrops.count == id + 1 && u.airdrops.claims == a.claims
            && u.airdrops.campaigns == a.campaigns[id := Campaign(total, 0, expiry, root)]
            && u.(airdrops := a) == t)
  {
  }

  // ---------- Whole runs ----------

  /** What an accepted call takes from `who` on the strength of an allowance. */
  function TakenBy(h: Hashing, t: Token, c: Timed, who: Address): int
    requires SoundSchedules(t.vesting)
  {
    if Apply(h, t, c).Err? then 0
    else
      match c.op
      case TransferFromOp(_, from, _, amount) => if from == who then amount else 0
      case BurnFromOp(_, from, amount) => if from == who then amount else 0
      case _ => 0
  }

  function TotalTaken(h: Hashing, t: Token, calls: seq<Timed>, who: Address): int
    requires SoundSchedules(t.vesting)
    decreases |calls|
  {
    if calls == [] then 0 else TakenBy(h, t, calls[0], who) + TotalTaken(h, Step(h, t, calls[0]), calls[1..], who)
  }

  /** The calls by which `who` parts with tokens. */
  predicate PartsWith(op: Op, who: Address) {
    || (op.TransferOp? && op.from == who) || (op.BurnOp? && op.from == who) || (op.StakeOp? && op.who == who)
  }

  predicate NeverPartsWith(calls: seq<Timed>, who: Address) {
    forall i :: 0 <= i < |calls| ==> !PartsWith(calls[i].op, who)
  }

  /** The account of `who` in `u` is short of that in `t` by no more than `taken`. */
  predicate KeptBut(t: Token, u: Token, who: Address, taken: int) {
    Get(t.ledger.balances, who) - taken <= Get(u.ledger.balances, who)
  }

  lemma {:induction false} TransfersKeepAccount(h: Hashing, t: Token, c: Timed, who: Address)
    requires SoundSchedules(t.vesting) && KindOf(c.op) == Transfers && !PartsWith(c.op, who)
    ensures KeptBut(t, Step(h, t, c), who, TakenBy(h, t, c, who))
  {
  }

  lemma {:induction false} StakingsKeepAccount(h: Hashing, t: Token, c: Timed, who: Address)
    requires SoundToken(t) && KindOf(c.op) == Stakings && !PartsWith(c.op, who)
    ensures KeptBut(t, Step(h, t, c), who, 0)
  {
    if c.op.UnstakeOp? && c.op.who in t.staking.stakes && t.staking.stakes[c.op.who].lockStart <= c.now {
      PayoutBounds(t.staking, t.staking.stakes[c.op.who], c.now, c.op.early);
    }
  }

  lemma {:induction false} VestingsKeepAccount(h: Hashing, t: Token, c: Timed, who: Address)
    requires SoundSchedules(t.vesting) && KindOf(c.op) == Vestings
    ensures KeptBut(t, Step(h, t, c), who, 0)
  {
  }

  lemma {:induction false} AirdropsKeepAccount(h: Hashing, t: Token, c: Timed, who: Address)
    requires SoundSchedules(t.vesting) && KindOf(c.op) == Airdropping
    ensures KeptBut(t, Step(h, t, c), who, 0)
  {
  }

  /**
   * An account falls only by what its owner signs for: over any run without a transfer, burn or stake of their own it
   * loses no more than what the accepted calls of spenders take, and `SpendingWithinAllowance` bounds each of those.
   */
  lemma {:induction false} AccountsFallOnlySigned(h: Hashing, t: Token, calls: seq<Timed>, who: Address)
    requires SoundToken(t) && NeverPartsWith(calls, who)
    ensures KeptBut(t, Run(h, t, calls), who, TotalTaken(h, t, calls, who))
    decreases |calls|
  {
    if calls != [] {
      StepAccounts(h, t, calls[0]);
      AccountsFallOnlySigned(h, Step(h, t, calls[0]), calls[1..], who);
      match KindOf(calls[0].op)
      case Transfers => TransfersKeepAccount(h, t, calls[0], who);
      case Stakings => StakingsKeepAccount(h, t, calls[0], who);
      case Vestings => VestingsKeepAccount(h, t, calls[0], who);
      case Airdropping => AirdropsKeepAccount(h, t, calls[0], who);
    }
  }
}
