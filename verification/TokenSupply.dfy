/** Supply conservation of the token over whole runs, with the two calls that break it measured exactly. */
module TokenSupply {
  import opened Common
  import opened VestingCurves
  import opened Merkle
  import opened TokenSpec

  ghost predicate SoundStaking(st: Staking) {
    && 0 <= st.rate && 0 <= st.penalty <= 10_000
    && forall a :: a in st.stakes ==> st.stakes[a].amount > 0
  }

  ghost predicate SoundAirdrops(a: Airdrops) {
    && (forall id :: id in a.campaigns ==> id < a.count && 0 <= a.campaigns[id].claimed <= a.campaigns[id].total)
    && (forall claim :: claim in a.claims ==> claim.0 < a.count)
  }

  /** What every run keeps: no negative balance, supply within the maximum, and sound records. */
  ghost predicate SoundToken(t: Token) {
    && NonNegative(t.ledger.balances) && t.ledger.supply <= MAX_SUPPLY
    && SoundSchedules(t.vesting) && SoundStaking(t.staking) && SoundAirdrops(t.airdrops)
  }

  function Amounts(stakes: map<Address, Stake>): map<Address, int> {
    map a | a in stakes :: stakes[a].amount
  }

  /** Tokens in balances and open stakes. */
  ghost function Circulating(t: Token): int { Sum(t.ledger.balances) + Sum(Amounts(t.staking.stakes)) }

  function OpenStake(st: Staking, who: Address): int {
    if who in st.stakes then st.stakes[who].amount else 0
  }

  /** By how much an accepted call moves the circulating tokens away from the supply. */
  function Drift(h: Hashing, t: Token, c: Timed): int
    requires SoundSchedules(t.vesting)
  {
    if Apply(h, t, c).Err? then 0
    else
      match c.op
      case UnstakeOp(who, early) =>
        (if who in t.staking.stakes then
           Rewards(t.staking, t.staking.stakes[who], c.now) - PenaltyOf(t.staking, t.staking.stakes[who], c.now, early)
         else 0)
      case StakeOp(who, _, _) => -OpenStake(t.staking, who)
      case _ => 0
  }

  /** By how much an accepted call moves `TotalStaked` away from the open stakes: a stake that is overwritten. */
  function Overwritten(h: Hashing, t: Token, c: Timed): int
    requires SoundSchedules(t.vesting)
  {
    if c.op.StakeOp? && Apply(h, t, c).Ok? then OpenStake(t.staking, c.op.who) else 0
  }

  // ---------- The ledger ----------

  lemma {:induction false} MovedSum(l: Ledger, who: Address, amount: int)
    requires NonNegative(l.balances) && 0 <= Get(l.balances, who) + amount
    ensures NonNegative(Moved(l, who, amount).balances)
    ensures Sum(Moved(l, who, amount).balances) == Sum(l.balances) + amount
  {
    SumUpdate(l.balances, who, Get(l.balances, who) + amount);
  }

  lemma {:induction false} IssueBacks(l: Ledger, to: Address, amount: int)
    requires NonNegative(l.balances) && 0 < amount && Issue(l, to, amount).Ok?
    ensures var m := Issue(l, to, amount).value;
      && NonNegative(m.balances) && m.supply <= MAX_SUPPLY
      && Sum(m.balances) == Sum(l.balances) + amount && m.supply == l.supply + amount
  {
    EntryAtMostSum(l.balances, to);
    MovedSum(l, to, amount);
  }

  lemma {:induction false} DestroyBacks(l: Ledger, from: Address, amount: int)
    requires NonNegative(l.balances) && 0 < amount && Destroy(l, from, amount).Ok?
    ensures var m := Destroy(l, from, amount).value;
      && NonNegative(m.balances) && m.supply == l.supply - amount && Sum(m.balances) == Sum(l.balances) - amount
  {
    MovedSum(l, from, -amount);
  }

  lemma {:induction false} ShiftBacks(l: Ledger, from: Address, to: Address, amount: int)
    requires NonNegative(l.balances) && 0 < amount && Shift(l, from, to, amount).Ok?
    ensures var m := Shift(l, from, to, amount).value;
      && NonNegative(m.balances) && m.supply == l.supply && Sum(m.balances) == Sum(l.balances)
      && (from == to ==> Get(m.balances, from) == Get(l.balances, from))
  {
    MovedSum(l, from, -amount);
    EntryAtMostSum(Moved(l, from, -amount).balances, to);
    MovedSum(Moved(l, from, -amount), to, amount);
  }

  // ---------- Stakes ----------

  lemma {:induction false} StakeSum(stakes: map<Address, Stake>, who: Address, s: Stake)
    ensures Sum(Amounts(stakes[who := s]))
         == Sum(Amounts(stakes)) + s.amount - (if who in stakes then stakes[who].amount else 0)
  {
    assert Amounts(stakes[who := s]) == Amounts(stakes)[who := s.amount];
    SumUpdate(Amounts(stakes), who, s.amount);
  }

  lemma {:induction false} UnstakeSum(stakes: map<Address, Stake>, who: Address)
    requires who in stakes
    ensures Sum(Amounts(stakes - {who})) == Sum(Amounts(stakes)) - stakes[who].amount
  {
    assert Amounts(stakes - {who}) == Amounts(stakes) - {who};
    SumRemove(Amounts(stakes), who);
  }

  lemma {:induction false} PayoutBounds(st: Staking, s: Stake, now: nat, early: bool)
    requires 0 <= st.rate && 0 <= st.penalty <= 10_000 && 0 < s.amount && s.lockStart <= now
    ensures 0 <= PenaltyOf(st, s, now, early) <= s.amount
    ensures 0 <= Rewards(st, s, now)
  {
    MulNonNegative(s.amount, st.rate);
    MulNonNegative(s.amount * st.rate, now - s.lockStart);
    TruncDivBounds(s.amount * st.rate * (now - s.lockStart), 1_000_000);
    MulMono(s.amount, st.penalty, s.amount, 10_000);
    TruncDivBounds(s.amount * st.penalty, 10_000);
    MulCancel(TruncDiv(s.amount * st.penalty, 10_000), s.amount, 10_000);
  }

  // ---------- One call ----------

  /** What one accepted call does to the sound state and to the two gaps. */
  ghost predicate Accounts(t: Token, u: Token, drift: int, overwritten: int) {
    && SoundToken(u)
    && Circulating(u) - u.ledger.supply == Circulating(t) - t.ledger.supply + drift
    && u.staking.total - Sum(Amounts(u.staking.stakes))
      == t.staking.total - Sum(Amounts(t.staking.stakes)) + overwritten
  }

  lemma {:induction false} LedgerCalls(h: Hashing, t: Token, c: Timed)
    requires SoundToken(t) && Apply(h, t, c).Ok?
    requires KindOf(c.op) == Transfers
    ensures Accounts(t, Apply(h, t, c).value, 0, 0)
  {
    match c.op
    case MintOp(to, amount) => IssueBacks(t.ledger, to, amount);
    case BurnOp(from, amount) => DestroyBacks(t.ledger, from, amount);
    case BurnFromOp(_, from, amount) => DestroyBacks(t.ledger, from, amount);
    case TransferOp(from, to, amount) => ShiftBacks(t.ledger, from, to, amount);
    case TransferFromOp(_, from, to, amount) => ShiftBacks(t.ledger, from, to, amount);
    case ApproveOp(_, _, _) =>
  }

  lemma {:induction false} VestingCalls(h: Hashing, t: Token, c: Timed)
    requires SoundToken(t) && Apply(h, t, c).Ok? && KindOf(c.op) == Vestings
    ensures Accounts(t, Apply(h, t, c).value, 0, 0)
  {
    StepKeepsSchedules(h, t, c);
    match c.op
    case ClaimVestingOp(to) => IssueBacks(t.ledger, to, Claimable(t.vesting.v1[to], c.now));
    case ClaimV2Op(key) => IssueBacks(t.ledger, key.beneficiary, Claimable(t.vesting.v2[key], c.now));
    case _ =>
  }

  lemma {:induction false} StakeCall(t: Token, now: nat, who: Address, amount: int, periods: nat)
    requires SoundToken(t) && StakeTokens(t, now, who, amount, periods).Ok?
    ensures var replaced := OpenStake(t.staking, who);
      Accounts(t, StakeTokens(t, now, who, amount, periods).value, -replaced, replaced)
  {
    MovedSum(t.ledger, who, -amount);
    StakeSum(t.staking.stakes, who, Stake(amount, now, now + periods * LEDGERS_PER_PERIOD, 0));
  }

  lemma {:induction false} UnstakeCall(t: Token, now: nat, who: Address, early: bool)
    requires SoundToken(t) && Unstake(t, now, who, early).Ok?
    ensures var s := t.staking.stakes[who]; var net := Rewards(t.staking, s, now) - PenaltyOf(t.staking, s, now, early);
      Accounts(t, Unstake(t, now, who, early).value, net, 0)
  {
    var s := t.staking.stakes[who];
    PayoutBounds(t.staking, s, now, early);
    EntryAtMostSum(t.ledger.balances, who);
    MovedSum(t.ledger, who, s.amount - PenaltyOf(t.staking, s, now, early) + Rewards(t.staking, s, now));
    UnstakeSum(t.staking.stakes, who);
  }

  lemma {:induction false} RewardsCall(t: Token, now: nat, who: Address)
    requires SoundToken(t) && ClaimRewards(t, now, who).Ok?
    ensures Accounts(t, ClaimRewards(t, now, who).value, 0, 0)
  {
    var s := t.staking.stakes[who];
    var rewards := Rewards(t.staking, s, now);
    IssueBacks(t.ledger, who, rewards);
    StakeSum(t.staking.stakes, who, s.(rewardsEarned := s.rewardsEarned + rewards));
  }

  lemma {:induction false} EmergencyCall(t: Token, admin: Address, who: Address)
    requires SoundToken(t) && EmergencyWithdraw(t, admin, who).Ok?
    ensures Accounts(t, EmergencyWithdraw(t, admin, who).value, 0, 0)
  {
    EntryAtMostSum(t.ledger.balances, who);
    MovedSum(t.ledger, who, t.staking.stakes[who].amount);
    UnstakeSum(t.staking.stakes, who);
  }

  lemma {:induction false} AirdropCalls(h: Hashing, t: Token, c: Timed)
    requires SoundToken(t) && Apply(h, t, c).Ok? && KindOf(c.op) == Airdropping
    ensures Accounts(t, Apply(h, t, c).value, 0, 0)
  {
    match c.op
    case ClaimAirdropOp(id, who, amount, proof) => IssueBacks(t.ledger, who, amount);
    case _ =>
  }

  lemma {:induction false} StakingCalls(h: Hashing, t: Token, c: Timed)
    requires SoundToken(t) && Apply(h, t, c).Ok? && KindOf(c.op) == Stakings
    ensures Accounts(t, Apply(h, t, c).value, Drift(h, t, c), Overwritten(h, t, c))
  {
    match c.op
    case StakeOp(who, amount, periods) => StakeCall(t, c.now, who, amount, periods);
    case UnstakeOp(who, early) => UnstakeCall(t, c.now, who, early);
    case ClaimRewardsOp(who) => RewardsCall(t, c.now, who);
    case EmergencyOp(admin, who) => EmergencyCall(t, admin, who);
    case SetRateOp(_, _) =>
    case SetPenaltyOp(_, _) =>
  }

  /** Every call keeps the state sound, and moves the gap between circulation and supply by exactly its drift. */
  lemma {:induction false} StepAccounts(h: Hashing, t: Token, c: Timed)
    requires SoundToken(t)
    ensures Accounts(t, Step(h, t, c), Drift(h, t, c), Overwritten(h, t, c))
  {
    if Apply(h, t, c).Ok? {
      match KindOf(c.op)
      case Transfers => LedgerCalls(h, t, c);
      case Vestings => VestingCalls(h, t, c);
      case Stakings => StakingCalls(h, t, c);
      case Airdropping => AirdropCalls(h, t, c);
    }
  }

  // ---------- Whole runs ----------

  function TotalDrift(h: Hashing, t: Token, calls: seq<Timed>): int
    requires SoundSchedules(t.vesting)
    decreases |calls|
  {
    if calls == [] then 0 else Drift(h, t, calls[0]) + TotalDrift(h, Step(h, t, calls[0]), calls[1..])
  }

  function TotalOverwritten(h: Hashing, t: Token, calls: seq<Timed>): int
    requires SoundSchedules(t.vesting)
    decreases |calls|
  {
    if calls == [] then 0 else Overwritten(h, t, calls[0]) + TotalOverwritten(h, Step(h, t, calls[0]), calls[1..])
  }

  /**
   * Conservation over any run of any calls: no balance is ever negative, the supply never exceeds the maximum, and
   * balances plus open stakes differ from the supply by exactly the rewards minus penalties of all unstakes, less the
   * stakes that were overwritten; `TotalStaked` differs from the open stakes by exactly the latter.
   */
  lemma {:induction false} RunAccounts(h: Hashing, t: Token, calls: seq<Timed>)
    requires SoundToken(t)
    ensures Accounts(t, Run(h, t, calls), TotalDrift(h, t, calls), TotalOverwritten(h, t, calls))
    decreases |calls|
  {
    if calls != [] {
      StepAccounts(h, t, calls[0]);
      RunAccounts(h, Step(h, t, calls[0]), calls[1..]);
    }
  }

  lemma {:induction false} SupplyIsConserved(h: Hashing, admin: Address, calls: seq<Timed>)
    ensures var t := Run(h, Initial(admin), calls);
      && SoundToken(t)
      && Circulating(t) == t.ledger.supply + TotalDrift(h, Initial(admin), calls)
      && t.staking.total == Sum(Amounts(t.staking.stakes)) + TotalOverwritten(h, Initial(admin), calls)
  {
    var t0 := Initial(admin);
    assert Amounts(t0.staking.stakes) == map[];
    RunAccounts(h, t0, calls);
  }

  /** No call of the run unstakes, or stakes over an open stake. */
  predicate Undisturbed(h: Hashing, t: Token, calls: seq<Timed>)
    requires SoundSchedules(t.vesting)
    decreases |calls|
  {
    calls == [] ||
    (!calls[0].op.UnstakeOp? && Overwritten(h, t, calls[0]) == 0 && Undisturbed(h, Step(h, t, calls[0]), calls[1..]))
  }

  /**
   * Without unstakes and overwritten stakes the books balance exactly, and then the supply is never negative either.
   */
  lemma {:induction false} UndisturbedRunsBalance(h: Hashing, admin: Address, calls: seq<Timed>)
    requires Undisturbed(h, Initial(admin), calls)
    ensures var t := Run(h, Initial(admin), calls);
      && Circulating(t) == t.ledger.supply && 0 <= t.ledger.supply <= MAX_SUPPLY
      && t.staking.total == Sum(Amounts(t.staking.stakes))
  {
    SupplyIsConserved(h, admin, calls);
    NoDrift(h, Initial(admin), calls);
    var t := Run(h, Initial(admin), calls);
    SumNonNegative(t.ledger.balances);
    assert NonNegative(Amounts(t.staking.stakes));
    SumNonNegative(Amounts(t.staking.stakes));
  }

  /** The call leaves both books as balanced as they were: no overwritten stake, and any unstake pays no net reward. */
  predicate BalancedCall(h: Hashing, t: Token, c: Timed)
    requires SoundSchedules(t.vesting)
  {
    Apply(h, t, c).Ok? ==>
      && (c.op.StakeOp? ==> OpenStake(t.staking, c.op.who) == 0)
      && (c.op.UnstakeOp? && c.op.who in t.staking.stakes ==>
            var s := t.staking.stakes[c.op.who];
            Rewards(t.staking, s, c.now) == PenaltyOf(t.staking, s, c.now, c.op.early))
  }

  predicate BalancedCalls(h: Hashing, t: Token, calls: seq<Timed>)
    requires SoundSchedules(t.vesting)
    decreases |calls|
  {
    calls == [] || (BalancedCall(h, t, calls[0]) && BalancedCalls(h, Step(h, t, calls[0]), calls[1..]))
  }

  ghost predicate InBalance(t: Token) {
    Circulating(t) == t.ledger.supply && t.staking.total == Sum(Amounts(t.staking.stakes))
  }

  ghost predicate AlwaysInBalance(h: Hashing, t: Token, calls: seq<Timed>)
    requires SoundSchedules(t.vesting)
    decreases |calls|
  {
    InBalance(t) && (calls == [] || AlwaysInBalance(h, Step(h, t, calls[0]), calls[1..]))
  }

  /**
   * Exactly when both equalities hold in every state of a run: no accepted stake replaces an open one, and no
   * accepted unstake pays rewards other than its own penalty.
   */
  lemma {:induction false} BooksBalanceIff(h: Hashing, t: Token, calls: seq<Timed>)
    requires SoundToken(t) && InBalance(t)
    ensures AlwaysInBalance(h, t, calls) <==> BalancedCalls(h, t, calls)
    decreases |calls|
  {
    if calls != [] {
      StepAccounts(h, t, calls[0]);
      BalancedCallIff(h, t, calls[0]);
      if BalancedCall(h, t, calls[0]) {
        BooksBalanceIff(h, Step(h, t, calls[0]), calls[1..]);
      }
    }
  }

  lemma {:induction false} BalancedCallIff(h: Hashing, t: Token, c: Timed)
    requires SoundToken(t)
    ensures BalancedCall(h, t, c) <==> Drift(h, t, c) == 0 && Overwritten(h, t, c) == 0
  {
  }

  lemma {:induction false} NoDrift(h: Hashing, t: Token, calls: seq<Timed>)
    requires SoundSchedules(t.vesting) && Undisturbed(h, t, calls)
    ensures TotalDrift(h, t, calls) == 0 && TotalOverwritten(h, t, calls) == 0
    decreases |calls|
  {
    if calls != [] {
      NoDrift(h, Step(h, t, calls[0]), calls[1..]);
    }
  }

  /**
   * The lock is not enforced: an open stake can be withdrawn at any ledger from its start, and leaving `early` unset
   * before the lock ends returns the full amount plus rewards, never less than asking for an early withdrawal.
   */
  lemma {:induction false} LockIsNotEnforced(t: Token, now: nat, who: Address)
    requires SoundToken(t) && who in t.staking.stakes && t.staking.stakes[who].lockStart <= now
    ensures Unstake(t, now, who, false).Ok? && Unstake(t, now, who, true).Ok?
    ensures var s := t.staking.stakes[who];
      var calm := Unstake(t, now, who, false).value;
      var early := Unstake(t, now, who, true).value;
      && Get(calm.ledger.balances, who) == Get(t.ledger.balances, who) + s.amount + Rewards(t.staking, s, now)
      && Get(early.ledger.balances, who) == Get(calm.ledger.balances, who) - PenaltyOf(t.staking, s, now, true)
      && Get(early.ledger.balances, who) <= Get(calm.ledger.balances, who)
  {
    PayoutBounds(t.staking, t.staking.stakes[who], now, true);
  }

  const ALICE := Address(1)

  // ---------- The sign of the supply ----------

  /** A burn of more than the supply: the guard that neither `burn` nor `burn_from` has. */
  predicate BurnsTooMuch(h: Hashing, t: Token, c: Timed)
    requires SoundSchedules(t.vesting)
  {
    && Apply(h, t, c).Ok?
    && ((c.op.BurnOp? && c.op.amount > t.ledger.supply) || (c.op.BurnFromOp? && c.op.amount > t.ledger.supply))
  }

  predicate NeverBurnsTooMuch(h: Hashing, t: Token, calls: seq<Timed>)
    requires SoundSchedules(t.vesting)
    decreases |calls|
  {
    calls == [] || (!BurnsTooMuch(h, t, calls[0]) && NeverBurnsTooMuch(h, Step(h, t, calls[0]), calls[1..]))
  }

  predicate SupplyNeverNegative(h: Hashing, t: Token, calls: seq<Timed>)
    requires SoundSchedules(t.vesting)
    decreases |calls|
  {
    0 <= t.ledger.supply && (calls == [] || SupplyNeverNegative(h, Step(h, t, calls[0]), calls[1..]))
  }

  lemma {:induction false} StepKeepsSupplySignIff(h: Hashing, t: Token, c: Timed)
    requires SoundToken(t) && 0 <= t.ledger.supply
    ensures 0 <= Step(h, t, c).ledger.supply <==> !BurnsTooMuch(h, t, c)
  {
    if Apply(h, t, c).Ok? && KindOf(c.op) != Transfers {
      MintingKeepsSign(h, t, c);
    }
  }

  lemma {:induction false} MintingKeepsSign(h: Hashing, t: Token, c: Timed)
    requires SoundToken(t) && KindOf(c.op) != Transfers && Apply(h, t, c).Ok?
    ensures t.ledger.supply <= Apply(h, t, c).value.ledger.supply
  {
  }

  /** Exactly when the supply is non-negative in every state of a run: no accepted burn takes more than the supply. */
  lemma {:induction false} SupplyIsNonNegativeIff(h: Hashing, t: Token, calls: seq<Timed>)
    requires SoundToken(t) && 0 <= t.ledger.supply
    ensures SupplyNeverNegative(h, t, calls) <==> NeverBurnsTooMuch(h, t, calls)
    decreases |calls|
  {
    if calls != [] {
      StepKeepsSupplySignIff(h, t, calls[0]);
      StepAccounts(h, t, calls[0]);
      if !BurnsTooMuch(h, t, calls[0]) {
        SupplyIsNonNegativeIff(h, Step(h, t, calls[0]), calls[1..]);
      }
    }
  }

  lemma {:induction false} RunOfFour(h: Hashing, t: Token, c1: Timed, c2: Timed, c3: Timed, c4: Timed)
    requires SoundSchedules(t.vesting)
    ensures Run(h, t, [c1, c2, c3, c4]) == Step(h, Step(h, Step(h, Step(h, t, c1), c2), c3), c4)
  {
    var t1 := Step(h, t, c1);
    var t2 := Step(h, t1, c2);
    var t3 := Step(h, t2, c3);
    assert [c1, c2, c3, c4][1..] == [c2, c3, c4] && [c2, c3, c4][1..] == [c3, c4];
    assert [c3, c4][1..] == [c4] && [c4][1..] == [];
    assert Run(h, t, [c1, c2, c3, c4]) == Run(h, t1, [c2, c3, c4]);
    assert Run(h, t1, [c2, c3, c4]) == Run(h, t2, [c3, c4]);
    assert Run(h, t2, [c3, c4]) == Run(h, t3, [c4]);
    assert Run(h, t3, [c4]) == Run(h, Step(h, t3, c4), []);
  }

  function AliceHolds(): Token { Initial(ALICE).(ledger := Ledger(map[ALICE := 1000], 1000)) }

  /** Alice has staked 1000 tokens at ledger 0 for one period of 100 ledgers. */
  function AliceStaked(): Token {
    AliceHolds().(
      ledger := Ledger(map[ALICE := 0], 1000),
      staking := Staking(map[ALICE := Stake(1000, 0, 100, 0)], 1000, DEFAULT_REWARD_RATE, DEFAULT_PENALTY))
  }

  lemma {:induction false} AliceMints(h: Hashing)
    ensures Step(h, Initial(ALICE), Timed(0, MintOp(ALICE, 1000))) == AliceHolds()
  {
    assert Mint(Initial(ALICE), ALICE, 1000).value.ledger.balances == map[ALICE := 1000];
  }

  lemma {:induction false} AliceStakes(h: Hashing)
    ensures Step(h, AliceHolds(), Timed(0, StakeOp(ALICE, 1000, 1))) == AliceStaked()
  {
    var t := StakeTokens(AliceHolds(), 0, ALICE, 1000, 1).value;
    assert t.ledger.balances == map[ALICE := 0] && t.staking.stakes == map[ALICE := Stake(1000, 0, 100, 0)];
  }

  lemma {:induction false} AliceUnstakesAndBurns(h: Hashing)
    ensures var t := Step(h, AliceStaked(), Timed(100, UnstakeOp(ALICE, false)));
      Step(h, t, Timed(100, BurnOp(ALICE, 1050))).ledger.supply == -50
  {
    var s := AliceStaked();
    assert Rewards(s.staking, s.staking.stakes[ALICE], 100) == 50;
    var t := Unstake(s, 100, ALICE, false).value;
    assert Step(h, s, Timed(100, UnstakeOp(ALICE, false))) == t;
    assert Get(t.ledger.balances, ALICE) == 1050 && t.ledger.supply == 1000;
    assert Burn(t, ALICE, 1050).Ok?;
  }

  /** Rewards paid on unstaking are not added to the supply, so a later burn can drive the supply below zero. */
  lemma {:induction false} SupplyCanTurnNegative(h: Hashing)
    ensures var calls := [Timed(0, MintOp(ALICE, 1000)), Timed(0, StakeOp(ALICE, 1000, 1)),
                          Timed(100, UnstakeOp(ALICE, false)), Timed(100, BurnOp(ALICE, 1050))];
      Run(h, Initial(ALICE), calls).ledger.supply == -50
  {
    RunOfFour(h, Initial(ALICE), Timed(0, MintOp(ALICE, 1000)), Timed(0, StakeOp(ALICE, 1000, 1)),
              Timed(100, UnstakeOp(ALICE, false)), Timed(100, BurnOp(ALICE, 1050)));
    AliceMints(h);
    AliceStakes(h);
    AliceUnstakesAndBurns(h);
  }

  // ---------- Who can raise the supply ----------

  /** The calls that issue tokens. */
  predicate Issues(op: Op) {
    op.MintOp? || op.ClaimVestingOp? || op.ClaimV2Op? || op.ClaimRewardsOp? || op.ClaimAirdropOp?
  }

  lemma {:induction false} TransfersKeepSupply(t: Token, c: Timed)
    requires KindOf(c.op) == Transfers && !c.op.MintOp? && ApplyTransfer(t, c).Ok?
    ensures ApplyTransfer(t, c).value.ledger.supply <= t.ledger.supply
  {
  }

  lemma {:induction false} OthersKeepSupply(h: Hashing, t: Token, c: Timed)
    requires SoundSchedules(t.vesting) && KindOf(c.op) != Transfers && !Issues(c.op)
    ensures Apply(h, t, c).Ok? ==> Apply(h, t, c).value.ledger.supply == t.ledger.supply
  {
  }

  /** Only a mint, a vesting claim, a reward claim or an airdrop claim ever raises the supply. */
  lemma {:induction false} OnlyIssuesRaiseSupply(h: Hashing, t: Token, c: Timed)
    requires SoundSchedules(t.vesting) && t.ledger.supply < Step(h, t, c).ledger.supply
    ensures Issues(c.op)
  {
    if !Issues(c.op) {
      if KindOf(c.op) == Transfers {
        if Apply(h, t, c).Ok? { TransfersKeepSupply(t, c); }
      } else {
        OthersKeepSupply(h, t, c);
      }
    }
  }

  /**
   * Of these the airdrop needs nobody's consent: anybody can create a campaign whose root is a leaf of their own and
   * claim it with an empty proof, for any amount up to the maximum supply.
   */
  lemma {:induction false} AnybodyCanMintByAirdrop(h: Hashing, t: Token, now: nat, who: Address, amount: int)
    requires SoundToken(t) && 0 < amount && t.ledger.supply + amount <= MAX_SUPPLY
    ensures var created := CreateAirdrop(t, now, amount, now + 1, h.leaf(who, amount));
      && created.Ok?
      && var claimed := ClaimAirdrop(h, created.value.0, now, created.value.1, who, amount, []);
         && claimed.Ok?
         && Get(claimed.value.ledger.balances, who) == Get(t.ledger.balances, who) + amount
         && claimed.value.ledger.supply == t.ledger.supply + amount
  {
    assert (t.airdrops.count, who) !in t.airdrops.claims;
  }
}
