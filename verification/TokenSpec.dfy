/** What each call of the token contract does to balances, supply, schedules, stakes and airdrops. */
module TokenSpec {
  import opened Common
  import opened VestingCurves
  import opened Merkle

  const MAX_SUPPLY: int := 10_000_000_000_000_000
  const DEFAULT_REWARD_RATE := 500
  const DEFAULT_PENALTY := 100
  const LEDGERS_PER_PERIOD := 100

  datatype Ledger = Ledger(balances: map<Address, int>, supply: int)
  datatype BurnStats = BurnStats(totalBurned: int, burnCount: nat)
  datatype Stake = Stake(amount: int, lockStart: nat, lockEnd: nat, rewardsEarned: int)
  datatype Staking = Staking(stakes: map<Address, Stake>, total: int, rate: int, penalty: int)
  datatype ScheduleKey = ScheduleKey(beneficiary: Address, id: nat)
  datatype Vesting = Vesting(v1: map<Address, Schedule>, v2: map<ScheduleKey, Schedule>, counts: map<Address, nat>)
  datatype Campaign = Campaign(total: int, claimed: int, expiry: nat, root: Digest)
  datatype Airdrops = Airdrops(campaigns: map<nat, Campaign>, count: nat, claims: set<(nat, Address)>)

  datatype Token = Token(
    admin: Address, ledger: Ledger, allowances: map<(Address, Address), int>, burns: BurnStats,
    vesting: Vesting, staking: Staking, airdrops: Airdrops)

  datatype Error =
    | AmountNotPositive | AllowanceNegative | InsufficientBalance | InsufficientAllowance | MaxSupplyExceeded
    | NotAdmin | BadSchedule | NoSchedule | NothingToClaim | NoStake | LedgerUnderflow | BadRate | BadPenalty
    | NoRewards | NotInFuture | NoCampaign | Expired | NotExpired | AlreadyClaimed | InvalidProof | ExceedsCampaign

  type Outcome = Result<Token, Error>

  function Initial(admin: Address): Token {
    Token(admin, Ledger(map[], 0), map[], BurnStats(0, 0), Vesting(map[], map[], map[]),
          Staking(map[], 0, DEFAULT_REWARD_RATE, DEFAULT_PENALTY), Airdrops(map[], 0, {}))
  }

  // ---------- Balances and supply ----------

  /** `add_balance`, also with a negative amount for `sub_balance`. */
  function Moved(l: Ledger, who: Address, amount: int): Ledger {
    l.(balances := l.balances[who := Get(l.balances, who) + amount])
  }

  /** New tokens for `to`, within the maximum supply. */
  function Issue(l: Ledger, to: Address, amount: int): Result<Ledger, Error> {
    if l.supply + amount > MAX_SUPPLY then Err(MaxSupplyExceeded)
    else Ok(Moved(l, to, amount).(supply := l.supply + amount))
  }

  function Destroy(l: Ledger, from: Address, amount: int): Result<Ledger, Error> {
    if Get(l.balances, from) < amount then Err(InsufficientBalance)
    else Ok(Moved(l, from, -amount).(supply := l.supply - amount))
  }

  function Shift(l: Ledger, from: Address, to: Address, amount: int): Result<Ledger, Error> {
    if Get(l.balances, from) < amount then Err(InsufficientBalance)
    else Ok(Moved(Moved(l, from, -amount), to, amount))
  }

  /** A state with a new ledger, when the ledger operation succeeds. */
  function WithLedger(t: Token, r: Result<Ledger, Error>): Outcome {
    match r case Err(e) => Err(e) case Ok(l) => Ok(t.(ledger := l))
  }

  function Mint(t: Token, to: Address, amount: int): Outcome {
    if amount <= 0 then Err(AmountNotPositive) else WithLedger(t, Issue(t.ledger, to, amount))
  }

  function Burned(b: BurnStats, amount: int): BurnStats { BurnStats(b.totalBurned + amount, b.burnCount + 1) }

  function Burn(t: Token, from: Address, amount: int): Outcome {
    if amount <= 0 then Err(AmountNotPositive)
    else WithLedger(t.(burns := Burned(t.burns, amount)), Destroy(t.ledger, from, amount))
  }

  function Spend(t: Token, owner: Address, spender: Address, amount: int): map<(Address, Address), int> {
    t.allowances[(owner, spender) := Get(t.allowances, (owner, spender)) - amount]
  }

  function BurnFrom(t: Token, spender: Address, from: Address, amount: int): Outcome {
    if amount <= 0 then Err(AmountNotPositive)
    else if Get(t.allowances, (from, spender)) < amount then Err(InsufficientAllowance)
    else
      WithLedger(t.(burns := Burned(t.burns, amount), allowances := Spend(t, from, spender, amount)),
                 Destroy(t.ledger, from, amount))
  }

  function Transfer(t: Token, from: Address, to: Address, amount: int): Outcome {
    if amount <= 0 then Err(AmountNotPositive) else WithLedger(t, Shift(t.ledger, from, to, amount))
  }

  function Approve(t: Token, owner: Address, spender: Address, amount: int): Outcome {
    if amount < 0 then Err(AllowanceNegative)
    else Ok(t.(allowances := t.allowances[(owner, spender) := amount]))
  }

  function TransferFrom(t: Token, spender: Address, from: Address, to: Address, amount: int): Outcome {
    if amount <= 0 then Err(AmountNotPositive)
    else if Get(t.allowances, (from, spender)) < amount then Err(InsufficientAllowance)
    else WithLedger(t.(allowances := Spend(t, from, spender, amount)), Shift(t.ledger, from, to, amount))
  }

  // ---------- Vesting ----------

  function NewSchedule(now: nat, total: int, cliff: nat, end: nat, kind: nat, steps: nat): Option<Schedule> {
    if total <= 0 || kind > 1 || cliff < now || end <= cliff then None
    else Some(Schedule(total, now, cliff, end, 0, kind, steps))
  }

  function CreateVesting(t: Token, now: nat, admin: Address, to: Address, total: int, cliff: nat, end: nat): Outcome {
    if admin != t.admin then Err(NotAdmin)
    else
      match NewSchedule(now, total, cliff, end, 0, 0)
      case None => Err(BadSchedule)
      case Some(s) => Ok(t.(vesting := t.vesting.(v1 := t.vesting.v1[to := s])))
  }

  /** Claims what a schedule has vested: the schedule and the ledger after it. */
  function Claim(s: Schedule, l: Ledger, to: Address, now: nat): Result<(Schedule, Ledger), Error>
    requires SoundSchedule(s)
  {
    if Claimable(s, now) <= 0 then Err(NothingToClaim)
    else
      match Issue(l, to, Claimable(s, now))
      case Err(e) => Err(e)
      case Ok(l') => Ok((AfterClaim(s, now), l'))
  }

  function ClaimVesting(t: Token, now: nat, to: Address): Outcome
    requires SoundSchedules(t.vesting)
  {
    if to !in t.vesting.v1 then Err(NoSchedule)
    else
      match Claim(t.vesting.v1[to], t.ledger, to, now)
      case Err(e) => Err(e)
      case Ok((s, l)) => Ok(t.(ledger := l, vesting := t.vesting.(v1 := t.vesting.v1[to := s])))
  }

  function NextId(v: Vesting, to: Address): nat {
    if to in v.counts then v.counts[to] else 0
  }

  function CreateVestingV2(t: Token, now: nat, admin: Address, to: Address, total: int, cliff: nat, end: nat,
                           kind: nat, steps: nat): Result<(Token, nat), Error>
  {
    if admin != t.admin then Err(NotAdmin)
    else
      match NewSchedule(now, total, cliff, end, kind, steps)
      case None => Err(BadSchedule)
      case Some(s) =>
        var id := NextId(t.vesting, to);
        var v := t.vesting;
        Ok((t.(vesting := v.(v2 := v.v2[ScheduleKey(to, id) := s], counts := v.counts[to := id + 1])), id))
  }

  function ClaimVestingV2(t: Token, now: nat, key: ScheduleKey): Outcome
    requires SoundSchedules(t.vesting)
  {
    if key !in t.vesting.v2 then Err(NoSchedule)
    else
      match Claim(t.vesting.v2[key], t.ledger, key.beneficiary, now)
      case Err(e) => Err(e)
      case Ok((s, l)) => Ok(t.(ledger := l, vesting := t.vesting.(v2 := t.vesting.v2[key := s])))
  }

  function ModifyVestingV2(t: Token, admin: Address, key: ScheduleKey, end: nat): Outcome {
    if admin != t.admin then Err(NotAdmin)
    else if key !in t.vesting.v2 then Err(NoSchedule)
    else if end <= t.vesting.v2[key].cliff then Err(BadSchedule)
    else Ok(t.(vesting := t.vesting.(v2 := t.vesting.v2[key := t.vesting.v2[key].(end := end)])))
  }

  /** Stored schedules passed the creation checks; version 2 ids lie below the beneficiary's count. */
  ghost predicate SoundSchedules(v: Vesting) {
    && (forall a :: a in v.v1 ==> SoundSchedule(v.v1[a]))
    && (forall k :: k in v.v2 ==> SoundSchedule(v.v2[k]) && k.id < NextId(v, k.beneficiary))
  }

  // ---------- Staking ----------

  function SetRewardRate(t: Token, admin: Address, rate: int): Outcome {
    if admin != t.admin then Err(NotAdmin)
    else if rate < 0 then Err(BadRate)
    else Ok(t.(staking := t.staking.(rate := rate)))
  }

  function SetPenalty(t: Token, admin: Address, penalty: int): Outcome {
    if admin != t.admin then Err(NotAdmin)
    else if penalty < 0 || penalty > 10_000 then Err(BadPenalty)
    else Ok(t.(staking := t.staking.(penalty := penalty)))
  }

  /** Staking again replaces the record of an open stake, while the total grows by the new amount. */
  function StakeTokens(t: Token, now: nat, who: Address, amount: int, periods: nat): Outcome {
    if amount <= 0 then Err(AmountNotPositive)
    else if Get(t.ledger.balances, who) < amount then Err(InsufficientBalance)
    else
      var record := Stake(amount, now, now + periods * LEDGERS_PER_PERIOD, 0);
      Ok(t.(ledger := Moved(t.ledger, who, -amount),
            staking := t.staking.(stakes := t.staking.stakes[who := record], total := t.staking.total + amount)))
  }

  function Rewards(st: Staking, s: Stake, now: nat): int {
    TruncDiv(s.amount * st.rate * (now - s.lockStart), 1_000_000)
  }

  function PenaltyOf(st: Staking, s: Stake, now: nat, early: bool): int {
    if early && now < s.lockEnd then TruncDiv(s.amount * st.penalty, 10_000) else 0
  }

  function Closed(st: Staking, who: Address): Staking
    requires who in st.stakes
  {
    st.(stakes := st.stakes - {who}, total := st.total - st.stakes[who].amount)
  }

  function Unstake(t: Token, now: nat, who: Address, early: bool): Outcome {
    if who !in t.staking.stakes then Err(NoStake)
    else
      var s := t.staking.stakes[who];
      if now < s.lockStart then Err(LedgerUnderflow)
      else
        var payout := s.amount - PenaltyOf(t.staking, s, now, early) + Rewards(t.staking, s, now);
        Ok(t.(ledger := Moved(t.ledger, who, payout), staking := Closed(t.staking, who)))
  }

  function ClaimRewards(t: Token, now: nat, who: Address): Outcome {
    if who !in t.staking.stakes then Err(NoStake)
    else
      var s := t.staking.stakes[who];
      if now < s.lockStart then Err(LedgerUnderflow)
      else
        var rewards := Rewards(t.staking, s, now);
        if rewards <= 0 then Err(NoRewards)
        else
          var stakes := t.staking.stakes[who := s.(rewardsEarned := s.rewardsEarned + rewards)];
          WithLedger(t.(staking := t.staking.(stakes := stakes)), Issue(t.ledger, who, rewards))
  }

  function EmergencyWithdraw(t: Token, admin: Address, who: Address): Outcome {
    if admin != t.admin then Err(NotAdmin)
    else if who !in t.staking.stakes then Err(NoStake)
    else Ok(t.(ledger := Moved(t.ledger, who, t.staking.stakes[who].amount), staking := Closed(t.staking, who)))
  }

  // ---------- Airdrop ----------

  function CreateAirdrop(t: Token, now: nat, total: int, expiry: nat, root: Digest): Result<(Token, nat), Error> {
    if total <= 0 then Err(AmountNotPositive)
    else if expiry <= now then Err(NotInFuture)
    else
      var a := t.airdrops;
      var campaigns := a.campaigns[a.count := Campaign(total, 0, expiry, root)];
      Ok((t.(airdrops := a.(campaigns := campaigns, count := a.count + 1)), a.count))
  }

  function ClaimAirdrop(
    h: Hashing, t: Token, now: nat, id: nat, who: Address, amount: int, proof: seq<Digest>): Outcome
  {
    if amount <= 0 then Err(AmountNotPositive)
    else if id !in t.airdrops.campaigns then Err(NoCampaign)
    else
      var c := t.airdrops.campaigns[id];
      if now > c.expiry then Err(Expired)
      else if (id, who) in t.airdrops.claims then Err(AlreadyClaimed)
      else if !Accepts(h, h.leaf(who, amount), c.root, proof) then Err(InvalidProof)
      else if c.claimed + amount > c.total then Err(ExceedsCampaign)
      else
        var a := t.airdrops;
        var campaigns := a.campaigns[id := c.(claimed := c.claimed + amount)];
        var a' := a.(campaigns := campaigns, claims := a.claims + {(id, who)});
        WithLedger(t.(airdrops := a'), Issue(t.ledger, who, amount))
  }

  /** Reports what is left of an expired campaign; nothing is changed. */
  function RecoverUnclaimed(t: Token, now: nat, id: nat): Result<int, Error> {
    if id !in t.airdrops.campaigns then Err(NoCampaign)
    else if now <= t.airdrops.campaigns[id].expiry then Err(NotExpired)
    else Ok(t.airdrops.campaigns[id].total - t.airdrops.campaigns[id].claimed)
  }

  // ---------- Runs ----------

  datatype Op =
    | MintOp(to: Address, amount: int)
    | BurnOp(from: Address, amount: int)
    | BurnFromOp(spender: Address, from: Address, amount: int)
    | TransferOp(from: Address, to: Address, amount: int)
    | ApproveOp(owner: Address, spender: Address, amount: int)
    | TransferFromOp(spender: Address, from: Address, to: Address, amount: int)
    | CreateVestingOp(admin: Address, to: Address, total: int, cliff: nat, end: nat)
    | ClaimVestingOp(to: Address)
    | CreateV2Op(admin: Address, to: Address, total: int, cliff: nat, end: nat, kind: nat, steps: nat)
    | ClaimV2Op(key: ScheduleKey)
    | ModifyV2Op(admin: Address, key: ScheduleKey, end: nat)
    | SetRateOp(admin: Address, rate: int)
    | SetPenaltyOp(admin: Address, penalty: int)
    | StakeOp(who: Address, amount: int, periods: nat)
    | UnstakeOp(who: Address, early: bool)
    | ClaimRewardsOp(who: Address)
    | EmergencyOp(admin: Address, who: Address)
    | CreateAirdropOp(total: int, expiry: nat, root: Digest)
    | ClaimAirdropOp(id: nat, who: Address, amount: int, proof: seq<Digest>)

  /** A call and the ledger sequence it is made at. */
  datatype Timed = Timed(now: nat, op: Op)

  datatype Kind = Transfers | Vestings | Stakings | Airdropping

  function KindOf(op: Op): Kind {
    match op
    case MintOp(_, _) => Transfers
    case BurnOp(_, _) => Transfers
    case BurnFromOp(_, _, _) => Transfers
    case TransferOp(_, _, _) => Transfers
    case ApproveOp(_, _, _) => Transfers
    case TransferFromOp(_, _, _, _) => Transfers
    case CreateVestingOp(_, _, _, _, _) => Vestings
    case ClaimVestingOp(_) => Vestings
    case CreateV2Op(_, _, _, _, _, _, _) => Vestings
    case ClaimV2Op(_) => Vestings
    case ModifyV2Op(_, _, _) => Vestings
    case SetRateOp(_, _) => Stakings
    case SetPenaltyOp(_, _) => Stakings
    case StakeOp(_, _, _) => Stakings
    case UnstakeOp(_, _) => Stakings
    case ClaimRewardsOp(_) => Stakings
    case EmergencyOp(_, _) => Stakings
    case CreateAirdropOp(_, _, _) => Airdropping
    case ClaimAirdropOp(_, _, _, _) => Airdropping
  }

  function ApplyTransfer(t: Token, c: Timed): Outcome
    requires KindOf(c.op) == Transfers
  {
    match c.op
    case MintOp(to, amount) => Mint(t, to, amount)
    case BurnOp(from, amount) => Burn(t, from, amount)
    case BurnFromOp(spender, from, amount) => BurnFrom(t, spender, from, amount)
    case TransferOp(from, to, amount) => Transfer(t, from, to, amount)
    case ApproveOp(owner, spender, amount) => Approve(t, owner, spender, amount)
    case TransferFromOp(spender, from, to, amount) => TransferFrom(t, spender, from, to, amount)
  }

  function ApplyVesting(t: Token, c: Timed): Outcome
    requires KindOf(c.op) == Vestings && SoundSchedules(t.vesting)
  {
    match c.op
    case CreateVestingOp(admin, to, total, cliff, end) => CreateVesting(t, c.now, admin, to, total, cliff, end)
    case ClaimVestingOp(to) => ClaimVesting(t, c.now, to)
    case CreateV2Op(admin, to, total, cliff, end, kind, steps) =>
      (match CreateVestingV2(t, c.now, admin, to, total, cliff, end, kind, steps)
       case Ok((u, _)) => Ok(u)
       case Err(e) => Err(e))
    case ClaimV2Op(key) => ClaimVestingV2(t, c.now, key)
    case ModifyV2Op(admin, key, end) => ModifyVestingV2(t, admin, key, end)
  }

  function ApplyStaking(t: Token, c: Timed): Outcome
    requires KindOf(c.op) == Stakings
  {
    match c.op
    case SetRateOp(admin, rate) => SetRewardRate(t, admin, rate)
    case SetPenaltyOp(admin, penalty) => SetPenalty(t, admin, penalty)
    case StakeOp(who, amount, periods) => StakeTokens(t, c.now, who, amount, periods)
    case UnstakeOp(who, early) => Unstake(t, c.now, who, early)
    case ClaimRewardsOp(who) => ClaimRewards(t, c.now, who)
    case EmergencyOp(admin, who) => EmergencyWithdraw(t, admin, who)
  }

  function ApplyAirdrop(h: Hashing, t: Token, c: Timed): Outcome
    requires KindOf(c.op) == Airdropping
  {
    match c.op
    case CreateAirdropOp(total, expiry, root) =>
      (match CreateAirdrop(t, c.now, total, expiry, root) case Ok((u, _)) => Ok(u) case Err(e) => Err(e))
    case ClaimAirdropOp(id, who, amount, proof) => ClaimAirdrop(h, t, c.now, id, who, amount, proof)
  }

  function Apply(h: Hashing, t: Token, c: Timed): Outcome
    requires SoundSchedules(t.vesting)
  {
    match KindOf(c.op)
    case Transfers => ApplyTransfer(t, c)
    case Vestings => ApplyVesting(t, c)
    case Stakings => ApplyStaking(t, c)
    case Airdropping => ApplyAirdrop(h, t, c)
  }

  /** One call; a call that panics leaves the state as it was. */
  function Step(h: Hashing, t: Token, c: Timed): (u: Token)
    requires SoundSchedules(t.vesting)
    ensures SoundSchedules(u.vesting)
  {
    StepKeepsSchedules(h, t, c);
    match Apply(h, t, c) case Ok(u) => u case Err(_) => t
  }

  function Run(h: Hashing, t: Token, calls: seq<Timed>): (u: Token)
    requires SoundSchedules(t.vesting)
    ensures SoundSchedules(u.vesting)
    decreases |calls|
  {
    if calls == [] then t else Run(h, Step(h, t, calls[0]), calls[1..])
  }

  // ---------- What each kind of call leaves alone ----------

  lemma {:induction false} TransfersFrame(t: Token, c: Timed)
    requires KindOf(c.op) == Transfers && ApplyTransfer(t, c).Ok?
    ensures var u := ApplyTransfer(t, c).value;
      u.vesting == t.vesting && u.staking == t.staking && u.airdrops == t.airdrops && u.admin == t.admin
  {
  }

  lemma {:induction false} VestingsFrame(t: Token, c: Timed)
    requires KindOf(c.op) == Vestings && SoundSchedules(t.vesting) && ApplyVesting(t, c).Ok?
    ensures var u := ApplyVesting(t, c).value;
      u.allowances == t.allowances && u.staking == t.staking && u.airdrops == t.airdrops && u.admin == t.admin
  {
  }

  lemma {:induction false} StakingsFrame(t: Token, c: Timed)
    requires KindOf(c.op) == Stakings && ApplyStaking(t, c).Ok?
    ensures var u := ApplyStaking(t, c).value;
      u.allowances == t.allowances && u.vesting == t.vesting && u.airdrops == t.airdrops && u.admin == t.admin
  {
  }

  lemma {:induction false} AirdropsFrame(h: Hashing, t: Token, c: Timed)
    requires KindOf(c.op) == Airdropping && ApplyAirdrop(h, t, c).Ok?
    ensures var u := ApplyAirdrop(h, t, c).value;
      u.allowances == t.allowances && u.vesting == t.vesting && u.staking == t.staking && u.admin == t.admin
  {
  }

  lemma {:induction false} OthersKeepSchedules(h: Hashing, t: Token, c: Timed)
    requires SoundSchedules(t.vesting) && KindOf(c.op) != Vestings && Apply(h, t, c).Ok?
    ensures Apply(h, t, c).value.vesting == t.vesting
  {
    match KindOf(c.op)
    case Transfers => TransfersFrame(t, c);
    case Stakings => StakingsFrame(t, c);
    case Airdropping => AirdropsFrame(h, t, c);
  }

  lemma {:induction false} OthersKeepAirdrops(h: Hashing, t: Token, c: Timed)
    requires SoundSchedules(t.vesting) && KindOf(c.op) != Airdropping
    ensures Apply(h, t, c).Ok? ==> Apply(h, t, c).value.airdrops == t.airdrops
  {
    if Apply(h, t, c).Ok? {
      match KindOf(c.op)
      case Transfers => TransfersFrame(t, c);
      case Vestings => VestingsFrame(t, c);
      case Stakings => StakingsFrame(t, c);
    }
  }

  lemma {:induction false} OthersKeepAllowances(h: Hashing, t: Token, c: Timed)
    requires SoundSchedules(t.vesting) && KindOf(c.op) != Transfers
    ensures Apply(h, t, c).Ok? ==> Apply(h, t, c).value.allowances == t.allowances
  {
    if Apply(h, t, c).Ok? {
      match KindOf(c.op)
      case Vestings => VestingsFrame(t, c);
      case Stakings => StakingsFrame(t, c);
      case Airdropping => AirdropsFrame(h, t, c);
    }
  }

  lemma {:induction false} OthersKeepStakes(h: Hashing, t: Token, c: Timed)
    requires SoundSchedules(t.vesting) && KindOf(c.op) != Stakings
    ensures Apply(h, t, c).Ok? ==> Apply(h, t, c).value.staking == t.staking
  {
    if Apply(h, t, c).Ok? {
      match KindOf(c.op)
      case Transfers => TransfersFrame(t, c);
      case Vestings => VestingsFrame(t, c);
      case Airdropping => AirdropsFrame(h, t, c);
    }
  }

  lemma {:induction false} NewSchedulesAreSound(t: Token, c: Timed)
    requires SoundSchedules(t.vesting) && (c.op.CreateVestingOp? || c.op.CreateV2Op?) && ApplyVesting(t, c).Ok?
    ensures SoundSchedules(ApplyVesting(t, c).value.vesting)
  {
  }

  lemma {:induction false} ChangedSchedulesAreSound(t: Token, c: Timed)
    requires SoundSchedules(t.vesting) && (c.op.ClaimVestingOp? || c.op.ClaimV2Op? || c.op.ModifyV2Op?)
    ensures ApplyVesting(t, c).Ok? ==> SoundSchedules(ApplyVesting(t, c).value.vesting)
  {
  }

  /** A modified end stays after the cliff and a claim stays within the total, so every stored schedule stays sound. */
  lemma {:induction false} StepKeepsSchedules(h: Hashing, t: Token, c: Timed)
    requires SoundSchedules(t.vesting)
    ensures Apply(h, t, c).Ok? ==> SoundSchedules(Apply(h, t, c).value.vesting)
  {
    if Apply(h, t, c).Ok? {
      if KindOf(c.op) != Vestings {
        OthersKeepSchedules(h, t, c);
      } else if c.op.CreateVestingOp? || c.op.CreateV2Op? {
        NewSchedulesAreSound(t, c);
      } else {
        ChangedSchedulesAreSound(t, c);
      }
    }
  }
}
