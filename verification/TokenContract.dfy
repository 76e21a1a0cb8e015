/** The token contract over its storage. A panic reverts the call, so the methods write after the last assertion. */
module TokenContract {
  import opened Common
  import VC = VestingCurves
  import opened Merkle
  import opened TokenSpec

  class BstToken {
    const hashing: Hashing
    var admin: Address
    /** Balances and total supply. */
    var ledger: Ledger
    var allowances: map<(Address, Address), int>
    var burns: BurnStats
    var vesting: Vesting
    var staking: Staking
    var airdrops: Airdrops

    function State(): Token
      reads this
    {
      Token(admin, ledger, allowances, burns, vesting, staking, airdrops)
    }

    constructor (admin: Address, hashing: Hashing)
      ensures State() == Initial(admin) && this.hashing == hashing
    {
      this.admin, this.hashing := admin, hashing;
      ledger, allowances, burns := Ledger(map[], 0), map[], BurnStats(0, 0);
      vesting := Vesting(map[], map[], map[]);
      staking := Staking(map[], 0, DEFAULT_REWARD_RATE, DEFAULT_PENALTY);
      airdrops := Airdrops(map[], 0, {});
    }

    // ---------- Balances and supply ----------

    method AddBalance(who: Address, amount: int)
      modifies this`ledger
      ensures ledger == Moved(old(ledger), who, amount)
    {
      var current := Get(ledger.balances, who);
      ledger := ledger.(balances := ledger.balances[who := current + amount]);
    }

    /** `add_balance` then `add_supply`. */
    method IssueTokens(to: Address, amount: int) returns (ok: bool)
      modifies this`ledger
      ensures ok == Issue(old(ledger), to, amount).Ok?
      ensures ledger == if ok then Issue(old(ledger), to, amount).value else old(ledger)
    {
      ok := ledger.supply + amount <= MAX_SUPPLY;
      if ok {
        AddBalance(to, amount);
        ledger := ledger.(supply := ledger.supply + amount);
      }
    }

    method Mint(to: Address, amount: int) returns (r: Result<(), Error>)
      modifies this`ledger
      ensures Ends(old(State()), State(), r, TokenSpec.Mint(old(State()), to, amount))
    {
      if amount <= 0 { return Err(AmountNotPositive); }
      var ok := IssueTokens(to, amount);
      if !ok { return Err(MaxSupplyExceeded); }
      return Ok(());
    }

    method DestroyTokens(from: Address, amount: int)
      requires amount <= Get(ledger.balances, from)
      modifies this`ledger, this`burns
      ensures Destroy(old(ledger), from, amount) == Result.Ok(ledger) && burns == Burned(old(burns), amount)
    {
      AddBalance(from, -amount);
      ledger := ledger.(supply := ledger.supply - amount);
      burns := burns.(totalBurned := burns.totalBurned + amount);
      burns := burns.(burnCount := burns.burnCount + 1);
    }

    method Burn(from: Address, amount: int) returns (r: Result<(), Error>)
      modifies this`ledger, this`burns
      ensures Ends(old(State()), State(), r, TokenSpec.Burn(old(State()), from, amount))
    {
      if amount <= 0 { return Err(AmountNotPositive); }
      if Get(ledger.balances, from) < amount { return Err(InsufficientBalance); }
      DestroyTokens(from, amount);
      return Ok(());
    }

    method BurnFrom(spender: Address, from: Address, amount: int) returns (r: Result<(), Error>)
      modifies this`ledger, this`burns, this`allowances
      ensures Ends(old(State()), State(), r, TokenSpec.BurnFrom(old(State()), spender, from, amount))
    {
      if amount <= 0 { return Err(AmountNotPositive); }
      var allowed := Get(allowances, (from, spender));
      if allowed < amount { return Err(InsufficientAllowance); }
      if Get(ledger.balances, from) < amount { return Err(InsufficientBalance); }
      allowances := allowances[(from, spender) := allowed - amount];
      DestroyTokens(from, amount);
      return Ok(());
    }

    method Transfer(from: Address, to: Address, amount: int) returns (r: Result<(), Error>)
      modifies this`ledger
      ensures Ends(old(State()), State(), r, TokenSpec.Transfer(old(State()), from, to, amount))
    {
      if amount <= 0 { return Err(AmountNotPositive); }
      if Get(ledger.balances, from) < amount { return Err(InsufficientBalance); }
      AddBalance(from, -amount);
      AddBalance(to, amount);
      return Ok(());
    }

    method Approve(owner: Address, spender: Address, amount: int) returns (r: Result<(), Error>)
      modifies this`allowances
      ensures Ends(old(State()), State(), r, TokenSpec.Approve(old(State()), owner, spender, amount))
    {
      if amount < 0 { return Err(AllowanceNegative); }
      allowances := allowances[(owner, spender) := amount];
      return Ok(());
    }

    method TransferFrom(spender: Address, from: Address, to: Address, amount: int) returns (r: Result<(), Error>)
      modifies this`ledger, this`allowances
      ensures Ends(old(State()), State(), r, TokenSpec.TransferFrom(old(State()), spender, from, to, amount))
    {
      if amount <= 0 { return Err(AmountNotPositive); }
      var allowed := Get(allowances, (from, spender));
      if allowed < amount { return Err(InsufficientAllowance); }
      if Get(ledger.balances, from) < amount { return Err(InsufficientBalance); }
      allowances := allowances[(from, spender) := allowed - amount];
      AddBalance(from, -amount);
      AddBalance(to, amount);
      return Ok(());
    }

    // ---------- Vesting ----------

    method CreateVesting(now: nat, caller: Address, to: Address, total: int, cliff: nat, end: nat)
      returns (r: Result<(), Error>)
      modifies this`vesting
      ensures Ends(old(State()), State(), r, TokenSpec.CreateVesting(old(State()), now, caller, to, total, cliff, end))
    {
      if caller != admin { return Err(NotAdmin); }
      if total <= 0 || cliff < now || end <= cliff { return Err(BadSchedule); }
      vesting := vesting.(v1 := vesting.v1[to := VC.Schedule(total, now, cliff, end, 0, 0, 0)]);
      return Ok(());
    }

    method ClaimVesting(now: nat, to: Address) returns (r: Result<(), Error>)
      requires SoundSchedules(vesting)
      modifies this`ledger, this`vesting
      ensures Ends(old(State()), State(), r, TokenSpec.ClaimVesting(old(State()), now, to))
    {
      if to !in vesting.v1 { return Err(NoSchedule); }
      var schedule := vesting.v1[to];
      var claimable := VC.Vested(schedule, now) - schedule.claimed;
      if claimable <= 0 { return Err(NothingToClaim); }
      var ok := IssueTokens(to, claimable);
      if !ok { return Err(MaxSupplyExceeded); }
      schedule := schedule.(claimed := schedule.claimed + claimable);
      vesting := vesting.(v1 := vesting.v1[to := schedule]);
      return Ok(());
    }

    method CreateVestingV2(
      now: nat, caller: Address, to: Address, total: int, cliff: nat, end: nat, kind: nat, steps: nat)
      returns (r: Result<nat, Error>)
      modifies this`vesting
      ensures Matches(old(State()), State(), r,
                      TokenSpec.CreateVestingV2(old(State()), now, caller, to, total, cliff, end, kind, steps))
    {
      if caller != admin { return Err(NotAdmin); }
      if total <= 0 || kind > 1 || cliff < now || end <= cliff { return Err(BadSchedule); }
      var id := if to in vesting.counts then vesting.counts[to] else 0;
      vesting := vesting.(v2 := vesting.v2[ScheduleKey(to, id) := VC.Schedule(total, now, cliff, end, 0, kind, steps)]);
      vesting := vesting.(counts := vesting.counts[to := id + 1]);
      return Ok(id);
    }

    method ClaimVestingV2(now: nat, key: ScheduleKey) returns (r: Result<(), Error>)
      requires SoundSchedules(vesting)
      modifies this`ledger, this`vesting
      ensures Ends(old(State()), State(), r, TokenSpec.ClaimVestingV2(old(State()), now, key))
    {
      if key !in vesting.v2 { return Err(NoSchedule); }
      var schedule := vesting.v2[key];
      var claimable := VC.Vested(schedule, now) - schedule.claimed;
      if claimable <= 0 { return Err(NothingToClaim); }
      var ok := IssueTokens(key.beneficiary, claimable);
      if !ok { return Err(MaxSupplyExceeded); }
      schedule := schedule.(claimed := schedule.claimed + claimable);
      vesting := vesting.(v2 := vesting.v2[key := schedule]);
      return Ok(());
    }

    method ModifyVestingV2(caller: Address, key: ScheduleKey, end: nat) returns (r: Result<(), Error>)
      modifies this`vesting
      ensures Ends(old(State()), State(), r, TokenSpec.ModifyVestingV2(old(State()), caller, key, end))
    {
      if caller != admin { return Err(NotAdmin); }
      if key !in vesting.v2 { return Err(NoSchedule); }
      var schedule := vesting.v2[key];
      if end <= schedule.cliff { return Err(BadSchedule); }
      schedule := schedule.(end := end);
      vesting := vesting.(v2 := vesting.v2[key := schedule]);
      return Ok(());
    }

    // ---------- Staking ----------

    method SetRewardRate(caller: Address, rate: int) returns (r: Result<(), Error>)
      modifies this`staking
      ensures Ends(old(State()), State(), r, TokenSpec.SetRewardRate(old(State()), caller, rate))
    {
      if caller != admin { return Err(NotAdmin); }
      if rate < 0 { return Err(BadRate); }
      staking := staking.(rate := rate);
      return Ok(());
    }

    method SetEarlyWithdrawalPenalty(caller: Address, penalty: int) returns (r: Result<(), Error>)
      modifies this`staking
      ensures Ends(old(State()), State(), r, TokenSpec.SetPenalty(old(State()), caller, penalty))
    {
      if caller != admin { return Err(NotAdmin); }
      if penalty < 0 || penalty > 10_000 { return Err(BadPenalty); }
      staking := staking.(penalty := penalty);
      return Ok(());
    }

    method StakeTokens(now: nat, who: Address, amount: int, periods: nat) returns (r: Result<(), Error>)
      modifies this`ledger, this`staking
      ensures Ends(old(State()), State(), r, TokenSpec.StakeTokens(old(State()), now, who, amount, periods))
    {
      if amount <= 0 { return Err(AmountNotPositive); }
      if Get(ledger.balances, who) < amount { return Err(InsufficientBalance); }
      AddBalance(who, -amount);
      var lockEnd := now + periods * LEDGERS_PER_PERIOD;
      staking := staking.(stakes := staking.stakes[who := Stake(amount, now, lockEnd, 0)]);
      staking := staking.(total := staking.total + amount);
      return Ok(());
    }

    method CalculateRewards(now: nat, who: Address) returns (rewards: int)
      requires who in staking.stakes ==> staking.stakes[who].lockStart <= now
      ensures rewards == if who in staking.stakes then Rewards(staking, staking.stakes[who], now) else 0
    {
      if who !in staking.stakes { return 0; }
      var stake := staking.stakes[who];
      var elapsed := now - stake.lockStart;
      rewards := TruncDiv(stake.amount * staking.rate * elapsed, 1_000_000);
    }

    method Unstake(now: nat, who: Address, early: bool) returns (r: Result<(), Error>)
      modifies this`ledger, this`staking
      ensures Ends(old(State()), State(), r, TokenSpec.Unstake(old(State()), now, who, early))
    {
      if who !in staking.stakes { return Err(NoStake); }
      var record := staking.stakes[who];
      var isLocked := now < record.lockEnd;
      var withdrawal := record.amount;
      if early && isLocked {
        var penalty := TruncDiv(record.amount * staking.penalty, 10_000);
        withdrawal := withdrawal - penalty;
      }
      if now < record.lockStart { return Err(LedgerUnderflow); }
      var rewards := CalculateRewards(now, who);
      withdrawal := withdrawal + rewards;
      staking := staking.(total := staking.total - record.amount);
      staking := staking.(stakes := staking.stakes - {who});
      AddBalance(who, withdrawal);
      return Ok(());
    }

    method ClaimStakingRewards(now: nat, who: Address) returns (r: Result<(), Error>)
      modifies this`ledger, this`staking
      ensures Ends(old(State()), State(), r, TokenSpec.ClaimRewards(old(State()), now, who))
    {
      if who !in staking.stakes { return Err(NoStake); }
      var record := staking.stakes[who];
      if now < record.lockStart { return Err(LedgerUnderflow); }
      var rewards := CalculateRewards(now, who);
      if rewards <= 0 { return Err(NoRewards); }
      var ok := IssueTokens(who, rewards);
      if !ok { return Err(MaxSupplyExceeded); }
      record := record.(rewardsEarned := record.rewardsEarned + rewards);
      staking := staking.(stakes := staking.stakes[who := record]);
      return Ok(());
    }

    method EmergencyWithdraw(caller: Address, who: Address) returns (r: Result<(), Error>)
      modifies this`ledger, this`staking
      ensures Ends(old(State()), State(), r, TokenSpec.EmergencyWithdraw(old(State()), caller, who))
    {
      if caller != admin { return Err(NotAdmin); }
      if who !in staking.stakes { return Err(NoStake); }
      var record := staking.stakes[who];
      staking := staking.(stakes := staking.stakes - {who});
      staking := staking.(total := staking.total - record.amount);
      AddBalance(who, record.amount);
      return Ok(());
    }

    // ---------- Airdrop ----------

    method CreateAirdrop(now: nat, total: int, expiry: nat, root: Digest) returns (r: Result<nat, Error>)
      modifies this`airdrops
      ensures Matches(old(State()), State(), r, TokenSpec.CreateAirdrop(old(State()), now, total, expiry, root))
    {
      if total <= 0 { return Err(AmountNotPositive); }
      if expiry <= now { return Err(NotInFuture); }
      var id := airdrops.count;
      airdrops := airdrops.(campaigns := airdrops.campaigns[id := Campaign(total, 0, expiry, root)]);
      airdrops := airdrops.(count := id + 1);
      return Ok(id);
    }

    method ClaimAirdrop(now: nat, id: nat, who: Address, amount: int, proof: seq<Digest>) returns (r: Result<(), Error>)
      modifies this`ledger, this`airdrops
      ensures Ends(old(State()), State(), r, TokenSpec.ClaimAirdrop(hashing, old(State()), now, id, who, amount, proof))
    {
      if amount <= 0 { return Err(AmountNotPositive); }
      if id !in airdrops.campaigns { return Err(NoCampaign); }
      var campaign := airdrops.campaigns[id];
      if now > campaign.expiry { return Err(Expired); }
      if (id, who) in airdrops.claims { return Err(AlreadyClaimed); }
      var proved := VerifyMerkleProof(hashing, hashing.leaf(who, amount), campaign.root, proof);
      if !proved { return Err(InvalidProof); }
      campaign := campaign.(claimed := campaign.claimed + amount);
      if campaign.claimed > campaign.total { return Err(ExceedsCampaign); }
      var ok := IssueTokens(who, amount);
      if !ok { return Err(MaxSupplyExceeded); }
      airdrops := airdrops.(campaigns := airdrops.campaigns[id := campaign]);
      airdrops := airdrops.(claims := airdrops.claims + {(id, who)});
      return Ok(());
    }

    method RecoverUnclaimedAirdrop(now: nat, id: nat) returns (r: Result<int, Error>)
      ensures r == RecoverUnclaimed(State(), now, id)
    {
      if id !in airdrops.campaigns { return Err(NoCampaign); }
      var campaign := airdrops.campaigns[id];
      if now <= campaign.expiry { return Err(NotExpired); }
      return Ok(campaign.total - campaign.claimed);
    }
  }
}
