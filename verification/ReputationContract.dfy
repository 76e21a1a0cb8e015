/** The reputation contract over its storage. */
module ReputationContract {
  import opened Common
  import opened Leaderboard
  import opened ReputationSpec

  class ReputationBook {
    var admin: Address
    var config: DecayConfig
    var records: map<Address, Record>
    var total: int
    var users: seq<Address>

    function State(): Reputation
      reads this
    {
      Reputation(admin, config, records, total, users)
    }

    constructor (admin: Address)
      ensures State() == Initial(admin)
    {
      this.admin := admin;
      config, records, total, users := DecayConfig(true, -1, 1000), map[], 0, [];
    }

    method ApplyDecayInternal(r: Record, now: nat) returns (d: Result<Record, Error>)
      ensures d == Decay(config, r, now)
    {
      if !config.enabled { return Ok(r); }
      var elapsed := if now >= r.lastUpdated then now - r.lastUpdated else 0;
      if elapsed < config.interval { return Ok(r); }
      if config.interval == 0 { return Err(DivisionByZero); }
      var periods := elapsed / config.interval;
      var decay := config.rate * periods;
      var score := SaturatingAdd(r.score, decay);
      var decayed := r.(score := if score >= 0 then score else 0);
      decayed := decayed.(lastUpdated := now);
      return Ok(decayed);
    }

    method UpdateLeaderboard(user: Address)
      modifies this`users
      ensures users == if user in old(users) then old(users) else old(users) + [user]
    {
      var i := 0;
      while i < |users|
        invariant 0 <= i <= |users| && users == old(users)
        invariant user !in users[..i]
      {
        if users[i] == user { return; }
        i := i + 1;
      }
      users := users + [user];
    }

    method UpdateReputation(now: nat, caller: Address, user: Address, change: int) returns (r: Result<(), Error>)
      modifies this`records, this`total, this`users
      ensures Ends(old(State()), State(), r, ReputationSpec.UpdateReputation(old(State()), now, caller, user, change))
    {
      if caller != admin { return Err(NotAdmin); }
      var rep := if user in records then records[user] else Record(user, 0, 1, now, 0);
      var decayed := ApplyDecayInternal(rep, now);
      if decayed.Err? { return Err(decayed.error); }
      rep := decayed.value;
      var score := rep.score + change;
      if score > I128_MAX || score < I128_MIN { return Err(Overflow); }
      if total + change > I128_MAX || total + change < I128_MIN { return Err(Overflow); }
      rep := rep.(score := if score >= 0 then score else 0);
      rep := rep.(lastUpdated := now);
      rep := rep.(totalUpdates := rep.totalUpdates + 1);
      rep := rep.(level := CalculateLevel(rep.score));
      records := records[user := rep];
      total := total + change;
      UpdateLeaderboard(user);
      return Ok(());
    }

    method ApplyDecay(now: nat, caller: Address, user: Address) returns (r: Result<(), Error>)
      modifies this`records, this`total
      ensures Ends(old(State()), State(), r, ReputationSpec.ApplyDecay(old(State()), now, caller, user))
    {
      if caller != admin { return Err(NotAdmin); }
      if user !in records { return Err(NoRecord); }
      var rep := records[user];
      var decayed := ApplyDecayInternal(rep, now);
      if decayed.Err? { return Err(decayed.error); }
      if rep.score != decayed.value.score {
        var change := decayed.value.score - rep.score;
        if total + change > I128_MAX || total + change < I128_MIN { return Err(Overflow); }
        records := records[user := decayed.value];
        total := total + change;
      }
      return Ok(());
    }

    method GetReputation(now: nat, user: Address) returns (r: Result<int, Error>)
      ensures r == ReputationSpec.GetReputation(State(), now, user)
    {
      if user !in records { return Ok(0); }
      var decayed := ApplyDecayInternal(records[user], now);
      if decayed.Err? { return Err(decayed.error); }
      return Ok(decayed.value.score);
    }

    method SetDecayConfig(caller: Address, newConfig: DecayConfig) returns (r: Result<(), Error>)
      modifies this`config
      ensures Ends(old(State()), State(), r, ReputationSpec.SetDecayConfig(old(State()), caller, newConfig))
    {
      if caller != admin { return Err(NotAdmin); }
      config := newConfig;
      return Ok(());
    }

    method GetLeaderboard(limit: nat) returns (result: seq<Record>)
      ensures result == TopRanked(State(), limit)
    {
      var found := [];
      var i := 0;
      while i < |users|
        invariant 0 <= i <= |users|
        invariant found == Listed(State(), users[..i])
      {
        assert users[..i + 1][..i] == users[..i];
        if users[i] in records { found := found + [records[users[i]]]; }
        i := i + 1;
      }
      assert users[..|users|] == users;
      var a := new Record[|found|](k requires 0 <= k < |found| => found[k]);
      assert a[..] == found;
      InsertionSort(a);
      RankedPermutes(found);
      result := if limit <= a.Length then a[..limit] else a[..];
      assert a[..a.Length] == a[..];
    }
  }
}
