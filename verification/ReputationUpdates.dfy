/** What the calls of the reputation contract store, in plain numbers. */
module ReputationUpdates {
  import opened Common
  import opened Leaderboard
  import opened ReputationSpec

  const HIGHEST: int := 0x7fff_ffff_ffff_ffff_ffff_ffff_ffff_ffff

  /**
   * `score` is that of `r` with the rate applied once per whole interval since its last update, saturating at the
   * largest number and never below 0; or as it is while decay is off or no interval is complete.
   */
  predicate IsDecayed(config: DecayConfig, r: Record, now: nat, periods: nat, score: int) {
    if !config.enabled || now < r.lastUpdated + config.interval then score == r.score
    else
      && Rounded(periods, now - r.lastUpdated, config.interval)
      && var moved := r.score + config.rate * periods;
         score == if moved < 0 then 0 else if HIGHEST < moved then HIGHEST else moved
  }

  lemma {:induction false} DecayInNumbers(config: DecayConfig, r: Record, now: nat, periods: nat, score: int)
    requires (config.enabled ==> 0 < config.interval) && IsDecayed(config, r, now, periods, score)
    ensures Decay(config, r, now).Ok?
    ensures var d := Decay(config, r, now).value;
      && d.score == score && d.(score := r.score, lastUpdated := r.lastUpdated) == r
      && d.lastUpdated == if config.enabled && r.lastUpdated + config.interval <= now then now else r.lastUpdated
  {
    if config.enabled && r.lastUpdated + config.interval <= now {
      RoundedIsTruncDiv(periods, now - r.lastUpdated, config.interval);
    }
  }

  /** A complete interval of length 0 makes the decay divide by zero: update, decay and view all fail. */
  lemma {:induction false} ZeroIntervalFails(t: Reputation, now: nat, user: Address, change: int)
    requires t.config.enabled && t.config.interval == 0
    ensures UpdateReputation(t, now, t.admin, user, change) == Err(DivisionByZero)
    ensures user in t.records ==>
      ApplyDecay(t, now, t.admin, user) == Err(DivisionByZero) && GetReputation(t, now, user) == Err(DivisionByZero)
  {
  }

  /** Levels end at 100 times the squares: 100, 400, 900 and 1600. */
  predicate IsLevel(level: nat, score: int) {
    && 1 <= level <= 5
    && (1 < level ==> 100 * (level - 1) * (level - 1) <= score) && (level < 5 ==> score < 100 * level * level)
  }

  lemma {:induction false} LevelInSquares(level: nat, score: int)
    requires IsLevel(level, score)
    ensures level == CalculateLevel(score)
  {
    assert level == 1 || level == 2 || level == 3 || level == 4 || level == 5;
  }

  predicate Fits(x: int) { -HIGHEST - 1 <= x <= HIGHEST }

  function RecordOf(t: Reputation, now: nat, user: Address): Record {
    if user in t.records then t.records[user] else Record(user, 0, 1, now, 0)
  }

  /**
   * An update adds the change to the decayed score, in either direction, floored at 0; it stores the level of the new
   * score, restarts the clock, and books the change in the total. Only the admin may, and nothing may overflow.
   */
  lemma {:induction false} UpdateStoresExactly(
    t: Reputation, now: nat, admin: Address, user: Address, change: int, periods: nat, decayed: int, level: nat)
    requires t.config.enabled ==> 0 < t.config.interval
    requires IsDecayed(t.config, RecordOf(t, now, user), now, periods, decayed)
    requires IsLevel(level, if decayed + change < 0 then 0 else decayed + change)
    ensures var r, before := UpdateReputation(t, now, admin, user, change), RecordOf(t, now, user);
      var score := if decayed + change < 0 then 0 else decayed + change;
      && (r.Ok? <==> admin == t.admin && Fits(decayed + change) && Fits(t.total + change))
      && (r.Ok? ==> var u := r.value;
            && u.records == t.records[user := Record(before.user, score, level, now, before.totalUpdates + 1)]
            && u.total == t.total + change
            && (user in t.users ==> u.users == t.users) && (user !in t.users ==> u.users == t.users + [user])
            && u.(records := t.records, total := t.total, users := t.users) == t)
  {
    DecayInNumbers(t.config, RecordOf(t, now, user), now, periods, decayed);
    LevelInSquares(level, if decayed + change < 0 then 0 else decayed + change);
  }

  /** A decay of its own is stored, and booked in the total, exactly when it moves the score; the level stays. */
  lemma {:induction false} DecayStoresExactly(
    t: Reputation, now: nat, admin: Address, user: Address, periods: nat, decayed: int)
    requires (t.config.enabled ==> 0 < t.config.interval) && user in t.records
    requires IsDecayed(t.config, t.records[user], now, periods, decayed)
    ensures var r, change := ApplyDecay(t, now, admin, user), decayed - t.records[user].score;
      && (r.Ok? <==> admin == t.admin && (change != 0 ==> Fits(t.total + change)))
      && (r.Ok? && change == 0 ==> r.value == t)
      && (r.Ok? && change != 0 ==> var u := r.value;
            && u.records == t.records[user := t.records[user].(score := decayed, lastUpdated := now)]
            && u.total == t.total + change && u.(records := t.records, total := t.total) == t)
      && GetReputation(t, now, user) == Ok(decayed)
  {
    DecayInNumbers(t.config, t.records[user], now, periods, decayed);
  }

  lemma {:induction false} ConfigIsSetExactly(t: Reputation, admin: Address, config: DecayConfig)
    ensures var r := SetDecayConfig(t, admin, config);
      (r.Ok? <==> admin == t.admin) && (r.Ok? ==> r.value == t.(config := config))
  {
  }

  const ALICE := Address(1)

  /** So a stored level can be too high for the stored score, until the next update. */
  lemma {:induction false} LevelsOutliveDecay()
    ensures var t := Step(Initial(ALICE), Timed(0, UpdateOp(ALICE, ALICE, 100)));
      var u := Step(t, Timed(1000, DecayOp(ALICE, ALICE)));
      && ALICE in u.records && u.records[ALICE].score == 99 && u.records[ALICE].level == 2 && !IsLevel(2, 99)
  {
    var t := Step(Initial(ALICE), Timed(0, UpdateOp(ALICE, ALICE, 100)));
    UpdateStoresExactly(Initial(ALICE), 0, ALICE, ALICE, 100, 0, 0, 2);
    DecayStoresExactly(t, 1000, ALICE, ALICE, 1, 99);
  }
}
