/** Reputation records, lazy decay and the leaderboard index of the reputation contract. */
module ReputationSpec {
  import opened Common
  import opened Leaderboard

  const I128_MIN: int := -0x8000_0000_0000_0000_0000_0000_0000_0000

  datatype DecayConfig = DecayConfig(enabled: bool, rate: int, interval: nat)

  datatype Reputation = Reputation(
    admin: Address, config: DecayConfig, records: map<Address, Record>, total: int, users: seq<Address>)

  datatype Error = NotAdmin | NoRecord | DivisionByZero | Overflow

  function Initial(admin: Address): Reputation {
    Reputation(admin, DecayConfig(true, -1, 1000), map[], 0, [])
  }

  function CalculateLevel(score: int): nat {
    if score < 100 then 1 else if score < 400 then 2 else if score < 900 then 3 else if score < 1600 then 4 else 5
  }

  predicate Overflows(x: int) { x > I128_MAX || x < I128_MIN }

  function SaturatingAdd(x: int, y: int): int { Min(Max(x + y, I128_MIN), I128_MAX) }

  /** Whole decay intervals since the last update. */
  function Periods(interval: nat, since: nat, now: nat): nat
    requires interval > 0
  {
    Max(now - since, 0) / interval
  }

  /** `apply_decay_internal`; an enabled interval of 0 makes it panic. */
  function Decay(config: DecayConfig, r: Record, now: nat): Result<Record, Error> {
    if !config.enabled then Ok(r)
    else if config.interval == 0 then Err(DivisionByZero)
    else if Max(now - r.lastUpdated, 0) < config.interval then Ok(r)
    else
      var decay := config.rate * Periods(config.interval, r.lastUpdated, now);
      Ok(r.(score := Max(SaturatingAdd(r.score, decay), 0), lastUpdated := now))
  }

  function UpdateReputation(
    t: Reputation, now: nat, admin: Address, user: Address, change: int): Result<Reputation, Error>
  {
    if admin != t.admin then Err(NotAdmin)
    else
      var r := if user in t.records then t.records[user] else Record(user, 0, 1, now, 0);
      match Decay(t.config, r, now)
      case Err(e) => Err(e)
      case Ok(d) =>
        if Overflows(d.score + change) || Overflows(t.total + change) then Err(Overflow)
        else
          var score := Max(d.score + change, 0);
          var updated := Record(d.user, score, CalculateLevel(score), now, d.totalUpdates + 1);
          Ok(t.(records := t.records[user := updated], total := t.total + change,
                users := if user in t.users then t.users else t.users + [user]))
  }

  /** Stores the decayed record, unless the score did not change. */
  function ApplyDecay(t: Reputation, now: nat, admin: Address, user: Address): Result<Reputation, Error> {
    if admin != t.admin then Err(NotAdmin)
    else if user !in t.records then Err(NoRecord)
    else
      match Decay(t.config, t.records[user], now)
      case Err(e) => Err(e)
      case Ok(d) =>
        var change := d.score - t.records[user].score;
        if change == 0 then Ok(t)
        else if Overflows(t.total + change) then Err(Overflow)
        else Ok(t.(records := t.records[user := d], total := t.total + change))
  }

  function SetDecayConfig(t: Reputation, admin: Address, config: DecayConfig): Result<Reputation, Error> {
    if admin != t.admin then Err(NotAdmin) else Ok(t.(config := config))
  }

  function GetReputation(t: Reputation, now: nat, user: Address): Result<int, Error> {
    if user !in t.records then Ok(0)
    else match Decay(t.config, t.records[user], now) case Ok(d) => Ok(d.score) case Err(e) => Err(e)
  }

  // ---------- Decay ----------

  lemma {:induction false} PeriodsSplit(interval: nat, since: nat, middle: nat, now: nat)
    requires interval > 0 && since <= middle <= now
    ensures var p, q := Periods(interval, since, middle), Periods(interval, middle, now);
      p + q <= Periods(interval, since, now) <= p + q + 1
  {
    FloorDivBounds(middle - since, interval);
    FloorDivBounds(now - middle, interval);
    FloorDivBounds(now - since, interval);
    QuotientsSplit(interval, middle - since, now - middle, (middle - since) / interval, (now - middle) / interval,
                   (now - since) / interval);
  }

  lemma {:induction false} QuotientsSplit(d: int, x: int, y: int, p: int, q: int, w: int)
    requires 0 < d && p * d <= x < p * d + d && q * d <= y < q * d + d && w * d <= x + y < w * d + d
    ensures p + q <= w <= p + q + 1
  {
    assert (p + q) * d == p * d + q * d;
    assert (w + 1) * d == w * d + d;
    assert (p + q + 2) * d == p * d + q * d + 2 * d;
    MulCancel(p + q, w + 1, d);
    MulCancel(w, p + q + 2, d);
  }

  predicate Plausible(r: Record) { 0 <= r.score <= I128_MAX }

  /** For decay that does not add, the score after decay is simply the score less the periods, floored at 0. */
  lemma {:induction false} DecayedScore(config: DecayConfig, r: Record, now: nat)
    requires config.interval > 0 && config.rate <= 0 && Plausible(r)
    ensures Decay(config, r, now).Ok?
    ensures config.enabled ==>
      Decay(config, r, now).value.score == Max(r.score + config.rate * Periods(config.interval, r.lastUpdated, now), 0)
    ensures Plausible(Decay(config, r, now).value)
  {
    var n := Periods(config.interval, r.lastUpdated, now);
    MulNonNegative(-config.rate, n);
    assert config.rate * n == -((-config.rate) * n);
    FloorDivBounds(Max(now - r.lastUpdated, 0), config.interval);
    if n > 0 { MulMono(1, config.interval, n, config.interval); }
    if Max(now - r.lastUpdated, 0) >= config.interval {
      QuotientIsGreatest(Max(now - r.lastUpdated, 0), config.interval, 1);
    }
  }

  /** One intermediate application: never a lower score, and at most one period's worth higher. */
  lemma {:induction false} IntermediateDecay(config: DecayConfig, r: Record, middle: nat, now: nat)
    requires config.interval > 0 && config.rate <= 0 && Plausible(r) && r.lastUpdated <= middle <= now
    ensures Decay(config, r, middle).Ok? && Decay(config, Decay(config, r, middle).value, now).Ok?
    ensures var once := Decay(config, r, now).value.score;
      var twice := Decay(config, Decay(config, r, middle).value, now).value.score;
      once <= twice <= once - config.rate
  {
    var d := Decay(config, r, middle).value;
    DecayedScore(config, r, middle);
    DecayedScore(config, r, now);
    DecayedScore(config, d, now);
    if config.enabled && d != r {
      PeriodsSplit(config.interval, r.lastUpdated, middle, now);
      TwoSteps(config.rate, r.score, Periods(config.interval, r.lastUpdated, middle),
               Periods(config.interval, middle, now), Periods(config.interval, r.lastUpdated, now));
    }
  }

  lemma {:induction false} TwoSteps(rate: int, score: int, p: nat, q: nat, w: nat)
    requires rate <= 0 && 0 <= score && p + q <= w <= p + q + 1
    ensures var once, twice := Max(score + rate * w, 0), Max(Max(score + rate * p, 0) + rate * q, 0);
      once <= twice <= once - rate
  {
    var k := w - (p + q);
    assert rate * w == rate * p + rate * q + rate * k;
    assert rate * k == 0 || rate * k == rate;
    MulNonNegative(-rate, p);
    MulNonNegative(-rate, q);
    assert rate * p == -((-rate) * p) && rate * q == -((-rate) * q);
  }

  /** Decay applied at each of the ledgers. */
  function DecayAll(config: DecayConfig, r: Record, ledgers: seq<nat>): Result<Record, Error>
    decreases |ledgers|
  {
    if ledgers == [] then Ok(r)
    else match Decay(config, r, ledgers[0]) case Err(e) => Err(e) case Ok(d) => DecayAll(config, d, ledgers[1..])
  }

  predicate AscendingFrom(since: nat, ledgers: seq<nat>)
    decreases |ledgers|
  {
    ledgers == [] || (since <= ledgers[0] && AscendingFrom(ledgers[0], ledgers[1..]))
  }

  lemma {:induction false} LastIsLatest(since: nat, ledgers: seq<nat>)
    requires AscendingFrom(since, ledgers) && ledgers != []
    ensures since <= ledgers[0] <= ledgers[|ledgers| - 1]
    decreases |ledgers|
  {
    if |ledgers| > 1 { LastIsLatest(ledgers[0], ledgers[1..]); }
  }

  /** What ascends from a later ledger ascends from an earlier one. */
  lemma {:induction false} AscendingKept(since: nat, later: nat, ledgers: seq<nat>)
    requires AscendingFrom(later, ledgers) && since <= later
    ensures AscendingFrom(since, ledgers)
  {
  }

  /**
   * With a rate that takes away and a positive interval: decaying at any intermediate ledgers on the way never
   * leaves a lower score than decaying once at the end, and at most one period's decay more per extra application.
   */
  lemma {:induction false} DecayingOftenNeverCostsMore(config: DecayConfig, r: Record, ledgers: seq<nat>)
    requires config.interval > 0 && config.rate <= 0 && Plausible(r)
    requires AscendingFrom(r.lastUpdated, ledgers) && ledgers != []
    ensures DecayAll(config, r, ledgers).Ok?
    ensures var once := Decay(config, r, ledgers[|ledgers| - 1]).value.score;
      var often := DecayAll(config, r, ledgers).value.score;
      once <= often <= once + (-config.rate) * (|ledgers| - 1)
    decreases |ledgers|
  {
    var last := ledgers[|ledgers| - 1];
    DecayedScore(config, r, ledgers[0]);
    DecayedScore(config, r, last);
    var d := Decay(config, r, ledgers[0]).value;
    if |ledgers| == 1 {
      assert DecayAll(config, d, ledgers[1..]) == Ok(d);
    } else {
      LastIsLatest(r.lastUpdated, ledgers);
      AscendingKept(d.lastUpdated, ledgers[0], ledgers[1..]);
      DecayingOftenNeverCostsMore(config, d, ledgers[1..]);
      IntermediateDecay(config, r, ledgers[0], last);
      assert (-config.rate) * (|ledgers| - 1) == (-config.rate) * (|ledgers| - 2) + (-config.rate);
    }
  }

  /** At one ledger a second application changes nothing, whatever the rate. */
  lemma {:induction false} DecayIsIdempotent(config: DecayConfig, r: Record, now: nat)
    requires Decay(config, r, now).Ok?
    ensures Decay(config, Decay(config, r, now).value, now) == Decay(config, r, now)
  {
  }

  /** The view agrees with the stored score: what `get_reputation` reports is what `apply_decay` leaves behind. */
  lemma {:induction false} ViewEqualsStored(t: Reputation, now: nat, admin: Address, user: Address)
    requires ApplyDecay(t, now, admin, user).Ok?
    ensures var u := ApplyDecay(t, now, admin, user).value;
      && user in u.records
      && GetReputation(t, now, user) == Ok(u.records[user].score)
      && GetReputation(u, now, user) == Ok(u.records[user].score)
  {
    DecayIsIdempotent(t.config, t.records[user], now);
  }

  // ---------- Runs ----------

  datatype Op =
    | UpdateOp(admin: Address, user: Address, change: int)
    | DecayOp(admin: Address, user: Address)
    | ConfigureOp(admin: Address, config: DecayConfig)

  datatype Timed = Timed(now: nat, op: Op)

  function Apply(t: Reputation, c: Timed): Result<Reputation, Error> {
    match c.op
    case UpdateOp(admin, user, change) => UpdateReputation(t, c.now, admin, user, change)
    case DecayOp(admin, user) => ApplyDecay(t, c.now, admin, user)
    case ConfigureOp(admin, config) => SetDecayConfig(t, admin, config)
  }

  function Step(t: Reputation, c: Timed): Reputation {
    match Apply(t, c) case Ok(u) => u case Err(_) => t
  }

  function Run(t: Reputation, calls: seq<Timed>): Reputation
    decreases |calls|
  {
    if calls == [] then t else Run(Step(t, calls[0]), calls[1..])
  }

  /** The users with an accepted update. */
  function Updated(t: Reputation, calls: seq<Timed>): set<Address>
    decreases |calls|
  {
    if calls == [] then {}
    else
      (if calls[0].op.UpdateOp? && Apply(t, calls[0]).Ok? then {calls[0].op.user} else {})
      + Updated(Step(t, calls[0]), calls[1..])
  }

  /** The leaderboard index lists every user with a record exactly once, and records carry their own user. */
  ghost predicate Indexed(t: Reputation) {
    && NoDuplicates(t.users)
    && (forall u :: u in t.users <==> u in t.records)
    && (forall u :: u in t.records ==> t.records[u].user == u && Plausible(t.records[u]))
  }

  lemma {:induction false} UpdateKeepsIndexed(t: Reputation, now: nat, admin: Address, user: Address, change: int)
    requires Indexed(t) && UpdateReputation(t, now, admin, user, change).Ok?
    ensures var u := UpdateReputation(t, now, admin, user, change).value;
      Indexed(u) && u.records.Keys == t.records.Keys + {user}
  {
    var u := UpdateReputation(t, now, admin, user, change).value;
    assert forall v :: v in u.users <==> v in t.users || v == user;
    assert u.records[user].user == user;
  }

  lemma {:induction false} DecayKeepsIndexed(t: Reputation, now: nat, admin: Address, user: Address)
    requires Indexed(t) && ApplyDecay(t, now, admin, user).Ok?
    ensures var u := ApplyDecay(t, now, admin, user).value;
      Indexed(u) && u.records.Keys == t.records.Keys
  {
  }

  lemma {:induction false} StepKeepsIndexed(t: Reputation, c: Timed)
    requires Indexed(t)
    ensures Indexed(Step(t, c))
    ensures Step(t, c).records.Keys == t.records.Keys + (if c.op.UpdateOp? && Apply(t, c).Ok? then {c.op.user} else {})
  {
    if Apply(t, c).Ok? {
      match c.op
      case UpdateOp(admin, user, change) => UpdateKeepsIndexed(t, c.now, admin, user, change);
      case DecayOp(admin, user) => DecayKeepsIndexed(t, c.now, admin, user);
      case ConfigureOp(_, _) =>
    }
  }

  lemma {:induction false} RunKeepsIndexed(t: Reputation, calls: seq<Timed>)
    requires Indexed(t)
    ensures Indexed(Run(t, calls))
    ensures Run(t, calls).records.Keys == t.records.Keys + Updated(t, calls)
    decreases |calls|
  {
    if calls != [] {
      StepKeepsIndexed(t, calls[0]);
      RunKeepsIndexed(Step(t, calls[0]), calls[1..]);
    }
  }

  // ---------- Decay as stored by the calls ----------

  /** Calls that leave the decay configuration alone and change no score of `user` other than by decay. */
  predicate OnlyTouches(calls: seq<Timed>, user: Address) {
    forall i :: 0 <= i < |calls| ==> OnlyTouch(calls[i].op, user)
  }

  predicate OnlyTouch(op: Op, user: Address) {
    !op.ConfigureOp? && (op.UpdateOp? && op.user == user ==> op.change == 0)
  }

  predicate CallsBetween(since: nat, calls: seq<Timed>, now: nat)
    decreases |calls|
  {
    calls == [] || (since <= calls[0].now <= now && CallsBetween(calls[0].now, calls[1..], now))
  }

  /** The accepted calls on `user`. */
  function Touches(t: Reputation, calls: seq<Timed>, user: Address): nat
    decreases |calls|
  {
    if calls == [] then 0
    else
      CountsFor(t, calls[0], user) + Touches(Step(t, calls[0]), calls[1..], user)
  }

  function CountsFor(t: Reputation, c: Timed, user: Address): nat {
    if !c.op.ConfigureOp? && c.op.user == user && Apply(t, c).Ok? then 1 else 0
  }

  /** A record with its decay applied and its clock restarted. */
  predicate Touched(config: DecayConfig, r: Record, r': Record, now: nat) {
    Decay(config, r, now).Ok? && r'.score == Decay(config, r, now).value.score && r'.lastUpdated == now
  }

  /** Restarting the clock, even with no period complete, never costs score and gains at most one period. */
  lemma {:induction false} TouchKeepsBound(config: DecayConfig, r: Record, r': Record, middle: nat, now: nat)
    requires config.interval > 0 && config.rate <= 0 && Plausible(r) && r.lastUpdated <= middle <= now
    requires Touched(config, r, r', middle)
    ensures Plausible(r') && Decay(config, r, now).Ok? && Decay(config, r', now).Ok?
    ensures var once, later := Decay(config, r, now).value.score, Decay(config, r', now).value.score;
      once <= later <= once - config.rate
  {
    DecayedScore(config, r, middle);
    DecayedScore(config, r, now);
    DecayedScore(config, r', now);
    if config.enabled {
      PeriodsSplit(config.interval, r.lastUpdated, middle, now);
      TwoSteps(config.rate, r.score, Periods(config.interval, r.lastUpdated, middle),
               Periods(config.interval, middle, now), Periods(config.interval, r.lastUpdated, now));
    }
  }

  /** What is stored for a user after a call: the record as it was, or touched. */
  lemma {:induction false} StepTouches(t: Reputation, c: Timed, user: Address)
    requires Indexed(t) && user in t.records && OnlyTouch(c.op, user)
    requires t.config.interval > 0 && t.config.rate <= 0
    ensures var u := Step(t, c);
      && user in u.records && u.config == t.config
      && (u.records[user] == t.records[user]
          || (&& c.op.user == user && Apply(t, c).Ok?
              && Touched(t.config, t.records[user], u.records[user], c.now)))
  {
    DecayedScore(t.config, t.records[user], c.now);
  }

  /**
   * Over any run of the contract's own calls (separate decays, updates by 0, anything on other users): the score a
   * user ends with at `now` is no lower than without them, and at most one period's decay higher per accepted call.
   * An update restarts the clock even when no period is complete, and a decay that changes nothing is not stored.
   */
  lemma {:induction false} TouchingOftenNeverCostsMore(
      t: Reputation, calls: seq<Timed>, user: Address, since: nat, now: nat)
    requires Indexed(t) && user in t.records && t.config.interval > 0 && t.config.rate <= 0
    requires t.records[user].lastUpdated <= since <= now && CallsBetween(since, calls, now) && OnlyTouches(calls, user)
    ensures WithinTouches(t, Run(t, calls), user, now, Touches(t, calls, user))
    decreases |calls|
  {
    if calls == [] {
      DecayedScore(t.config, t.records[user], now);
    } else {
      var c, u := calls[0], Step(t, calls[0]);
      StepWithinTouches(t, c, user, since, now);
      StepKeepsIndexed(t, c);
      TailTouches(calls, user);
      TouchingOftenNeverCostsMore(u, calls[1..], user, c.now, now);
      WithinTouchesAdd(t, u, Run(u, calls[1..]), user, now, CountsFor(t, c, user), Touches(u, calls[1..], user));
    }
  }

  /** At `now`, `u` shows at least the score `t` shows for `user`, and at most `k` periods' decay more. */
  predicate WithinTouches(t: Reputation, u: Reputation, user: Address, now: nat, k: nat) {
    var once, often := GetReputation(t, now, user), GetReputation(u, now, user);
    && u.config == t.config && once.Ok? && often.Ok?
    && once.value <= often.value <= once.value + (-t.config.rate) * k
  }

  lemma {:induction false} WithinTouchesAdd(
      t: Reputation, u: Reputation, v: Reputation, user: Address, now: nat, j: nat, k: nat)
    requires WithinTouches(t, u, user, now, j) && WithinTouches(u, v, user, now, k)
    ensures WithinTouches(t, v, user, now, j + k)
  {
    assert (-t.config.rate) * (j + k) == (-t.config.rate) * j + (-t.config.rate) * k;
  }

  lemma {:induction false} StepWithinTouches(t: Reputation, c: Timed, user: Address, since: nat, now: nat)
    requires Indexed(t) && user in t.records && OnlyTouch(c.op, user)
    requires t.config.interval > 0 && t.config.rate <= 0
    requires t.records[user].lastUpdated <= since <= c.now <= now
    ensures var u := Step(t, c);
      && user in u.records && u.records[user].lastUpdated <= c.now
      && WithinTouches(t, u, user, now, CountsFor(t, c, user))
  {
    StepTouches(t, c, user);
    DecayedScore(t.config, t.records[user], now);
    var u := Step(t, c);
    if u.records[user] != t.records[user] {
      TouchKeepsBound(t.config, t.records[user], u.records[user], c.now, now);
    }
  }

  lemma {:induction false} TailTouches(calls: seq<Timed>, user: Address)
    requires calls != [] && OnlyTouches(calls, user)
    ensures OnlyTouch(calls[0].op, user) && OnlyTouches(calls[1..], user)
  {
  }

  // ---------- The leaderboard ----------

  /** The records of the listed users, in list order. */
  function Listed(t: Reputation, users: seq<Address>): seq<Record> {
    if users == [] then []
    else
      var u := users[|users| - 1];
      var before := Listed(t, users[..|users| - 1]);
      if u in t.records then before + [t.records[u]] else before
  }

  function TopRanked(t: Reputation, limit: nat): seq<Record> {
    var ranked := Ranked(Listed(t, t.users));
    if limit <= |ranked| then ranked[..limit] else ranked
  }

  lemma {:induction false} ListedAll(t: Reputation, users: seq<Address>)
    requires forall u :: u in users ==> u in t.records
    ensures |Listed(t, users)| == |users|
    ensures forall i :: 0 <= i < |users| ==> Listed(t, users)[i] == t.records[users[i]]
    decreases |users|
  {
    if users != [] {
      ListedAll(t, users[..|users| - 1]);
    }
  }

  /** Over any run the board's users are exactly those with an accepted update, once each. */
  lemma {:induction false} BoardUsersAreUpdated(admin: Address, calls: seq<Timed>)
    ensures var t := Run(Initial(admin), calls);
      Indexed(t) && forall u :: u in Updated(Initial(admin), calls) <==> u in t.users
  {
    RunKeepsIndexed(Initial(admin), calls);
    assert Initial(admin).records.Keys == {};
  }

  /**
   * For every such set of records and every limit: the result is the first min(limit, n) entries of the one
   * descending, stable arrangement of all n records, taken in the order the users first appeared.
   */
  lemma {:induction false} LeaderboardIsExact(t: Reputation, limit: nat)
    requires Indexed(t)
    ensures var list := Listed(t, t.users); var all := Ranked(list);
      && |all| == |list| == |t.users| && StableRanking(all, list) && multiset(all) == multiset(list)
      && TopRanked(t, limit) <= all && |TopRanked(t, limit)| == Min(limit, |t.users|)
    ensures forall i :: 0 <= i < |t.users| ==> Listed(t, t.users)[i] == t.records[t.users[i]]
  {
    ListedAll(t, t.users);
    RankedIsStableRanking(Listed(t, t.users));
    RankedPermutes(Listed(t, t.users));
  }

  lemma {:induction false} ListedOnce(t: Reputation, u: Address)
    requires Indexed(t) && u in t.records
    ensures multiset(Listed(t, t.users))[t.records[u]] == 1
  {
    var list := Listed(t, t.users);
    ListedAll(t, t.users);
    forall i, j | 0 <= i < j < |list| ensures list[i] != list[j] {
      assert list[i].user == t.users[i] && list[j].user == t.users[j];
    }
    var i :| 0 <= i < |t.users| && t.users[i] == u;
    assert list[i] == t.records[u];
    OccursOnce(list, i);
  }

  lemma {:induction false} ListedRecord(t: Reputation, r: Record)
    requires Indexed(t) && r in Listed(t, t.users)
    ensures r.user in t.records && r == t.records[r.user]
  {
    ListedAll(t, t.users);
  }

  lemma {:induction false} MemberOfPermutation(all: seq<Record>, list: seq<Record>, r: Record)
    requires multiset(all) == multiset(list) && r in all
    ensures r in list
  {
    assert r in multiset(list);
  }

  /** Each updated user has exactly one entry on the full board, with the stored record. */
  lemma {:induction false} EachUserOnce(t: Reputation, u: Address)
    requires Indexed(t) && u in t.records
    ensures multiset(Ranked(Listed(t, t.users)))[t.records[u]] == 1
    ensures forall r :: r in Ranked(Listed(t, t.users)) && r.user == u ==> r == t.records[u]
  {
    var list := Listed(t, t.users);
    ListedAll(t, t.users);
    RankedPermutes(list);
    ListedOnce(t, u);
    forall r | r in Ranked(list) && r.user == u ensures r == t.records[u] {
      MemberOfPermutation(Ranked(list), list, r);
      ListedRecord(t, r);
    }
  }
}
