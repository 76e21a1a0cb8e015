/** Vesting and airdrop claims over whole runs of the token contract. */
module TokenClaims {
  import opened Common
  import VC = VestingCurves
  import opened Merkle
  import opened TokenSpec
  import opened TokenSupply

  // ---------- Vesting ----------

  /** What an accepted call mints for one version 2 schedule. */
  function MintedByCall(h: Hashing, t: Token, c: Timed, key: ScheduleKey): int
    requires SoundSchedules(t.vesting)
  {
    if c.op.ClaimV2Op? && c.op.key == key && key in t.vesting.v2 && Apply(h, t, c).Ok? then
      VC.Claimable(t.vesting.v2[key], c.now)
    else 0
  }

  function MintedFor(h: Hashing, t: Token, calls: seq<Timed>, key: ScheduleKey): int
    requires SoundSchedules(t.vesting)
    decreases |calls|
  {
    if calls == [] then 0
    else MintedByCall(h, t, calls[0], key) + MintedFor(h, Step(h, t, calls[0]), calls[1..], key)
  }

  /** Two states of one schedule: only `claimed` and the end may differ. */
  predicate SameGrant(s: VC.Schedule, u: VC.Schedule) {
    u.total == s.total && u.start == s.start && u.cliff == s.cliff && u.kind == s.kind && u.steps == s.steps
  }

  /**
   * An accepted claim mints exactly the claimable amount to the beneficiary, and leaves `claimed` equal to what is
   * vested at that ledger; at or past the end that is the whole grant.
   */
  lemma {:induction false} ClaimMintsVested(t: Token, now: nat, key: ScheduleKey)
    requires SoundSchedules(t.vesting) && ClaimVestingV2(t, now, key).Ok?
    ensures var u := ClaimVestingV2(t, now, key).value; var s := t.vesting.v2[key];
      && key in u.vesting.v2 && SameGrant(s, u.vesting.v2[key]) && u.vesting.v2[key].end == s.end
      && u.vesting.v2[key].claimed == VC.Vested(s, now) > s.claimed
      && Get(u.ledger.balances, key.beneficiary)
        == Get(t.ledger.balances, key.beneficiary) + VC.Vested(s, now) - s.claimed
      && u.ledger.supply == t.ledger.supply + VC.Vested(s, now) - s.claimed
      && (s.end <= now ==> u.vesting.v2[key].claimed == s.total)
  {
    VC.VestedBounds(t.vesting.v2[key], now);
  }

  /** A vesting call on its own: only an accepted claim moves `claimed`, and no call touches the rest of the grant. */
  lemma {:induction false} VestingCallOn(t: Token, c: Timed, key: ScheduleKey)
    requires SoundSchedules(t.vesting) && key in t.vesting.v2 && KindOf(c.op) == Vestings && ApplyVesting(t, c).Ok?
    ensures var u := ApplyVesting(t, c).value; var s := t.vesting.v2[key];
      && key in u.vesting.v2 && SameGrant(s, u.vesting.v2[key])
      && u.vesting.v2[key].claimed
         == s.claimed + (if c.op.ClaimV2Op? && c.op.key == key then VC.Claimable(s, c.now) else 0)
  {
  }

  lemma {:induction false} StepVesting(h: Hashing, t: Token, c: Timed, key: ScheduleKey)
    requires SoundSchedules(t.vesting) && key in t.vesting.v2
    ensures var u := Step(h, t, c);
      && key in u.vesting.v2 && SameGrant(t.vesting.v2[key], u.vesting.v2[key])
      && u.vesting.v2[key].claimed == t.vesting.v2[key].claimed + MintedByCall(h, t, c, key)
  {
    if Apply(h, t, c).Ok? {
      if KindOf(c.op) == Vestings {
        VestingCallOn(t, c, key);
      } else {
        OthersKeepSchedules(h, t, c);
      }
    }
  }

  /**
   * Over any run of any calls, claims and end-ledger changes included: the amount minted for a schedule is what its
   * `claimed` grew by, and it never exceeds the grant.
   */
  lemma {:induction false} MintedEqualsClaimed(h: Hashing, t: Token, calls: seq<Timed>, key: ScheduleKey)
    requires SoundSchedules(t.vesting) && key in t.vesting.v2
    ensures var u := Run(h, t, calls);
      && key in u.vesting.v2 && SameGrant(t.vesting.v2[key], u.vesting.v2[key])
      && u.vesting.v2[key].claimed == t.vesting.v2[key].claimed + MintedFor(h, t, calls, key)
      && u.vesting.v2[key].claimed <= t.vesting.v2[key].total
    decreases |calls|
  {
    if calls != [] {
      StepVesting(h, t, calls[0], key);
      MintedEqualsClaimed(h, Step(h, t, calls[0]), calls[1..], key);
    }
  }

  /**
   * Once a claim at or past the end has been accepted, the grant is complete and nothing more is ever minted for it.
   */
  lemma {:induction false} LastClaimCompletesGrant(h: Hashing, t: Token, now: nat, key: ScheduleKey, later: seq<Timed>)
    requires SoundSchedules(t.vesting) && ClaimVestingV2(t, now, key).Ok? && t.vesting.v2[key].end <= now
    ensures var u := Step(h, t, Timed(now, ClaimV2Op(key)));
      && u.vesting.v2[key].claimed == t.vesting.v2[key].total
      && MintedFor(h, u, later, key) == 0
      && key in Run(h, u, later).vesting.v2
      && Run(h, u, later).vesting.v2[key].claimed == t.vesting.v2[key].total
  {
    ClaimMintsVested(t, now, key);
    var u := Step(h, t, Timed(now, ClaimV2Op(key)));
    MintedEqualsClaimed(h, u, later, key);
    MintedNonNegative(h, u, later, key);
  }

  lemma {:induction false} MintedNonNegative(h: Hashing, t: Token, calls: seq<Timed>, key: ScheduleKey)
    requires SoundSchedules(t.vesting) && key in t.vesting.v2
    ensures 0 <= MintedFor(h, t, calls, key)
    decreases |calls|
  {
    if calls != [] {
      StepVesting(h, t, calls[0], key);
      MintedNonNegative(h, Step(h, t, calls[0]), calls[1..], key);
    }
  }

  // ---------- Claiming often, under the maximum supply ----------

  function ClaimsAt(ledgers: seq<nat>, key: ScheduleKey): seq<Timed> {
    seq(|ledgers|, i requires 0 <= i < |ledgers| => Timed(ledgers[i], ClaimV2Op(key)))
  }

  /** The highest value of `claimed` that the supply cap admits for a schedule. */
  function Room(t: Token, key: ScheduleKey): int
    requires key in t.vesting.v2
  {
    MAX_SUPPLY - t.ledger.supply + t.vesting.v2[key].claimed
  }

  /** `r` is the largest of what is claimed already and what is vested at the ledgers without passing `room`. */
  ghost predicate LargestWithin(s: VC.Schedule, ledgers: seq<nat>, room: int, r: int)
    requires VC.SoundSchedule(s)
  {
    && s.claimed <= r
    && (forall i :: 0 <= i < |ledgers| && VC.Vested(s, ledgers[i]) <= room ==> VC.Vested(s, ledgers[i]) <= r)
    && (r == s.claimed || exists i :: 0 <= i < |ledgers| && r == VC.Vested(s, ledgers[i]) <= room)
  }

  /** A schedule after a claim at `ledger` that is refused past `room`. */
  function ClaimedWithin(s: VC.Schedule, ledger: nat, room: int): (s': VC.Schedule)
    requires VC.SoundSchedule(s)
    ensures VC.SoundSchedule(s')
  {
    VC.VestedBounds(s, ledger);
    s.(claimed := if s.claimed < VC.Vested(s, ledger) <= room then VC.Vested(s, ledger) else s.claimed)
  }

  lemma {:induction false} OneClaimUnderTheCap(h: Hashing, t: Token, now: nat, key: ScheduleKey)
    requires SoundSchedules(t.vesting) && key in t.vesting.v2
    ensures var u := Step(h, t, Timed(now, ClaimV2Op(key)));
      && key in u.vesting.v2 && u.vesting.v2[key] == ClaimedWithin(t.vesting.v2[key], now, Room(t, key))
      && Room(u, key) == Room(t, key)
  {
  }

  lemma {:induction false} LargerWithin(s: VC.Schedule, ledgers: seq<nat>, room: int, r: int)
    requires VC.SoundSchedule(s) && ledgers != []
    ensures LargestWithin(ClaimedWithin(s, ledgers[0], room), ledgers[1..], room, r)
            ==> LargestWithin(s, ledgers, room, r)
  {
    var rest, s' := ledgers[1..], ClaimedWithin(s, ledgers[0], room);
    if LargestWithin(s', rest, room, r) {
      assert forall l: nat :: VC.Vested(s', l) == VC.Vested(s, l);
      assert forall i :: 0 <= i < |rest| ==> rest[i] == ledgers[i + 1];
      assert forall i :: 1 <= i < |ledgers| ==> ledgers[i] == rest[i - 1];
    }
  }

  /**
   * Claims at any ledgers, in any order, end with `claimed` at the largest vested amount the supply cap admits; a
   * claim is refused when it would pass the cap, and the next one that fits takes the rest.
   */
  lemma {:induction false} ClaimsUnderTheCap(h: Hashing, t: Token, ledgers: seq<nat>, key: ScheduleKey)
    requires SoundSchedules(t.vesting) && key in t.vesting.v2
    ensures var u := Run(h, t, ClaimsAt(ledgers, key)); var s := t.vesting.v2[key];
      && key in u.vesting.v2 && SameGrant(s, u.vesting.v2[key]) && u.vesting.v2[key].end == s.end
      && LargestWithin(s, ledgers, Room(t, key), u.vesting.v2[key].claimed)
    decreases |ledgers|
  {
    if ledgers != [] {
      var calls := ClaimsAt(ledgers, key);
      assert calls[0] == Timed(ledgers[0], ClaimV2Op(key)) && calls[1..] == ClaimsAt(ledgers[1..], key);
      var d := Step(h, t, calls[0]);
      OneClaimUnderTheCap(h, t, ledgers[0], key);
      ClaimsUnderTheCap(h, d, ledgers[1..], key);
      var r := Run(h, d, calls[1..]).vesting.v2[key].claimed;
      LargerWithin(t.vesting.v2[key], ledgers, Room(t, key), r);
    }
  }

  /**
   * Claiming often mints what one claim at the last ledger mints if and only if that one claim fits under the cap, or
   * none of the earlier ones has anything to mint within it.
   */
  lemma {:induction false} ClaimingOftenIsClaimingOnceIff(h: Hashing, t: Token, ledgers: seq<nat>, key: ScheduleKey)
    requires SoundSchedules(t.vesting) && key in t.vesting.v2 && ledgers != [] && VC.Ascending(ledgers)
    ensures var s := t.vesting.v2[key]; var last := ledgers[|ledgers| - 1];
      var often := Run(h, t, ClaimsAt(ledgers, key)); var once := Step(h, t, Timed(last, ClaimV2Op(key)));
      && key in often.vesting.v2 && key in once.vesting.v2
      && (often.vesting.v2[key].claimed == once.vesting.v2[key].claimed
          <==> VC.Vested(s, last) <= Room(t, key)
               || forall i :: 0 <= i < |ledgers| ==> !(s.claimed < VC.Vested(s, ledgers[i]) <= Room(t, key)))
  {
    var s, last := t.vesting.v2[key], ledgers[|ledgers| - 1];
    ClaimsUnderTheCap(h, t, ledgers, key);
    OneClaimUnderTheCap(h, t, last, key);
    LastIsMostVested(s, ledgers);
    LargestAgainstLast(s, ledgers, Room(t, key), Run(h, t, ClaimsAt(ledgers, key)).vesting.v2[key].claimed);
  }

  ghost predicate MostVestedLast(s: VC.Schedule, ledgers: seq<nat>)
    requires VC.SoundSchedule(s) && ledgers != []
  {
    forall i :: 0 <= i < |ledgers| ==> VC.Vested(s, ledgers[i]) <= VC.Vested(s, ledgers[|ledgers| - 1])
  }

  lemma {:induction false} LastIsMostVested(s: VC.Schedule, ledgers: seq<nat>)
    requires VC.SoundSchedule(s) && ledgers != [] && VC.Ascending(ledgers)
    ensures MostVestedLast(s, ledgers)
  {
    forall i | 0 <= i < |ledgers| ensures VC.Vested(s, ledgers[i]) <= VC.Vested(s, ledgers[|ledgers| - 1]) {
      VC.VestedMonotone(s, ledgers[i], ledgers[|ledgers| - 1]);
    }
  }

  lemma {:induction false} LargestAgainstLast(s: VC.Schedule, ledgers: seq<nat>, room: int, r: int)
    requires VC.SoundSchedule(s) && ledgers != [] && LargestWithin(s, ledgers, room, r)
    requires MostVestedLast(s, ledgers)
    ensures var v := VC.Vested(s, ledgers[|ledgers| - 1]);
      r == (if s.claimed < v <= room then v else s.claimed)
      <==> v <= room || forall i :: 0 <= i < |ledgers| ==> !(s.claimed < VC.Vested(s, ledgers[i]) <= room)
  {
  }

  const ALICE := Address(1)
  const BOB := Address(2)
  const BOBS := ScheduleKey(BOB, 0)

  /** All but 500 of the maximum supply is issued, and Bob is granted 1000 over the ledgers 0 to 100. */
  const CAPPED: Token :=
    Initial(ALICE).(
      ledger := Ledger(map[BOB := MAX_SUPPLY - 500], MAX_SUPPLY - 500),
      vesting := Vesting(map[], map[BOBS := VC.Schedule(1000, 0, 0, 100, 0, 0, 0)], map[BOB := 1]))

  const MINT_MOST := Timed(0, MintOp(BOB, MAX_SUPPLY - 500))
  const GRANT := Timed(0, CreateV2Op(ALICE, BOB, 1000, 0, 100, 0, 0))

  lemma {:induction false} MostIsMinted(h: Hashing)
    ensures Step(h, Initial(ALICE), MINT_MOST) == CAPPED.(vesting := Vesting(map[], map[], map[]))
  {
    assert Mint(Initial(ALICE), BOB, MAX_SUPPLY - 500).value.ledger.balances == map[BOB := MAX_SUPPLY - 500];
  }

  lemma {:induction false} BobIsGranted(h: Hashing)
    ensures Step(h, CAPPED.(vesting := Vesting(map[], map[], map[])), GRANT) == CAPPED
  {
    var t := CAPPED.(vesting := Vesting(map[], map[], map[]));
    assert CreateVestingV2(t, 0, ALICE, BOB, 1000, 0, 100, 0, 0).value.0.vesting == CAPPED.vesting;
  }

  lemma {:induction false} CappedIsReachable(h: Hashing)
    ensures SoundSchedules(CAPPED.vesting) && Run(h, Initial(ALICE), [MINT_MOST, GRANT]) == CAPPED
  {
    var t := Step(h, Initial(ALICE), MINT_MOST);
    assert [MINT_MOST, GRANT][1..] == [GRANT] && [GRANT][1..] == [];
    MostIsMinted(h);
    BobIsGranted(h);
    assert Run(h, Initial(ALICE), [MINT_MOST, GRANT]) == Run(h, t, [GRANT]);
    assert Run(h, t, [GRANT]) == Run(h, Step(h, t, GRANT), []);
  }

  lemma {:induction false} HalfAndAllVested()
    ensures VC.SoundSchedule(CAPPED.vesting.v2[BOBS])
    ensures VC.Vested(CAPPED.vesting.v2[BOBS], 50) == 500 && VC.Vested(CAPPED.vesting.v2[BOBS], 100) == 1000
  {
  }

  /** There, claims at 50 and at 100 leave 500 claimed, while one claim at 100 passes the cap and leaves nothing. */
  lemma {:induction false} ClaimingOftenMintsMore(h: Hashing)
    ensures var t := Run(h, Initial(ALICE), [MINT_MOST, GRANT]);
      var often, once := Run(h, t, ClaimsAt([50, 100], BOBS)), Step(h, t, Timed(100, ClaimV2Op(BOBS)));
      && BOBS in often.vesting.v2 && often.vesting.v2[BOBS].claimed == 500
      && BOBS in once.vesting.v2 && once.vesting.v2[BOBS].claimed == 0
  {
    CappedIsReachable(h);
    HalfAndAllVested();
    ClaimsUnderTheCap(h, CAPPED, [50, 100], BOBS);
    OneClaimUnderTheCap(h, CAPPED, 100, BOBS);
    assert Room(CAPPED, BOBS) == 500;
    OnlyHalfFits(Run(h, CAPPED, ClaimsAt([50, 100], BOBS)).vesting.v2[BOBS].claimed);
  }

  lemma {:induction false} OnlyHalfFits(r: int)
    requires VC.SoundSchedule(CAPPED.vesting.v2[BOBS]) && LargestWithin(CAPPED.vesting.v2[BOBS], [50, 100], 500, r)
    ensures r == 500
  {
    HalfAndAllVested();
    assert [50, 100][0] == 50;
  }

  /** A new version 2 schedule never replaces one; a new version 1 schedule does. */
  lemma {:induction false} NewScheduleIsFresh(
    t: Token, now: nat, admin: Address, to: Address, total: int, cliff: nat, end: nat, kind: nat, steps: nat)
    requires SoundSchedules(t.vesting) && CreateVestingV2(t, now, admin, to, total, cliff, end, kind, steps).Ok?
    ensures var (u, id) := CreateVestingV2(t, now, admin, to, total, cliff, end, kind, steps).value;
      && ScheduleKey(to, id) !in t.vesting.v2
      && u.vesting.v2 - {ScheduleKey(to, id)} == t.vesting.v2
      && u.vesting.v2[ScheduleKey(to, id)].claimed == 0
  {
  }

  // ---------- Airdrops ----------

  predicate AcceptedClaim(h: Hashing, t: Token, c: Timed, id: nat)
    requires SoundSchedules(t.vesting)
  {
    c.op.ClaimAirdropOp? && c.op.id == id && Apply(h, t, c).Ok?
  }

  /** The recipients and amounts a run accepts for one campaign. */
  function AcceptedClaims(h: Hashing, t: Token, calls: seq<Timed>, id: nat): seq<(Address, int)>
    requires SoundSchedules(t.vesting)
    decreases |calls|
  {
    if calls == [] then []
    else
      (if AcceptedClaim(h, t, calls[0], id) then [(calls[0].op.who, calls[0].op.amount)] else [])
      + AcceptedClaims(h, Step(h, t, calls[0]), calls[1..], id)
  }

  function TotalOf(claims: seq<(Address, int)>): int {
    if claims == [] then 0 else claims[0].1 + TotalOf(claims[1..])
  }

  predicate NoRecipientTwice(claims: seq<(Address, int)>) {
    forall i, j :: 0 <= i < j < |claims| ==> claims[i].0 != claims[j].0
  }

  predicate NoneClaimedBefore(t: Token, claims: seq<(Address, int)>, id: nat) {
    forall i :: 0 <= i < |claims| ==> (id, claims[i].0) !in t.airdrops.claims
  }

  lemma {:induction false} StepAirdrop(h: Hashing, t: Token, c: Timed, id: nat)
    requires SoundToken(t) && id in t.airdrops.campaigns
    ensures var u := Step(h, t, c); var before := t.airdrops.campaigns[id];
      && id in u.airdrops.campaigns && t.airdrops.claims <= u.airdrops.claims
      && (if AcceptedClaim(h, t, c, id) then
            && (id, c.op.who) !in t.airdrops.claims && (id, c.op.who) in u.airdrops.claims && c.now <= before.expiry
            && u.airdrops.campaigns[id] == before.(claimed := before.claimed + c.op.amount)
          else u.airdrops.campaigns[id] == before)
  {
    if KindOf(c.op) != Airdropping {
      OthersKeepAirdrops(h, t, c);
    }
  }

  /**
   * Over any run: each recipient is paid at most once per campaign, never again after an earlier claim, and the
   * campaign's claimed amount grows by exactly the accepted claims, within its total.
   */
  lemma {:induction false} AirdropPaysOnce(h: Hashing, t: Token, calls: seq<Timed>, id: nat)
    requires SoundToken(t) && id in t.airdrops.campaigns
    ensures var claims := AcceptedClaims(h, t, calls, id);
      var u := Run(h, t, calls);
      var before := t.airdrops.campaigns[id];
      && NoRecipientTwice(claims) && NoneClaimedBefore(t, claims, id)
      && id in u.airdrops.campaigns
      && u.airdrops.campaigns[id] == before.(claimed := before.claimed + TotalOf(claims))
      && before.claimed + TotalOf(claims) <= before.total
    decreases |calls|
  {
    if calls != [] {
      var u := Step(h, t, calls[0]);
      StepAirdrop(h, t, calls[0], id);
      StepAccounts(h, t, calls[0]);
      AirdropPaysOnce(h, u, calls[1..], id);
      var rest := AcceptedClaims(h, u, calls[1..], id);
      if AcceptedClaim(h, t, calls[0], id) {
        OneMoreClaim(t, u, calls[0].op.who, calls[0].op.amount, rest, id);
      } else {
        assert AcceptedClaims(h, t, calls, id) == rest;
      }
    }
  }

  lemma {:induction false} OneMoreClaim(
    t: Token, u: Token, who: Address, amount: int, rest: seq<(Address, int)>, id: nat)
    requires t.airdrops.claims <= u.airdrops.claims && (id, who) !in t.airdrops.claims && (id, who) in u.airdrops.claims
    requires NoRecipientTwice(rest) && NoneClaimedBefore(u, rest, id)
    ensures var claims := [(who, amount)] + rest;
      NoRecipientTwice(claims) && NoneClaimedBefore(t, claims, id) && TotalOf(claims) == amount + TotalOf(rest)
  {
    var claims := [(who, amount)] + rest;
    assert claims[1..] == rest;
    assert forall i :: 1 <= i < |claims| ==> claims[i] == rest[i - 1];
  }

  predicate AllAfter(calls: seq<Timed>, ledger: nat) {
    forall i :: 0 <= i < |calls| ==> ledger < calls[i].now
  }

  /** After its expiry no call changes a campaign. */
  lemma {:induction false} ExpiredCampaignStays(h: Hashing, t: Token, calls: seq<Timed>, id: nat)
    requires SoundToken(t) && id in t.airdrops.campaigns
    requires AllAfter(calls, t.airdrops.campaigns[id].expiry)
    ensures var u := Run(h, t, calls);
      id in u.airdrops.campaigns && u.airdrops.campaigns[id] == t.airdrops.campaigns[id]
    decreases |calls|
  {
    if calls != [] {
      StepAirdrop(h, t, calls[0], id);
      StepAccounts(h, t, calls[0]);
      ExpiredCampaignStays(h, Step(h, t, calls[0]), calls[1..], id);
    }
  }

  /** After expiry every recovery, after any further calls, reports the same unclaimed amount; it never claims it. */
  lemma {:induction false} RecoveryIsStable(h: Hashing, t: Token, calls: seq<Timed>, id: nat, now: nat, later: nat)
    requires SoundToken(t) && id in t.airdrops.campaigns
    requires AllAfter(calls, t.airdrops.campaigns[id].expiry)
    requires t.airdrops.campaigns[id].expiry < now && t.airdrops.campaigns[id].expiry < later
    ensures var c := t.airdrops.campaigns[id];
      && RecoverUnclaimed(t, now, id) == Ok(c.total - c.claimed)
      && RecoverUnclaimed(Run(h, t, calls), later, id) == Ok(c.total - c.claimed)
      && 0 <= c.total - c.claimed
  {
    ExpiredCampaignStays(h, t, calls, id);
  }
}
