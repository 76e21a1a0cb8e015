/** The stored total of the reputation contract against the scores it is meant to add up. */
module ReputationTotals {
  import opened Common
  import opened Leaderboard
  import opened ReputationSpec

  function Scores(records: map<Address, Record>): map<Address, int> {
    map u | u in records :: records[u].score
  }

  ghost function ScoreSum(t: Reputation): int { Sum(Scores(t.records)) }

  function ScoreOf(t: Reputation, user: Address): int {
    if user in t.records then t.records[user].score else 0
  }

  /** The score an update starts from: decayed up to the current ledger, but not booked as decay. */
  function DecayedScoreOf(t: Reputation, now: nat, user: Address): int {
    if user !in t.records then 0
    else match Decay(t.config, t.records[user], now) case Ok(d) => d.score case Err(_) => 0
  }

  /** What an accepted update books beyond the score's change: the decay it applied, less what the floor forgave. */
  function Unbooked(t: Reputation, c: Timed): int {
    if c.op.UpdateOp? && Apply(t, c).Ok? then
      var decayed := DecayedScoreOf(t, c.now, c.op.user);
      (ScoreOf(t, c.op.user) - decayed) - Max(-(decayed + c.op.change), 0)
    else 0
  }

  function TotalUnbooked(t: Reputation, calls: seq<Timed>): int
    decreases |calls|
  {
    if calls == [] then 0 else Unbooked(t, calls[0]) + TotalUnbooked(Step(t, calls[0]), calls[1..])
  }

  lemma {:induction false} RecordScored(records: map<Address, Record>, user: Address, r: Record)
    ensures Sum(Scores(records[user := r]))
         == Sum(Scores(records)) + r.score - (if user in records then records[user].score else 0)
  {
    SumUpdate(Scores(records), user, r.score);
    assert Scores(records[user := r]) == Scores(records)[user := r.score];
  }

  lemma {:induction false} StepTotals(t: Reputation, c: Timed)
    ensures var u := Step(t, c); u.total - ScoreSum(u) == t.total - ScoreSum(t) + Unbooked(t, c)
  {
    if Apply(t, c).Ok? && !c.op.ConfigureOp? {
      var u := Step(t, c);
      if c.op.user in u.records {
        RecordScored(t.records, c.op.user, u.records[c.op.user]);
      }
      assert c.op.user in t.records ==> t.records[c.op.user := t.records[c.op.user]] == t.records;
    }
  }

  /**
   * Over any run the stored total differs from the sum of all scores by exactly the decay that updates applied
   * without booking it, less the negative results the floor at 0 forgave; separate decays are booked in full.
   */
  lemma {:induction false} TotalFollowsScores(t: Reputation, calls: seq<Timed>)
    ensures var u := Run(t, calls); u.total - ScoreSum(u) == t.total - ScoreSum(t) + TotalUnbooked(t, calls)
    decreases |calls|
  {
    if calls != [] {
      StepTotals(t, calls[0]);
      TotalFollowsScores(Step(t, calls[0]), calls[1..]);
    }
  }

  ghost predicate AlwaysTotal(t: Reputation, calls: seq<Timed>)
    decreases |calls|
  {
    t.total == ScoreSum(t) && (calls == [] || AlwaysTotal(Step(t, calls[0]), calls[1..]))
  }

  predicate NothingUnbooked(t: Reputation, calls: seq<Timed>)
    decreases |calls|
  {
    calls == [] || (Unbooked(t, calls[0]) == 0 && NothingUnbooked(Step(t, calls[0]), calls[1..]))
  }

  /** So from the start the total is the sum of the scores in every state exactly when nothing stays unbooked. */
  lemma {:induction false} TotalIsSumIff(admin: Address, calls: seq<Timed>)
    ensures AlwaysTotal(Initial(admin), calls) <==> NothingUnbooked(Initial(admin), calls)
  {
    assert Scores(Initial(admin).records) == map[];
    TotalRun(Initial(admin), calls);
  }

  lemma {:induction false} TotalRun(t: Reputation, calls: seq<Timed>)
    requires t.total == ScoreSum(t)
    ensures AlwaysTotal(t, calls) <==> NothingUnbooked(t, calls)
    decreases |calls|
  {
    if calls != [] {
      StepTotals(t, calls[0]);
      if Unbooked(t, calls[0]) == 0 {
        TotalRun(Step(t, calls[0]), calls[1..]);
      }
    }
  }

  const ALICE := Address(1)

  /** A concrete first update below zero: the score is floored at 0, the total is not. */
  lemma {:induction false} TotalCanTurnNegative()
    ensures var t := Step(Initial(ALICE), Timed(0, UpdateOp(ALICE, ALICE, -50)));
      t.total == -50 && ALICE in t.records && t.records[ALICE].score == 0
  {
  }
}
