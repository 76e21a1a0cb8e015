/** Votes on a deadline extension: who is counted, with what weight, and what it takes to move the deadline. */
module CampaignVoting {
  import opened Common
  import opened CampaignSpec
  import opened Validation

  /** A counted vote. */
  datatype Ballot = Ballot(who: Address, approve: bool, weight: int)

  /** The ballot of an accepted vote. */
  function BallotOf(c: Campaign, t: Timed): Option<Ballot> {
    if t.op.VoteOp? && Apply(c, t).Ok? then
      Some(Ballot(t.op.who, t.op.approve, Get(c.books.contributions, t.op.who)))
    else None
  }

  function Ballots(c: Campaign, calls: seq<Timed>): seq<Ballot>
    decreases |calls|
  {
    if calls == [] then []
    else
      var rest := Ballots(Step(c, calls[0]), calls[1..]);
      match BallotOf(c, calls[0]) case None => rest case Some(b) => [b] + rest
  }

  /** The weight of all ballots on one side. */
  function Tally(ballots: seq<Ballot>, approve: bool): int {
    if ballots == [] then 0
    else (if ballots[0].approve == approve then ballots[0].weight else 0) + Tally(ballots[1..], approve)
  }

  predicate NoVoterTwice(ballots: seq<Ballot>) {
    forall i, j :: 0 <= i < j < |ballots| ==> ballots[i].who != ballots[j].who
  }

  /** None of the voters is marked as having voted on a proposal made at `createdAt`. */
  predicate AllUnmarked(v: Voting, createdAt: nat, ballots: seq<Ballot>) {
    forall i :: 0 <= i < |ballots| ==> LastVoted(v, ballots[i].who) != createdAt
  }

  predicate NoProposal(calls: seq<Timed>) {
    forall i :: 0 <= i < |calls| ==> !calls[i].op.ProposeOp?
  }

  /** `q` is the proposal `p` with more votes on it, and possibly executed. */
  predicate SameProposal(p: Proposal, q: Proposal) {
    q.deadline == p.deadline && q.createdAt == p.createdAt && q.endsAt == p.endsAt
  }

  // ---------- One call ----------

  lemma {:induction false} OthersKeepVoting(c: Campaign, t: Timed)
    requires KindOf(t.op) != Votes
    ensures Step(c, t).voting == c.voting
  {
    match KindOf(t.op)
    case Deposits => DepositsKeepVoting(c, t);
    case Refunds => RefundsKeepVoting(c, t);
    case Settings => SettingsKeepVoting(c, t);
    case _ =>
  }

  lemma {:induction false} DepositsKeepVoting(c: Campaign, t: Timed)
    requires KindOf(t.op) == Deposits
    ensures Step(c, t).voting == c.voting
  {
  }

  lemma {:induction false} RefundsKeepVoting(c: Campaign, t: Timed)
    requires KindOf(t.op) == Refunds
    ensures Step(c, t).voting == c.voting
  {
  }

  lemma {:induction false} SettingsKeepVoting(c: Campaign, t: Timed)
    requires KindOf(t.op) == Settings
    ensures ApplySetting(c, t).Ok? ==> ApplySetting(c, t).value.voting == c.voting
  {
  }

  /** `w` is `v` with one more ballot counted on its proposal. */
  predicate Counted(v: Voting, w: Voting, b: Ballot)
    requires v.proposal.Some? && w.proposal.Some?
  {
    var p, q := v.proposal.value, w.proposal.value;
    && LastVoted(v, b.who) != p.createdAt && w.votes == v.votes[b.who := p.createdAt]
    && q.votesFor == p.votesFor + (if b.approve then b.weight else 0)
    && q.votesAgainst == p.votesAgainst + (if b.approve then 0 else b.weight)
  }

  predicate SameVotes(v: Voting, w: Voting)
    requires v.proposal.Some? && w.proposal.Some?
  {
    var p, q := v.proposal.value, w.proposal.value;
    w.votes == v.votes && q.votesFor == p.votesFor && q.votesAgainst == p.votesAgainst
  }

  /** What a call without a new proposal does to the current one. */
  lemma {:induction false} StepVoting(c: Campaign, t: Timed)
    requires c.voting.proposal.Some? && !t.op.ProposeOp?
    ensures var w := Step(c, t).voting;
      && w.proposal.Some? && SameProposal(c.voting.proposal.value, w.proposal.value)
      && match BallotOf(c, t) case None => SameVotes(c.voting, w) case Some(b) => Counted(c.voting, w, b)
  {
    if KindOf(t.op) != Votes {
      OthersKeepVoting(c, t);
    }
  }

  // ---------- Whole runs ----------

  /**
   * Over any run of any calls without a new proposal: the votes on the current one grow by exactly the weights the
   * voters' contributions had when they voted, each address counted at most once and never one marked already.
   */
  lemma {:induction false} TallyIsBallots(c: Campaign, calls: seq<Timed>)
    requires c.voting.proposal.Some? && NoProposal(calls)
    ensures var p, v, ballots := c.voting.proposal.value, Run(c, calls).voting, Ballots(c, calls);
      && v.proposal.Some? && SameProposal(p, v.proposal.value)
      && v.proposal.value.votesFor == p.votesFor + Tally(ballots, true)
      && v.proposal.value.votesAgainst == p.votesAgainst + Tally(ballots, false)
      && NoVoterTwice(ballots) && AllUnmarked(c.voting, p.createdAt, ballots)
    decreases |calls|
  {
    if calls != [] {
      var d := Step(c, calls[0]);
      StepVoting(c, calls[0]);
      TallyIsBallots(d, calls[1..]);
      var rest := Ballots(d, calls[1..]);
      match BallotOf(c, calls[0])
      case None => assert Ballots(c, calls) == rest;
      case Some(b) =>
        assert Ballots(c, calls) == [b] + rest;
        OneMoreBallot(c.voting, d.voting, c.voting.proposal.value.createdAt, b, rest);
    }
  }

  lemma {:induction false} OneMoreBallot(v: Voting, w: Voting, createdAt: nat, b: Ballot, rest: seq<Ballot>)
    requires LastVoted(v, b.who) != createdAt && w.votes == v.votes[b.who := createdAt]
    requires NoVoterTwice(rest) && AllUnmarked(w, createdAt, rest)
    ensures var ballots := [b] + rest;
      && NoVoterTwice(ballots) && AllUnmarked(v, createdAt, ballots)
      && forall side :: Tally(ballots, side) == (if b.approve == side then b.weight else 0) + Tally(rest, side)
  {
    var ballots := [b] + rest;
    assert ballots[1..] == rest;
    assert forall i :: 1 <= i < |ballots| ==> ballots[i] == rest[i - 1];
    assert LastVoted(w, b.who) == createdAt;
  }

  /** An accepted execution that moves the deadline. */
  predicate Extends(c: Campaign, t: Timed) {
    && t.op.ExecuteExtensionOp? && c.voting.proposal.Some?
    && t.now > c.voting.proposal.value.endsAt && !c.voting.proposal.value.executed && Carried(c.voting.proposal.value)
  }

  lemma {:induction false} DeadlineMovesByVote(c: Campaign, t: Timed)
    requires KindOf(t.op) == Votes
    ensures Step(c, t).deadline == if Extends(c, t) then c.voting.proposal.value.deadline else c.deadline
  {
  }

  /**
   * Safety of an extension, after a proposal and any run without another one: if an execution moves the deadline, the
   * voting period is over, the deadline is the proposed one, and ballots of distinct addresses gave it the majority.
   */
  lemma {:induction false} ExtensionNeedsMajority(
    c: Campaign, start: nat, deadline: nat, calls: seq<Timed>, now: nat)
    requires ProposeExtension(c, start, deadline).Ok? && NoProposal(calls)
    ensures var d := ProposeExtension(c, start, deadline).value;
      var last, ballots := Run(d, calls), Ballots(d, calls);
      var yes, no := Tally(ballots, true), Tally(ballots, false);
      Extends(last, Timed(now, ExecuteExtensionOp)) ==>
        && start + VOTING_PERIOD < now && NoVoterTwice(ballots) && 0 < yes + no < 2 * yes
        && ExecuteExtension(last, now).Ok? && ExecuteExtension(last, now).value.deadline == deadline
  {
    TallyIsBallots(ProposeExtension(c, start, deadline).value, calls);
  }

  /** A vote is admitted for the seven days of the proposal, from anybody not marked with its time. */
  lemma {:induction false} VoteIff(c: Campaign, start: nat, deadline: nat, now: nat, who: Address, approve: bool)
    requires ProposeExtension(c, start, deadline).Ok?
    ensures c.deadline < deadline
    ensures VoteOnExtension(ProposeExtension(c, start, deadline).value, now, who, approve).Ok?
       <==> now <= start + 7 * 24 * 60 * 60 && LastVoted(c.voting, who) != start
  {
  }

  /** No accepted execution is among the calls. */
  predicate NeverExecutes(c: Campaign, calls: seq<Timed>)
    decreases |calls|
  {
    calls == []
    || (!(calls[0].op.ExecuteExtensionOp? && Apply(c, calls[0]).Ok?) && NeverExecutes(Step(c, calls[0]), calls[1..]))
  }

  lemma {:induction false} StepExecuted(c: Campaign, t: Timed)
    requires c.voting.proposal.Some? && !t.op.ProposeOp?
    ensures var w := Step(c, t).voting.proposal;
      && w.Some?
      && (w.value.executed <==> c.voting.proposal.value.executed || (t.op.ExecuteExtensionOp? && Apply(c, t).Ok?))
  {
    if KindOf(t.op) != Votes {
      OthersKeepVoting(c, t);
    }
  }

  lemma {:induction false} ExecutedIff(c: Campaign, calls: seq<Timed>)
    requires c.voting.proposal.Some? && NoProposal(calls)
    ensures var w := Run(c, calls).voting.proposal;
      && w.Some?
      && (w.value.executed <==> c.voting.proposal.value.executed || !NeverExecutes(c, calls))
    decreases |calls|
  {
    if calls != [] {
      StepExecuted(c, calls[0]);
      ExecutedIff(Step(c, calls[0]), calls[1..]);
    }
  }

  /**
   * And nothing else stands in the way: an execution moves the deadline if and only if the seven days are over, no
   * execution was accepted before, and the ballots for it weigh more than half of all.
   */
  lemma {:induction false} ExtensionIff(c: Campaign, start: nat, deadline: nat, calls: seq<Timed>, now: nat)
    requires ProposeExtension(c, start, deadline).Ok? && NoProposal(calls)
    ensures var d := ProposeExtension(c, start, deadline).value;
      var last, ballots := Run(d, calls), Ballots(d, calls);
      var yes, no := Tally(ballots, true), Tally(ballots, false);
      Step(last, Timed(now, ExecuteExtensionOp)).deadline
      == if start + 7 * 24 * 60 * 60 < now && NeverExecutes(d, calls) && 0 < yes + no < 2 * yes then deadline
         else last.deadline
  {
    var d := ProposeExtension(c, start, deadline).value;
    TallyIsBallots(d, calls);
    ExecutedIff(d, calls);
    DeadlineMovesByVote(Run(d, calls), Timed(now, ExecuteExtensionOp));
  }

  /** Markers tell proposals apart by their time only: who voted on one made at the same time cannot vote again. */
  lemma {:induction false} SameInstantProposalBlocksVoters(
    c: Campaign, now: nat, deadline: nat, who: Address, approve: bool, later: nat)
    requires LastVoted(c.voting, who) == now && later <= now + VOTING_PERIOD
    requires ProposeExtension(c, now, deadline).Ok?
    ensures VoteOnExtension(ProposeExtension(c, now, deadline).value, later, who, approve) == Err(AlreadyVoted)
  {
  }
}
