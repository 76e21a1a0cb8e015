/** The guards the campaign's accounting rests on, and the campaign's error codes. */
module Validation {
  import opened Common
  import EM = Emergency

  const BPS := 10_000

  datatype Error =
    | AmountNotPositive | MessageTooLong | CampaignPaused | NotActive | CampaignEnded | Blacklisted
    | NotWhitelisted | BelowMinimum | ExceedsMaximum | RateLimitExceeded | TokenNotAccepted | TransferFailed
    | InvalidRecurringPlan | InvalidDelegation | DelegationNotFound | CampaignStillActive | GoalReached
    | GoalNotReached | VestingNotComplete | RefundLimitExceeded | InsufficientFunds | InvalidFee
    | SelfFeeAddress | InvalidRateLimit | InvalidDeadline | InvalidGoal | GoalOverflow | Unauthorized | ProposalNotFound
    | VotingEnded | AlreadyVoted | NoRewardsConfigured | EmergencyError(cause: EM.Error)

  function ValidatePositiveAmount(amount: int): Option<Error> {
    if amount <= 0 then Some(AmountNotPositive) else None
  }

  function ValidateFeeBps(feeBps: nat): Option<Error> {
    if feeBps > BPS then Some(InvalidFee) else None
  }

  function ValidateRecurringPlan(amount: int, interval: nat, endDate: nat, now: nat): Option<Error> {
    if amount <= 0 || interval == 0 || endDate <= now then Some(InvalidRecurringPlan) else None
  }

  function ValidatePartialRefund(amount: int, contribution: int): Option<Error> {
    if amount > TruncDiv(contribution, 2) then Some(RefundLimitExceeded) else None
  }

  // ---------- What the 50% guard amounts to over several refunds ----------

  /** Contribution left after a run of partial refunds that the guard and the token ledger accept. */
  function LeftAfter(contribution: int, refunds: seq<int>): Option<int>
    decreases |refunds|
  {
    if refunds == [] then Some(contribution)
    else if refunds[0] < 0 || ValidatePartialRefund(refunds[0], contribution).Some? then None
    else LeftAfter(contribution - refunds[0], refunds[1..])
  }

  /**
   * The guard halves what is left, not the original contribution: partial refunds never empty a contribution, but
   * every remainder from one unit up can be reached, far below the documented half.
   */
  lemma {:induction false} PartialRefundsReach(contribution: int, left: int)
    requires 0 < contribution
    ensures (exists refunds :: LeftAfter(contribution, refunds) == Some(left)) <==> 1 <= left <= contribution
  {
    if refunds :| LeftAfter(contribution, refunds) == Some(left) {
      PartialRefundsKeepOne(contribution, refunds);
    }
    if 1 <= left <= contribution {
      var refunds := HalvingRefunds(contribution, left);
    }
  }

  lemma {:induction false} PartialRefundsKeepOne(contribution: int, refunds: seq<int>)
    requires 0 < contribution && LeftAfter(contribution, refunds).Some?
    ensures 1 <= LeftAfter(contribution, refunds).value <= contribution
    decreases |refunds|
  {
    if refunds != [] {
      PartialRefundsKeepOne(contribution - refunds[0], refunds[1..]);
    }
  }

  lemma {:induction false} HalvingRefunds(contribution: int, left: int) returns (refunds: seq<int>)
    requires 1 <= left <= contribution
    ensures LeftAfter(contribution, refunds) == Some(left)
    decreases contribution
  {
    if left == contribution {
      refunds := [];
    } else {
      var amount := Min(contribution - left, contribution / 2);
      var rest := HalvingRefunds(contribution - amount, left);
      refunds := [amount] + rest;
      assert refunds[1..] == rest;
    }
  }
}
