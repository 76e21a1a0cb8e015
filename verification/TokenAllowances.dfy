/** Transfers and allowances of the token contract: what moves, and what a spender can take over a whole run. */
module TokenAllowances {
  import opened Common
  import opened Merkle
  import opened TokenSpec

  /** A transfer moves exactly the amount between two accounts and touches no other; to oneself it moves nothing. */
  lemma {:induction false} TransferMovesExactly(t: Token, from: Address, to: Address, amount: int)
    ensures Transfer(t, from, to, amount).Ok? <==> 0 < amount <= Get(t.ledger.balances, from)
    ensures Transfer(t, from, to, amount).Ok? ==>
      var u := Transfer(t, from, to, amount).value;
      && u.ledger.supply == t.ledger.supply
      && (forall a :: Get(u.ledger.balances, a) == Get(t.ledger.balances, a)
            - (if a == from then amount else 0) + (if a == to then amount else 0))
      && (from == to ==> forall a :: Get(u.ledger.balances, a) == Get(t.ledger.balances, a))
  {
  }

  /** What an accepted call takes out of `owner`'s account on the strength of `spender`'s allowance. */
  function SpentBy(h: Hashing, t: Token, c: Timed, owner: Address, spender: Address): int
    requires SoundSchedules(t.vesting)
  {
    if Apply(h, t, c).Err? then 0
    else
      match c.op
      case TransferFromOp(s, from, _, amount) => if s == spender && from == owner then amount else 0
      case BurnFromOp(s, from, amount) => if s == spender && from == owner then amount else 0
      case _ => 0
  }

  function TotalSpent(h: Hashing, t: Token, calls: seq<Timed>, owner: Address, spender: Address): int
    requires SoundSchedules(t.vesting)
    decreases |calls|
  {
    if calls == [] then 0
    else SpentBy(h, t, calls[0], owner, spender) + TotalSpent(h, Step(h, t, calls[0]), calls[1..], owner, spender)
  }

  predicate Approves(op: Op, owner: Address, spender: Address) {
    op.ApproveOp? && op.owner == owner && op.spender == spender
  }

  predicate NeverApproves(calls: seq<Timed>, owner: Address, spender: Address) {
    forall i :: 0 <= i < |calls| ==> !Approves(calls[i].op, owner, spender)
  }

  function Allowance(t: Token, owner: Address, spender: Address): int { Get(t.allowances, (owner, spender)) }

  lemma {:induction false} SpendingCall(h: Hashing, t: Token, c: Timed, owner: Address, spender: Address)
    requires SoundSchedules(t.vesting) && (c.op.TransferFromOp? || c.op.BurnFromOp?)
    ensures Allowance(Step(h, t, c), owner, spender) == Allowance(t, owner, spender) - SpentBy(h, t, c, owner, spender)
    ensures SpentBy(h, t, c, owner, spender) == 0
         || 0 < SpentBy(h, t, c, owner, spender) <= Allowance(t, owner, spender)
  {
  }

  lemma {:induction false} OtherCall(h: Hashing, t: Token, c: Timed, owner: Address, spender: Address)
    requires SoundSchedules(t.vesting) && !c.op.TransferFromOp? && !c.op.BurnFromOp? && !Approves(c.op, owner, spender)
    ensures Allowance(Step(h, t, c), owner, spender) == Allowance(t, owner, spender)
  {
    if KindOf(c.op) != Transfers {
      OthersKeepAllowances(h, t, c);
    }
  }

  /**
   * Until the owner approves anew, everything a spender takes over any run comes out of the allowance, unit for unit,
   * and never exceeds it.
   */
  lemma {:induction false} SpendingWithinAllowance(
    h: Hashing, t: Token, calls: seq<Timed>, owner: Address, spender: Address)
    requires SoundSchedules(t.vesting) && 0 <= Allowance(t, owner, spender) && NeverApproves(calls, owner, spender)
    ensures Allowance(Run(h, t, calls), owner, spender) + TotalSpent(h, t, calls, owner, spender)
         == Allowance(t, owner, spender)
    ensures 0 <= TotalSpent(h, t, calls, owner, spender) <= Allowance(t, owner, spender)
    decreases |calls|
  {
    if calls != [] {
      if calls[0].op.TransferFromOp? || calls[0].op.BurnFromOp? {
        SpendingCall(h, t, calls[0], owner, spender);
      } else {
        OtherCall(h, t, calls[0], owner, spender);
      }
      SpendingWithinAllowance(h, Step(h, t, calls[0]), calls[1..], owner, spender);
    }
  }
}
