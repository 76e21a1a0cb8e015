/** Winding a failed campaign up: refunds and insurance claims, one by one or in batches, in any order. */
module CampaignSettlement {
  import opened Common
  import opened Validation
  import opened CampaignSpec
  import opened CampaignSolvency

  predicate IsSettlement(op: Op) { op.RefundSingleOp? || op.RefundBatchOp? || op.ClaimInsuranceOp? }

  predicate AllSettlements(calls: seq<Timed>) {
    forall i :: 0 <= i < |calls| ==> IsSettlement(calls[i].op)
  }

  /** Refunds and claims only, all at times when the campaign is open for them. */
  predicate OpenSettlement(c: Campaign, calls: seq<Timed>) {
    forall i :: 0 <= i < |calls| ==> IsSettlement(calls[i].op) && RefundsClosed(c, calls[i].now).None?
  }

  /** Whom a call refunds, and whose insurance it pays back. */
  function Refunds(op: Op): set<Address> {
    match op
    case RefundSingleOp(who) => {who}
    case RefundBatchOp(list) => (set a | a in BatchPrefix(list))
    case _ => {}
  }

  function Claims(op: Op): set<Address> {
    if op.ClaimInsuranceOp? then {op.who} else {}
  }

  function Refunded(calls: seq<Timed>): set<Address> {
    if calls == [] then {} else Refunds(calls[0].op) + Refunded(calls[1..])
  }

  function Claimed(calls: seq<Timed>): set<Address> {
    if calls == [] then {} else Claims(calls[0].op) + Claimed(calls[1..])
  }

  /** `d` is `b` after paying each refunded contributor the contribution and each claimant the fees, once each. */
  ghost predicate Settled(b: Books, d: Books, refunded: set<Address>, claimed: set<Address>) {
    && Balanced(d)
    && forall a ::
      && Get(d.contributions, a) == (if a in refunded then 0 else Get(b.contributions, a))
      && Get(d.insuranceFees, a) == (if a in claimed then 0 else Get(b.insuranceFees, a))
      && Get(d.wallets, a) == Get(b.wallets, a)
           + (if a in refunded then Get(b.contributions, a) else 0)
           + (if a in claimed then Get(b.insuranceFees, a) else 0)
  }

  lemma {:induction false} SettledTwice(
    b: Books, d: Books, e: Books, r1: set<Address>, c1: set<Address>, r2: set<Address>, c2: set<Address>)
    requires Settled(b, d, r1, c1) && Settled(d, e, r2, c2)
    ensures Settled(b, e, r1 + r2, c1 + c2)
  {
  }

  lemma {:induction false} RefundAllSettles(b: Books, list: seq<Address>)
    requires Balanced(b)
    ensures RefundAll(b, list).Ok?
    ensures Settled(b, RefundAll(b, list).value, set a | a in list, {})
    decreases |list|
  {
    if list != [] {
      RefundOneSucceeds(b, list[0]);
      var d := RefundOne(b, list[0]).value;
      RefundAllSettles(d, list[1..]);
      var rest := set a | a in list[1..];
      SettledTwice(b, d, RefundAll(d, list[1..]).value, {list[0]}, {}, rest, {});
      assert {list[0]} + rest == set a | a in list;
    }
  }

  lemma {:induction false} CallSettles(c: Campaign, t: Timed)
    requires Balanced(c.books) && IsSettlement(t.op) && RefundsClosed(c, t.now).None?
    ensures Apply(c, t).Ok?
    ensures Settled(c.books, Step(c, t).books, Refunds(t.op), Claims(t.op))
    ensures Step(c, t).(books := c.books) == c
  {
    match t.op
    case RefundSingleOp(who) => RefundOneSucceeds(c.books, who);
    case ClaimInsuranceOp(who) => ClaimOneSucceeds(c.books, who);
    case RefundBatchOp(list) => RefundAllSettles(c.books, BatchPrefix(list));
  }

  predicate AllAccepted(c: Campaign, calls: seq<Timed>)
    decreases |calls|
  {
    calls == [] || (Apply(c, calls[0]).Ok? && AllAccepted(Step(c, calls[0]), calls[1..]))
  }

  /**
   * From balanced books and open refunds (a cancelled campaign, or one that missed its goal), every sequence of
   * refunds, batches and claims is accepted call by call, repeats included; and the outcome depends only on who
   * was refunded and who claimed: each is paid exactly what was owed, once.
   */
  lemma {:induction false} SettlementInAnyOrder(c: Campaign, calls: seq<Timed>)
    requires Balanced(c.books)
    requires OpenSettlement(c, calls)
    ensures AllAccepted(c, calls)
    ensures Settled(c.books, Run(c, calls).books, Refunded(calls), Claimed(calls))
    ensures Run(c, calls).(books := c.books) == c
    decreases |calls|
  {
    if calls != [] {
      var d := Step(c, calls[0]);
      CallSettles(c, calls[0]);
      assert OpenSettlement(d, calls[1..]) by {
        assert d == c.(books := d.books);
      }
      SettlementInAnyOrder(d, calls[1..]);
      SettledTwice(c.books, d.books, Run(c, calls).books, Refunds(calls[0].op), Claims(calls[0].op),
                   Refunded(calls[1..]), Claimed(calls[1..]));
    }
  }

  predicate OnlyOwes(amounts: map<Address, int>, to: set<Address>) {
    forall a :: a in amounts && amounts[a] > 0 ==> a in to
  }

  /** Once everybody who is owed something has been refunded and has claimed, the contract holds nothing. */
  lemma {:induction false} FullSettlementEmptiesTheContract(c: Campaign, calls: seq<Timed>)
    requires Balanced(c.books)
    requires OpenSettlement(c, calls)
    requires OnlyOwes(c.books.contributions, Refunded(calls)) && OnlyOwes(c.books.insuranceFees, Claimed(calls))
    ensures Run(c, calls).books.held == 0 && Run(c, calls).books.pool == 0
  {
    SettlementInAnyOrder(c, calls);
    var d := Run(c, calls).books;
    forall a | a in d.contributions ensures d.contributions[a] == 0 {
      assert Get(d.contributions, a) == d.contributions[a];
      assert a in c.books.contributions || Get(c.books.contributions, a) == 0;
    }
    forall a | a in d.insuranceFees ensures d.insuranceFees[a] == 0 {
      assert Get(d.insuranceFees, a) == d.insuranceFees[a];
      assert a in c.books.insuranceFees || Get(c.books.insuranceFees, a) == 0;
    }
    SumOfZeros(d.contributions);
    SumOfZeros(d.insuranceFees);
  }

  /**
   * The whole life of a campaign: after any run without the calls of `Unbalances`, cancelling it lets the
   * contributors recover exactly everything, however the refunds and claims are ordered.
   */
  lemma {:induction false} CancelledCampaignPaysEverythingBack(
    c: Campaign, life: seq<Timed>, now: nat, calls: seq<Timed>)
    requires Solvent(c) && NothingUnbalances(c, life)
    requires CancelCampaign(Run(c, life)).Ok?
    requires AllSettlements(calls)
    ensures var last := Run(c, life); var cancelled := Step(last, Timed(now, CancelOp));
      && AllAccepted(cancelled, calls)
      && Settled(last.books, Run(cancelled, calls).books, Refunded(calls), Claimed(calls))
  {
    RunsAreSolventIff(c, life);
    var last := Run(c, life);
    var cancelled := Step(last, Timed(now, CancelOp));
    assert cancelled == CancelCampaign(last).value && cancelled.books == last.books;
    SettlementInAnyOrder(cancelled, calls);
  }

  // ---------- Batches ----------

  function Singles(now: nat, list: seq<Address>): seq<Timed> {
    seq(|list|, i requires 0 <= i < |list| => Timed(now, RefundSingleOp(list[i])))
  }

  /**
   * An accepted batch is exactly `refund_single` on each of the first min(25, n) entries in order, duplicates
   * included: all of those are accepted and they end in the same state, payouts included.
   */
  lemma {:induction false} BatchIsRepeatedRefundSingle(c: Campaign, now: nat, list: seq<Address>)
    requires RefundsClosed(c, now).None?
    ensures RefundBatch(c, now, list).Ok? <==> AllAccepted(c, Singles(now, BatchPrefix(list)))
    ensures RefundBatch(c, now, list).Ok? ==>
      RefundBatch(c, now, list).value.0 == Run(c, Singles(now, BatchPrefix(list)))
  {
    RefundAllIsSingles(c, now, BatchPrefix(list));
  }

  lemma {:induction false} RefundAllIsSingles(c: Campaign, now: nat, list: seq<Address>)
    requires RefundsClosed(c, now).None?
    ensures RefundAll(c.books, list).Ok? <==> AllAccepted(c, Singles(now, list))
    ensures RefundAll(c.books, list).Ok? ==> Run(c, Singles(now, list)) == c.(books := RefundAll(c.books, list).value)
    decreases |list|
  {
    var calls := Singles(now, list);
    if list != [] {
      assert calls[0] == Timed(now, RefundSingleOp(list[0]));
      assert calls[1..] == Singles(now, list[1..]);
      if RefundOne(c.books, list[0]).Ok? {
        RefundAllIsSingles(Step(c, calls[0]), now, list[1..]);
      }
    }
  }

  /** The only way a list of refunds can fail is a transfer the contract cannot cover. */
  lemma {:induction false} FailureIsTransfer(b: Books, list: seq<Address>)
    ensures RefundAll(b, list).Err? ==> RefundAll(b, list).error == TransferFailed
    decreases |list|
  {
    if list != [] && RefundOne(b, list[0]).Ok? {
      FailureIsTransfer(RefundOne(b, list[0]).value, list[1..]);
    }
  }

  /** The count a batch returns: of the entries in order, those that are paid when their turn comes. */
  function PaidEntries(b: Books, list: seq<Address>): nat
    decreases |list|
  {
    if list == [] || RefundOne(b, list[0]).Err? then 0
    else (if Get(b.contributions, list[0]) > 0 then 1 else 0) + PaidEntries(RefundOne(b, list[0]).value, list[1..])
  }

  /** It equals the number of distinct addresses among them with a positive contribution. */
  lemma {:induction false} PaidEntriesAreDistinct(b: Books, list: seq<Address>)
    requires RefundAll(b, list).Ok?
    ensures PaidEntries(b, list) == |Owed(b, list)|
    decreases |list|
  {
    if list == [] {
      assert Owed(b, list) == {};
    } else {
      var d := RefundOne(b, list[0]).value;
      PaidEntriesAreDistinct(d, list[1..]);
      OwedAfterOne(b, list);
    }
  }

  lemma {:induction false} OwedAfterOne(b: Books, list: seq<Address>)
    requires list != [] && RefundOne(b, list[0]).Ok?
    ensures var d := RefundOne(b, list[0]).value;
      |Owed(b, list)| == |Owed(d, list[1..])| + (if Get(b.contributions, list[0]) > 0 then 1 else 0)
  {
    var d := RefundOne(b, list[0]).value;
    if Get(b.contributions, list[0]) > 0 {
      assert Owed(b, list) == Owed(d, list[1..]) + {list[0]};
      assert list[0] !in Owed(d, list[1..]);
    } else {
      assert d == b;
      assert Owed(b, list) == Owed(d, list[1..]);
    }
  }
}
