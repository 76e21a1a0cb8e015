/** The time lock and multi-signature approvals in front of an emergency withdrawal. */
module Emergency {
  import opened Common

  /** `approvals` holds, per approver, the lock time of the session that address last approved. */
  datatype Emergency = Emergency(
    lock: nat, count: nat, required: nat, approvers: seq<Address>, approvals: map<Address, int>)

  datatype Error = EmergencyLocked | MultiSigNotMet | Unauthorized

  const UNSET := Emergency(0, 0, 0, [], map[])

  function Initiate(e: Emergency, now: nat, lockPeriod: nat): Emergency {
    e.(lock := now + lockPeriod, count := 0)
  }

  function Setup(e: Emergency, required: nat, approvers: seq<Address>): Result<Emergency, Error> {
    if required == 0 || required > |approvers| then Err(Unauthorized)
    else Ok(e.(required := required, approvers := approvers))
  }

  function Approve(e: Emergency, approver: Address): Result<Emergency, Error> {
    if e.lock == 0 then Err(EmergencyLocked)
    else if e.required == 0 then Err(Unauthorized)
    else if approver !in e.approvers then Err(Unauthorized)
    else if Get(e.approvals, approver) == e.lock then Ok(e)
    else Ok(e.(approvals := e.approvals[approver := e.lock], count := e.count + 1))
  }

  /** The checks of `execute_emergency_withdrawal`, and the lock it leaves behind. */
  function Execute(e: Emergency, now: nat): Result<Emergency, Error> {
    if e.lock == 0 || now < e.lock then Err(EmergencyLocked)
    else if e.required > 0 && e.count < e.required then Err(MultiSigNotMet)
    else Ok(e.(lock := 0))
  }

  function Cancel(e: Emergency): Emergency { e.(lock := 0) }

  // ---------- Sessions ----------

  datatype Call =
    | InitiateCall(now: nat, lockPeriod: nat)
    | SetupCall(required: nat, approvers: seq<Address>)
    | ApproveCall(approver: Address)
    | ExecuteCall(now: nat)
    | CancelCall

  function Step(e: Emergency, c: Call): Emergency {
    match c
    case InitiateCall(now, lockPeriod) => Initiate(e, now, lockPeriod)
    case SetupCall(required, approvers) => (match Setup(e, required, approvers) case Ok(f) => f case Err(_) => e)
    case ApproveCall(a) => (match Approve(e, a) case Ok(f) => f case Err(_) => e)
    case ExecuteCall(now) => (match Execute(e, now) case Ok(f) => f case Err(_) => e)
    case CancelCall => Cancel(e)
  }

  function Run(e: Emergency, calls: seq<Call>): Emergency
    decreases |calls|
  {
    if calls == [] then e else Run(Step(e, calls[0]), calls[1..])
  }

  /** The approver of a call that is a successful approval. */
  function ApprovedBy(e: Emergency, c: Call): set<Address> {
    if c.ApproveCall? && Approve(e, c.approver).Ok? then {c.approver} else {}
  }

  /** The addresses whose approval call succeeded during the calls; each was on the list at that moment. */
  function Approved(e: Emergency, calls: seq<Call>): set<Address>
    decreases |calls|
  {
    if calls == [] then {}
    else ApprovedBy(e, calls[0]) + Approved(Step(e, calls[0]), calls[1..])
  }

  /** Addresses that were on the approver list at some point of the calls. */
  function EverListed(e: Emergency, calls: seq<Call>): set<Address>
    decreases |calls|
  {
    (set a | a in e.approvers) + (if calls == [] then {} else EverListed(Step(e, calls[0]), calls[1..]))
  }

  /** Addresses whose last approval, in an earlier session, was for the very same lock time. */
  function Stale(e: Emergency, lock: nat): set<Address> {
    set a | a in e.approvals && e.approvals[a] == lock
  }

  predicate NoInitiate(calls: seq<Call>) {
    forall i :: 0 <= i < |calls| ==> !calls[i].InitiateCall?
  }

  /**
   * In a session that is still open, the count is exactly the number of distinct addresses that approved since
   * the latest initiate. The one exception is exact too: an address whose last approval was for the same lock
   * time (reused by a later initiate) calls successfully but is not counted.
   */
  lemma {:induction false} CountIsDistinctApprovals(e: Emergency, now: nat, lockPeriod: nat, calls: seq<Call>)
    requires NoInitiate(calls) && Run(Initiate(e, now, lockPeriod), calls).lock != 0
    ensures var session := Initiate(e, now, lockPeriod); var last := Run(session, calls);
      && last.lock == now + lockPeriod
      && last.count == |Approved(session, calls) - Stale(e, now + lockPeriod)|
      && Approved(session, calls) <= EverListed(session, calls)
  {
    var session := Initiate(e, now, lockPeriod);
    if session.lock == 0 {
      ClosedStaysClosed(session, calls);
    } else {
      SessionCount(session, now + lockPeriod, calls, {}, Stale(e, now + lockPeriod));
      assert {} + Approved(session, calls) == Approved(session, calls);
      ApprovedWereListed(session, calls);
    }
  }

  /** `seen` are the addresses that approved so far in the session, `stale` those that do not count. */
  ghost predicate Counted(e: Emergency, lock: nat, seen: set<Address>, stale: set<Address>) {
    e.lock == lock != 0 && e.count == |seen - stale| && Stale(e, lock) == seen + stale
  }

  /** A new approval adds its approver to both sides of the count. */
  lemma {:induction false} ApprovalCounts(who: Address, seen: set<Address>, stale: set<Address>)
    requires who !in seen + stale
    ensures |(seen + {who}) - stale| == |seen - stale| + 1
    ensures (seen + {who}) + stale == seen + stale + {who}
  {
    assert (seen + {who}) - stale == (seen - stale) + {who};
  }

  lemma {:induction false} RepeatedApproval(who: Address, seen: set<Address>, stale: set<Address>)
    requires who in seen + stale
    ensures (seen + {who}) - stale == seen - stale && (seen + {who}) + stale == seen + stale
  {
  }

  /** Approving marks the approver with the current lock time, and nobody else. */
  lemma {:induction false} ApprovalMarks(e: Emergency, who: Address)
    requires Approve(e, who).Ok?
    ensures var f := Approve(e, who).value;
      && f.lock == e.lock != 0 && Stale(f, e.lock) == Stale(e, e.lock) + {who}
      && f.count == e.count + (if who in Stale(e, e.lock) then 0 else 1)
  {
  }

  lemma {:induction false} ApprovalKeepsCount(
    e: Emergency, lock: nat, who: Address, seen: set<Address>, stale: set<Address>)
    requires Counted(e, lock, seen, stale) && Approve(e, who).Ok?
    ensures Counted(Approve(e, who).value, lock, seen + {who}, stale)
  {
    ApprovalMarks(e, who);
    if who in seen + stale {
      RepeatedApproval(who, seen, stale);
      assert Stale(e, lock) + {who} == Stale(e, lock);
    } else {
      ApprovalCounts(who, seen, stale);
    }
  }

  lemma {:induction false} OtherCallsKeepCount(e: Emergency, c: Call)
    requires !c.InitiateCall? && ApprovedBy(e, c) == {}
    ensures var f := Step(e, c);
      f.count == e.count && f.approvals == e.approvals && (f.lock == 0 || f.lock == e.lock)
  {
  }

  lemma {:induction false} OneCallCounts(e: Emergency, lock: nat, c: Call, seen: set<Address>, stale: set<Address>)
    requires Counted(e, lock, seen, stale) && !c.InitiateCall?
    ensures Step(e, c).lock == 0 || Counted(Step(e, c), lock, seen + ApprovedBy(e, c), stale)
  {
    if c.ApproveCall? && Approve(e, c.approver).Ok? {
      ApprovalKeepsCount(e, lock, c.approver, seen, stale);
    } else {
      assert seen + ApprovedBy(e, c) == seen;
      OtherCallsKeepCount(e, c);
    }
  }

  lemma {:induction false} SessionCount(
    e: Emergency, lock: nat, calls: seq<Call>, seen: set<Address>, stale: set<Address>)
    requires Counted(e, lock, seen, stale) && NoInitiate(calls)
    requires Run(e, calls).lock != 0
    ensures Run(e, calls).lock == lock
    ensures Run(e, calls).count == |(seen + Approved(e, calls)) - stale|
    decreases |calls|
  {
    if calls == [] {
      assert seen + {} == seen;
    } else {
      var f := Step(e, calls[0]);
      if f.lock == 0 {
        ClosedStaysClosed(f, calls[1..]);
      } else {
        OneCallCounts(e, lock, calls[0], seen, stale);
        var seen' := seen + ApprovedBy(e, calls[0]);
        SessionCount(f, lock, calls[1..], seen', stale);
        SetSumAssociates(seen, ApprovedBy(e, calls[0]), Approved(f, calls[1..]));
      }
    }
  }

  lemma {:induction false} SetSumAssociates<T>(x: set<T>, y: set<T>, z: set<T>)
    ensures (x + y) + z == x + (y + z)
  {
  }

  /** After a cancel or an execution, nothing but a new initiate opens a session. */
  lemma {:induction false} ClosedStaysClosed(e: Emergency, calls: seq<Call>)
    requires e.lock == 0 && NoInitiate(calls)
    ensures Run(e, calls).lock == 0
    decreases |calls|
  {
    if calls != [] { ClosedStaysClosed(Step(e, calls[0]), calls[1..]); }
  }

  lemma {:induction false} ApprovedWereListed(e: Emergency, calls: seq<Call>)
    ensures Approved(e, calls) <= EverListed(e, calls)
    decreases |calls|
  {
    if calls != [] { ApprovedWereListed(Step(e, calls[0]), calls[1..]); }
  }

  /**
   * Safety of the withdrawal, after any history: an execution can only succeed in a session that was initiated,
   * whose lock period is over, and, when approvals are required, in which at least that many distinct listed
   * addresses have approved since the initiate.
   */
  lemma {:induction false} ExecutionNeedsApprovals(
    e: Emergency, start: nat, lockPeriod: nat, calls: seq<Call>, now: nat)
    requires NoInitiate(calls)
    requires Execute(Run(Initiate(e, start, lockPeriod), calls), now).Ok?
    ensures var session := Initiate(e, start, lockPeriod); var last := Run(session, calls);
      && start + lockPeriod <= now
      && (last.required > 0 ==> last.required <= |Approved(session, calls)|)
      && Approved(session, calls) <= EverListed(session, calls)
  {
    CountIsDistinctApprovals(e, start, lockPeriod, calls);
    var approved := Approved(Initiate(e, start, lockPeriod), calls);
    SubsetSize(approved - Stale(e, start + lockPeriod), approved);
  }

  /** A listed approver is admitted in every open session, and counted unless marked with its lock time already. */
  lemma {:induction false} ApprovalIff(e: Emergency, who: Address)
    ensures Approve(e, who).Ok? <==> e.lock != 0 && e.required != 0 && who in e.approvers
    ensures Approve(e, who).Ok? ==>
      var marked := who in e.approvals && e.approvals[who] == e.lock;
      Approve(e, who).value == if marked then e else e.(approvals := e.approvals[who := e.lock], count := e.count + 1)
  {
  }

  /** No call of the run closes the session: no cancellation and no accepted execution. */
  predicate NeverCloses(e: Emergency, calls: seq<Call>)
    decreases |calls|
  {
    calls == []
    || (&& !calls[0].CancelCall? && !(calls[0].ExecuteCall? && Execute(e, calls[0].now).Ok?)
        && NeverCloses(Step(e, calls[0]), calls[1..]))
  }

  lemma {:induction false} OpenIff(e: Emergency, calls: seq<Call>)
    requires NoInitiate(calls) && e.lock != 0
    ensures Run(e, calls).lock == (if NeverCloses(e, calls) then e.lock else 0)
    decreases |calls|
  {
    if calls != [] {
      if Step(e, calls[0]).lock == 0 {
        ClosedStaysClosed(Step(e, calls[0]), calls[1..]);
      } else {
        OpenIff(Step(e, calls[0]), calls[1..]);
      }
    }
  }

  /**
   * And nothing else stands in the way: after an initiate and any calls without another one, an execution succeeds if
   * and only if the session was not closed, its lock time is over, and the distinct approvers since the initiate, less
   * those marked with the same lock time before, are as many as are required now.
   */
  lemma {:induction false} ExecutionIff(e: Emergency, start: nat, lockPeriod: nat, calls: seq<Call>, now: nat)
    requires NoInitiate(calls) && 0 < start + lockPeriod
    ensures var session := Initiate(e, start, lockPeriod); var last := Run(session, calls);
      Execute(last, now).Ok?
      <==> (&& NeverCloses(session, calls) && start + lockPeriod <= now
            && (last.required == 0
                || last.required <= |Approved(session, calls) - Stale(e, start + lockPeriod)|))
  {
    var session := Initiate(e, start, lockPeriod);
    OpenIff(session, calls);
    if NeverCloses(session, calls) { CountIsDistinctApprovals(e, start, lockPeriod, calls); }
  }

  /** Without any initiate in its whole history a campaign's emergency funds cannot be taken. */
  lemma {:induction false} ExecutionNeedsInitiate(calls: seq<Call>, now: nat)
    requires NoInitiate(calls)
    ensures Execute(Run(UNSET, calls), now) == Err(EmergencyLocked)
  {
    ClosedStaysClosed(UNSET, calls);
  }

  /**
   * The price of keying approvals by lock time: when a later session reuses a lock time, those who approved the
   * earlier one can never be counted, so if fewer than `required` others are ever listed the session cannot execute.
   */
  lemma {:induction false} ReusedLockTimeBlocksExecution(
    e: Emergency, start: nat, lockPeriod: nat, calls: seq<Call>, now: nat)
    requires NoInitiate(calls)
    requires var session := Initiate(e, start, lockPeriod);
             |EverListed(session, calls) - Stale(e, start + lockPeriod)| < Run(session, calls).required
    ensures Execute(Run(Initiate(e, start, lockPeriod), calls), now).Err?
  {
    var session := Initiate(e, start, lockPeriod);
    if Run(session, calls).lock != 0 {
      CountIsDistinctApprovals(e, start, lockPeriod, calls);
      var stale := Stale(e, start + lockPeriod);
      SubsetSize(Approved(session, calls) - stale, EverListed(session, calls) - stale);
    }
  }

  const ALICE := Address(1)

  /** A session is opened for lock time 11, approved and cancelled, and opened again for the same lock time. */
  const REUSED_SESSION: seq<Call> :=
    [SetupCall(1, [ALICE]), InitiateCall(1, 10), ApproveCall(ALICE), CancelCall, InitiateCall(2, 9), ApproveCall(ALICE)]

  lemma {:induction false} RunStep(e: Emergency, calls: seq<Call>)
    requires calls != []
    ensures Run(e, calls) == Run(Step(e, calls[0]), calls[1..])
  {
  }

  /** Reachable from an unused guard: the only listed approver approves the second session and is not counted. */
  lemma {:induction false} ReusedLockTimeIsReachable()
    ensures var e := Run(UNSET, REUSED_SESSION);
      e.lock == 11 && e.required == 1 && e.count == 0 && ALICE in Stale(e, 11) && Execute(e, 11) == Err(MultiSigNotMet)
  {
    var calls := REUSED_SESSION;
    var e1 := UNSET.(required := 1, approvers := [ALICE]);
    var e2 := e1.(lock := 11);
    var e3 := e2.(approvals := map[ALICE := 11], count := 1);
    var e4 := e3.(lock := 0);
    var e5 := e4.(lock := 11, count := 0);
    RunStep(UNSET, calls);
    assert Step(UNSET, calls[0]) == e1;
    RunStep(e1, calls[1..]);
    assert Step(e1, calls[1]) == e2 && calls[1..][0] == calls[1] && calls[1..][1..] == calls[2..];
    RunStep(e2, calls[2..]);
    assert Step(e2, calls[2]) == e3 && calls[2..][0] == calls[2] && calls[2..][1..] == calls[3..];
    RunStep(e3, calls[3..]);
    assert Step(e3, calls[3]) == e4 && calls[3..][0] == calls[3] && calls[3..][1..] == calls[4..];
    RunStep(e4, calls[4..]);
    assert Step(e4, calls[4]) == e5 && calls[4..][0] == calls[4] && calls[4..][1..] == calls[5..];
    RunStep(e5, calls[5..]);
    assert Step(e5, calls[5]) == e5 && calls[5..][0] == calls[5] && calls[5..][1..] == [];
  }

  lemma {:induction false} SubsetSize<T>(x: set<T>, y: set<T>)
    requires x <= y
    ensures |x| <= |y|
  {
    if x != {} {
      var e :| e in x;
      SubsetSize(x - {e}, y - {e});
    }
  }
}
