/** The rate limiter and the multi-signature guard, over whole runs of the campaign. */
module CampaignLimits {
  import opened Common
  import opened CampaignSpec
  import opened CampaignFrames
  import opened Validation
  import RL = RateLimiter
  import EM = Emergency

  // ---------- Rate limit ----------

  predicate AcceptedContribution(c: Campaign, t: Timed, who: Address) {
    t.op.ContributeOp? && t.op.who == who && Apply(c, t).Ok?
  }

  /** The `contribute` calls of one address that a run accepts, with their times. */
  function AcceptedFrom(c: Campaign, calls: seq<Timed>, who: Address): seq<RL.Entry>
    decreases |calls|
  {
    if calls == [] then []
    else
      (if AcceptedContribution(c, calls[0], who) then [RL.Entry(calls[0].op.amount, calls[0].now)] else [])
      + AcceptedFrom(Step(c, calls[0]), calls[1..], who)
  }

  /** Ledger times are positive and never decrease, and no window was anchored later than `since`. */
  predicate Ticking(calls: seq<Timed>, since: nat) {
    && (forall i :: 0 <= i < |calls| ==> calls[i].now > 0 && since <= calls[i].now)
    && (forall i, j :: 0 <= i < j < |calls| ==> calls[i].now <= calls[j].now)
  }

  /** What the limiter stores for an address at any time up to `now`. */
  predicate WindowSane(c: Campaign, who: Address, now: nat) {
    WindowOf(c.limiter, who).anchor <= now && 0 <= WindowOf(c.limiter, who).amount
  }

  predicate LimitFixed(calls: seq<Timed>) {
    forall i :: 0 <= i < |calls| ==> !calls[i].op.SetRateLimitOp?
  }

  predicate NotBefore(es: seq<RL.Entry>, start: nat) {
    forall i :: 0 <= i < |es| ==> start <= es[i].time
  }

  predicate EndsBy(calls: seq<Timed>, until: nat) {
    forall i :: 0 <= i < |calls| ==> calls[i].now <= until
  }

  lemma {:induction false} StepLimits(c: Campaign, t: Timed, who: Address, l: RL.Limit)
    requires c.limiter.limit == Some(l) && RL.Active(l) && !t.op.SetRateLimitOp?
    ensures Step(c, t).limiter.limit == Some(l)
    ensures if AcceptedContribution(c, t, who) then
              && t.op.amount > 0
              && RL.Admit(l, WindowOf(c.limiter, who), RL.Entry(t.op.amount, t.now))
                == Some(WindowOf(Step(c, t).limiter, who))
            else WindowOf(Step(c, t).limiter, who) == WindowOf(c.limiter, who)
  {
    if t.op.ContributeOp? {
      ContributeLimits(c, t, who, l);
    } else {
      LimiterFrame(c, t);
    }
  }

  lemma {:induction false} ContributeLimits(c: Campaign, t: Timed, who: Address, l: RL.Limit)
    requires c.limiter.limit == Some(l) && RL.Active(l) && t.op.ContributeOp?
    ensures Step(c, t).limiter.limit == Some(l)
    ensures if AcceptedContribution(c, t, who) then
              && t.op.amount > 0
              && RL.Admit(l, WindowOf(c.limiter, who), RL.Entry(t.op.amount, t.now))
                == Some(WindowOf(Step(c, t).limiter, who))
            else WindowOf(Step(c, t).limiter, who) == WindowOf(c.limiter, who)
  {
  }

  /** While the limit is fixed, the accepted contributions of an address are a run the limiter admitted. */
  lemma {:induction false} AcceptedAreAdmitted(c: Campaign, calls: seq<Timed>, who: Address, l: RL.Limit, since: nat)
    requires c.limiter.limit == Some(l) && RL.Active(l) && LimitFixed(calls)
    requires Ticking(calls, since) && WindowSane(c, who, since)
    ensures var es := AcceptedFrom(c, calls, who); var w := WindowOf(c.limiter, who);
      && RL.Admitted(l, w, es) && RL.Timely(w, es)
      && NotBefore(es, since)
    decreases |calls|
  {
    if calls != [] {
      var t := calls[0];
      var d := Step(c, t);
      TickingTail(calls, since);
      StepLimits(c, t, who, l);
      AcceptedAreAdmitted(d, calls[1..], who, l, t.now);
      var rest := AcceptedFrom(d, calls[1..], who);
      var w := WindowOf(c.limiter, who);
      if AcceptedContribution(c, t, who) {
        OneMoreAdmitted(l, w, RL.Entry(t.op.amount, t.now), rest);
        LaterIsNotBefore([RL.Entry(t.op.amount, t.now)] + rest, t.now, since);
      } else {
        assert AcceptedFrom(c, calls, who) == rest;
        LaterIsNotBefore(rest, t.now, since);
      }
    }
  }

  lemma {:induction false} TickingTail(calls: seq<Timed>, since: nat)
    requires Ticking(calls, since) && calls != []
    ensures calls[0].now > 0 && since <= calls[0].now && Ticking(calls[1..], calls[0].now)
    ensures LimitFixed(calls) ==> !calls[0].op.SetRateLimitOp? && LimitFixed(calls[1..])
  {
  }

  lemma {:induction false} LaterIsNotBefore(es: seq<RL.Entry>, later: nat, since: nat)
    requires NotBefore(es, later) && since <= later
    ensures NotBefore(es, since)
  {
  }

  lemma {:induction false} OneMoreAdmitted(l: RL.Limit, w: RL.Window, e: RL.Entry, rest: seq<RL.Entry>)
    requires RL.Active(l) && e.amount > 0 && e.time > 0 && w.anchor <= e.time
    requires RL.Admit(l, w, e).Some?
    requires RL.Admitted(l, RL.Admit(l, w, e).value, rest) && RL.Timely(RL.Admit(l, w, e).value, rest)
    requires NotBefore(rest, e.time)
    ensures RL.Admitted(l, w, [e] + rest) && RL.Timely(w, [e] + rest) && NotBefore([e] + rest, e.time)
  {
    var es := [e] + rest;
    assert es[1..] == rest;
    assert forall i :: 1 <= i < |es| ==> es[i] == rest[i - 1];
  }

  /**
   * Over any run of campaign calls of any kind under a fixed limit: the contributions one address gets accepted
   * within any `seconds` add up to at most twice the maximum, and those from the opening of a window until its
   * end to at most the maximum.
   */
  lemma {:induction false} RateLimitHolds(
    c: Campaign, calls: seq<Timed>, who: Address, l: RL.Limit, since: nat, i: nat, j: nat)
    requires c.limiter.limit == Some(l) && RL.Active(l) && LimitFixed(calls)
    requires Ticking(calls, since) && WindowSane(c, who, since)
    ensures var es := AcceptedFrom(c, calls, who); var w := WindowOf(c.limiter, who);
      && RL.Admitted(l, w, es)
      && (RL.Within(es, i, j, l.seconds) ==> RL.Amounts(es[i..j]) <= 2 * l.maxAmount)
      && (RL.Within(es, i, j, l.seconds - 1) && RL.OpensWindow(l, w, es, i) ==> RL.Amounts(es[i..j]) <= l.maxAmount)
  {
    AcceptedAreAdmitted(c, calls, who, l, since);
    var es, w := AcceptedFrom(c, calls, who), WindowOf(c.limiter, who);
    if RL.Within(es, i, j, l.seconds) {
      RL.StretchBound(l, w, es, i, j);
      if RL.Within(es, i, j, l.seconds - 1) && RL.OpensWindow(l, w, es, i) {
        RL.AnchoredWindowBound(l, w, es, i, j);
      }
    }
  }

  lemma {:induction false} RefusedByLimiter(c: Campaign, t: Timed, l: RL.Limit)
    requires c.limiter.limit == Some(l) && RL.Active(l) && t.op.ContributeOp?
    ensures var admitted := RL.Admit(l, WindowOf(c.limiter, t.op.who), RL.Entry(t.op.amount, t.now));
      && (Apply(c, t) == Err(RateLimitExceeded) ==> admitted.None? && 0 < t.op.amount)
      && (Apply(c, t).Ok? ==> admitted.Some? && 0 < t.op.amount)
  {
  }

  /** The accepted contributions of an address that count in its window at `now`, given the time it was opened. */
  function CountedNow(l: RL.Limit, w: RL.Window, es: seq<RL.Entry>, now: nat): int {
    var anchor := RL.OpenedAt(l, w, es);
    if anchor != 0 && now < anchor + l.seconds then RL.InItsWindow(l, w, es) else 0
  }

  /**
   * The limit refuses nothing else, after any run of campaign calls: a contribution fails with RateLimitExceeded only
   * when what was accepted from the address in the window still open, with this amount, passes the maximum, and it is
   * accepted only when it does not.
   */
  lemma {:induction false} RateLimitIsExact(c: Campaign, calls: seq<Timed>, l: RL.Limit, since: nat, t: Timed)
    requires c.limiter.limit == Some(l) && RL.Active(l) && LimitFixed(calls) && t.op.ContributeOp?
    requires Ticking(calls, since) && EndsBy(calls, t.now) && 0 < since <= t.now && WindowSane(c, t.op.who, since)
    ensures var es := AcceptedFrom(c, calls, t.op.who);
      var counted := CountedNow(l, WindowOf(c.limiter, t.op.who), es, t.now);
      && (Apply(Run(c, calls), t) == Err(RateLimitExceeded) ==> l.maxAmount < counted + t.op.amount)
      && (Apply(Run(c, calls), t).Ok? ==> counted + t.op.amount <= l.maxAmount)
  {
    var who, d := t.op.who, Run(c, calls);
    var es, e := AcceptedFrom(c, calls, who), RL.Entry(t.op.amount, t.now);
    AcceptedAreAdmitted(c, calls, who, l, since);
    WindowFollowsAccepted(c, calls, who, l, since);
    AcceptedEndBy(c, calls, who, t.now);
    RefusedByLimiter(d, t, l);
    if 0 < t.op.amount {
      RL.NextAdmittedIff(l, WindowOf(c.limiter, who), es, e);
    }
  }

  lemma {:induction false} WindowFollowsAccepted(c: Campaign, calls: seq<Timed>, who: Address, l: RL.Limit, since: nat)
    requires c.limiter.limit == Some(l) && RL.Active(l) && LimitFixed(calls)
    requires Ticking(calls, since) && WindowSane(c, who, since)
    ensures var es := AcceptedFrom(c, calls, who); var w := WindowOf(c.limiter, who); var d := Run(c, calls);
      && d.limiter.limit == Some(l) && RL.Admitted(l, w, es) && WindowOf(d.limiter, who) == RL.WindowAfter(l, w, es)
    decreases |calls|
  {
    AcceptedAreAdmitted(c, calls, who, l, since);
    if calls != [] {
      var d := Step(c, calls[0]);
      TickingTail(calls, since);
      StepLimits(c, calls[0], who, l);
      WindowFollowsAccepted(d, calls[1..], who, l, calls[0].now);
      AcceptedUnfolds(c, calls, who);
      var rest := AcceptedFrom(d, calls[1..], who);
      if AcceptedContribution(c, calls[0], who) {
        assert AcceptedFrom(c, calls, who)[1..] == rest;
      } else {
        assert AcceptedFrom(c, calls, who) == rest;
      }
    }
  }

  lemma {:induction false} AcceptedEndBy(c: Campaign, calls: seq<Timed>, who: Address, until: nat)
    requires EndsBy(calls, until)
    ensures RL.Until(AcceptedFrom(c, calls, who), until)
    decreases |calls|
  {
    if calls != [] {
      AcceptedEndBy(Step(c, calls[0]), calls[1..], who, until);
      AcceptedUnfolds(c, calls, who);
    }
  }

  /**
   * The windows stay sane over any run, rate limit changes included, so the bound applies from every reachable state.
   */
  lemma {:induction false} WindowsStaySane(c: Campaign, calls: seq<Timed>, who: Address, since: nat, until: nat)
    requires Ticking(calls, since) && WindowSane(c, who, since) && since <= until
    requires EndsBy(calls, until)
    ensures WindowSane(Run(c, calls), who, until)
    decreases |calls|
  {
    if calls != [] {
      var d := Step(c, calls[0]);
      assert WindowSane(d, who, calls[0].now) by { StepKeepsWindowSane(c, calls[0], who); }
      WindowsStaySane(d, calls[1..], who, calls[0].now, until);
    }
  }

  lemma {:induction false} StepKeepsWindowSane(c: Campaign, t: Timed, who: Address)
    requires WindowSane(c, who, t.now)
    ensures WindowSane(Step(c, t), who, t.now)
  {
    if t.op.ContributeOp? {
      ContributeKeepsWindowSane(c, t, who);
    } else {
      LimiterFrame(c, t);
    }
  }

  lemma {:induction false} ContributeKeepsWindowSane(c: Campaign, t: Timed, who: Address)
    requires t.op.ContributeOp? && WindowSane(c, who, t.now)
    ensures WindowSane(Step(c, t), who, t.now)
  {
  }

  /** The stored history is the audit trail of exactly these contributions. */
  lemma {:induction false} HistoryRecordsAccepted(c: Campaign, calls: seq<Timed>, who: Address)
    ensures Entries(HistoryOf(Run(c, calls).limiter, who))
         == Entries(HistoryOf(c.limiter, who)) + AcceptedFrom(c, calls, who)
    decreases |calls|
  {
    if calls != [] {
      var d := Step(c, calls[0]);
      StepRecords(c, calls[0], who);
      HistoryRecordsAccepted(d, calls[1..], who);
      AcceptedUnfolds(c, calls, who);
    }
  }

  lemma {:induction false} AcceptedUnfolds(c: Campaign, calls: seq<Timed>, who: Address)
    requires calls != []
    ensures AcceptedFrom(c, calls, who)
         == (if AcceptedContribution(c, calls[0], who) then [RL.Entry(calls[0].op.amount, calls[0].now)] else [])
            + AcceptedFrom(Step(c, calls[0]), calls[1..], who)
  {
  }

  function Entries(records: seq<Contribution>): seq<RL.Entry> {
    seq(|records|, i requires 0 <= i < |records| => records[i].entry)
  }

  lemma {:induction false} StepRecords(c: Campaign, t: Timed, who: Address)
    ensures Entries(HistoryOf(Step(c, t).limiter, who)) == Entries(HistoryOf(c.limiter, who))
            + (if AcceptedContribution(c, t, who) then [RL.Entry(t.op.amount, t.now)] else [])
  {
    if t.op.ContributeOp? {
      ContributeRecords(c, t, who);
    } else {
      LimiterFrame(c, t);
    }
  }

  lemma {:induction false} ContributeRecords(c: Campaign, t: Timed, who: Address)
    requires t.op.ContributeOp?
    ensures Entries(HistoryOf(Step(c, t).limiter, who)) == Entries(HistoryOf(c.limiter, who))
            + (if AcceptedContribution(c, t, who) then [RL.Entry(t.op.amount, t.now)] else [])
  {
    if Apply(c, t).Ok? {
      var m := c.limiter;
      var total := Get(Step(c, t).books.contributions, t.op.who);
      assert Step(c, t).limiter == Recorded(m, t.op.who, t.now, t.op.amount, total);
      RecordedEntries(m, t.op.who, t.now, t.op.amount, total, who);
    }
  }

  lemma {:induction false} RecordedEntries(m: Limiter, from: Address, now: nat, amount: int, total: int, who: Address)
    requires Limited(m, from, now, amount).Some?
    ensures Entries(HistoryOf(Recorded(m, from, now, amount, total), who))
         == Entries(HistoryOf(m, who)) + (if from == who then [RL.Entry(amount, now)] else [])
  {
  }

  // ---------- Emergency withdrawal ----------

  /** The emergency calls of a campaign run, as the guard sees them. A blocked payout leaves the guard as it was. */
  function GuardCalls(c: Campaign, calls: seq<Timed>): seq<EM.Call>
    decreases |calls|
  {
    if calls == [] then [] else GuardCall(c, calls[0]) + GuardCalls(Step(c, calls[0]), calls[1..])
  }

  function GuardCall(c: Campaign, t: Timed): seq<EM.Call> {
    match t.op
    case InitiateOp(lockPeriod) => [EM.InitiateCall(t.now, lockPeriod)]
    case SetupMultisigOp(required, approvers) => [EM.SetupCall(required, approvers)]
    case ApproveOp(approver) => [EM.ApproveCall(approver)]
    case ExecuteEmergencyOp => if Apply(c, t).Ok? then [EM.ExecuteCall(t.now)] else []
    case CancelEmergencyOp => [EM.CancelCall]
    case _ => []
  }

  lemma {:induction false} StepGuards(c: Campaign, t: Timed)
    ensures Step(c, t).emergency == EM.Run(c.emergency, GuardCall(c, t))
  {
    if KindOf(t.op) == Guards || t.op.ExecuteEmergencyOp? {
      var calls := GuardCall(c, t);
      if calls != [] {
        assert calls[1..] == [];
        assert EM.Run(c.emergency, calls) == EM.Step(c.emergency, calls[0]);
      }
    } else {
      EmergencyFrame(c, t);
    }
  }

  lemma {:induction false} GuardFollowsRun(c: Campaign, calls: seq<Timed>)
    ensures Run(c, calls).emergency == EM.Run(c.emergency, GuardCalls(c, calls))
    decreases |calls|
  {
    if calls != [] {
      StepGuards(c, calls[0]);
      GuardFollowsRun(Step(c, calls[0]), calls[1..]);
      GuardRunSplit(c.emergency, GuardCall(c, calls[0]), GuardCalls(Step(c, calls[0]), calls[1..]));
    }
  }

  lemma {:induction false} GuardRunSplit(e: EM.Emergency, xs: seq<EM.Call>, ys: seq<EM.Call>)
    ensures EM.Run(e, xs + ys) == EM.Run(EM.Run(e, xs), ys)
    decreases |xs|
  {
    if xs == [] {
      assert xs + ys == ys;
    } else {
      assert (xs + ys)[1..] == xs[1..] + ys;
      GuardRunSplit(EM.Step(e, xs[0]), xs[1..], ys);
    }
  }

  predicate NoInitiate(calls: seq<Timed>) {
    forall i :: 0 <= i < |calls| ==> !calls[i].op.InitiateOp?
  }

  /**
   * An emergency withdrawal of a campaign, after an initiate and any run of calls without another initiate:
   * if it is accepted, the lock period is over and, when approvals are required, at least that many distinct
   * listed addresses approved since that initiate.
   */
  lemma {:induction false} EmergencyNeedsApprovals(c: Campaign, start: Timed, calls: seq<Timed>, now: nat)
    requires start.op.InitiateOp?
    requires NoInitiate(calls)
    requires ExecuteEmergency(Run(Step(c, start), calls), now).Ok?
    ensures var session := Step(c, start).emergency; var guard := GuardCalls(Step(c, start), calls);
      && start.now + start.op.lockPeriod <= now
      && (Run(Step(c, start), calls).emergency.required > 0 ==>
            Run(Step(c, start), calls).emergency.required <= |EM.Approved(session, guard)|)
      && EM.Approved(session, guard) <= EM.EverListed(session, guard)
  {
    var d := Step(c, start);
    assert d.emergency == EM.Initiate(c.emergency, start.now, start.op.lockPeriod);
    GuardFollowsRun(d, calls);
    NoInitiateCarries(d, calls);
    ExecuteAsksTheGuard(Run(d, calls), now);
    EM.ExecutionNeedsApprovals(c.emergency, start.now, start.op.lockPeriod, GuardCalls(d, calls), now);
  }

  lemma {:induction false} ExecuteAsksTheGuard(c: Campaign, now: nat)
    ensures ExecuteEmergency(c, now).Ok? ==> EM.Execute(c.emergency, now).Ok?
  {
  }

  lemma {:induction false} NoInitiateCarries(c: Campaign, calls: seq<Timed>)
    requires NoInitiate(calls)
    ensures EM.NoInitiate(GuardCalls(c, calls))
    decreases |calls|
  {
    if calls != [] {
      NoInitiateCarries(Step(c, calls[0]), calls[1..]);
    }
  }
}
