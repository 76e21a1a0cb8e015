/** What each call of the crowdfunding campaign does to its storage and to the campaign token's ledger. */
module CampaignSpec {
  import opened Common
  import opened Validation
  import RL = RateLimiter
  import EM = Emergency

  const MAX_BATCH := 25
  const MAX_MESSAGE := 256
  const VOTING_PERIOD := 604_800
  const REWARD_UNIT := 1_000_000

  datatype Status = Active | Successful | Refunded | Cancelled | Paused | Archived

  /** The token argument of a call: the campaign's own, or another one whose transfer may or may not go through. */
  datatype Token = CampaignToken | Foreign(id: nat, pays: bool)

  /** A list of accepted tokens: whether the campaign's own is on it, and the others that are. */
  datatype TokenList = TokenList(own: bool, foreign: set<nat>)

  /** Outcome of the blacklist and whitelist checks, which are outside this model. */
  datatype Access = Allowed | OnBlacklist | OffWhitelist

  datatype Platform = Platform(address: Address, feeBps: nat)
  datatype Vesting = Vesting(cliff: nat, duration: nat)
  datatype Matching = Matching(ratioBps: nat, maxMatch: int)
  datatype Plan = Plan(amount: int, interval: nat, endDate: nat, lastExecuted: nat)
  datatype Delegation = Delegation(amount: int, delegate: Address, active: bool)
  datatype Contribution = Contribution(entry: RL.Entry, runningTotal: int)

  /** A proposed deadline with the weighted votes on it. */
  datatype Proposal = Proposal(
    deadline: nat, votesFor: int, votesAgainst: int, createdAt: nat, endsAt: nat, executed: bool)

  /** The one current proposal, and per contributor when the proposal was made that they last voted on. */
  datatype Voting = Voting(proposal: Option<Proposal>, votes: map<Address, nat>)

  /** `own` says whether rewards are paid in the campaign's own token. */
  datatype RewardConfig = RewardConfig(own: bool, perUnit: int)

  datatype Rewards = Rewards(config: Option<RewardConfig>, claimed: map<Address, int>, distributed: int)

  /** Set once by `initialize`. */
  datatype Terms = Terms(
    minAmount: int, maxAmount: int, platform: Option<Platform>, vesting: Option<Vesting>, accepted: Option<TokenList>)

  /** Money: `held` is the contract's own balance of the campaign token, `wallets` everybody else's. */
  datatype Books = Books(
    held: int, wallets: map<Address, int>,
    contributions: map<Address, int>, pool: int, insuranceFees: map<Address, int>)

  datatype Limiter = Limiter(
    limit: Option<RL.Limit>, windows: map<Address, RL.Window>, history: map<Address, seq<Contribution>>)

  datatype Campaign = Campaign(
    creator: Address, terms: Terms,
    status: Status, deadline: nat, goal: int, total: int,
    books: Books, insurance: Option<nat>, limiter: Limiter,
    matching: Option<Matching>, matched: int,
    plans: map<Address, Plan>,
    delegations: map<Address, Delegation>, delegated: map<Address, int>,
    voting: Voting, rewards: Rewards,
    emergency: EM.Emergency)

  type Outcome = Result<Campaign, Error>

  function Initial(creator: Address, terms: Terms, deadline: nat, goal: int, wallets: map<Address, int>): Campaign {
    Campaign(creator, terms, Active, deadline, goal, 0, Books(0, wallets, map[], 0, map[]), None,
             Limiter(None, map[], map[]), None, 0, map[], map[], map[],
             Voting(None, map[]), Rewards(None, map[], 0), EM.UNSET)
  }

  /** `initialize`, up to the checks of title and description: a fresh campaign on sound terms, or an error. */
  function Initialize(now: nat, creator: Address, terms: Terms, deadline: nat, goal: int, wallets: map<Address, int>)
    : Outcome
  {
    if goal <= 0 then Err(InvalidGoal)
    else if goal > I128_MAX / 2 then Err(GoalOverflow)
    else if deadline <= now then Err(InvalidDeadline)
    else if terms.minAmount < 0 then Err(BelowMinimum)
    else if terms.maxAmount < 0 || (terms.maxAmount > 0 && terms.maxAmount < terms.minAmount) then Err(ExceedsMaximum)
    else if terms.platform.Some? && terms.platform.value.feeBps > BPS then Err(InvalidFee)
    else if terms.platform.Some? && terms.platform.value.address == creator then Err(SelfFeeAddress)
    else Ok(Initial(creator, terms, deadline, goal, wallets))
  }

  // ---------- The token ledger: no negative amounts, no overdrafts ----------

  function Pull(b: Books, from: Address, amount: int): Result<Books, Error> {
    if amount < 0 || Get(b.wallets, from) < amount then Err(TransferFailed)
    else Ok(b.(held := b.held + amount, wallets := b.wallets[from := Get(b.wallets, from) - amount]))
  }

  function Pay(b: Books, to: Address, amount: int): Result<Books, Error> {
    if amount < 0 || b.held < amount then Err(TransferFailed)
    else Ok(b.(held := b.held - amount, wallets := b.wallets[to := Get(b.wallets, to) + amount]))
  }

  /** A payment into the contract; one in a foreign token moves nothing on the campaign token's ledger. */
  function Receive(b: Books, from: Address, amount: int, token: Token): Result<Books, Error> {
    match token
    case CampaignToken => Pull(b, from, amount)
    case Foreign(_, pays) => if pays && amount >= 0 then Ok(b) else Err(TransferFailed)
  }

  // ---------- Contributing ----------

  /** Without a list only the campaign's own token is accepted; with one, exactly the tokens on it. */
  predicate TokenAccepted(accepted: Option<TokenList>, token: Token) {
    match token
    case CampaignToken => accepted.None? || accepted.value.own
    case Foreign(id, _) => accepted.Some? && id in accepted.value.foreign
  }

  function WindowOf(m: Limiter, who: Address): RL.Window {
    if who in m.windows then m.windows[who] else RL.NO_WINDOW
  }

  function HistoryOf(m: Limiter, who: Address): seq<Contribution> {
    if who in m.history then m.history[who] else []
  }

  /** The limiter's verdict, and the windows it stores: nothing changes when no limit is configured. */
  function Limited(m: Limiter, who: Address, now: nat, amount: int): Option<map<Address, RL.Window>> {
    if m.limit.None? || !RL.Active(m.limit.value) then Some(m.windows)
    else
      match RL.Admit(m.limit.value, WindowOf(m, who), RL.Entry(amount, now))
      case None => None
      case Some(w) => Some(m.windows[who := w])
  }

  /** The limiter after an accepted contribution, with the contribution record. */
  function Recorded(m: Limiter, who: Address, now: nat, amount: int, runningTotal: int): Limiter
    requires Limited(m, who, now, amount).Some?
  {
    m.(windows := Limited(m, who, now, amount).value,
       history := m.history[who := HistoryOf(m, who) + [Contribution(RL.Entry(amount, now), runningTotal)]])
  }

  function InsuranceFee(insurance: Option<nat>, amount: int): int {
    match insurance
    case None => 0
    case Some(bps) => TruncDiv(amount * bps, BPS)
  }

  function MatchFor(matching: Option<Matching>, matched: int, effective: int): int {
    match matching
    case None => 0
    case Some(m) => Max(Min(TruncDiv(effective * m.ratioBps, BPS), m.maxMatch - matched), 0)
  }

  function ContributeError(c: Campaign, now: nat, access: Access, who: Address, amount: int, token: Token, message: nat)
    : Option<Error>
  {
    if ValidatePositiveAmount(amount).Some? then Some(AmountNotPositive)
    else if message > MAX_MESSAGE then Some(MessageTooLong)
    else if c.status == Paused then Some(CampaignPaused)
    else if c.status != Active then Some(NotActive)
    else if now >= c.deadline then Some(CampaignEnded)
    else if access == OnBlacklist then Some(Blacklisted)
    else if access == OffWhitelist then Some(NotWhitelisted)
    else if amount < c.terms.minAmount then Some(BelowMinimum)
    else if c.terms.maxAmount > 0 && Get(c.books.contributions, who) + amount > c.terms.maxAmount then
      Some(ExceedsMaximum)
    else if Limited(c.limiter, who, now, amount).None? then Some(RateLimitExceeded)
    else if !TokenAccepted(c.terms.accepted, token) then Some(TokenNotAccepted)
    else None
  }

  /** `amount` was received from `who`; `fee` of it goes to the insurance pool, the rest is the contribution. */
  function Deposit(b: Books, who: Address, amount: int, fee: int): Books {
    b.(contributions := b.contributions[who := Get(b.contributions, who) + amount - fee],
       insuranceFees := if fee > 0 then b.insuranceFees[who := Get(b.insuranceFees, who) + fee] else b.insuranceFees,
       pool := if fee > 0 then b.pool + fee else b.pool)
  }

  /** The bookkeeping of an admitted contribution whose `amount` has arrived in `paid`. */
  function Contributed(c: Campaign, now: nat, who: Address, amount: int, paid: Books): Campaign
    requires Limited(c.limiter, who, now, amount).Some?
  {
    var fee := InsuranceFee(c.insurance, amount);
    var topUp := MatchFor(c.matching, c.matched, amount - fee);
    var books := Deposit(paid, who, amount, fee);
    c.(books := books, matched := c.matched + topUp, total := c.total + (amount - fee) + topUp,
       limiter := Recorded(c.limiter, who, now, amount, books.contributions[who]))
  }

  function Contribute(
    c: Campaign, now: nat, access: Access, who: Address, amount: int, token: Token, message: nat): Outcome
  {
    match ContributeError(c, now, access, who, amount, token, message)
    case Some(e) => Err(e)
    case None =>
      match Receive(c.books, who, amount, token)
      case Err(e) => Err(e)
      case Ok(paid) => Ok(Contributed(c, now, who, amount, paid))
  }

  function SetupRecurring(c: Campaign, now: nat, who: Address, amount: int, interval: nat, endDate: nat): Outcome {
    match ValidateRecurringPlan(amount, interval, endDate, now)
    case Some(e) => Err(e)
    case None => Ok(c.(plans := c.plans[who := Plan(amount, interval, endDate, now)]))
  }

  function ExecuteRecurring(c: Campaign, now: nat, who: Address): Outcome {
    if who !in c.plans then Err(InvalidRecurringPlan)
    else
      var plan := c.plans[who];
      if now > plan.endDate || now < plan.lastExecuted + plan.interval then Err(InvalidRecurringPlan)
      else
        match Pull(c.books, who, plan.amount)
        case Err(e) => Err(e)
        case Ok(paid) =>
          Ok(c.(books := Deposit(paid, who, plan.amount, 0), total := c.total + plan.amount,
                plans := c.plans[who := plan.(lastExecuted := now)]))
  }

  function CancelRecurring(c: Campaign, who: Address): Campaign { c.(plans := c.plans - {who}) }

  function Delegate(c: Campaign, delegator: Address, delegate: Address, amount: int): Outcome {
    if amount <= 0 then Err(InvalidDelegation)
    else Ok(c.(delegations := c.delegations[delegator := Delegation(amount, delegate, true)]))
  }

  function RevokeDelegation(c: Campaign, delegator: Address): Outcome {
    if delegator !in c.delegations then Err(DelegationNotFound)
    else Ok(c.(delegations := c.delegations[delegator := c.delegations[delegator].(active := false)]))
  }

  function OnBehalfError(c: Campaign, now: nat, access: Access, delegator: Address, delegate: Address, amount: int)
    : Option<Error>
  {
    if delegator !in c.delegations then Some(DelegationNotFound)
    else
      var d := c.delegations[delegator];
      if !d.active || d.delegate != delegate then Some(InvalidDelegation)
      else if Get(c.delegated, delegator) + amount > d.amount then Some(ExceedsMaximum)
      else if amount < c.terms.minAmount then Some(BelowMinimum)
      else if c.status != Active then Some(NotActive)
      else if now >= c.deadline then Some(CampaignEnded)
      else if access == OnBlacklist then Some(Blacklisted)
      else if access == OffWhitelist then Some(NotWhitelisted)
      else None
  }

  /** The token is neither compared with the campaign's own nor looked up in the list of accepted tokens. */
  function OnBehalf(c: Campaign, delegator: Address, amount: int, paid: Books): Campaign {
    c.(books := Deposit(paid, delegator, amount, 0), total := c.total + amount,
       delegated := c.delegated[delegator := Get(c.delegated, delegator) + amount])
  }

  function ContributeOnBehalf(c: Campaign, now: nat, access: Access, delegator: Address, delegate: Address,
                              amount: int, token: Token): Outcome
  {
    match OnBehalfError(c, now, access, delegator, delegate, amount)
    case Some(e) => Err(e)
    case None =>
      match Receive(c.books, delegate, amount, token)
      case Err(e) => Err(e)
      case Ok(paid) => Ok(OnBehalf(c, delegator, amount, paid))
  }

  // ---------- Refunds ----------

  /** Why refunds and insurance claims are closed, if they are. */
  function RefundsClosed(c: Campaign, now: nat): Option<Error> {
    if c.status == Cancelled then None
    else if now < c.deadline then Some(CampaignStillActive)
    else if c.total >= c.goal then Some(GoalReached)
    else None
  }

  /** Pays out one contribution in full; nothing happens when there is none. */
  function RefundOne(b: Books, who: Address): Result<Books, Error> {
    var amount := Get(b.contributions, who);
    if amount <= 0 then Ok(b)
    else
      match Pay(b, who, amount)
      case Err(e) => Err(e)
      case Ok(paid) => Ok(paid.(contributions := b.contributions[who := 0]))
  }

  /** Pays back one contributor's insurance fees. */
  function ClaimOne(b: Books, who: Address): Result<Books, Error> {
    var fee := Get(b.insuranceFees, who);
    if fee == 0 then Ok(b)
    else if b.pool < fee then Err(InsufficientFunds)
    else
      match Pay(b, who, fee)
      case Err(e) => Err(e)
      case Ok(paid) => Ok(paid.(pool := b.pool - fee, insuranceFees := b.insuranceFees[who := 0]))
  }

  /** A change of the books, when refunds are open. */
  function WhenOpen(c: Campaign, now: nat, r: Result<Books, Error>): Outcome {
    match RefundsClosed(c, now)
    case Some(e) => Err(e)
    case None => (match r case Err(e) => Err(e) case Ok(b) => Ok(c.(books := b)))
  }

  function RefundSingle(c: Campaign, now: nat, who: Address): Outcome { WhenOpen(c, now, RefundOne(c.books, who)) }

  function ClaimInsurance(c: Campaign, now: nat, who: Address): Outcome { WhenOpen(c, now, ClaimOne(c.books, who)) }

  /** `RefundOne` along a list, all or nothing. */
  function RefundAll(b: Books, list: seq<Address>): Result<Books, Error>
    decreases |list|
  {
    if list == [] then Ok(b)
    else
      match RefundOne(b, list[0])
      case Err(e) => Err(e)
      case Ok(d) => RefundAll(d, list[1..])
  }

  function BatchPrefix(list: seq<Address>): seq<Address> {
    if |list| <= MAX_BATCH then list else list[..MAX_BATCH]
  }

  /** The distinct addresses of a list that have something to get back. */
  function Owed(b: Books, list: seq<Address>): set<Address> {
    set a | a in list && Get(b.contributions, a) > 0
  }

  function RefundBatch(c: Campaign, now: nat, list: seq<Address>): Result<(Campaign, nat), Error> {
    match WhenOpen(c, now, RefundAll(c.books, BatchPrefix(list)))
    case Err(e) => Err(e)
    case Ok(d) => Ok((d, |Owed(c.books, BatchPrefix(list))|))
  }

  function RefundPartial(c: Campaign, who: Address, amount: int): Outcome {
    match ValidatePartialRefund(amount, Get(c.books.contributions, who))
    case Some(e) => Err(e)
    case None =>
      match Pay(c.books, who, amount)
      case Err(e) => Err(e)
      case Ok(paid) => Ok(c.(books := Deposit(paid, who, -amount, 0), total := c.total - amount))
  }

  // ---------- Closing ----------

  function CancelCampaign(c: Campaign): Outcome {
    if c.status == Cancelled || c.status == Successful || c.status == Refunded then Err(NotActive)
    else Ok(c.(status := Cancelled))
  }

  function Archive(c: Campaign): Outcome {
    if c.status == Active || c.status == Paused || c.status == Archived then Err(NotActive)
    else Ok(c.(status := Archived))
  }

  function PlatformFee(c: Campaign): int {
    match c.terms.platform
    case None => 0
    case Some(p) => TruncDiv(c.total * p.feeBps, BPS)
  }

  /** What the creator receives at `now`: everything after the fee, or its vested part. */
  function Payout(c: Campaign, now: nat): int {
    var all := c.total - PlatformFee(c);
    match c.terms.vesting
    case None => all
    case Some(v) =>
      if now < v.cliff then 0
      else if now >= v.cliff + v.duration then all
      else TruncDiv(all * (now - v.cliff), v.duration)
  }

  function Withdraw(c: Campaign, now: nat): Outcome {
    if c.status != Active then Err(NotActive)
    else if now < c.deadline then Err(CampaignStillActive)
    else if c.total < c.goal then Err(GoalNotReached)
    else
      var afterFee :=
        match c.terms.platform
        case None => Ok(c.books)
        case Some(p) => Pay(c.books, p.address, PlatformFee(c));
      match afterFee
      case Err(e) => Err(e)
      case Ok(d) =>
        if c.terms.vesting.Some? && now < c.terms.vesting.value.cliff then Err(VestingNotComplete)
        else
          match Pay(d, c.creator, Payout(c, now))
          case Err(e) => Err(e)
          case Ok(paid) => Ok(c.(books := paid, total := 0, status := Successful))
  }

  // ---------- Emergency withdrawal ----------

  function Guarded(c: Campaign, r: Result<EM.Emergency, EM.Error>): Outcome {
    match r
    case Ok(e) => Ok(c.(emergency := e))
    case Err(cause) => Err(EmergencyError(cause))
  }

  function ExecuteEmergency(c: Campaign, now: nat): Outcome {
    match EM.Execute(c.emergency, now)
    case Err(cause) => Err(EmergencyError(cause))
    case Ok(e) =>
      if c.total <= 0 then Ok(c.(emergency := e))
      else
        match Pay(c.books, c.creator, c.total)
        case Err(err) => Err(err)
        case Ok(paid) => Ok(c.(books := paid, emergency := e, total := 0))
  }

  // ---------- Settings ----------

  function Pause(c: Campaign): Outcome { if c.status != Active then Err(NotActive) else Ok(c.(status := Paused)) }

  function Resume(c: Campaign): Outcome { if c.status != Paused then Err(NotActive) else Ok(c.(status := Active)) }

  function ExtendDeadline(c: Campaign, deadline: nat): Outcome {
    if c.status != Active then Err(NotActive)
    else if deadline <= c.deadline then Err(InvalidDeadline)
    else Ok(c.(deadline := deadline))
  }

  function AdjustGoal(c: Campaign, goal: int): Outcome {
    if c.status != Active then Err(NotActive)
    else if goal <= 0 then Err(InvalidGoal)
    else if goal > I128_MAX / 2 then Err(GoalOverflow)
    else Ok(c.(goal := goal))
  }

  function SetRateLimit(c: Campaign, maxAmount: int, seconds: nat): Outcome {
    if maxAmount < 0 then Err(InvalidRateLimit)
    else if maxAmount == 0 then Ok(c.(limiter := c.limiter.(limit := None)))
    else if seconds == 0 then Err(InvalidRateLimit)
    else Ok(c.(limiter := c.limiter.(limit := Some(RL.Limit(maxAmount, seconds)))))
  }

  function EnableInsurance(c: Campaign, feeBps: nat, provider: Address): Outcome {
    if ValidateFeeBps(feeBps).Some? then Err(InvalidFee)
    else if provider == c.creator then Err(SelfFeeAddress)
    else Ok(c.(insurance := Some(feeBps), books := c.books.(pool := 0)))
  }

  function SetupMatching(c: Campaign, ratioBps: nat, maxMatch: int): Outcome {
    if ratioBps > BPS then Err(InvalidFee)
    else if maxMatch <= 0 then Err(AmountNotPositive)
    else Ok(c.(matching := Some(Matching(ratioBps, maxMatch)), matched := 0))
  }

  // ---------- Deadline extensions ----------

  /** A new proposal replaces the current one, in any status of the campaign. */
  function ProposeExtension(c: Campaign, now: nat, deadline: nat): Outcome {
    if deadline <= c.deadline then Err(InvalidDeadline)
    else
      var proposal := Proposal(deadline, 0, 0, now, now + VOTING_PERIOD, false);
      Ok(c.(voting := c.voting.(proposal := Some(proposal))))
  }

  function LastVoted(v: Voting, who: Address): nat {
    if who in v.votes then v.votes[who] else 0
  }

  /** A vote weighs what is recorded as the voter's contribution at that moment. */
  function VoteOnExtension(c: Campaign, now: nat, who: Address, approve: bool): Outcome {
    match c.voting.proposal
    case None => Err(ProposalNotFound)
    case Some(p) =>
      if now > p.endsAt then Err(VotingEnded)
      else if LastVoted(c.voting, who) == p.createdAt then Err(AlreadyVoted)
      else
        var weight := Get(c.books.contributions, who);
        var counted :=
          if approve then p.(votesFor := p.votesFor + weight) else p.(votesAgainst := p.votesAgainst + weight);
        Ok(c.(voting := Voting(Some(counted), c.voting.votes[who := p.createdAt])))
  }

  predicate Carried(p: Proposal) {
    p.votesFor + p.votesAgainst > 0 && p.votesFor * 2 > p.votesFor + p.votesAgainst
  }

  /** Executing a second time does nothing; without a majority only the proposal is closed. */
  function ExecuteExtension(c: Campaign, now: nat): Outcome {
    match c.voting.proposal
    case None => Err(InvalidRecurringPlan)
    case Some(p) =>
      if now <= p.endsAt then Err(VotingEnded)
      else if p.executed then Ok(c)
      else
        Ok(c.(voting := c.voting.(proposal := Some(p.(executed := true))),
              deadline := if Carried(p) then p.deadline else c.deadline))
  }

  // ---------- Rewards, owners and clones ----------

  function ConfigureRewards(c: Campaign, own: bool, perUnit: int): Outcome {
    if ValidatePositiveAmount(perUnit).Some? then Err(AmountNotPositive)
    else Ok(c.(rewards := c.rewards.(config := Some(RewardConfig(own, perUnit)), distributed := 0)))
  }

  function RewardFor(c: Campaign, config: RewardConfig, who: Address): int {
    TruncDiv(Get(c.books.contributions, who) * config.perUnit, REWARD_UNIT)
  }

  /** Whether a transfer in a foreign reward token goes through is the parameter `pays`. */
  function DistributeRewards(c: Campaign, who: Address, pays: bool): Outcome {
    if c.rewards.config.None? then Err(NoRewardsConfigured)
    else if Get(c.books.contributions, who) == 0 then Err(BelowMinimum)
    else if Get(c.rewards.claimed, who) > 0 then Ok(c)
    else
      var config := c.rewards.config.value;
      var reward := RewardFor(c, config, who);
      var paid :=
        if config.own then Pay(c.books, who, reward)
        else if pays && reward >= 0 then Ok(c.books) else Err(TransferFailed);
      match paid
      case Err(e) => Err(e)
      case Ok(b) =>
        Ok(c.(books := b, rewards := c.rewards.(claimed := c.rewards.claimed[who := reward],
                                                distributed := c.rewards.distributed + reward)))
  }

  function TransferOwnership(c: Campaign, owner: Address): Outcome {
    if owner == c.creator then Err(Unauthorized) else Ok(c.(creator := owner))
  }

  /** `clone_campaign` restarts this same campaign: everything but status, total, goal, deadline and creator stays. */
  function CloneCampaign(c: Campaign, now: nat, owner: Address, goal: int, deadline: nat): Outcome {
    if goal <= 0 then Err(InvalidGoal)
    else if goal > I128_MAX / 2 then Err(GoalOverflow)
    else if deadline <= now then Err(InvalidDeadline)
    else Ok(c.(creator := owner, goal := goal, deadline := deadline, total := 0, status := Active))
  }

  // ---------- Runs ----------

  datatype Op =
    | ContributeOp(access: Access, who: Address, amount: int, token: Token, message: nat)
    | OnBehalfOp(access: Access, delegator: Address, delegate: Address, amount: int, token: Token)
    | ExecuteRecurringOp(who: Address)
    | RefundSingleOp(who: Address)
    | RefundBatchOp(list: seq<Address>)
    | RefundPartialOp(who: Address, amount: int)
    | ClaimInsuranceOp(who: Address)
    | WithdrawOp | ExecuteEmergencyOp
    | SetupRecurringOp(who: Address, amount: int, interval: nat, endDate: nat)
    | CancelRecurringOp(who: Address)
    | DelegateOp(delegator: Address, delegate: Address, amount: int)
    | RevokeOp(delegator: Address)
    | SetRateLimitOp(maxAmount: int, seconds: nat)
    | EnableInsuranceOp(feeBps: nat, provider: Address)
    | SetupMatchingOp(ratioBps: nat, maxMatch: int)
    | ExtendOp(deadline: nat) | AdjustGoalOp(goal: int)
    | CancelOp | ArchiveOp | PauseOp | ResumeOp | TransferOwnershipOp(owner: Address)
    | ProposeOp(deadline: nat) | VoteOp(who: Address, approve: bool) | ExecuteExtensionOp
    | ConfigureRewardsOp(own: bool, perUnit: int) | DistributeOp(who: Address, pays: bool)
    | CloneOp(owner: Address, goal: int, deadline: nat)
    | InitiateOp(lockPeriod: nat)
    | SetupMultisigOp(required: nat, approvers: seq<Address>)
    | ApproveOp(approver: Address)
    | CancelEmergencyOp

  /** A call and the ledger time it is made at. */
  datatype Timed = Timed(now: nat, op: Op)

  datatype Kind =
    | Deposits | Refunds | Payouts | Plans | Settings | Lifecycle | Votes | Rewarding | Restarts | Guards

  function KindOf(op: Op): Kind {
    match op
    case ContributeOp(_, _, _, _, _) => Deposits
    case OnBehalfOp(_, _, _, _, _) => Deposits
    case ExecuteRecurringOp(_) => Deposits
    case RefundSingleOp(_) => Refunds
    case RefundBatchOp(_) => Refunds
    case RefundPartialOp(_, _) => Refunds
    case ClaimInsuranceOp(_) => Refunds
    case WithdrawOp => Payouts
    case ExecuteEmergencyOp => Payouts
    case SetupRecurringOp(_, _, _, _) => Plans
    case CancelRecurringOp(_) => Plans
    case DelegateOp(_, _, _) => Plans
    case RevokeOp(_) => Plans
    case SetRateLimitOp(_, _) => Settings
    case EnableInsuranceOp(_, _) => Settings
    case SetupMatchingOp(_, _) => Settings
    case ExtendOp(_) => Settings
    case AdjustGoalOp(_) => Settings
    case CancelOp => Lifecycle
    case ArchiveOp => Lifecycle
    case PauseOp => Lifecycle
    case ResumeOp => Lifecycle
    case TransferOwnershipOp(_) => Lifecycle
    case ProposeOp(_) => Votes
    case VoteOp(_, _) => Votes
    case ExecuteExtensionOp => Votes
    case ConfigureRewardsOp(_, _) => Rewarding
    case DistributeOp(_, _) => Rewarding
    case CloneOp(_, _, _) => Restarts
    case InitiateOp(_) => Guards
    case SetupMultisigOp(_, _) => Guards
    case ApproveOp(_) => Guards
    case CancelEmergencyOp => Guards
  }

  function ApplyDeposit(c: Campaign, t: Timed): Outcome
    requires KindOf(t.op) == Deposits
  {
    match t.op
    case ContributeOp(access, who, amount, token, message) => Contribute(c, t.now, access, who, amount, token, message)
    case OnBehalfOp(access, delegator, delegate, amount, token) =>
      ContributeOnBehalf(c, t.now, access, delegator, delegate, amount, token)
    case ExecuteRecurringOp(who) => ExecuteRecurring(c, t.now, who)
  }

  function ApplyRefund(c: Campaign, t: Timed): Outcome
    requires KindOf(t.op) == Refunds
  {
    match t.op
    case RefundSingleOp(who) => RefundSingle(c, t.now, who)
    case RefundBatchOp(list) => (match RefundBatch(c, t.now, list) case Ok((d, _)) => Ok(d) case Err(e) => Err(e))
    case RefundPartialOp(who, amount) => RefundPartial(c, who, amount)
    case ClaimInsuranceOp(who) => ClaimInsurance(c, t.now, who)
  }

  function ApplyPayout(c: Campaign, t: Timed): Outcome
    requires KindOf(t.op) == Payouts
  {
    if t.op == WithdrawOp then Withdraw(c, t.now) else ExecuteEmergency(c, t.now)
  }

  function ApplyPlan(c: Campaign, t: Timed): Outcome
    requires KindOf(t.op) == Plans
  {
    match t.op
    case SetupRecurringOp(who, amount, interval, endDate) => SetupRecurring(c, t.now, who, amount, interval, endDate)
    case CancelRecurringOp(who) => Ok(CancelRecurring(c, who))
    case DelegateOp(delegator, delegate, amount) => Delegate(c, delegator, delegate, amount)
    case RevokeOp(delegator) => RevokeDelegation(c, delegator)
  }

  function ApplySetting(c: Campaign, t: Timed): Outcome
    requires KindOf(t.op) == Settings
  {
    match t.op
    case SetRateLimitOp(maxAmount, seconds) => SetRateLimit(c, maxAmount, seconds)
    case EnableInsuranceOp(feeBps, provider) => EnableInsurance(c, feeBps, provider)
    case SetupMatchingOp(ratioBps, maxMatch) => SetupMatching(c, ratioBps, maxMatch)
    case ExtendOp(deadline) => ExtendDeadline(c, deadline)
    case AdjustGoalOp(goal) => AdjustGoal(c, goal)
  }

  function ApplyLifecycle(c: Campaign, t: Timed): Outcome
    requires KindOf(t.op) == Lifecycle
  {
    match t.op
    case CancelOp => CancelCampaign(c)
    case ArchiveOp => Archive(c)
    case PauseOp => Pause(c)
    case ResumeOp => Resume(c)
    case TransferOwnershipOp(owner) => TransferOwnership(c, owner)
  }

  function ApplyVote(c: Campaign, t: Timed): Outcome
    requires KindOf(t.op) == Votes
  {
    match t.op
    case ProposeOp(deadline) => ProposeExtension(c, t.now, deadline)
    case VoteOp(who, approve) => VoteOnExtension(c, t.now, who, approve)
    case ExecuteExtensionOp => ExecuteExtension(c, t.now)
  }

  function ApplyRewarding(c: Campaign, t: Timed): Outcome
    requires KindOf(t.op) == Rewarding
  {
    match t.op
    case ConfigureRewardsOp(own, perUnit) => ConfigureRewards(c, own, perUnit)
    case DistributeOp(who, pays) => DistributeRewards(c, who, pays)
  }

  function ApplyGuard(c: Campaign, t: Timed): Outcome
    requires KindOf(t.op) == Guards
  {
    match t.op
    case InitiateOp(lockPeriod) => Ok(c.(emergency := EM.Initiate(c.emergency, t.now, lockPeriod)))
    case SetupMultisigOp(required, approvers) => Guarded(c, EM.Setup(c.emergency, required, approvers))
    case ApproveOp(approver) => Guarded(c, EM.Approve(c.emergency, approver))
    case CancelEmergencyOp => Ok(c.(emergency := EM.Cancel(c.emergency)))
  }

  function Apply(c: Campaign, t: Timed): Outcome {
    match KindOf(t.op)
    case Deposits => ApplyDeposit(c, t)
    case Refunds => ApplyRefund(c, t)
    case Payouts => ApplyPayout(c, t)
    case Plans => ApplyPlan(c, t)
    case Settings => ApplySetting(c, t)
    case Lifecycle => ApplyLifecycle(c, t)
    case Votes => ApplyVote(c, t)
    case Rewarding => ApplyRewarding(c, t)
    case Restarts => CloneCampaign(c, t.now, t.op.owner, t.op.goal, t.op.deadline)
    case Guards => ApplyGuard(c, t)
  }

  /** One call; a refused call leaves everything as it was. */
  function Step(c: Campaign, t: Timed): Campaign {
    match Apply(c, t) case Ok(d) => d case Err(_) => c
  }

  function Run(c: Campaign, calls: seq<Timed>): Campaign
    decreases |calls|
  {
    if calls == [] then c else Run(Step(c, calls[0]), calls[1..])
  }
}
