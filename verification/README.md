# Soroban learning-platform contracts, modelled and proved in Dafny

The project models the money and state-machine logic of six contracts: the constant-product liquidity pool, the
crowdfunding campaign, the platform token (with vesting, staking and airdrops), the reputation book, course progress
analytics, and course NFTs.

Each contract comes in three layers:

- a specification module (`PoolSpec`, `CampaignSpec`, `TokenSpec`, `ReputationSpec`, `AnalyticsSpec`, `NftSpec`, with
  `RateLimiter`, `Emergency`, `Validation`, `VestingCurves`, `Merkle` and `Leaderboard` for the parts): the storage as a
  datatype, each call as a function from a state to a new state and a value, or to an error, and `Step` and `Run` over
  sequences of calls, accepted or refused;
- lemma modules about those functions and about whole runs (`PoolBacking`, `PoolTrades`, `CampaignFrames`,
  `CampaignVoting`, `CampaignSolvency`, `CampaignSettlement`, `CampaignLimits`, `CampaignPayout`, `CampaignAftermath`,
  `CampaignConditions`, `TokenSupply`, `TokenClaims`, `TokenAllowances`, `TokenRewards`, `ReputationTotals`), and modules
  that fix what each single call pays, stores and refuses in plain numbers, without the specification's own formulas
  (`PoolAmounts`, `CampaignMoney`, `TokenAmounts`, `ReputationUpdates`, `NftRecords`);
- a class with the contract's storage as fields, whose methods work as the source does, loops included, and are proved
  to end exactly as the specification says (`LiquidityPool`, `Crowdfund`, `TokenContract`, `ReputationContract`,
  `AnalyticsContract`, `NftContract`). `Matches` and `Ends` in `Common` say how: on success the specified result and
  state, on an error that error and the state of before.

A theorem about `Run` therefore holds of every sequence of method calls. Ledger numbers and timestamps are parameters.

## Where the code and its documentation differ

The model follows the code. The differences below are stated as lemmas.

- The rate limit is documented as a rolling window (contracts/crowdfund/src/lib.rs:1256-1260). The code anchors windows
  at a contribution: an address can put in up to twice the maximum within one window length, and no more
  (`RateLimiter.WindowsAreNotRolling`, `RateLimiter.IntervalBound`).
- A partial refund is documented as limited to half of the original contribution (contracts/crowdfund/src/lib.rs:2216-2219).
  The guard halves what is left at each call, so all but one unit can be taken out (`Validation.PartialRefundsReach`).
- Emergency approvals are documented as idempotent per session (contracts/crowdfund/src/lib.rs:1482-1487). They are
  keyed by lock time, so a session that reuses one cannot count its earlier approvers again
  (`Emergency.CountIsDistinctApprovals`, `Emergency.ReusedLockTimeBlocksExecution`).
- Matching is documented as sponsor-funded (contracts/crowdfund/src/lib.rs:1716-1720). The code adds the match to the
  raised total without receiving tokens, so a withdrawal goes through only as far as the insurance pool and the unvested
  rest cover the matches and the full refunds paid (`CampaignPayout.WithdrawalNeedsBeyondCovered`,
  `CampaignPayout.MatchedCampaignIsStuck`).
- Refunds are documented for campaigns that failed or were cancelled (contracts/crowdfund/src/lib.rs:1126-1136). A
  withdrawal clears the total, so they open for successful campaigns as well, at the cost of the insurance pool
  (`CampaignAftermath.RefundAfterWithdrawal`, `CampaignAftermath.RefundDrainsTheInsurance`). They stay open while there
  is no recurring instalment, carried extension or clone (`CampaignAftermath.WithdrawnStaysRefundable`); an extension
  may be proposed, voted and executed in any status, and closes them again
  (`CampaignAftermath.ExtensionClosesRefundsAgain`).
- A fresh extension proposal is documented as a fresh ballot (contracts/crowdfund/src/lib.rs:2130-2132). Votes are marked
  with the time of the proposal, so one made at the same time is closed to those who voted already
  (`CampaignVoting.SameInstantProposalBlocksVoters`).
- A clone is documented as a new campaign with zero contributions (contracts/crowdfund/src/lib.rs:3874-3876). The code
  resets the contract itself and keeps the contributions: a cancelled campaign becomes active and its refunds close
  (`CampaignSolvency.CloningClosesRefunds`).
- `cancel_campaign` is documented for active and paused campaigns (contracts/crowdfund/src/lib.rs:996). The code lets
  archived ones through, so a withdrawn campaign can be archived, cancelled and refunded
  (`CampaignConditions.ArchivedCanBeCancelled`). The status `Refunded` is never set (`CampaignConditions.NeverRefunded`).
- An extension is checked against the deadline when it is proposed (contracts/crowdfund/src/lib.rs:2077-2079), but not
  when it is executed, and can then move the deadline back (`CampaignConditions.OutdatedProposalShortens`).
- Rewards are documented as minted (contracts/crowdfund/src/lib.rs:3687-3689). They are paid from the contract's balance
  in a token the creator chooses, so out of the contributions if it is the campaign's own
  (`CampaignSolvency.RewardsUnbalanceIff`).
- The list of accepted tokens restricts `contribute` only, and what it admits is booked like the campaign's own token
  (`CampaignSolvency.RunsAreSolventIff`, `CampaignSolvency.ForeignTokenIsCredited`).
- A test expects a swap on an empty pool to panic (contracts/liquidity_pool/src/tests.rs:135-142). The code accepts it
  (`PoolTrades.SwapAgainstEmptyReserve`).
- `unstake` documents `early = true` as the way to leave before the lock expires (contracts/token/src/lib.rs:654). The
  lock is not enforced, and `early = false` succeeds too, without a penalty (`TokenSupply.LockIsNotEnforced`).
- `claim_staking_rewards` documents claiming accumulated rewards without unstaking (contracts/token/src/lib.rs:661). A
  claim leaves the start of the stake as it was, so the same time is paid again by every later claim and by the unstake
  (`TokenRewards.PayoutsCoverWholeTime`, `TokenRewards.OneAccrualIsPaidThrice`).
- The `admin` who creates an airdrop signs, but is never compared with the stored one
  (contracts/token/src/airdrop.rs:29-39), and claims mint: anybody can issue tokens up to the maximum supply
  (`TokenSupply.AnybodyCanMintByAirdrop`).
- A transfer of a course NFT grants access to the new owner (contracts/nft/src/lib.rs:179-182) and takes it from nobody:
  former owners keep theirs until it is revoked (`NftSpec.FormerOwnerKeepsAccess`).
- A decay of its own stores the lower score but not its level (contracts/reputation/src/lib.rs:138-150), while
  `get_reputation_level` computes it from the decayed score (`ReputationUpdates.LevelsOutliveDecay`).

## Properties that hold only under a condition

- Pool soundness: exactly when no first provision of negative amounts is accepted (`PoolBacking.RunsAreSoundIff`,
  counterexample `PoolTrades.NegativeProvisionIsAccepted`).
- Backing over runs that empty the pool: exactly when each later first provision is backed at least as well
  (`PoolBacking.BackingFallsOnlyAtFirstProvision`, counterexample `PoolTrades.BackingMayFallThroughAnEmptyPool`).
- Add and remove without profit at first provision: exactly when the reserves were empty
  (`PoolTrades.FirstProvisionRoundTripIff`, counterexample `PoolTrades.StrayReserveGoesToTheFirstProvider`).
- Conservation of swap fees: exactly when no swap of the run saturates the accumulator
  (`PoolTrades.FeesAreConservedIff`, counterexample `PoolTrades.FullAccumulatorIsReachable`).
- An approval counts in its session: exactly when the approver's last approval was not for the same lock time
  (`Emergency.CountIsDistinctApprovals`, counterexample `Emergency.ReusedLockTimeIsReachable`).
- Campaign solvency: exactly when no call of `CampaignSolvency.Unbalances` is accepted (`CampaignSolvency.RunsAreSolventIff`,
  counterexample `CampaignSolvency.ForeignTokenIsCredited`).
- Withdrawal of a successful campaign: exactly when the cliff has passed and the matches granted and full refunds paid,
  less what clones cleared, do not exceed the insurance pool and the part not paid yet
  (`CampaignPayout.WithdrawalNeedsBeyondCovered`, counterexample `CampaignPayout.MatchedCampaignIsStuck`).
- Refunds open after a withdrawal: at every later time exactly when the campaign is cancelled or its total is below the
  goal, while no extension is carried and nothing cloned (`CampaignAftermath.WithdrawnIsRefundableIff`, counterexample
  `CampaignAftermath.ExtensionClosesRefundsAgain`).
- Deadlines that only move later: exactly when no clone and no outdated proposal moves one back
  (`CampaignConditions.DeadlineNeverFallsIff`, counterexample `CampaignConditions.OutdatedProposalShortens`).
- Step vesting behind linear vesting: exactly when there are steps and they divide the duration or outnumber its ledgers
  (`VestingCurves.StepNeverAheadIff`, counterexample `VestingCurves.StepRunsAhead`).
- Claiming often against claiming once: exactly when the last claim fits under the supply cap or no earlier one has
  anything to mint within it (`TokenClaims.ClaimingOftenIsClaimingOnceIff`, counterexample
  `TokenClaims.ClaimingOftenMintsMore`).
- Each ledger's reward is paid at most once: exactly when at most one payout of a stake is positive
  (`TokenRewards.RewardsPaidOnceIff`, counterexample `TokenRewards.OneAccrualIsPaidThrice`).
- Balances and open stakes against the supply: up to a drift that is computed exactly (`TokenSupply.SupplyIsConserved`),
  and equal exactly when no stake is replaced and no unstake pays rewards other than its own penalty
  (`TokenSupply.BooksBalanceIff`).
- A non-negative supply: exactly when no accepted burn takes more than the supply (`TokenSupply.SupplyIsNonNegativeIff`,
  counterexample `TokenSupply.SupplyCanTurnNegative`).
- Total reputation as the sum of scores: exactly when `ReputationTotals.Unbooked` is 0 for every call, that is, when the
  decay an update applies equals what the floor at 0 forgives (`ReputationTotals.TotalIsSumIff`, counterexample
  `ReputationTotals.TotalCanTurnNegative`).

## Model

Calls that only check a guard and store their argument (pausing, rates, limits, plans, delegations and the like) are in
the specification and the classes, but have no row of their own; nor do the lemmas that say so.

| member | source | states |
|---|---|---|
| `IntegerSqrt.Sqrt` | contracts/liquidity_pool/src/lib.rs:493-504 | the Newton loop terminates; a negative input comes back unchanged, any other `x` yields the one `y` with `y*y <= x < (y+1)*(y+1)` |
| `IntegerSqrt.NewtonStepStaysAbove` | contracts/liquidity_pool/src/lib.rs:498-502 | one Newton step from any positive guess stays at or above the floor of the root, so the loop cannot undershoot |
| `IntegerSqrt.FloorSqrtUnique` | contracts/liquidity_pool/src/lib.rs:493-504 | the floor square root is unique, so the loop can be compared with the plain definition |
| `PoolBacking.RunsAreSoundIff` | contracts/liquidity_pool/src/lib.rs:152-347 | over any run from a fresh pool every state has non-negative reserves, positions summing to the total and `total^2 <= reserve_a * reserve_b`, if and only if no first provision of negative amounts was accepted |
| `PoolBacking.StepKeepsSoundIff` | contracts/liquidity_pool/src/lib.rs:152-347 | each call keeps those facts, except exactly an accepted first provision with a negative amount of A |
| `PoolBacking.BackingNeverFalls` | contracts/liquidity_pool/src/lib.rs:152-347 | while shares are never all withdrawn, `reserve_a * reserve_b / total^2` at the end of any run is at least that at its start, despite all rounding |
| `PoolBacking.BackingFallsOnlyAtFirstProvision` | contracts/liquidity_pool/src/lib.rs:169-202 | with emptied pools allowed: backing stays at or above its start along the whole run if and only if every first provision into an emptied pool mints shares backed at least as well; no other call can lower it |
| `PoolBacking.StepBackedIff` | contracts/liquidity_pool/src/lib.rs:152-347 | the same for one call: only a first provision can go below the starting backing, and exactly when its two amounts say so |
| `PoolBacking.FirstProvision` | contracts/liquidity_pool/src/lib.rs:169-202 | an accepted first provision leaves a sound pool if and only if the amount of A is not negative |
| `PoolBacking.LaterProvision` | contracts/liquidity_pool/src/lib.rs:174-202 | a later deposit keeps the pool sound and its backing, although matched amounts and shares are rounded |
| `PoolBacking.Withdrawal` | contracts/liquidity_pool/src/lib.rs:235-255 | an accepted withdrawal burns a positive number of the caller's own shares, pays a positive part of each reserve and not more than it, and keeps backing |
| `PoolBacking.Swapping` | contracts/liquidity_pool/src/lib.rs:300-330 | a swap keeps the pool sound and backed and leaves the shares alone |
| `PoolBacking.SwapMovesReserves` | contracts/liquidity_pool/src/lib.rs:300-330 | for reserves that may be zero: a swap in either direction never lowers the product, keeps positive reserves positive and a zero product zero |
| `PoolBacking.SwapOutput` | contracts/liquidity_pool/src/lib.rs:300-316 | the output is between 0 and the output reserve, below it when both reserves are positive, and the product of the new reserves covers the old |
| `PoolBacking.DepositProportion` | contracts/liquidity_pool/src/lib.rs:199-202 | the shares minted for a later deposit never exceed either asset's proportion, so each reserve grows at least as fast as the shares |
| `PoolTrades.SwapKeepsProduct` | contracts/liquidity_pool/src/lib.rs:300-330 | with both reserves positive a swap pays strictly less than the output reserve and the product does not fall |
| `PoolTrades.SwapRoundTrip` | contracts/liquidity_pool/src/lib.rs:300-316 | swapping the proceeds straight back returns at most the original input |
| `PoolTrades.SplittingASwapNeverPaysMore` | contracts/liquidity_pool/src/lib.rs:300-316 | two consecutive swaps of `x` and `y` never pay more than one swap of `x + y` |
| `PoolTrades.SplitAmounts` | contracts/liquidity_pool/src/lib.rs:300-316 | the arithmetic of that comparison, with both floors and the fee on each part |
| `PoolTrades.SwapAgainstEmptyReserve` | contracts/liquidity_pool/src/tests.rs:135-142 | with nothing on the input side, in either direction, a swap is accepted if and only if swaps are enabled, the pool is not drained, the amount is positive and the other reserve meets the minimum; it pays that whole reserve; the test expects a panic |
| `PoolTrades.MatchingBNeverNeedsMoreA` | contracts/liquidity_pool/src/lib.rs:180 | the assertion at this line cannot fail once reserves are positive, whatever the signs of the amounts |
| `PoolTrades.MatchedWithinOffer` | contracts/liquidity_pool/src/lib.rs:169-192 | the matched amounts never exceed the desired ones, meet both minima, and one of them equals the offer |
| `PoolTrades.DepositRoundTrip` | contracts/liquidity_pool/src/lib.rs:169-255 | adding to a pool with shares and at once removing the minted shares returns no more of either asset than was deposited |
| `PoolTrades.FirstProvisionRoundTripIff` | contracts/liquidity_pool/src/lib.rs:169-255 | a first provider (returning ones too) gets back the whole reserves on removing all shares, so no more than deposited if and only if the reserves were empty |
| `PoolTrades.StrayReserveIsReachable` | contracts/liquidity_pool/src/lib.rs:300-330 | one swap on a fresh pool leaves a reserve of 1000 and no shares |
| `PoolTrades.StrayReserveGoesToTheFirstProvider` | contracts/liquidity_pool/src/lib.rs:169-255 | from there a first provision of 2000 of each asset is paid back as 3000 and 2000 |
| `PoolTrades.NegativeProvisionIsAccepted` | contracts/liquidity_pool/src/lib.rs:169-197 | a concrete first provision of -2000 of each asset is accepted and breaks the pool invariant |
| `PoolTrades.BackingMayFallThroughAnEmptyPool` | contracts/liquidity_pool/src/lib.rs:194-197 | a concrete run on which the last share leaves and the next first provision is backed less well |
| `PoolTrades.DrainIsFinal` | contracts/liquidity_pool/src/lib.rs:453-482 | after the drain nothing but the fee counter can change, whatever is called |
| `PoolTrades.FeesAreAccounted` | contracts/liquidity_pool/src/lib.rs:318-324 | over any run the fees of all recorded swaps were collected, are still accumulated, or were dropped by a swap that saturated the accumulator |
| `PoolTrades.FeesAreConservedIff` | contracts/liquidity_pool/src/lib.rs:318-324 | so fees are conserved on a run if and only if no swap of it finds too little room in the accumulator |
| `PoolTrades.FullAccumulatorLosesFees` | contracts/liquidity_pool/src/lib.rs:321-324 | any swap into a full accumulator is recorded with its fee, and the fee is lost |
| `PoolTrades.FullAccumulatorIsReachable` | contracts/liquidity_pool/src/lib.rs:300-330 | from a fresh pool a run of swaps alone fills the accumulator, and the fee of the next large swap is recorded and lost |
| `PoolAmounts.SwapPaysTheFloor` | contracts/liquidity_pool/src/lib.rs:269-347 | in either direction a swap of `x` pays `997*x*rOut / (1000*rIn + 997*x)` rounded down, takes `3*x/1000` as fee, moves both reserves and notes the record; it is refused for its output exactly when that floor is below what the caller asks |
| `PoolAmounts.SwapPaysTheMost` | contracts/liquidity_pool/src/lib.rs:300-316 | that floor is the most the product formula admits: an amount is at most the output if and only if paying it leaves the product of the reserves covered with 997 of every 1000 tokens counted |
| `PoolAmounts.DepositMintsTheMost` | contracts/liquidity_pool/src/lib.rs:152-222 | a later deposit keeps one asset as offered and the other converted at the reserves; it is refused exactly for a missing reserve, a minimum or for not covering one share, and otherwise mints the most shares both kept amounts cover, to the provider alone |
| `PoolAmounts.FirstDepositMintsTheRoot` | contracts/liquidity_pool/src/lib.rs:169-206 | a first deposit mints the root of the product of both amounts, rounded down, less 1000, and is refused exactly for a minimum, a negative product or a root up to 1000 |
| `PoolAmounts.RemovalPaysTheFloors` | contracts/liquidity_pool/src/lib.rs:224-263 | removing shares pays the floors of both parts, and is accepted exactly when the caller has the shares and both are positive |
| `PoolAmounts.AdminTakesExactly` | contracts/liquidity_pool/src/lib.rs:426-482 | only the admin collects, all fees at once, or drains, both reserves in their order, once |
| `PoolAmounts.ReservesFollowFlows` | contracts/liquidity_pool/src/lib.rs:152-482 | over any run each reserve moves by exactly the amounts the accepted calls take in and report to pay |
| `LiquidityPool.PoolContract.constructor` | contracts/liquidity_pool/src/lib.rs:104-146 | a new pool is empty, with all three operations enabled |
| `LiquidityPool.PoolContract.MatchOffer` | contracts/liquidity_pool/src/lib.rs:169-192 | trims an offer to the pool's ratio, checking the minima in the order of the code |
| `LiquidityPool.PoolContract.MintedShares` | contracts/liquidity_pool/src/lib.rs:194-206 | shares from the Newton root for a first provision and from the smaller proportion later |
| `LiquidityPool.PoolContract.AddLiquidity` | contracts/liquidity_pool/src/lib.rs:152-222 | mints the specified shares into reserves, position, total and the pool's own minimum entry, or fails with the specified error and changes nothing |
| `LiquidityPool.PoolContract.RemoveLiquidity` | contracts/liquidity_pool/src/lib.rs:224-263 | burns shares and pays both assets as specified, or changes nothing |
| `LiquidityPool.PoolContract.Swap` | contracts/liquidity_pool/src/lib.rs:269-347 | moves both reserves, accumulates the fee with saturation and appends the record as specified, or changes nothing |
| `LiquidityPool.PoolContract.CollectFees` | contracts/liquidity_pool/src/lib.rs:426-443 | hands the whole accumulated fee to the admin and clears it, or changes nothing |
| `LiquidityPool.PoolContract.EmergencyDrain` | contracts/liquidity_pool/src/lib.rs:453-482 | clears reserves and total but not positions, disables all operations, once |
| `RateLimiter.IntervalBound` | contracts/crowdfund/src/lib.rs:469-504 | contributions of one address accepted within any `window_seconds` add up to at most twice `max_amount`, whatever window was open before |
| `RateLimiter.StretchBound` | contracts/crowdfund/src/lib.rs:469-504 | the same for any stretch of a longer run |
| `RateLimiter.AnchoredWindowBound` | contracts/crowdfund/src/lib.rs:469-504 | from the contribution that opens a window until the window ends they add up to at most `max_amount` |
| `RateLimiter.OneWindow` | contracts/crowdfund/src/lib.rs:473-503 | inside the open window the counter is the sum of what was accepted and stays within the maximum |
| `RateLimiter.TwoWindows` | contracts/crowdfund/src/lib.rs:473-503 | up to twice the window length past an anchor at most one further window opens |
| `RateLimiter.WindowsAreNotRolling` | contracts/crowdfund/src/lib.rs:1256-1260 | for every active limit a concrete pair of contributions one window length apart reaches twice the maximum, so the window is not the rolling one its documentation names |
| `RateLimiter.TimeZeroIsUnlimited` | contracts/crowdfund/src/lib.rs:476-478 | at timestamp 0 the anchor reads as "none", so any number of maximal contributions is accepted |
| `RateLimiter.AdmittedIff` | contracts/crowdfund/src/lib.rs:469-504 | a run of contributions is admitted if and only if after each of them the amounts since the entry that opened its window, found from the times alone, are within the maximum: nothing more is admitted and nothing less |
| `RateLimiter.NextAdmittedIff` | contracts/crowdfund/src/lib.rs:484-496 | so one more contribution is admitted if and only if within the window everything since its opening adds up with it to at most the maximum, and outside of it its own amount does |
| `CampaignLimits.RateLimitHolds` | contracts/crowdfund/src/lib.rs:469-504 | over any run of campaign calls of any kind under a fixed limit, the contributions a contributor gets accepted obey both bounds |
| `CampaignLimits.RateLimitIsExact` | contracts/crowdfund/src/lib.rs:469-504 | after any run of campaign calls a contribution fails with `RateLimitExceeded` only when what was accepted from the address in the window still open, with it, passes the maximum, and is accepted only when it does not |
| `CampaignLimits.AcceptedAreAdmitted` | contracts/crowdfund/src/lib.rs:385-504 | the contributions accepted in such a run are exactly ones the limiter admits, in time order |
| `CampaignLimits.WindowsStaySane` | contracts/crowdfund/src/lib.rs:469-504 | stored windows never lie in the future and never hold a negative amount, over any run with limit changes, so the bounds apply from every reachable state |
| `CampaignLimits.HistoryRecordsAccepted` | contracts/crowdfund/src/lib.rs:609-626 | the stored contribution history is the list of exactly the accepted contributions, in order |
| `Emergency.CountIsDistinctApprovals` | contracts/crowdfund/src/lib.rs:1340-1558 | in an open session the approval count equals the number of distinct listed addresses that approved since the latest initiate, less exactly those whose last approval was for the same, reused lock time |
| `Emergency.ExecutionNeedsApprovals` | contracts/crowdfund/src/lib.rs:1372-1394 | an execution succeeds only after the lock period and, when approvals are required, after that many distinct then-listed approvers, even when a lock time is reused |
| `Emergency.ExecutionNeedsInitiate` | contracts/crowdfund/src/lib.rs:1377-1380 | without an initiate in the whole history no execution succeeds |
| `Emergency.ApprovalIff` | contracts/crowdfund/src/lib.rs:1497-1558 | an approval is accepted exactly from a listed approver of an open session, and counted unless marked with its lock time |
| `Emergency.ExecutionIff` | contracts/crowdfund/src/lib.rs:1372-1394 | after an initiate and any calls without another one an execution succeeds if and only if the session was not closed, its lock time is over, and the distinct approvers not marked before are as many as required |
| `Emergency.ReusedLockTimeBlocksExecution` | contracts/crowdfund/src/lib.rs:1519-1540 | when a later session reuses a lock time and too few other addresses are ever listed, it can never execute: earlier approvers are not counted again |
| `Emergency.ReusedLockTimeIsReachable` | contracts/crowdfund/src/lib.rs:1340-1558 | a concrete history from an unused guard: the only approver approves a second session with the lock time of the first, is not counted, and the execution fails |
| `CampaignLimits.EmergencyNeedsApprovals` | contracts/crowdfund/src/lib.rs:1340-1558 | the same safety for the whole campaign, after an initiate and any run of calls of any kind |
| `CampaignLimits.GuardFollowsRun` | contracts/crowdfund/src/lib.rs:1340-1558 | over any run the emergency part of the campaign moves only through the five emergency calls |
| `CampaignVoting.TallyIsBallots` | contracts/crowdfund/src/lib.rs:2115-2170 | over any run of any calls the votes on a proposal grow by exactly the weights the voters' contributions had when they voted, each address counted at most once and never one already marked |
| `CampaignVoting.ExtensionNeedsMajority` | contracts/crowdfund/src/lib.rs:2071-2214 | an execution that moves the deadline after a proposal comes after the voting period, sets the proposed deadline, and rests on a weighted majority of distinct addresses, whatever else was called |
| `CampaignVoting.ExtensionIff` | contracts/crowdfund/src/lib.rs:2181-2214 | and nothing else is needed: an execution moves the deadline if and only if seven days are over, none was accepted before, and the ballots for it weigh more than half of all |
| `CampaignVoting.VoteIff` | contracts/crowdfund/src/lib.rs:2115-2140 | a vote is accepted for seven days, from anybody not marked with the time of the proposal |
| `CampaignVoting.SameInstantProposalBlocksVoters` | contracts/crowdfund/src/lib.rs:2130-2138 | who voted on a proposal cannot vote on another one made at the same timestamp, for the marker is that timestamp only |
| `CampaignSolvency.RunsAreSolventIff` | contracts/crowdfund/src/lib.rs:385-679 | over any run (votes, rewards, clones and settings included): tokens held equal the contributions plus the insurance pool, and the pool equals the fees, in every state, if and only if no call credited a foreign token (accepted contributions on a token list included), restarted a filled pool, paid a reward in the campaign's own token, or paid funds out |
| `CampaignSolvency.LivesAreSolventIff` | contracts/crowdfund/src/lib.rs:241-352 | the same for the whole life of every campaign that `initialize` accepts |
| `CampaignSolvency.StepKeepsSolventIff` | contracts/crowdfund/src/lib.rs:1986-2037 | the same for each single call (contribute, recurring, delegated, refunds, claims, closing, votes, rewards, clones, administration) |
| `CampaignSolvency.RefundOneSucceeds` | contracts/crowdfund/src/lib.rs:1168-1184 | with balanced books a refund can always be paid; it pays the whole contribution and leaves everyone else alone |
| `CampaignSolvency.ClaimOneSucceeds` | contracts/crowdfund/src/lib.rs:3611-3633 | with balanced books the `InsufficientFunds` branch is dead and a claim pays exactly the fees paid in |
| `CampaignSolvency.CancelledStaysOpen` | contracts/crowdfund/src/lib.rs:1149-1166 | once cancelled, a campaign stays open for refunds over any run that neither archives nor clones it |
| `CampaignSolvency.ArchivingMayCloseRefunds` | contracts/crowdfund/src/lib.rs:1068-1098 | archiving a cancelled campaign closes its refunds if and only if the deadline is ahead or the goal is reached |
| `CampaignSolvency.CloningClosesRefunds` | contracts/crowdfund/src/lib.rs:3889-3961 | cloning resets this same contract: it closes refunds whatever the status was, and leaves every contribution and fee owed as it is |
| `CampaignSolvency.RewardsUnbalanceIff` | contracts/crowdfund/src/lib.rs:3698-3758 | distributing a reward leaves the books balanced if and only if it takes nothing out of the campaign's own token |
| `CampaignSolvency.ForeignTokenIsCredited` | contracts/crowdfund/src/lib.rs:2531-2655 | a concrete life in which a foreign token is credited and its refund cannot be paid |
| `CampaignSolvency.WithdrawUnbalancesIff` | contracts/crowdfund/src/lib.rs:709-778 | a withdrawal leaves the books balanced if and only if it pays out nothing |
| `CampaignSolvency.EmergencyUnbalancesIff` | contracts/crowdfund/src/lib.rs:1396-1405 | an emergency execution leaves them balanced if and only if the total is not positive |
| `CampaignSolvency.InsuranceUnbalancesIff` | contracts/crowdfund/src/lib.rs:3511-3536 | enabling insurance (again) leaves them balanced if and only if the pool is empty |
| `CampaignSettlement.SettlementInAnyOrder` | contracts/crowdfund/src/lib.rs:1149-1255 | with balanced books and open refunds every sequence of refunds, batches and claims is accepted call by call, each contributor is paid exactly what is owed, once, and nothing but the books changes |
| `CampaignSettlement.FullSettlementEmptiesTheContract` | contracts/crowdfund/src/lib.rs:3594-3643 | when everyone owed something has been refunded and has claimed, the contract holds zero and the pool is zero |
| `CampaignSettlement.CancelledCampaignPaysEverythingBack` | contracts/crowdfund/src/lib.rs:1019-1255 | after any run without the calls that unbalance, cancelling lets contributors recover exactly everything in any order |
| `CampaignSettlement.BatchIsRepeatedRefundSingle` | contracts/crowdfund/src/lib.rs:1201-1255 | a batch is `refund_single` on the first min(25, n) entries in order: accepted if and only if all those are, with the same state and payouts |
| `CampaignSettlement.PaidEntriesAreDistinct` | contracts/crowdfund/src/lib.rs:1224-1243 | the counter of the batch loop equals the number of distinct addresses in the prefix with a positive contribution, duplicates paid once |
| `Validation.PartialRefundsReach` | contracts/crowdfund/src/validation.rs:241-247 | repeated partial refunds can leave exactly the amounts from 1 to the whole contribution: never nothing, but far below half |
| `Validation.HalvingRefunds` | contracts/crowdfund/src/validation.rs:241-247 | for every such remainder it constructs a run of accepted partial refunds that reaches it |
| `CampaignPayout.RaisedIsAccounted` | contracts/crowdfund/src/lib.rs:542-577 | over every run the raised total differs from the contributions by exactly the matches granted and the full refunds paid, less what payouts and clones cleared; without those it never falls behind them |
| `CampaignPayout.WithdrawNeedsPaidHeld` | contracts/crowdfund/src/lib.rs:709-778 | in any state with a positive goal and a platform fee within 100%, which `initialize` checks and every call keeps, a withdrawal succeeds if and only if its documented conditions hold, the cliff has passed, and fee plus vested payout are held |
| `CampaignPayout.WithdrawalNeedsBeyondCovered` | contracts/crowdfund/src/lib.rs:709-778 | after a run that keeps the campaign solvent, that is: matches granted and full refunds paid, less what clones cleared, are covered by the insurance pool and the unvested rest; matched amounts are counted, but no sponsor tokens ever arrive |
| `CampaignPayout.WithdrawalNeedsMatchesCovered` | contracts/crowdfund/src/lib.rs:709-778 | once everything is vested, by the insurance pool alone |
| `CampaignPayout.LifeNeedsMatchesCovered` | contracts/crowdfund/src/lib.rs:241-778 | the same condition for the whole life of a campaign that `initialize` accepts |
| `CampaignPayout.EmergencyNeedsTotalHeld` | contracts/crowdfund/src/lib.rs:1372-1410 | with balanced books an emergency execution that passes its guard succeeds if and only if what is raised beyond the contributions does not exceed the insurance pool |
| `CampaignPayout.MatchedCampaignIsStuck` | contracts/crowdfund/src/lib.rs:1716-1720 | a concrete campaign that reaches its goal through a match and cannot be withdrawn |
| `CampaignAftermath.WithdrawnIsRefundableIff` | contracts/crowdfund/src/lib.rs:1149-1166 | after an accepted withdrawal and any further calls refunds are open if and only if the campaign is cancelled, or the deadline is over and the cleared total below the goal; without clones and carried extensions the deadline stays over and the goal is the one the campaign met, so the cleared total alone decides |
| `CampaignAftermath.WithdrawnStaysRefundable` | contracts/crowdfund/src/lib.rs:1149-1166 | without recurring instalments, carried extensions and clones they are open for ever |
| `CampaignAftermath.ExtensionClosesRefundsAgain` | contracts/crowdfund/src/lib.rs:2071-2214 | a concrete life in which one contributor's vote after the withdrawal moves the deadline, and refunds and insurance claims that were open close again |
| `CampaignAftermath.RefundDrainsTheInsurance` | contracts/crowdfund/src/lib.rs:709-1185 | a concrete life in which a withdrawn campaign pays a refund out of the insurance pool, and the claim of another contributor then fails |
| `CampaignAftermath.RefundAfterWithdrawal` | contracts/crowdfund/src/lib.rs:1168-1184 | after a withdrawal and any refunds, batches and claims the next refund is accepted if and only if what is still owed exceeds what was paid out by its amount, and it leaves the insurance pool short by however much that payout exceeds the contributions left |
| `CampaignAftermath.RefundComesFromThePool` | contracts/crowdfund/src/lib.rs:1168-1184 | with only contributions raised and all vested, the first one is accepted if and only if the pool covers it, and the pool is then short by exactly the refund |
| `CampaignMoney.WithdrawPays` | contracts/crowdfund/src/lib.rs:709-778 | a withdrawal is accepted exactly when status, deadline, cliff and goal allow it and both amounts are held; the platform's wallet grows by its basis points of the total, rounded down, the creator's by the vested part of the rest, and no other wallet, debt or setting changes |
| `CampaignMoney.EmergencyPays` | contracts/crowdfund/src/lib.rs:1372-1410 | an emergency execution is accepted exactly when lock, approvals and holdings allow it, and pays the whole total to the creator and nobody else |
| `CampaignMoney.ContributeAccepted` | contracts/crowdfund/src/lib.rs:385-520 | a contribution is accepted exactly under the listed conditions, within the rate limit and with the tokens at hand |
| `CampaignMoney.ContributePays` | contracts/crowdfund/src/lib.rs:514-577 | the contributor pays, and nobody else; the fee in basis points goes to the insurance, the rest is the contribution, and the total grows by it and by the sponsor's basis points within what is left of the maximum match |
| `CampaignMoney.ContributionIsNoted` | contracts/crowdfund/src/lib.rs:609-626 | the history notes amount, time and the contribution as it stands then |
| `CampaignMoney.OnBehalfPays` | contracts/crowdfund/src/lib.rs:2531-2655 | accepted exactly for the active delegate within the delegated amount; the delegate pays and the delegator is credited |
| `CampaignMoney.RecurringPays` | contracts/crowdfund/src/lib.rs:1986-2037 | an instalment is accepted exactly when due and covered; the owner of the plan pays it and is credited |
| `CampaignMoney.PartialRefundPays` | contracts/crowdfund/src/lib.rs:2228-2263 | at most half of the contribution, rounded toward zero, goes to the contributor and comes off contribution and total |
| `CampaignMoney.RefundPays` | contracts/crowdfund/src/lib.rs:1149-1185 | on any books: accepted exactly when refunds are open and the contribution is held, and paid to the contributor alone |
| `CampaignMoney.ClaimPays` | contracts/crowdfund/src/lib.rs:3594-3643 | on any books: accepted exactly when refunds are open and the fees are in the pool and held, and paid to the contributor alone |
| `CampaignMoney.BatchPaysTheFirst25` | contracts/crowdfund/src/lib.rs:1201-1255 | with balanced books a batch pays everybody among its first 25 entries in full and nobody else |
| `CampaignMoney.RewardPays` | contracts/crowdfund/src/lib.rs:3698-3758 | a reward is `perUnit` for every million contributed, rounded toward zero, paid once when positive, and out of the contract only in its own token |
| `CampaignMoney.TokensAreConserved` | contracts/crowdfund/src/lib.rs:385-3961 | over any run of any calls the campaign's own tokens in the contract and the wallets add up to the same |
| `CampaignConditions.StatusFollowsTable` | contracts/crowdfund/src/lib.rs:1019-1098 | only cancel, archive, pause, resume, withdraw and clone change the status, from exactly these statuses |
| `CampaignConditions.ArchivedCanBeCancelled` | contracts/crowdfund/src/lib.rs:1019-1039 | a withdrawn campaign cannot be cancelled, but once archived it can, and its refunds are then open |
| `CampaignConditions.NeverRefunded` | contracts/crowdfund/src/lib.rs:1019-1098 | no run of calls ever sets the status `Refunded` |
| `CampaignConditions.SettingsAcceptedIff` | contracts/crowdfund/src/lib.rs:901-966 | when the calls that set conditions, plans and clones are accepted |
| `CampaignConditions.InitializeAcceptedIff` | contracts/crowdfund/src/lib.rs:241-352 | `initialize` is accepted exactly on terms that make sense and keeps them; the campaign starts active, raised nothing and owes nothing |
| `CampaignConditions.InstalmentsAreSpaced` | contracts/crowdfund/src/lib.rs:1986-2037 | over any run without a new plan the instalments of a plan come at least an interval apart and not after its end, whoever triggers them |
| `CampaignConditions.PlanBoundsInstalments` | contracts/crowdfund/src/lib.rs:1940-2037 | so a plan takes at most one instalment for every whole interval from its setup to its end |
| `CampaignConditions.CancelledPlanTakesNothing` | contracts/crowdfund/src/lib.rs:2049-2058 | after a cancellation no instalment is taken over any run without a new plan |
| `CampaignConditions.MatchWithinMaximum` | contracts/crowdfund/src/lib.rs:1732-1766 | after the setup of a match no run without another setup matches more than its maximum |
| `CampaignConditions.DelegatesStayWithinAmount` | contracts/crowdfund/src/lib.rs:2487-2655 | over any run without a new delegation everything contributed on behalf of an address counts against the delegated amount |
| `CampaignConditions.RevokedStaysRevoked` | contracts/crowdfund/src/lib.rs:2665-2690 | a revoked delegation admits nothing over any run without a new one |
| `CampaignConditions.DeadlineNeverFallsIff` | contracts/crowdfund/src/lib.rs:901-914 | the deadline never moves back on a run if and only if no clone and no execution of a proposal that the deadline has passed by moves it |
| `CampaignConditions.OutdatedProposalShortens` | contracts/crowdfund/src/lib.rs:2181-2214 | for every active campaign: a carried proposal executed after the creator has extended the deadline beyond it moves the deadline back |
| `Crowdfund.CrowdfundContract.Initialize` | contracts/crowdfund/src/lib.rs:241-352 | checks goal, deadline, contribution bounds and platform terms in the order of the code; a new campaign is active and holds nothing |
| `Crowdfund.CrowdfundContract.TransferTokenIn` | contracts/crowdfund/src/lib.rs:514-520 | takes a payment in the token the caller names; a foreign one moves nothing of the campaign's |
| `Crowdfund.CrowdfundContract.CheckRateLimit` | contracts/crowdfund/src/lib.rs:469-504 | admits a contribution exactly when the window total stays within the maximum, and computes the updated window |
| `Crowdfund.CrowdfundContract.CheckContribution` | contracts/crowdfund/src/lib.rs:393-520 | finds the first failing check in the order of the code |
| `Crowdfund.CrowdfundContract.RecordDeposit` | contracts/crowdfund/src/lib.rs:522-550 | books contribution and insurance fee to the contributor and the pool |
| `Crowdfund.CrowdfundContract.ApplyMatching` | contracts/crowdfund/src/lib.rs:557-577 | tops up by the match ratio, within what is left of the maximum match |
| `Crowdfund.CrowdfundContract.RecordHistory` | contracts/crowdfund/src/lib.rs:609-626 | stores the window and appends the accepted contribution to the history |
| `Crowdfund.CrowdfundContract.Contribute` | contracts/crowdfund/src/lib.rs:385-679 | books an accepted contribution as specified in total, books, window, history and match, or changes nothing |
| `Crowdfund.CrowdfundContract.ExecuteRecurring` | contracts/crowdfund/src/lib.rs:1986-2037 | takes one due instalment, without status, minimum or limit checks, or changes nothing |
| `Crowdfund.CrowdfundContract.ContributeOnBehalf` | contracts/crowdfund/src/lib.rs:2531-2655 | credits the delegator for tokens the delegate pays, in whatever token, or changes nothing |
| `Crowdfund.CrowdfundContract.RefundSingle` | contracts/crowdfund/src/lib.rs:1149-1185 | pays back one contribution when refunds are open; nothing happens when there is none |
| `Crowdfund.CrowdfundContract.RefundPrefix` | contracts/crowdfund/src/lib.rs:1222-1243 | the loop pays the prefix as a fold of single refunds and counts the distinct paid addresses |
| `Crowdfund.CrowdfundContract.RefundBatch` | contracts/crowdfund/src/lib.rs:1201-1255 | refunds the first min(25, n) entries and returns their distinct paid number, or changes nothing |
| `Crowdfund.CrowdfundContract.RefundPartial` | contracts/crowdfund/src/lib.rs:2228-2263 | pays back up to half of the current contribution in any status and lowers the total, or changes nothing |
| `Crowdfund.CrowdfundContract.ClaimInsurancePayout` | contracts/crowdfund/src/lib.rs:3594-3643 | pays the contributor's fees out of the pool when refunds are open, or changes nothing |
| `Crowdfund.CrowdfundContract.Withdraw` | contracts/crowdfund/src/lib.rs:709-778 | after the deadline, with the goal met, pays the platform fee and the creator's vested part and zeroes the total, or changes nothing |
| `Crowdfund.CrowdfundContract.ExecuteEmergencyWithdrawal` | contracts/crowdfund/src/lib.rs:1372-1410 | pays the total to the admin and closes the session, when time lock and approvals allow |
| `Crowdfund.CrowdfundContract.ApproveEmergencyWithdrawal` | contracts/crowdfund/src/lib.rs:1497-1558 | counts a listed approver at most once per lock time |
| `Crowdfund.CrowdfundContract.ProposeExtension` | contracts/crowdfund/src/lib.rs:2071-2101 | stores a proposal without votes, in any status, for a deadline later than the current one, or changes nothing |
| `Crowdfund.CrowdfundContract.VoteOnExtension` | contracts/crowdfund/src/lib.rs:2115-2170 | counts an unmarked voter by the contribution of the moment and marks them with the time of the proposal, or changes nothing |
| `Crowdfund.CrowdfundContract.ExecuteExtension` | contracts/crowdfund/src/lib.rs:2181-2214 | after the voting period moves the deadline if more than half of the weight approved, once and in any status, or changes nothing |
| `Crowdfund.CrowdfundContract.DistributeRewards` | contracts/crowdfund/src/lib.rs:3698-3758 | pays the reward of a contributor who was not paid a positive one yet, in the token the creator chose, or changes nothing |
| `Crowdfund.CrowdfundContract.CloneCampaign` | contracts/crowdfund/src/lib.rs:3889-3961 | resets creator, goal, deadline, total and status of this contract and nothing else, or changes nothing |
| `VestingCurves.VestedBounds` | contracts/token/src/lib.rs:771-845 | both curves lie between 0 and the total, are 0 before the cliff and the total from the end on |
| `VestingCurves.VestedMonotone` | contracts/token/src/lib.rs:771-845 | both curves never fall as the ledger advances |
| `VestingCurves.LinearIsElapsedPart` | contracts/token/src/lib.rs:771-792 | between cliff and end the linear curve is the elapsed part of the total since the start, rounded down |
| `VestingCurves.SteppedIsWholeSteps` | contracts/token/src/lib.rs:794-845 | the step curve releases one of `steps` equal parts per whole step elapsed; steps of no length release nothing before the end, and no steps everything |
| `VestingCurves.StepTrailsLinear` | contracts/token/src/lib.rs:794-845 | when the steps divide the duration, step vesting never runs ahead of linear vesting and trails it by less than `total / steps + 1`, at every ledger |
| `VestingCurves.StepNeverAheadIff` | contracts/token/src/lib.rs:794-845 | step vesting never runs ahead if and only if there are steps and they divide the duration or outnumber its ledgers |
| `VestingCurves.StepRunsAhead` | contracts/token/src/lib.rs:812-845 | otherwise it gives a ledger at which step vesting is strictly ahead |
| `VestingCurves.ClaimingOftenIsClaimingOnce` | contracts/token/src/lib.rs:491-517 | on the curves alone, claiming at any ascending ledgers ends exactly as claiming once at the last |
| `TokenClaims.ClaimsUnderTheCap` | contracts/token/src/lib.rs:491-517 | with the supply cap: claims at any ledgers, in any order, end with `claimed` at the largest vested amount the cap admits |
| `TokenClaims.ClaimingOftenIsClaimingOnceIff` | contracts/token/src/lib.rs:491-517 | so claiming often mints what one claim at the last ledger mints if and only if that one fits under the cap or no earlier one has anything to mint within it |
| `TokenClaims.CappedIsReachable` | contracts/token/src/lib.rs:202-489 | a mint and a grant of 1000 reach a state with room for 500 under the maximum supply |
| `TokenClaims.ClaimingOftenMintsMore` | contracts/token/src/lib.rs:491-517 | there claims at the middle and at the end mint 500, while one claim at the end fails and mints nothing |
| `TokenClaims.ClaimMintsVested` | contracts/token/src/lib.rs:491-517 | an accepted claim mints to the beneficiary exactly vested minus claimed; at or past the end that completes the grant |
| `TokenClaims.MintedEqualsClaimed` | contracts/token/src/lib.rs:441-565 | over any run of any calls, end-ledger changes included, the amount minted for a schedule is what `claimed` grew by, and never exceeds the grant |
| `TokenClaims.LastClaimCompletesGrant` | contracts/token/src/lib.rs:491-565 | after an accepted claim at or past the end the whole grant is minted, and nothing more ever is |
| `TokenClaims.NewScheduleIsFresh` | contracts/token/src/lib.rs:441-489 | a new version 2 schedule never replaces an existing one |
| `TokenSpec.StepKeepsSchedules` | contracts/token/src/lib.rs:362-565 | every accepted call keeps every schedule well formed: positive total, start, cliff and end in order, claimed within the total |
| `TokenSupply.SupplyIsConserved` | contracts/token/src/lib.rs:202-355 | over any run from the start no balance is negative, the supply never exceeds the maximum, and balances plus open stakes differ from the supply by exactly the drift of unstakes and overwritten stakes; `TotalStaked` differs from the open stakes by exactly the latter |
| `TokenSupply.RunAccounts` | contracts/token/src/lib.rs:202-698 | the same from any sound state |
| `TokenSupply.StepAccounts` | contracts/token/src/lib.rs:655-659 | the same for each call: an unstake shifts the equality by exactly rewards minus penalty |
| `TokenSupply.BooksBalanceIff` | contracts/token/src/lib.rs:643-698 | both equalities hold in every state of a run if and only if no accepted stake replaces an open one and no accepted unstake pays rewards other than its own penalty |
| `TokenSupply.UndisturbedRunsBalance` | contracts/token/src/staking.rs:26-131 | in particular from the start on runs without unstakes and replaced stakes, where the supply is never negative either |
| `TokenSupply.SupplyIsNonNegativeIff` | contracts/token/src/lib.rs:218-289 | from any sound state the supply is non-negative in every state of a run if and only if no accepted burn takes more than the supply |
| `TokenSupply.LockIsNotEnforced` | contracts/token/src/staking.rs:86-131 | an open stake can be withdrawn at any time; leaving `early` unset returns the full amount with rewards, never less than asking for an early withdrawal |
| `TokenSupply.OnlyIssuesRaiseSupply` | contracts/token/src/lib.rs:202-698 | only a mint, a vesting claim, a reward claim or an airdrop claim ever raises the supply |
| `TokenSupply.AnybodyCanMintByAirdrop` | contracts/token/src/airdrop.rs:29-114 | in any sound state any caller can create an airdrop whose root is a leaf of their own and mint themselves any amount within the maximum supply with an empty proof |
| `TokenRewards.PayoutsCoverWholeTime` | contracts/token/src/staking.rs:64-153 | over any run in which a staker does not stake again, every accepted claim and the unstake pay the whole accrual since staking at the current rate, whatever was paid before |
| `TokenRewards.RewardsPaidOnceIff` | contracts/token/src/staking.rs:64-153 | so whatever is paid stays within what accrued by then if and only if at most one payout of the run is positive |
| `TokenRewards.OneAccrualIsPaidThrice` | contracts/token/src/staking.rs:133-153 | from any state with room under the maximum supply two claims and an unstake at one ledger pay the accrual three times |
| `TokenRewards.AccruingStakeIsReachable` | contracts/token/src/staking.rs:26-83 | a concrete run reaches such a state: 1000 staked for 100 ledgers accrue 50 |
| `TokenSupply.SupplyCanTurnNegative` | contracts/token/src/lib.rs:655-659 | a concrete run on which rewards paid on unstaking let a later burn drive the supply to -50 |
| `TokenAllowances.TransferMovesExactly` | contracts/token/src/lib.rs:295-309 | a transfer is accepted exactly for a positive amount the sender has; it moves that amount and touches no other account or the supply, and to oneself moves nothing |
| `TokenAllowances.SpendingWithinAllowance` | contracts/token/src/lib.rs:250-355 | until the owner approves anew, everything a spender takes over any run by `transfer_from` and `burn_from` comes out of the allowance unit for unit and never exceeds it |
| `TokenAmounts.TransferFromMovesExactly` | contracts/token/src/lib.rs:334-355 | accepted exactly for a positive amount within allowance and balance; it goes from the owner to the recipient and off the one allowance, and every other balance, allowance and the supply stay |
| `TokenAmounts.BurnFromTakesExactly` | contracts/token/src/lib.rs:250-289 | the same for a burn by a spender, which takes from the owner's balance and the supply |
| `TokenAmounts.BurnTakesExactly` | contracts/token/src/lib.rs:218-248 | a burn is accepted exactly for a positive covered amount, and takes it from the caller and the supply |
| `TokenAmounts.MintIssuesExactly` | contracts/token/src/lib.rs:202-212 | a mint is accepted exactly for a positive amount within the maximum of ten to the 16 |
| `TokenAmounts.AccountsFallOnlySigned` | contracts/token/src/lib.rs:202-698 | over any run without a transfer, burn or stake of its owner an account loses no more than what spenders take by accepted calls |
| `TokenAmounts.ApprovalSetsExactly` | contracts/token/src/lib.rs:315-332 | an approval sets the one allowance to any amount from zero up, whatever it was |
| `TokenAmounts.StakeRecordsExactly` | contracts/token/src/staking.rs:26-62 | a stake is accepted exactly when positive and covered, and locked for 100 ledgers a period |
| `TokenAmounts.UnstakePaysExactly` | contracts/token/src/staking.rs:86-131 | an unstake pays stake plus the reward in millionths per token and ledger, less the penalty in basis points when leaving early before the lock ends, and closes the record |
| `TokenAmounts.RewardsAreIssuedExactly` | contracts/token/src/staking.rs:133-153 | a reward claim is accepted exactly for a positive reward within the maximum supply, and issues it to the staker |
| `TokenAmounts.EmergencyReturnsExactly` | contracts/token/src/lib.rs:670-698 | only the admin can return a stake, and all of it goes to the staker |
| `TokenAmounts.VestingStartsNow` | contracts/token/src/lib.rs:441-489 | a version 2 schedule is accepted exactly for a positive total with the cliff not in the past and before the end, and starts at the ledger of the call under the next id |
| `TokenAmounts.FirstVestingStartsNow` | contracts/token/src/lib.rs:362-390 | the same for a version 1 schedule, which replaces an earlier one |
| `TokenAmounts.VestingClaimIssuesExactly` | contracts/token/src/lib.rs:393-419 | a version 1 claim is accepted exactly when something new is vested and fits under the maximum supply, and issues it to the beneficiary |
| `TokenAmounts.SecondVestingClaimIssuesExactly` | contracts/token/src/lib.rs:491-517 | the same for a version 2 claim |
| `TokenAmounts.AirdropIssuesExactly` | contracts/token/src/airdrop.rs:64-114 | an airdrop claim is accepted exactly once per recipient, for a proof that folds to the root, within expiry, campaign total and maximum supply, and issues the amount to the recipient |
| `TokenAmounts.RecoveryReportsExactly` | contracts/token/src/airdrop.rs:116-142 | a recovery reports the unclaimed rest exactly from the first ledger after the expiry |
| `Merkle.VerifyMerkleProof` | contracts/token/src/airdrop.rs:168-179 | the loop accepts exactly the proofs whose fold from the leaf is the root |
| `Merkle.FoldDeterminesInput` | contracts/token/src/airdrop.rs:168-187 | folding over equally many siblings is injective, or the two folds collide at a node computed from the proofs |
| `Merkle.AcceptedProofsAgree` | contracts/token/src/airdrop.rs:168-187 | of two accepted proofs for one root the shorter is the tail of the longer, and for equal lengths leaf and siblings agree, or their shared nodes collide |
| `Merkle.FoldAppend` | contracts/token/src/airdrop.rs:168-187 | one more sibling is hashed on the right of what the shorter proof gives |
| `Merkle.ProofPathFixesClaim` | contracts/token/src/airdrop.rs:161-187 | a root accepts one recipient and amount per proof path, or the two accepted claims exhibit a collision of leaves or nodes |
| `TokenClaims.AirdropPaysOnce` | contracts/token/src/airdrop.rs:64-114 | over any run each recipient is paid at most once per campaign and `claimed_amount` grows by exactly the accepted claims, within the total |
| `TokenClaims.RecoveryIsStable` | contracts/token/src/airdrop.rs:116-142 | after expiry every recovery, after any further calls, reports the same `total - claimed` |
| `TokenClaims.ExpiredCampaignStays` | contracts/token/src/airdrop.rs:64-142 | after its expiry no call changes a campaign |
| `TokenContract.BstToken.constructor` | contracts/token/src/lib.rs:170-178 | a new token has no balances, default staking parameters and no schedules |
| `TokenContract.BstToken.Mint` | contracts/token/src/lib.rs:202-212 | adds a positive amount to balance and supply within the maximum, or changes nothing |
| `TokenContract.BstToken.Burn` | contracts/token/src/lib.rs:218-248 | takes a positive amount from balance and supply and updates the statistics, or changes nothing |
| `TokenContract.BstToken.BurnFrom` | contracts/token/src/lib.rs:250-289 | the same out of an allowance |
| `TokenContract.BstToken.Transfer` | contracts/token/src/lib.rs:295-309 | moves a positive amount between balances (to oneself too), or changes nothing |
| `TokenContract.BstToken.TransferFrom` | contracts/token/src/lib.rs:334-355 | moves tokens out of an allowance, or changes nothing |
| `TokenContract.BstToken.CreateVesting` | contracts/token/src/lib.rs:362-390 | stores a well formed linear schedule, replacing an earlier one |
| `TokenContract.BstToken.ClaimVesting` | contracts/token/src/lib.rs:393-419 | mints what is vested and unclaimed, refusing to mint nothing |
| `TokenContract.BstToken.CreateVestingV2` | contracts/token/src/lib.rs:441-489 | stores a well formed schedule under the next id of the beneficiary |
| `TokenContract.BstToken.ClaimVestingV2` | contracts/token/src/lib.rs:491-517 | mints what is vested and unclaimed of one schedule |
| `TokenContract.BstToken.ModifyVestingV2` | contracts/token/src/lib.rs:540-565 | moves the end of a schedule, within the code's checks |
| `TokenContract.BstToken.StakeTokens` | contracts/token/src/staking.rs:26-62 | takes the amount from the balance into a stake record, replacing an open one, and adds it to `TotalStaked` |
| `TokenContract.BstToken.CalculateRewards` | contracts/token/src/staking.rs:64-83 | amount times rate times all ledgers since the stake was made, over a million, rounded toward zero; 0 without a stake |
| `TokenContract.BstToken.Unstake` | contracts/token/src/staking.rs:86-131 | pays stake plus rewards minus penalty to the balance without touching the supply, and removes the record |
| `TokenContract.BstToken.ClaimStakingRewards` | contracts/token/src/staking.rs:133-153 | mints the whole accrual and records it, leaving amount and start of the stake as they were |
| `TokenContract.BstToken.EmergencyWithdraw` | contracts/token/src/lib.rs:670-698 | returns the staked amount without rewards |
| `TokenContract.BstToken.CreateAirdrop` | contracts/token/src/airdrop.rs:29-62 | stores a campaign under the next id |
| `TokenContract.BstToken.ClaimAirdrop` | contracts/token/src/airdrop.rs:64-114 | pays a recipient with a valid proof once, within total and expiry, or changes nothing |
| `TokenContract.BstToken.RecoverUnclaimedAirdrop` | contracts/token/src/airdrop.rs:116-142 | reports the unclaimed amount after expiry |
| `Leaderboard.InsertionSort` | contracts/reputation/src/lib.rs:238-255 | the in-place nested loops leave the array as the stable descending ranking of what it held |
| `Leaderboard.SiftDown` | contracts/reputation/src/lib.rs:241-254 | the inner loop of adjacent swaps inserts one record behind all of at least its score |
| `Leaderboard.RankedIsStableRanking` | contracts/reputation/src/lib.rs:238-255 | the ranking is descending in the score, and records of equal score keep their order |
| `Leaderboard.StableRankingIsUnique` | contracts/reputation/src/lib.rs:238-255 | there is only one such arrangement, so the sort is fully determined |
| `Leaderboard.RankedPermutes` | contracts/reputation/src/lib.rs:238-255 | the ranking is a permutation of the records |
| `ReputationSpec.LeaderboardIsExact` | contracts/reputation/src/lib.rs:226-262 | for every limit the board is the first min(limit, n) entries of the one stable descending arrangement of all n stored records |
| `ReputationSpec.EachUserOnce` | contracts/reputation/src/lib.rs:226-262 | each updated user has exactly one entry on the full board, with the stored record |
| `ReputationSpec.BoardUsersAreUpdated` | contracts/reputation/src/lib.rs:286-294 | after any run the listed users are exactly those with an accepted update, without duplicates |
| `ReputationSpec.RunKeepsIndexed` | contracts/reputation/src/lib.rs:69-175 | over any run from any consistent state the user list stays exact and scores stay between 0 and the `i128` maximum |
| `ReputationSpec.DecayingOftenNeverCostsMore` | contracts/reputation/src/lib.rs:272-284 | with a rate that takes away, decaying at any intermediate ledgers never leaves a lower score than decaying once at the end, and at most one period more per extra application |
| `ReputationSpec.TouchingOftenNeverCostsMore` | contracts/reputation/src/lib.rs:69-175 | the same for the calls themselves, over any run: separate decays and updates by 0 (which restart the clock even with no period complete) leave a user no lower score than leaving the record alone, and at most one period's decay more per accepted call |
| `ReputationSpec.IntermediateDecay` | contracts/reputation/src/lib.rs:272-284 | the same for one intermediate ledger |
| `ReputationSpec.DecayIsIdempotent` | contracts/reputation/src/lib.rs:272-284 | a second decay at the same ledger changes nothing |
| `ReputationSpec.ViewEqualsStored` | contracts/reputation/src/lib.rs:120-175 | `get_reputation` reports exactly the score `apply_decay` leaves stored |
| `ReputationTotals.TotalFollowsScores` | contracts/reputation/src/lib.rs:69-175 | over any run the stored total differs from the sum of all scores by exactly the decay that updates applied unbooked, less what the floor at 0 forgave |
| `ReputationTotals.TotalIsSumIff` | contracts/reputation/src/lib.rs:92-112 | from the start the total is the sum of the scores in every state if and only if no update leaves such a remainder |
| `ReputationTotals.TotalCanTurnNegative` | contracts/reputation/src/lib.rs:94-112 | a concrete first update below zero leaves a score of 0 and a negative total |
| `ReputationUpdates.UpdateStoresExactly` | contracts/reputation/src/lib.rs:69-118 | an update is accepted exactly when the admin makes it and nothing overflows; it adds the change, up or down, to the score decayed by the rate per whole interval, floors at 0, and stores the level of the new score, the clock, the count and the list entry |
| `ReputationUpdates.DecayStoresExactly` | contracts/reputation/src/lib.rs:138-175 | a separate decay stores the decayed score and books the difference exactly when there is one, and the view reports the same score |
| `ReputationUpdates.ZeroIntervalFails` | contracts/reputation/src/lib.rs:272-284 | with an enabled interval of 0 update, decay and view all fail |
| `ReputationUpdates.LevelInSquares` | contracts/reputation/src/lib.rs:264-270 | levels end at 100 times the squares: a score has level `k` exactly when it lies from `100*(k-1)^2` up to `100*k^2`, and 5 from 1600 on |
| `ReputationUpdates.LevelsOutliveDecay` | contracts/reputation/src/lib.rs:138-150 | a concrete record keeps level 2 when a decay takes its score to 99 |
| `ReputationContract.ReputationBook.constructor` | contracts/reputation/src/lib.rs:53-63 | an empty book with the default decay |
| `ReputationContract.ReputationBook.ApplyDecayInternal` | contracts/reputation/src/lib.rs:272-284 | subtracts the rate per whole elapsed interval, saturating and floored at 0 |
| `ReputationContract.ReputationBook.UpdateLeaderboard` | contracts/reputation/src/lib.rs:286-294 | appends a user not yet listed, found by a scan |
| `ReputationContract.ReputationBook.UpdateReputation` | contracts/reputation/src/lib.rs:69-118 | decays, then adds the change, keeping the total and the user list, or changes nothing |
| `ReputationContract.ReputationBook.ApplyDecay` | contracts/reputation/src/lib.rs:138-175 | stores the decayed record and moves the total by the difference, or changes nothing |
| `ReputationContract.ReputationBook.GetReputation` | contracts/reputation/src/lib.rs:120-128 | the decayed score, or 0 for an unknown user |
| `ReputationContract.ReputationBook.GetLeaderboard` | contracts/reputation/src/lib.rs:226-262 | collects the records, sorts them in place and returns the leading ones |
| `AnalyticsSpec.QueriesAreExact` | contracts/analytics/src/lib.rs:156-303 | after any run of records, resets and permission changes, a student's and a course's query list exactly the live records, once each, although resets leave the course index stale |
| `AnalyticsSpec.RunKeepsIndexed` | contracts/analytics/src/lib.rs:156-263 | the student index stays exact and the course index complete and without duplicates |
| `AnalyticsSpec.CollectExact` | contracts/analytics/src/lib.rs:478-491 | skipping keys without a record turns a stale index into exactly its live records |
| `AnalyticsSpec.MilestonesFollowHighest` | contracts/analytics/src/lib.rs:309-344 | after any run the achieved milestones are the prefix of 25, 50, 75, 100 not above the highest progress ever recorded |
| `AnalyticsSpec.MilestonesFromStart` | contracts/analytics/src/lib.rs:309-344 | the same from the start of the contract |
| `AnalyticsSpec.LiveIsLastRecorded` | contracts/analytics/src/lib.rs:156-263 | after any run the live record of a student and course is that of the last accepted record since the last accepted reset |
| `AnalyticsSpec.RecordAcceptedIff` | contracts/analytics/src/lib.rs:156-180 | a record is accepted exactly from the student, the admin or an authorized caller, for a percentage up to 100 |
| `AnalyticsSpec.PermissionDecides` | contracts/analytics/src/lib.rs:156-180 | a permission change decides for that caller and nobody else |
| `AnalyticsSpec.ResetAcceptedIff` | contracts/analytics/src/lib.rs:239-263 | only the admin resets |
| `AnalyticsSpec.AchieveExtends` | contracts/analytics/src/lib.rs:309-344 | one check extends that prefix exactly to the higher of the two percentages |
| `AnalyticsContract.ProgressBook.constructor` | contracts/analytics/src/lib.rs:91-98 | an empty book |
| `AnalyticsContract.ProgressBook.CheckMilestones` | contracts/analytics/src/lib.rs:309-344 | the loop appends exactly the milestones reached and not yet achieved |
| `AnalyticsContract.ProgressBook.RecordProgress` | contracts/analytics/src/lib.rs:156-236 | stores the record, both index entries and the milestones, or changes nothing |
| `AnalyticsContract.ProgressBook.ResetProgress` | contracts/analytics/src/lib.rs:239-263 | removes the record and the student's index entry, leaving the course index as it is |
| `AnalyticsContract.ProgressBook.GetAllProgress` | contracts/analytics/src/lib.rs:280-303 | the loop returns the records of the student's courses in index order |
| `AnalyticsContract.ProgressBook.GetCourseProgress` | contracts/analytics/src/lib.rs:478-491 | the loop returns the live records of the course's students in index order |
| `NftSpec.OwnershipIsExact` | contracts/nft/src/lib.rs:70-394 | after any run an owned id stands exactly once in its owner's list and in no other, metadata names the same owner, and a burned id has no owner or listing |
| `NftSpec.RunKeeps` | contracts/nft/src/lib.rs:70-394 | every call from any consistent state keeps owners, lists, metadata, listings and burned ids consistent |
| `NftSpec.MovedListsMatch` | contracts/nft/src/lib.rs:137-188 | moving an id between lists, to oneself too, keeps every list exact |
| `NftSpec.BurnedForever` | contracts/nft/src/lib.rs:278-313 | a burned id is never owned or listed again, whatever is called |
| `NftSpec.HoldersKeepTheirTokens` | contracts/nft/src/lib.rs:70-394 | an owner without a listing keeps an id over any run in which they neither transfer, burn nor list it, whatever everybody else calls |
| `NftSpec.PartingNeedsSignature` | contracts/nft/src/lib.rs:137-394 | even with a live listing an owner keeps an id over any run without a transfer, burn or purchase of it that they signed |
| `NftSpec.AccessFollowsCalls` | contracts/nft/src/lib.rs:116-237 | after any run access to an id is as the last accepted call on it left it: former owners keep theirs until it is revoked |
| `NftSpec.FormerOwnerKeepsAccess` | contracts/nft/src/lib.rs:116-237 | after a transfer the former owner keeps the access they had, and the new owner theirs, over any run without an accepted revoke of it |
| `NftSpec.BurnFreezesAccess` | contracts/nft/src/lib.rs:211-313 | with a burn the access rights of the id are frozen, since only an owner could change them |
| `NftSpec.SaleNeedsLister` | contracts/nft/src/lib.rs:366-394 | a purchase succeeds if and only if the id is listed, the lister still owns it and has signed too, as the inner transfer demands; price equals seller amount plus royalty, both non-negative |
| `NftSpec.StaleListingBlocksNewOwner` | contracts/nft/src/lib.rs:319-364 | a listing outlives a transfer: the new owner can neither sell nor list until the old seller delists |
| `NftRecords.AcceptedIff` | contracts/nft/src/lib.rs:70-394 | in a consistent state each call is accepted exactly when its caller is entitled to it |
| `NftRecords.MintRecordsExactly` | contracts/nft/src/lib.rs:70-135 | a mint takes the next id and records course, date, royalty and its recipient |
| `NftRecords.RecordsAreForever` | contracts/nft/src/lib.rs:70-394 | no run of any calls changes what the mint recorded besides the owner |
| `NftRecords.ListingStoresExactly` | contracts/nft/src/lib.rs:319-346 | a listing holds seller, price and time of the call |
| `NftRecords.SalePaysTheMintedRoyalty` | contracts/nft/src/lib.rs:366-394 | after any run, a purchase pays the basis points fixed with the mint, of the price listed then, rounded down, as royalty and the rest to the lister |
| `NftContract.CourseNfts.constructor` | contracts/nft/src/lib.rs:56-64 | no tokens |
| `NftContract.CourseNfts.MintCourseNft` | contracts/nft/src/lib.rs:70-135 | mints the next id to its owner with metadata, list entry, royalty, its recipient, and access |
| `NftContract.CourseNfts.RemoveFromList` | contracts/nft/src/lib.rs:161-168 | removes the first occurrence of an id from an owner's list |
| `NftContract.CourseNfts.TransferNft` | contracts/nft/src/lib.rs:137-188 | moves owner, metadata and list entry and opens access to the new owner, or changes nothing |
| `NftContract.CourseNfts.BurnNft` | contracts/nft/src/lib.rs:278-313 | removes every trace of an id and remembers it as burned, or changes nothing |
| `NftContract.CourseNfts.ListNft` | contracts/nft/src/lib.rs:319-346 | stores a listing of an owned, unlisted id with a positive price |
| `NftContract.CourseNfts.BuyNft` | contracts/nft/src/lib.rs:366-394 | transfers a listed id when its lister has signed too, and splits the price, or changes nothing |
| `Common.RemoveElement` | contracts/nft/src/lib.rs:161-168 | the scan removes exactly the first occurrence |

## Left out

- `i128` overflow: integers are unbounded, since an overflow reverts the call; saturating additions and truncating divisions are modelled as such.
- `require_auth`: a caller precondition; the address a call passes has signed it, and a contract's own address is never one of those. The one signature that depends on stored data, the lister's in a purchase, is a parameter (`signers`).
- Events, storage lifetimes, serialization, upgrades and storage tiers; only the pool's `MINIMUM_LIQUIDITY` entry is kept apart from the shares it does not belong to.
- Storage layout of the larger classes: entries that are written together are one record field (`books`, `limiter`, `ledger`, `vesting`, `staking`, `airdrops`, `emergency`) rather than one entry per key.
- Order of writes within a call: methods write after their last check, because an error or panic reverts the earlier writes of the source.
- SHA-256 and XDR encoding: arbitrary functions; results about proofs name the colliding nodes instead of assuming there are none.
- A foreign token's own ledger: a transfer in it is accepted or refused, and moves nothing of the campaign's token.
- Pool `claim_mining_rewards` reports a number and moves nothing the pool's accounting reads; the statistics queries only read stored fields.
- Crowdfund whitelist and blacklist maintenance: a call gets the outcome of those checks as a parameter.
- Crowdfund milestones, disputes, reward tiers, search, metrics, version and debug calls: they write neither tokens, status, total, goal, deadline nor any entry of the accounting. `initialize_from_template` is a second way to initialize.
- Crowdfund `update_verification` (contracts/crowdfund/src/lib.rs:4376-4397) writes a verification status under the key of a contributor's contribution, and later reads of that contribution as a number fail. Runs of the model do not contain it.
- Token `mint_reward` takes the reentrancy lock and never releases it; the lock itself has no effect within one call. Vesting analytics and the other queries only read.
- The other contracts of the repository (certificates, badges, registry, governance, grants, royalties, buyback, scholarships) keep records of their own and are not called by the six modelled here; its applications are database and HTTP code.
- Crowdfund.CrowdfundContract.Initialize: a second call on the same contract (`AlreadyInitialized`), title, description and links are not modelled.
- Crowdfund.CrowdfundContract.CheckContribution: the list lookups behind `Blacklisted` and `NotWhitelisted` are the parameter `access`.
- Crowdfund.CrowdfundContract.Contribute: the contributor list and count, the largest contribution, reward tiers and the message text are not stored.
- Crowdfund.CrowdfundContract.Archive: the time of archiving is not stored; likewise the goal history of `AdjustGoal` and `CloneCampaign`, the provider of `EnableInsurance` and the sponsor of `SetupMatching`.
- ReputationContract.ReputationBook.UpdateReputation: the history log entry is not stored.
- ReputationContract.ReputationBook.ApplyDecay: the history log entry is not stored.
- AnalyticsContract.ProgressBook.CheckMilestones: the timestamped record per milestone is not stored, only the list of those achieved.
- NftContract.CourseNfts.MintCourseNft: the course's name is not stored, and the purchase price, which only an event shows, is no parameter.
- PoolBacking.BackingNeverFalls: only while the pool is not emptied; the exact condition for all runs is `PoolBacking.BackingFallsOnlyAtFirstProvision`.
- Crowdfund.CrowdfundContract.CloneCampaign: the emptied contributor list and its count, the largest contribution and the restarted histories are not stored.
- CampaignLimits.RateLimitHolds: for a limit that does not change during the run and positive timestamps; at timestamp 0 there is no limit (`RateLimiter.TimeZeroIsUnlimited`).
- PoolAmounts.SwapPaysTheFloor: for reserves that are not negative, which all are unless a first provision of negative amounts was accepted (`PoolBacking.RunsAreSoundIff`).
- CampaignMoney.WithdrawPays: for a positive goal and a platform fee within 100%, which `initialize` checks and every call keeps.
- ReputationSpec.DecayingOftenNeverCostsMore: for rates that are not positive and positive intervals, the only ones for which decay takes away.
- ReputationSpec.TouchingOftenNeverCostsMore: for the same rates and intervals, unchanged during the run.
- VestingCurves.ClaimingOftenIsClaimingOnce: without the supply cap; with it the exact statement is `TokenClaims.ClaimingOftenIsClaimingOnceIff`.
