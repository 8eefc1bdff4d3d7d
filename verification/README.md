# Paper trading: account, risk gates and overnight carry

A Dafny model of the deterministic core of the trading program: the paper account and its
risk-gated order cycle, the overnight carry of the closing-auction ("final betting") strategy, and
the numeric and state kernels around them. Prices, indicator values, clock readings and rankings
are inputs; money and percentages are exact reals. `dafny verify dfyconfig.toml` checks everything.

The program's objects are classes here (`PaperBroker`, `KillSwitch`, `EquityTracker`,
`OrderManager`, `RiskDesk`, `SchedulerJobs`, `FinalBettingStrategy`, `FinalBettingIntradayJobs`,
`IntradayPaperStateStore`, `SwingRelaxedV2Strategy`). Each method is tied by its `ensures` to a
function of the state before it; the theorems are about those functions, over whole order lists,
ticks and days.

## Main results

Account and daily cycle (`PaperBroker.dfy`, `RiskRules.dfy`, `Gatekeepers.dfy`, `OrderManager.dfy`,
`TradingDesk.dfy`, `DailyCycle.dfy`)

- `PaperAccount.RunFromCash`: the account is the fold of its own fill log, for every order list.
- `DailyCycles.EquityConserved`, `GateDecisionHolds`, `CapsHold`: through a whole order loop equity
  is conserved, the gate's decision stands, and the weight and holding caps hold.
- `RiskRules.ApprovalMonotone`, `HealthierApprovalIff`, `RefusalIsFirstObjection`: how approval moves
  with profit, losing streak and time, and which of 23 objections a refusal names.
- `EquityTracking.PnlOverReadings`: what the two loss percentages are measured from.

Overnight carry (`FinalBettingExits.dfy`, `FinalBettingChain.dfy`, `FinalBettingState.dfy`,
`FinalBettingTick.dfy`, `FinalBettingRuns.dfy`, `FinalBettingRest.dfy`, `FinalBettingRunners.dfy`,
`FinalBettingSizing.dfy`, `FinalBettingEntries.dfy`, `FinalBettingEquity.dfy`, `FinalBettingJobs.dfy`)

- `FinalBettingRuns.CarryMirrorsBroker`, `DailyBuysWithinCap`: over any ticks and days the carry is
  the broker's holdings, and a day's accepted buys are distinct and within its largest cap.
- `FinalBettingChain.ReasonsExactly`: every exit reason, exactly, on prices and times.
- `FinalBettingRunners.ScaleoutOnlyOnce`, `DeadlineTick`: one scale-out in the life of a position,
  and the full exit at the deadline.
- `FinalBettingRest.TwoLossDaysForceRest`, `FinalBettingRuns.TickBuysIff`: when a tick signals a buy.
- `FinalBettingSizing.SizableIff`, `EntryFitsBudgetsIff`: when an entry is signalled, and what it costs.
- `FinalBettingEquity.TickConservesEquity`, `OversizedEntriesNeverFill`, `ShippedLimitsNeverEnter`: a
  tick conserves equity, and entries whose minimum allocation exceeds the weight cap are never bought.

Kernels (`Positions.dfy`, `PositionSizing.dfy`, `SwingTakeProfit.dfy`, `WalkForward.dfy`,
`Resample.dfy`, `FillPerformance.dfy`)

- `Positions.ReachableIsSound`, `TrackedMatchesBroker`; `PositionSizing.HealthierNeverSizedSmaller`;
  `SwingTakeProfit.FlagExact`; `WalkForward.TestWindowsDisjointIff`; `Resampling.UniverseComposes`;
  `FillPerformance.MaxDrawdownProxy`.

## Where the code does less than it says

Each is stated exactly as a lemma; the concrete inputs are lemmas too.

- Equity is conserved exactly unless a held symbol that is missing from the universe and has
  average 0 is bought: it is marked at 1.0 before the purchase and at its new average after it
  (`RouteConservesIff`, `ZeroAverageBreaksConservation`). The order loop keeps averages positive
  (`RouteKeepsSound`), so a sound account never meets the case.
- The equity tracker repeats its percentages exactly unless the first reading ever is of a
  non-positive equity (`SecondReadingStableIff`, `UnderWaterReadingWitness`). A cycle that starts
  so passes the gate and then, for loss limits up to 100%, has every buy refused
  (`GuardDecisionStableIff`).
- A healthier account is refused a buy that a losing one is allowed exactly when the order's weight
  lies under the floor that the lifted cap demands (`HealthierApprovalIff`,
  `FloorAboveAdaptedCapBreaksMonotonicity`). The defaults exclude it (`DefaultLimitsAreMonotone`).
- The plan labelled a 10-15% weight policy can come out under 10%: the correction branches change
  nothing (`SizedByPreferredWeight`, `MeetsMinimumIff`, `MinimumWeightCanBeMissed`).
- A loss cut-off up to 09:30 can become a partial scale-out (`LossCutoffSurvivesIff`,
  `LossCutoffWitness`), and a deadline inside the scale-out window can pass without a full exit
  (`FullExitFromDeadlineIff`, `EarlyDeadlineWitness`).
- The rest date is read before the exits of the same tick: the tick that completes two loss days
  still signals the buys of the state it loaded, and no other tick of that day or the next does
  (`TwoLossDaysForceRest`, `CompletingTickCanBuy`).
- Walk-forward test windows overlap exactly when a step is too short or a month end cuts a start
  short (`TestWindowsDisjointIff`, `MonthEndOverlaps`). With a zero step the loop never ends
  (`ZeroStepNeverEnds`); with a negative one it stops with the error of a date out of range, since
  every split fits while the cursor falls (`NegativeStepLeavesEveryRange`).
- A reduced entry size is meant to replace a refusal when an aggressive market overrides the market
  filter. It is signalled exactly when both budgets afford the shares that the minimum needs before
  the reduction (`SizableIff`). Under the default settings and at small prices the stop decides: it
  must stay within 2.8125 times the factor (`ReducedEntryByStop`, `ShortfallByStop`). At a stop of 2%
  an account of a million and shares at 100 are refused by the factor 0.70, set when the last symbol
  scored is among the strongest, and not by the factors of weaker ones (`StrongestSymbolsAreRefused`).
- A signalled entry keeps its capital and risk budgets exactly unless it is a single share that
  exceeds them (`EntryFitsBudgetsIff`, `SingleShareOverBudgets`).

Two readings of the code to keep in mind: the exit reason `hard_exit_1100` follows the configured
deadline, 10:30 by default; and the shipped maximum weight of 15% lies under the minimum allocation
of a final-betting entry in every market mode (16%, 20% or 22% of the effective equity), so that at
full effective equity entries in shares of up to 1% of the equity are never bought, even when they
are signalled (`ShippedLimitsBlockEntries`, `SizedAndTooLarge`).

## Model

| member | source | states |
|---|---|---|
| PaperBrokers.PaperBroker.PlaceOrder | app/brokers/paper_broker.py:42-95 | The broker object's state and answer after an order are those of the account function, open orders, ids and sequence numbers included |
| PaperBrokers.PaperBroker.ApplyBuyFill | app/brokers/paper_broker.py:109-116 | A buy changes only its own symbol: new holding, or quantity added at the average cost |
| PaperBrokers.PaperBroker.ApplySellFill | app/brokers/paper_broker.py:118-124 | A sale lowers the quantity at an unchanged average and removes an emptied holding |
| PaperBrokers.PaperBroker.CancelOrder | app/brokers/paper_broker.py:97-101 | Accepted exactly for an open order, which alone is removed |
| PaperAccount.PlaceAcceptedIff | app/brokers/paper_broker.py:42-95 | An order fills exactly when positive and covered, and the cash moves by its notional; a refusal names its reason and touches neither cash, holdings nor log |
| PaperAccount.RunIsNumbered | app/brokers/paper_broker.py:42-95 | Over any order list fills are numbered from one without gaps, by orders of rising number, one number per order of positive quantity |
| PaperAccount.PlaceKeepsBooks | app/brokers/paper_broker.py:42-124 | Every order, accepted or refused, keeps cash, holdings and cost equal to the fold of the fill log |
| PaperAccount.PlaceKeepsSolvent | app/brokers/paper_broker.py:42-124 | At positive prices cash stays non-negative and averages stay positive |
| PaperAccount.BuyKeepsHolding | app/brokers/paper_broker.py:109-116 | After a buy each holding still is buys minus sells at the log's cost basis |
| PaperAccount.SellKeepsHolding | app/brokers/paper_broker.py:118-124 | After a sale each holding still is buys minus sells at the log's cost basis |
| PaperAccount.AccountIsFoldOfLog | app/brokers/paper_broker.py:42-124 | Over any order list the account is the fold of its log: cash, holdings, and cash plus held cost = initial cash + realized profit |
| PaperAccount.RunFromCash | app/brokers/paper_broker.py:42-124 | The same from an empty account: held exactly when buys exceed sells, at the cost basis per share, cash never negative |
| PaperAccount.PlaceKeepsListing | app/brokers/paper_broker.py:39-40 | The listed order of positions has every held symbol exactly once |
| RiskRules.BuyApprovedIff | app/risk/rules.py:132-270 | A buy is approved exactly when its conditions hold on raw figures: loss limits, defence, regime, cooldown, order value, holdings count, value band in money |
| RiskRules.RefusalIsFirstObjection | app/risk/rules.py:100-270 | A refused buy carries the code of the first objection that applies, in a fixed order; an approved one the code of its regime; every sale its own |
| RiskRules.BearishBuyFits | app/risk/rules.py:291-349 | A buy approved in a bearish market leaves no more holdings and no more value than both limits allow |
| RiskRules.GatesMeaning | app/risk/rules.py:132-247 | The part of the chain before the value checks, as one condition |
| RiskRules.NotionalCheckMeaning | app/risk/rules.py:248-258 | The single-order value limit binds exactly when it is positive |
| RiskRules.GuardSettlesBuys | app/risk/rules.py:100-151 | A refusal by the global guard is the answer to every buy, and no other refusal carries its codes |
| RiskRules.HealthierApprovalIff | app/risk/rules.py:100-377 | A buy approved in a worse snapshot is refused in a healthier later one exactly when its weight lies under the healthier floor |
| RiskRules.ApprovalMonotone | app/risk/rules.py:100-377 | Approval is monotone in profit, loss streak and time when adaptive limits only tighten and the floor is at most 0.99 of the adapted cap |
| RiskRules.FloorAboveAdaptedCapBreaksMonotonicity | app/risk/rules.py:320-349 | A concrete order approved in defence and refused in health once the floor condition is dropped |
| RiskRules.DefaultLimitsAreMonotone | app/risk/rules.py:33-61 | The default limits meet both conditions of monotonicity |
| RiskRules.AdaptiveMonotone | app/risk/rules.py:351-377 | A healthier snapshot never gets a tighter adaptive guard |
| RiskRules.WeightMonotone | app/risk/rules.py:291-349 | With a larger multiplier only the weight floor can newly refuse |
| RiskRules.ApprovalSurvivesWaiting | app/risk/rules.py:132-270 | An approval stays the same decision at any later time, whatever the limits |
| RiskRules.ExitBlocksReentry | app/risk/rules.py:233-289 | After an exit is marked the symbol cannot be bought before its cooldown ends, and the mark blocks nothing after it |
| KillSwitches.KillSwitch.Check | app/risk/kill_switch.py:40-104 | The switch is left in the state of the guard decision, and skips the cycle exactly on system risk-off |
| KillSwitches.VerdictMatchesRules | app/risk/kill_switch.py:40-104 | Entries are blocked exactly when the rules refuse every buy, with the switch's own code; risk-off exactly on the total loss limit outside a cooldown |
| EquityTracking.EquityTracker.PnlSnapshot | app/scheduler/equity_tracker.py:56-92 | Stored baselines and both percentages after one reading |
| EquityTracking.PnlMeaning | app/scheduler/equity_tracker.py:78-92 | The total percentage is measured from the long-run baseline, the daily one from the day's opening equity, which a new day takes from its first reading |
| EquityTracking.PnlOverReadings | app/scheduler/equity_tracker.py:56-92 | Over any readings of positive equity: total against the first reading ever, daily against the first of the last day |
| EquityTracking.SecondReadingStableIff | app/scheduler/equity_tracker.py:56-92 | Read again on the same day, an unchanged equity leaves the file alone, and repeats the percentages exactly unless the first reading ever was of a non-positive equity |
| EquityTracking.BaselinesAreFirstReadings | app/scheduler/equity_tracker.py:56-92 | Over any readings the long-run baseline is the first equity and the day baseline the first of the last day |
| EquityTracking.UnderWaterReadingWitness | app/scheduler/equity_tracker.py:68-92 | A first equity of -1 reads 0%, and -200% when read again |
| OrderManagement.OrderManager.ProcessSignal | app/orders/order_manager.py:38-47 | Broker and answer after a signal: two checks, then the broker |
| OrderManagement.OrderManager.Submit | app/orders/order_manager.py:49-75 | Broker and answer after a submission: risk refusal, broker refusal or fill |
| OrderManagement.SecondCheckAgrees | app/orders/order_manager.py:38-75 | The second check never overturns the first: approved orders reach the broker, and a risk refusal means that the first check refused |
| TradingDesk.LatestRow | app/scheduler/jobs.py:323-327 | The latest-dated row of the symbol, none exactly when the universe lacks the symbol |
| TradingDesk.LastOfTheLatest | app/scheduler/jobs.py:326 | Among rows of the latest date the last one counts |
| TradingDesk.RiskDesk.LatestCloseSafe | app/scheduler/jobs.py:323-331 | Last close, else a held symbol's average, else one |
| TradingDesk.RiskDesk.MarkHoldings | app/scheduler/jobs.py:247-252 | Every holding once at its mark, and their sum |
| TradingDesk.RiskDesk.CurrentEquity | app/scheduler/jobs.py:242-256 | Cash plus marked holdings |
| TradingDesk.CashForEquityMeaning | app/scheduler/jobs.py:243-248 | A positive reported total counts as it is; otherwise cash reserved for open orders counts as if free |
| TradingDesk.RiskDesk.BuildRiskSnapshot | app/scheduler/jobs.py:242-275 | The snapshot of the account, and the tracker's file after reading it |
| TradingDesk.SnapshotFields | app/scheduler/jobs.py:255-275 | The rules see tracked profit, equity or one, and marked holdings, and nothing of regime, streak, entries, scores or cooldowns |
| TradingDesk.RiskDesk.RouteOrder | app/scheduler/jobs.py:189-200 | One turn of the loop on the objects is one step of the desk function |
| TradingDesk.ValuesAfterPlace | app/scheduler/jobs.py:247-252 | Only the ordered symbol's marked value can move |
| TradingDesk.EquityAfterPlace | app/brokers/paper_broker.py:60-74 | Equity moves by exactly the gain of the fill price against the mark, and not at all on a refusal |
| TradingDesk.RouteMeaning | app/scheduler/jobs.py:189-200 | An order is refused by the rules with their code, or the account is the one after placing it; buys reach the broker at positive prices only |
| TradingDesk.RouteKeepsSound | app/scheduler/jobs.py:189-200 | Routing keeps quantities and averages positive whatever the order's price, sign or quantity |
| TradingDesk.RouteConservesIff | app/scheduler/jobs.py:189-200 | An order at the mark, as every order without its own price is, conserves equity exactly unless it is an accepted purchase of a held symbol that no row prices and that cost nothing |
| TradingDesk.RouteConservesEquity | app/scheduler/jobs.py:189-200 | On sound holdings an order at the mark conserves equity |
| TradingDesk.ZeroAverageBreaksConservation | app/scheduler/jobs.py:328-331 | A routed purchase that the default rules approve and that does not conserve equity |
| DailyCycles.SchedulerJobs.RunDailyCycle | app/scheduler/jobs.py:128-206 | The cycle's report, account, tracker and switch: empty universe, halt at the gate, or the whole order loop with exact counts and the conserved equity |
| DailyCycles.EquityConserved | app/scheduler/jobs.py:189-206 | Equity at the mark is the same before, during and after the whole loop |
| DailyCycles.GuardDecisionStable | app/risk/kill_switch.py:40-104 | Every order of the loop meets the guard decision that the gate met, for every limits and every account that does not start under water |
| DailyCycles.GuardDecisionStableIff | app/scheduler/jobs.py:128-200 | With loss limits switched on and at most 100%, the gate's decision stands exactly unless the account starts under water; then every order meets the total loss limit |
| DailyCycles.GateDecisionHolds | app/scheduler/jobs.py:128-206 | Gated on a loss: no buy accepted, with the gate's code, and no sale refused by the rules; gated running: no refusal by the global guard |
| DailyCycles.LoopKeepsBaseline | app/scheduler/equity_tracker.py:56-92 | The loop leaves the tracker's file as the gate's reading left it |
| DailyCycles.ApprovedBuyFits | app/risk/rules.py:291-349 | An approved buy fits the position limit and the weight cap times equity |
| DailyCycles.RouteKeepsCaps | app/scheduler/jobs.py:186-206 | One order lifts no symbol above both its old value and the cap, and adds no holding beyond the limit |
| DailyCycles.CapsHold | app/scheduler/jobs.py:186-206 | The same after any number of orders, for every limits, with the starting equity's cap |
| DailyCycles.ValueCapInPlainTerms | app/risk/rules.py:291-349 | For any closes, while the defaults do not raise the limit: value at most max(value at start, max weight x equity) |
| DailyCycles.HoldingCapInPlainTerms | app/risk/rules.py:291-318 | For positive closes and any limits: holdings at most max(number at start, max positions) |
| FinalBettingExits.FollowthroughScore | app/strategy/final_betting_v1_strategy.py:443-494 | The score lies in [0, 1] |
| FinalBettingExits.StrongerTapeScoresHigher | app/strategy/final_betting_v1_strategy.py:443-494 | A higher price and shallower pullback never lower the score nor withdraw the permission to hold |
| FinalBettingExits.StrongerFollowThroughSellsNoMore | app/strategy/final_betting_v1_strategy.py:507-545 | A stronger follow-through or a smaller gap never sells more shares |
| FinalBettingExits.FullExitFromDeadlineIff | app/strategy/final_betting_v1_strategy.py:820-918 | From any deadline on everything is sold, except exactly when the time-value exit is waived or the scale-out window takes the exit over |
| FinalBettingExits.EarlyDeadlineWitness | app/strategy/final_betting_v1_strategy.py:839-866 | With a deadline of 09:20 a gap-up position is sold in part at 09:25, or as a runner not at all |
| FinalBettingExits.LossCutoffWitness | app/strategy/final_betting_v1_strategy.py:831-866 | At 09:06 a gap-up position under its price meets the loss cut-off and is sold only in part |
| FinalBettingExits.LateDeadlineSellsAll | app/strategy/final_betting_v1_strategy.py:902-918 | With a deadline after 09:30 only the waiver for a strong runner in an aggressive market remains |
| FinalBettingExits.WaiverOnlyFromDeadline | app/strategy/final_betting_v1_strategy.py:902-918 | The waiver can apply only at or after the deadline |
| FinalBettingExits.LossCutoffSurvivesIff | app/strategy/final_betting_v1_strategy.py:831-866 | A loss cut-off always exits, and becomes partial exactly for a first scale-out of two or more shares |
| FinalBettingExits.StopsComeFirst | app/strategy/final_betting_v1_strategy.py:820-918 | Gap-down and weak morning win over every other branch; each reason appears only under its condition |
| FinalBettingExits.ExitQuantityInRange | app/strategy/final_betting_v1_strategy.py:978-990 | An exit sells between one share and the holding |
| FinalBettingExits.PartialExitOnlyOnce | app/strategy/final_betting_v1_strategy.py:839-866 | Only a first scale-out of two or more shares sells less than everything, and it leaves a runner |
| FinalBettingExits.RunnerLatched | app/strategy/final_betting_v1_strategy.py:816-901 | A runner keeps its target, and every exit sells all that is left |
| FinalBettingExits.ChainKeepsIdentity | app/strategy/final_betting_v1_strategy.py:815-918 | The chain never changes recorded shares, entry day or reference price |
| FinalBettingChain.ReasonsExactly | app/strategy/final_betting_v1_strategy.py:820-918 | Every exit reason with its exact condition on prices and times, for every input |
| FinalBettingChain.ConditionsOnPrices | app/strategy/final_betting_v1_strategy.py:787-901 | Gap down, weak morning, scale-out window, loss cut-off, runner, fade, broken runner and waiver as conditions on prices |
| FinalBettingChain.QuantitiesExactly | app/strategy/final_betting_v1_strategy.py:978-990 | Every exit but the first scale-out is for the whole holding |
| FinalBettingChain.MemoryExactly | app/strategy/final_betting_v1_strategy.py:839-866 | Only the two profit exits on a gap change what the carry remembers, and how |
| FinalBettingChain.BrokenRunnerIsSold | app/strategy/final_betting_v1_strategy.py:868-882 | After 09:30 a runner under its early low is sold whole, whatever else holds |
| FinalBettingChain.ScoreOnTape | app/strategy/final_betting_v1_strategy.py:443-494 | The follow-through score as points on prices |
| FinalBettingChain.HoldOnPrices | app/strategy/final_betting_v1_strategy.py:443-494 | The permission to hold on prices, with its score per mode and health, which never exceeds 71 |
| FinalBettingChain.ScaleoutTable | app/strategy/final_betting_v1_strategy.py:497-545 | The share sold by gap, score, mode and health |
| FinalBettingChain.ScaleoutIsNearest | app/strategy/final_betting_v1_strategy.py:855-866 | The scale-out is the nearest whole number of shares, leaving one and selling one |
| FinalBettingSizing.EntryWithinLimits | app/strategy/final_betting_v1_strategy.py:1661-1750 | An entry of more than one share fits the capital and the risk budget, and every entry misses the minimum allocation by less than one share |
| FinalBettingSizing.EntryFitsBudgetsIff | app/strategy/final_betting_v1_strategy.py:1661-1750 | A signalled entry exceeds the capital or the risk budget exactly when it is a single share that does |
| FinalBettingSizing.SingleShareOverBudgets | app/strategy/final_betting_v1_strategy.py:1689-1703 | A concrete account that buys one share over both budgets |
| FinalBettingSizing.SizableIff | app/strategy/final_betting_v1_strategy.py:1689-1747 | An entry is signalled exactly when the settings agree and both budgets afford the shares that the minimum needs before the reduction |
| FinalBettingSizing.FeasibleWithinLimits | app/strategy/paper_position_sizing.py:6-39 | The smallest of the risk and capital limits is within both, once it is more than one share |
| FinalBettingSizing.BlendedStopRange | app/strategy/final_betting_rebound.py:142-155 | The default stop is blended to between 1.3% and 2.7% |
| FinalBettingSizing.ReducedEntryNeedsRoom | app/strategy/final_betting_v1_strategy.py:1704-1747 | Necessary for a reduced entry: the reduced capital and risk budgets reach the minimum allocation to within one share |
| FinalBettingSizing.RoomSuffices | app/strategy/final_betting_v1_strategy.py:1704-1747 | Sufficient for any entry: the reduced budgets hold the minimum allocation and one share more |
| FinalBettingSizing.ReducedEntryByStop | app/strategy/final_betting_v1_strategy.py:1704-1747 | In the aggressive mode with the default settings a reduced entry needs a risk shortfall under one share's loss, and passes with one reduced share's loss to spare |
| FinalBettingSizing.ShortfallByStop | app/strategy/market_mode_policy.py:88-90 | There is no such shortfall exactly up to a stop of 2.8125 times the factor |
| FinalBettingSizing.StrongestSymbolsAreRefused | app/strategy/final_betting_v1_strategy.py:1483-1488 | At a stop of 2% the entry is refused exactly when the filter was overridden and the last symbol scored at least 5 |
| FinalBettingSizing.MoreEquityNeverFewerShares | app/strategy/final_betting_v1_strategy.py:1661-1703 | A larger effective equity never gives fewer shares |
| FinalBettingSizing.BuyQuantityIff | app/strategy/paper_position_sizing.py:6-39 | More than one share is bought exactly when the share limit, the risk budget and the capital all allow it |
| FinalBettingSizing.StopDistanceIs | app/strategy/paper_position_sizing.py:28-29 | One share loses its stop's percentage, 0.05% at least |
| FinalBettingEntries.CapsByMode | app/strategy/market_mode_policy.py:64-120 | Entry cap and candidate count per market mode, with their limits |
| FinalBettingEntries.AllocationByMode | app/strategy/final_betting_v1_strategy.py:1663-1674 | Minimum and maximum allocation per market mode |
| FinalBettingEntries.ReductionByScore | app/strategy/final_betting_v1_strategy.py:1483-1488 | The size reduction by quality score, and none without an overridden filter in an aggressive market |
| FinalBettingEntries.StopByVolatility | app/strategy/final_betting_rebound.py:142-155 | The blended stop follows the volatility between 65% and 135% of the fixed one |
| FinalBettingEntries.ScaledEquity | app/strategy/final_betting_v1_strategy.py:1661-1662 | The equity scaled by regime and health, one at least |
| FinalBettingEntries.UnpricedIsOne | app/strategy/paper_position_sizing.py:23-24 | Without a price one share is feasible |
| FinalBettingEntries.TermsOfTick | app/strategy/final_betting_v1_strategy.py:1661-1700 | The sizing terms are the tick's own figures and the settings |
| FinalBettingEntries.EligibleExactly | app/strategy/final_betting_v1_strategy.py:1195-1203 | Eligible are exactly the ranked symbols not held, not entered today and not exited within the re-entry days |
| FinalBettingEntries.PicksOfFew | app/strategy/final_betting_v1_strategy.py:1619-1747 | With few candidates the picks are exactly the eligible sized ones |
| FinalBettingEntries.SignalOfPick | app/strategy/final_betting_v1_strategy.py:1760-1776 | The signal of a pick and what is recorded for it |
| FinalBettingEntries.GateKeepsOpen | app/scheduler/final_betting_intraday_jobs.py:16-31 | The gate keeps every sale and every buy outside the duplicate guard and the cooldown at its own reading |
| FinalBettingEntries.GateKeepsOnlyOpen | app/scheduler/intraday_jobs.py:259-268 | The gate keeps nothing else |
| FinalBettingEntries.PurchaseIsRemembered | app/scheduler/intraday_jobs.py:435-470 | An accepted buy is remembered for the guard, counted, and cools the symbol down if so configured |
| FinalBettingEquity.TickConservesEquity | app/scheduler/intraday_jobs.py:246-300 | A whole tick priced from its own bars conserves equity at the mark |
| FinalBettingEquity.OversizedBuyRefused | app/risk/rules.py:291-349 | The rules refuse a sized entry whose minimum allocation exceeds the weight cap by a share, and the account stays as it was |
| FinalBettingEquity.OversizedEntriesNeverFill | app/scheduler/intraday_jobs.py:270-297 | A tick in which every candidate is so buys nothing, whatever it signals and sells |
| FinalBettingEquity.ShippedLimitsBlockEntries | app/risk/rules.py:33-36 | With a maximum weight of 15% and a minimum allocation of 20%, no entry at full effective equity in shares of up to 1% of the equity is bought, in any mode |
| FinalBettingEquity.SizedAndTooLarge | app/risk/rules.py:33-36 | A concrete entry under the default settings and limits that is signalled and refused |
| FinalBettingEquity.ShippedLimitsNeverEnter | app/scheduler/intraday_jobs.py:130-300 | From a flat start, over any run of such ticks, the account never changes |
| FinalBettingJobs.IntradayPaperStateStore.Load | app/strategy/intraday_paper_state.py:57-68 | The stored state rolled to today, a fresh one without a file |
| FinalBettingJobs.IntradayPaperStateStore.Save | app/strategy/intraday_paper_state.py:70-84 | The file holds the given state rolled to the day of saving |
| FinalBettingJobs.FinalBettingStrategy.ConsumePendingCarryUpdate | app/strategy/final_betting_v1_strategy.py:564-565 | Hands out the pending entry once |
| FinalBettingJobs.FinalBettingStrategy.ScanExits | app/strategy/final_betting_v1_strategy.py:773-990 | The exit loop's carry and signals are those of the scan function |
| FinalBettingJobs.FinalBettingStrategy.RankedCandidates | app/strategy/final_betting_v1_strategy.py:1142-1206 | Exactly the eligible candidates, in rank order |
| FinalBettingJobs.FinalBettingStrategy.PickEntries | app/strategy/final_betting_v1_strategy.py:1609-1776 | The entry loop's signals and pending entries |
| FinalBettingJobs.FinalBettingStrategy.GenerateSignals | app/strategy/final_betting_v1_strategy.py:641-1817 | Exits first, then entries; the rest date is read before the exits |
| FinalBettingJobs.FinalBettingStrategy.OnSellAccepted | app/strategy/final_betting_v1_strategy.py:567-632 | The carry after an accepted sale, and the cooldown that follows |
| FinalBettingJobs.FinalBettingStrategy.CoolDown | app/strategy/strategy_fill_performance.py:133-170 | Cooldown and per-day stop counts by outcome |
| FinalBettingJobs.FinalBettingIntradayJobs.IntradayBuyGate | app/scheduler/final_betting_intraday_jobs.py:16-31 | A buy is allowed exactly outside the duplicate guard and the symbol's cooldown |
| FinalBettingJobs.FinalBettingIntradayJobs.FilterOrders | app/scheduler/intraday_jobs.py:259-268 | All gates are asked before any order is executed |
| FinalBettingJobs.FinalBettingIntradayJobs.OnAcceptedOrder | app/scheduler/final_betting_intraday_jobs.py:33-60 | Counts, guards, carry, entered list and pending entries after an accepted order |
| FinalBettingJobs.FinalBettingIntradayJobs.ExecuteOrders | app/scheduler/intraday_jobs.py:270-297 | The execution loop on the objects is the fold of the single order step |
| FinalBettingJobs.FinalBettingIntradayJobs.PortfolioFromBroker | app/scheduler/intraday_jobs.py:597-608 | One row per listed position |
| FinalBettingJobs.FinalBettingIntradayJobs.RunIntradayCycle | app/scheduler/intraday_jobs.py:130-300 | One whole tick on the objects is the tick function: load, gate, signals, filter, execution, save |
| FinalBettingTicks.StrategySeesHoldings | app/strategy/final_betting_v1_strategy.py:738-745 | The strategy sees each broker holding exactly once, with its quantity and average |
| FinalBettingTicks.PosSymbolsExactly | app/strategy/final_betting_v1_strategy.py:738-745 | Exactly the rows with shares and a price paid are looked at |
| FinalBettingTicks.PicksAreBestRanked | app/strategy/final_betting_v1_strategy.py:1619-1624 | The entries are the best-ranked sized candidates, as many as slots and the day's room allow |
| FinalBettingTicks.EntryPicksMeaning | app/strategy/final_betting_v1_strategy.py:1142-1151 | Entries are distinct, not held, not yet entered today, and within slots and room |
| FinalBettingTicks.PendMeaning | app/strategy/final_betting_v1_strategy.py:1760-1765 | Each signalled entry is pending with its own shares |
| FinalBettingTicks.ExitScanKeepsShares | app/strategy/final_betting_v1_strategy.py:773-990 | Exit signals are all sales and change neither the carried symbols nor their shares |
| FinalBettingTicks.OnAcceptedMeaning | app/scheduler/final_betting_intraday_jobs.py:33-60 | An accepted buy enters exactly its pending entry, an accepted sale reduces exactly its symbol |
| FinalBettingTicks.SaleClosesBuyGate | app/strategy/strategy_fill_performance.py:133-170 | After a sale the buy gate stays closed for the cooldown of its outcome, longer after a repeated stop of the day |
| FinalBettingTicks.SaleOnPrices | app/strategy/strategy_fill_performance.py:133-170 | On fill prices: the cooldown of a profit, a first stop, a repeated stop and a flat sale, and the stop count of the day |
| FinalBettingTicks.OutcomeOnPrices | app/strategy/strategy_fill_performance.py:11-22 | Which sale is a profit and which a stop, by reason and by price |
| FinalBettingTicks.SaleEndsOrMarks | app/strategy/final_betting_v1_strategy.py:607-622 | A full sale ends the carry entry and bars re-entry for the configured days over any day roll; a smaller one leaves exactly the rest, marked as partly sold |
| FinalBettingTicks.RollDayKeeps | app/strategy/intraday_paper_state.py:75-84 | A day roll keeps positions, loss days, rest date and last exits, and starts counts, guards, cooldowns, entries and stops anew |
| FinalBettingTicks.ExecuteOneKeeps | app/scheduler/final_betting_intraday_jobs.py:33-60 | One executed order, accepted or refused, keeps carry and broker in step |
| FinalBettingTicks.ExecuteKeeps | app/scheduler/intraday_jobs.py:270-297 | The whole order loop keeps them in step and enters exactly what it bought |
| FinalBettingTicks.TickKeepsInStep | app/scheduler/intraday_jobs.py:130-300 | Every tick keeps the carry a mirror of the broker and the day's tally right |
| FinalBettingRuns.CarryMirrorsBroker | app/scheduler/final_betting_intraday_jobs.py:33-60 | From a flat start over any run a symbol is carried exactly when held, with the broker's share count |
| FinalBettingRuns.RunKeepsInStep | app/strategy/intraday_paper_state.py:75-84 | The same invariant over any ticks and days from any world that has it |
| FinalBettingRuns.EntriesRespectCap | app/strategy/final_betting_v1_strategy.py:1619-1624 | The entries signalled in a tick never push the holdings above that tick's cap and are new to the portfolio |
| FinalBettingRuns.TickBuysIff | app/strategy/final_betting_v1_strategy.py:1035-1203 | A live tick signals a purchase exactly when entries are open on the loaded rest date and the loaded state picks the symbol, whatever its own exits do |
| FinalBettingRuns.ClosedTickSignalsNoBuy | app/strategy/final_betting_v1_strategy.py:1028-1139 | No buy is signalled at the day's loss limit, outside the entry time or session, or against the filters |
| FinalBettingRuns.TickHaltsIff | app/scheduler/intraday_jobs.py:206-236 | A tick is skipped exactly at the total loss limit of a switch that is not overridden, and then changes neither account nor state file |
| FinalBettingRuns.TickBuysAreSized | app/strategy/final_betting_v1_strategy.py:1737-1776 | Every signalled purchase is a sized ranked candidate's own shares at its last close |
| FinalBettingRuns.EnteredIsBought | app/scheduler/final_betting_intraday_jobs.py:44-49 | The entered list of the state file is exactly what was bought on its day, in order |
| FinalBettingRuns.DailyBuysWithinCap | app/strategy/final_betting_v1_strategy.py:1142-1151 | On any day no symbol is bought twice, and accepted buys stay within the day's largest effective cap |
| FinalBettingRuns.StateFileDay | app/strategy/intraday_paper_state.py:57-84 | The state file is never from a later day than a coming tick |
| FinalBettingRest.LossDaysStayARecord | app/strategy/final_betting_v1_strategy.py:940-955 | The loss record stays sorted, distinct and at most two long: cleared by a profit, joined by a loss, losing exactly the earliest of three |
| FinalBettingRest.StepOnRecord | app/strategy/final_betting_v1_strategy.py:940-955 | Only a full exit touches the loss record: a sale at or over the average clears it, one under it records the day and, at two days, sets the rest |
| FinalBettingRest.SecondLossForcesRest | app/strategy/final_betting_v1_strategy.py:940-955 | After a second loss in the scan the rest date is tomorrow, whatever else is sold |
| FinalBettingRest.RestNeverMovesBack | app/strategy/final_betting_v1_strategy.py:940-955 | Over any run the record stays a record and the rest date never moves backwards |
| FinalBettingRest.RestingTickSignalsNoBuy | app/strategy/final_betting_v1_strategy.py:1035-1038 | A tick inside the rest signals no buy |
| FinalBettingRest.TwoLossDaysForceRest | app/strategy/final_betting_v1_strategy.py:1035-1038 | From the tick that completes two loss days through the next calendar day, a buy is signalled by that tick alone, and there exactly as the rest date it loaded allows |
| FinalBettingRest.CompletingTickBuysIff | app/strategy/final_betting_v1_strategy.py:940-1038 | The completing tick sets the rest to tomorrow and signals exactly the purchases of the state it loaded |
| FinalBettingRest.CompletingTickCanBuy | app/strategy/final_betting_v1_strategy.py:940-1038 | A concrete tick sells at a second loss, sets the rest, and signals a buy |
| FinalBettingRest.FreshWorldAtRest | app/strategy/intraday_paper_state.py:57-59 | A flat account with a fresh state meets the conditions of the run theorems |
| FinalBettingRunners.ScanOrdersExact | app/strategy/final_betting_v1_strategy.py:773-990 | A holding is sold exactly when the chain exits it, once, by its own entry of the carry |
| FinalBettingRunners.TickSignalsChain | app/strategy/final_betting_v1_strategy.py:978-990 | A tick signals a sale of a held symbol exactly as the chain decides, of at least one share and at most the holding |
| FinalBettingRunners.DeadlineTick | app/strategy/final_betting_v1_strategy.py:831-918 | From a deadline after 09:30 a regular-session tick signals the full exit of an overnight carry with bars exactly unless the waiver holds |
| FinalBettingRunners.RunnerSurvivesTick | app/strategy/final_betting_v1_strategy.py:567-622 | A runner target survives sales, refusals and day rolls while the symbol is carried |
| FinalBettingRunners.RunnerSurvivesRun | app/strategy/intraday_paper_state.py:75-84 | The same over any run of ticks |
| FinalBettingRunners.ScaleoutLeavesRunner | app/strategy/final_betting_v1_strategy.py:839-866 | A signalled scale-out of two or more shares leaves a runner if the position is still carried |
| FinalBettingRunners.ScaleoutOnlyOnce | app/strategy/final_betting_v1_strategy.py:815-901 | Over the life of a carried position of two or more shares the scale-out is signalled at most once and every later exit is for all that remains |
| Positions.AverageBounded | app/portfolio/positions.py:18-32 | The new average price is positive and at most the larger price |
| Positions.BuyFillExactly | app/portfolio/positions.py:18-60 | When a buy fill is refused, and otherwise the position it leaves, cost conserved |
| Positions.SellFillExactly | app/portfolio/positions.py:63-83 | When a sell fill is refused, and otherwise what is left and whether the first profit is taken |
| Positions.HalfIsThreshold | app/portfolio/positions.py:73 | The first profit needs half the initial shares, rounded down, one at least |
| Positions.WatermarkExactly | app/portfolio/positions.py:86-99 | A positive price raises the watermark and nothing else |
| Positions.FillRoutes | app/orders/order_manager.py:77-94 | Which shares a fill is of, and what it does with and without a position |
| Positions.StepKeepsSound | app/portfolio/positions.py:35-99 | Any fill or price update, refused ones included, keeps a position sound and the first-profit flag up |
| Positions.ReachableIsSound | app/portfolio/positions.py:18-99 | Every reachable position: watermark >= average > 0, initial = held + sold, trailing = first profit done, and not done implies sold under the threshold |
| Positions.FirstProfitLatched | app/portfolio/positions.py:63-83 | The first-profit flag is latched until the position is closed |
| Positions.FillAgrees | app/orders/order_manager.py:77-94 | One fill moves the tracked position and the broker's alike |
| Positions.TrackedMatchesBroker | app/orders/order_manager.py:77-94 | Over any positive-price orders the tracked position and the broker agree: held together, same quantity, same average |
| Positions.TrackedFromCash | app/orders/order_manager.py:77-94 | The same from an empty account |
| PositionSizing.RaisingIsNoOp | app/risk/position_sizing.py:162-164 | The minimum-weight correction only recomputes the same number of shares |
| PositionSizing.InvalidBuysNothing | app/risk/position_sizing.py:147-157 | Invalid inputs and targets under one share buy nothing |
| PositionSizing.SizedByPreferredWeight | app/risk/position_sizing.py:139-177 | For valid inputs both corrections are no-ops: the floor of the preferred value, never above the maximum weight |
| PositionSizing.MeetsMinimumIff | app/risk/position_sizing.py:139-177 | A buying plan meets the minimum weight exactly when some number of shares has a value between the minimum and the preferred one |
| PositionSizing.MinimumWeightCanBeMissed | app/risk/position_sizing.py:139-177 | A concrete plan under the minimum weight |
| PositionSizing.WeightStaysAllowed | app/risk/position_sizing.py:214-298 | Dynamic sizing never takes a symbol past max(its weight, the allowed weight) |
| PositionSizing.SizingExactly | app/risk/position_sizing.py:214-298 | The shares are what the smaller of target value and room affords, and none for a lost account, a turbulent regime or used-up entries |
| PositionSizing.TargetExactly | app/risk/position_sizing.py:214-298 | The target weight is the preferred one scaled by the factors, within zero and the maximum |
| PositionSizing.FactorOfReading | app/risk/position_sizing.py:214-298 | Which reading each of the seven factors looks at |
| PositionSizing.FactorsAtTheirEnds | app/risk/position_sizing.py:311-355 | Volatility, performance and account-volatility factors over their whole range |
| PositionSizing.ConfidenceInRange | app/risk/position_sizing.py:319-321 | The confidence factor is linear between floor and cap |
| PositionSizing.ProfitInRange | app/risk/position_sizing.py:329-334 | Profit of the day and of the total each move the factor by half a weight |
| PositionSizing.ProfitSaturates | app/risk/position_sizing.py:329-334 | Beyond 3% in a day and 10% in total nothing more is gained or lost |
| PositionSizing.StreakCutsByStep | app/risk/position_sizing.py:337-341 | Each loss of a streak takes its step, down to the floor |
| PositionSizing.QuantityMonotone | app/risk/position_sizing.py:214-298 | The quantity is monotone in the seven factors together |
| PositionSizing.MoreLossesNeverBuyMore | app/risk/position_sizing.py:337-341 | More consecutive losses never raise the quantity |
| PositionSizing.MoreConfidenceNeverBuysLess | app/risk/position_sizing.py:319-321 | More confidence never lowers the quantity |
| PositionSizing.HealthierNeverSizedSmaller | app/risk/position_sizing.py:301-355 | A healthier account in every respect is never sized smaller |
| PositionSizing.DefaultSizingIsOrderly | app/risk/position_sizing.py:24-43 | The default configuration meets the conditions and its multipliers are never negative |
| SwingTakeProfit.SignatureRoundTrip | app/strategy/swing_relaxed_v2_state.py:70-91 | The quantity read back from a printed signature is the printed quantity, for every price and quantity |
| SwingTakeProfit.FixedPointValue | app/strategy/swing_relaxed_v2_state.py:70-71 | A printed price is its sign, whole part and six digits, to the nearest millionth |
| SwingTakeProfit.ParsePrintedInt | app/strategy/swing_relaxed_v2_state.py:91 | Parsing a printed integer gives it back, negative ones included |
| SwingTakeProfit.LastPieceOf | app/strategy/swing_relaxed_v2_state.py:91 | The text after the last marker is found whatever stands before it |
| SwingTakeProfit.SyncWithPortfolio | app/strategy/swing_relaxed_v2_state.py:74-97 | The two dictionary loops compute the sync function |
| SwingTakeProfit.DropDeparted | app/strategy/swing_relaxed_v2_state.py:74-85 | Flags and signatures of flagged symbols that left are dropped, no others |
| SwingTakeProfit.RenewHeld | app/strategy/swing_relaxed_v2_state.py:86-97 | Flags of grown holdings are dropped and every held signature renewed |
| SwingTakeProfit.SyncMeaning | app/strategy/swing_relaxed_v2_state.py:74-97 | A flag survives a sync exactly when its symbol is held and has not grown |
| SwingTakeProfit.DynamicStopRange | app/strategy/swing_relaxed_v2_strategy.py:97-103 | The volatility stop lies between 90% and 132% of the configured one |
| SwingTakeProfit.FirstTakeProfitIff | app/strategy/swing_relaxed_v2_strategy.py:137-180 | The partial profit is taken exactly in its band and before its flag, and the stop comes first |
| SwingTakeProfit.ExitOnPrices | app/strategy/swing_relaxed_v2_strategy.py:106-216 | The whole exit decision on prices, the first matching line of five |
| SwingTakeProfit.ExitSizes | app/strategy/swing_relaxed_v2_strategy.py:137-216 | An exit sells at least one share and at most the holding, and all of it once the flag is up |
| SwingTakeProfit.SwingRelaxedV2Strategy.GenerateExits | app/strategy/swing_relaxed_v2_strategy.py:284-335 | The exits of a tick and the state file it saves |
| SwingTakeProfit.FlagStep | app/strategy/swing_relaxed_v2_state.py:63-97 | How a flag moves from one tick's sync to the next one's, both directions |
| SwingTakeProfit.FlagExact | app/strategy/swing_relaxed_v2_state.py:63-97 | Over any run a flag is up exactly when the partial profit of the same unbroken holding and day was already signalled |
| SwingTakeProfit.SecondTakeNeedsNewShares | app/strategy/swing_relaxed_v2_strategy.py:165-180 | Between two partial profits of a symbol on one day some tick saw it flat or grown |
| WalkForward.BuildTimeSplits | app/backtest/walkforward.py:29-53 | Ends for every positive step; returns exactly the leading splits that fit, and the next one does not |
| WalkForward.SplitMeaning | app/backtest/walkforward.py:43-48 | Training ends the day before testing starts; testing ends the day before its months are over |
| WalkForward.SplitsStrictlyOrdered | app/backtest/walkforward.py:42-53 | Later splits start and end strictly later |
| WalkForward.NeighboursDisjointIff | app/backtest/walkforward.py:43-52 | Neighbouring test windows are disjoint exactly when the step exceeds the test length, or equals it and no month end cuts the next start short |
| WalkForward.TestWindowsDisjointIff | app/backtest/walkforward.py:29-53 | All test windows are pairwise disjoint exactly when every step meets that condition |
| WalkForward.EarlyDaysDisjoint | app/backtest/walkforward.py:29-53 | Disjoint for a step of at least the test length and a first day up to the 28th |
| WalkForward.MonthEndOverlaps | app/backtest/walkforward.py:29-53 | The windows from 31 January overlap: concrete dates |
| WalkForward.ZeroStepNeverEnds | app/backtest/walkforward.py:42-52 | With a zero step every turn gives the first split again, so a first split that fits is appended for ever |
| WalkForward.NegativeStepLeavesEveryRange | app/backtest/walkforward.py:42-52 | With a negative step a first split that fits is followed by fitting ones only while the cursor passes below every month |
| WalkForward.SelectParameters | app/backtest/walkforward.py:86-94 | The first of the best training scores is chosen; none exactly for an empty grid |
| Calendars.OrdinalOrder | app/backtest/walkforward.py:43-52 | Day numbers order dates as months and days do |
| Calendars.NeighbourDays | app/backtest/walkforward.py:44-47 | The previous and the next day are one day number apart and undo each other |
| Resampling.GroupAggregates | app/scheduler/kis_intraday.py:178-203 | Each bin holds first open, last close, extreme high and low and total volume of exactly its bars |
| Resampling.ResampleAggregates | app/scheduler/kis_intraday.py:178-203 | The same for the sorted input from its own midnight |
| Resampling.ResampleKeepsVolume | app/scheduler/kis_intraday.py:178-203 | Total volume is conserved |
| Resampling.ResampleKeepsBounds | app/scheduler/kis_intraday.py:178-203 | Low <= open, close <= high is preserved |
| Resampling.CoarseBinOfFineBin | app/scheduler/kis_intraday.py:190-199 | A fine bin lies inside one coarse bin |
| Resampling.ResampleComposes | app/scheduler/kis_intraday.py:178-203 | Resampling to a and then to a*b minutes equals resampling straight to a*b |
| Resampling.SortMeaning | app/scheduler/kis_intraday.py:185-188 | The sort rearranges the bars into time order and keeps the order of equal times |
| Resampling.ConvertUniverse | app/scheduler/kis_intraday.py:549-559 | The loop over symbols computes the concatenated resampling |
| Resampling.UniverseBySymbol | app/scheduler/kis_intraday.py:549-559 | Each symbol's rows are its own rows resampled, in their own order |
| Resampling.UniverseComposes | app/scheduler/kis_intraday.py:549-559 | Composition for whole universes |
| FillPerformance.MaxDrawdownProxy | app/strategy/strategy_fill_performance.py:90-100 | The one-pass loop computes the drawdown of the two-index definition; none exactly for no profits |
| FillPerformance.MaxDrawdownUnique | app/strategy/strategy_fill_performance.py:90-100 | That definition has one value only |

## Left out

- Floating point: money, prices and percentages are exact reals; the share count is the floor of an exact quotient.
- JSON text of the state files, logging, event sinks, report dictionaries, reason texts and rounding for display.
- Live and exchange brokers, network clients, HTTP routes, desktop and mobile applications, database models.
- Indicator formulas, market regime, ranking and entry scores, the quality score and the effective-equity factors: their outputs are arbitrary inputs.
- Market, index and overnight-exposure filters of the entry branch: one Boolean input, `entryFiltersPass`.
- Peak prices, entry timestamps, the performance ledger and diagnostics of the paper state: no modelled decision reads them; the health label is an input.
- Clock: every order has its own readings, but one tick has one KST day from loading to the last order; the day of saving may be later.
- FinalBettingRunners.DeadlineTick: for ticks that the kill switch does not skip; a skipped tick signals nothing.
- FinalBettingRunners.ScaleoutOnlyOnce: the life of a position is a stretch of ticks after each of which the symbol is still carried.
- FinalBettingJobs.FinalBettingStrategy.RankedCandidates: the indicator filters and the ranking score are inputs; the list arrives in rank order.
- FinalBettingJobs.FinalBettingStrategy.PickEntries: the effective-equity factors, the filter override and the last quality score of the tick are inputs; stop, reduction, shares and allocation check are computed.
- FinalBettingJobs.FinalBettingStrategy.GenerateSignals: the market filters of the entry branch are one Boolean, and diagnostics are left out.
- FinalBettingJobs.FinalBettingIntradayJobs.RunIntradayCycle: the report is left out.
- FinalBettingEquity.TickConservesEquity: for ticks whose last prices and closes are those of the universe's latest rows, as the program reads them.
- DailyCycles.SchedulerJobs.RunDailyCycle: the order list is an input; how the strategy builds it is not modelled, nor are the display fields of the report.
- DailyCycles.GateDecisionHolds: for orders without their own price, one KST day, sound holdings and an account that does not start under water, the condition of `GuardDecisionStableIff`.
- PaperAccount.PlaceKeepsSolvent: for positive prices, since the broker itself checks no sign.
- SwingTakeProfit.ParsePrintedInt: reads the digits and sign that printing produces; spaces, underscores and other digits that Python accepts are not read.
- SwingTakeProfit.SwingRelaxedV2Strategy.GenerateExits: each held symbol is evaluated once a tick; the entry half is not modelled.
- WalkForward.SelectParameters: takes the scores of the grid; the backtest engine and the objective are not modelled. A score of minus infinity or NaN is not a real.
- WalkForward.BuildTimeSplits: dates are unbounded; the range of a timestamp is not modelled.
- Resampling.ResampleAggregates: bars without missing values, in local time with a fixed offset; equal times keep their order.
- PositionSizing: the wrapper by regime, the fixed-fraction size, holding-day limits and order splitting only add easy cases.
- Scalp strategies, fetch caches, throttling and session-hour parsing.
