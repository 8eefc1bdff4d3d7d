/** The daily cycle of the paper account (app/scheduler/jobs.py): a gate, then an order loop that
    rebuilds the risk snapshot before every order. */
module DailyCycles {
  import opened Common
  import opened Orders
  import opened PaperAccount
  import opened RiskRules
  import opened KillSwitches
  import opened EquityTracking
  import opened OrderManagement
  import opened TradingDesk

  /** Everything one order loop works on besides the account: rules, prices, orders, clock. */
  datatype Cycle = Cycle(
    limits: RiskLimits,
    universe: Universe,
    orders: seq<OrderRequest>,
    readings: seq<Reading>,
    quote: Symbol -> real
  )

  /** One clock reading per order, and the manager's second check never before its first. */
  ghost predicate WellTimed(c: Cycle) {
    && |c.readings| == |c.orders|
    && forall k :: 0 <= k < |c.readings| ==> NoEarlier(c.readings[k].second, c.readings[k].first)
  }

  ghost predicate OnDay(c: Cycle, today: Day) {
    forall k :: 0 <= k < |c.readings| ==> c.readings[k].today == today
  }

  ghost predicate MarkPriced(c: Cycle) {
    forall k :: 0 <= k < |c.orders| ==> NoOwnPrice(c.orders[k])
  }

  /** The desk after the first `k` orders. */
  ghost function After(c: Cycle, d: Desk, k: nat): Desk
    requires WellTimed(c) && k <= |c.orders|
  {
    if k == 0 then d
    else Route(c.limits, After(c, d, k - 1), c.universe, c.orders[k - 1], c.readings[k - 1], c.quote).0
  }

  /** The answer to order `k`. */
  ghost function Answer(c: Cycle, d: Desk, k: nat): OrderResult
    requires WellTimed(c) && k < |c.orders|
  {
    Route(c.limits, After(c, d, k), c.universe, c.orders[k], c.readings[k], c.quote).1
  }

  ghost function CountAccepted(c: Cycle, d: Desk, k: nat): (n: nat)
    requires WellTimed(c) && k <= |c.orders|
    ensures n <= k
  {
    if k == 0 then 0 else CountAccepted(c, d, k - 1) + if Answer(c, d, k - 1).accepted then 1 else 0
  }

  // ---- equity -----------------------------------------------------------------------------

  lemma {:induction false} LoopKeepsSound(c: Cycle, d: Desk, k: nat)
    requires WellTimed(c) && k <= |c.orders| && HoldingsSound(d.account)
    ensures HoldingsSound(After(c, d, k).account)
  {
    hide Route;
    if k > 0 {
      LoopKeepsSound(c, d, k - 1);
      RouteKeepsSound(
        c.limits, After(c, d, k - 1), c.universe, c.orders[k - 1], c.readings[k - 1], c.quote);
    }
  }

  /** Equity at the mark is the same before, during and after the whole order loop. */
  lemma {:induction false} EquityConserved(c: Cycle, d: Desk, k: nat)
    requires WellTimed(c) && MarkPriced(c) && k <= |c.orders| && HoldingsSound(d.account)
    ensures Equity(After(c, d, k).account, c.universe) == Equity(d.account, c.universe)
  {
    hide Route, Equity;
    if k > 0 {
      EquityConserved(c, d, k - 1);
      LoopKeepsSound(c, d, k - 1);
      RouteConservesEquity(
        c.limits, After(c, d, k - 1), c.universe, c.orders[k - 1], c.readings[k - 1], c.quote);
    }
  }

  // ---- the gate ---------------------------------------------------------------------------

  lemma {:induction false} LoopKeepsBaseline(c: Cycle, d: Desk, today: Day, k: nat)
    requires WellTimed(c) && MarkPriced(c) && OnDay(c, today) && k <= |c.orders|
    requires HoldingsSound(d.account)
    ensures var gated := AfterSnapshot(d, c.universe, today);
            After(c, gated, k) == gated.(account := After(c, gated, k).account)
  {
    hide Route, Equity, RollBaseline;
    var gated := AfterSnapshot(d, c.universe, today);
    if k > 0 {
      var before := After(c, gated, k - 1);
      LoopKeepsBaseline(c, d, today, k - 1);
      EquityConserved(c, gated, k - 1);
      SecondReadingStableIff(d.baseline, Equity(d.account, c.universe), today, true);
      RouteMeaning(c.limits, before, c.universe, c.orders[k - 1], c.readings[k - 1], c.quote);
    }
  }

  /** The gate's reading is the first one ever, of a non-positive equity. */
  ghost predicate StartsUnderWater(d: Desk, u: Universe) {
    d.tracked && FirstReadingUnderWater(d.baseline, Equity(d.account, u), true)
  }

  /** Every order of the loop meets the guard decision that the gate met. */
  lemma GuardDecisionStable(c: Cycle, d: Desk, today: Day, gateNow: Instant, k: nat, now: Instant)
    requires WellTimed(c) && MarkPriced(c) && OnDay(c, today) && k <= |c.orders|
    requires HoldingsSound(d.account) && !StartsUnderWater(d, c.universe)
    ensures var gated := AfterSnapshot(d, c.universe, today);
            GlobalGuard(c.limits, Snapshot(After(c, gated, k), c.universe, today), now)
            == GlobalGuard(c.limits, Snapshot(d, c.universe, today), gateNow)
  {
    hide Route, Equity, RollBaseline, ReadPnl;
    var gated := AfterSnapshot(d, c.universe, today);
    LoopKeepsBaseline(c, d, today, k);
    EquityConserved(c, gated, k);
    SecondReadingStableIff(d.baseline, Equity(d.account, c.universe), today, true);
  }

  /** Loss limits that are neither switched off nor beyond a total loss. */
  predicate SensibleLossLimits(l: RiskLimits) {
    && 0.0 < AbsReal(l.totalLossLimitPct) <= 100.0
    && AbsReal(l.dailyLossLimitPct) > 0.0
    && AbsReal(l.rollingLossLimitPct) > 0.0
  }

  /** The gate's decision stands for an order exactly unless the account starts under water: then
      the gate lets the cycle run, and every order meets the total loss limit. */
  lemma GuardDecisionStableIff(c: Cycle, d: Desk, today: Day, gateNow: Instant, k: nat, now: Instant)
    requires WellTimed(c) && MarkPriced(c) && OnDay(c, today) && k <= |c.orders|
    requires HoldingsSound(d.account) && SensibleLossLimits(c.limits)
    ensures var gated := AfterSnapshot(d, c.universe, today);
            var gate := GlobalGuard(c.limits, Snapshot(d, c.universe, today), gateNow);
            var guard := GlobalGuard(c.limits, Snapshot(After(c, gated, k), c.universe, today), now);
            && (guard == gate <==> !StartsUnderWater(d, c.universe))
            && (StartsUnderWater(d, c.universe) ==> gate.approved && guard.code == SystemOffTotalLoss)
  {
    hide Route, Equity, After;
    if StartsUnderWater(d, c.universe) {
      LoopKeepsBaseline(c, d, today, k);
      EquityConserved(c, AfterSnapshot(d, c.universe, today), k);
    } else {
      GuardDecisionStable(c, d, today, gateNow, k, now);
    }
  }

  /** A cycle gated on the daily loss accepts no buy and still approves every sell; a cycle gated
      as running refuses no order with a code of the global guard. */
  lemma GateDecisionHolds(c: Cycle, d: Desk, today: Day, gateNow: Instant, k: nat)
    requires WellTimed(c) && MarkPriced(c) && OnDay(c, today) && k < |c.orders|
    requires HoldingsSound(d.account) && !StartsUnderWater(d, c.universe)
    ensures var verdict := Evaluate(c.limits, Snapshot(d, c.universe, today), gateNow);
            var answer := Answer(c, AfterSnapshot(d, c.universe, today), k);
            && (verdict.entriesBlocked && c.orders[k].side.Buy? ==>
                 !answer.accepted && answer.refusal == Some(RiskRefusal(verdict.code)))
            && (c.orders[k].side.Sell? ==> answer.status != RejectedRisk)
            && (verdict.state.Running? && answer.status == RejectedRisk ==>
                 answer.refusal.Some? && answer.refusal.value.RiskRefusal?
                 && !IsGlobalGuardCode(answer.refusal.value.code))
            && (verdict.state.HaltedDaily? ==> verdict.entriesBlocked && verdict.code == HaltDailyLoss)
  {
    hide Route, Equity, GlobalGuard, EntryGates, NotionalCheck, ValidateBuyWeight;
    var desk := After(c, AfterSnapshot(d, c.universe, today), k);
    var o, r := c.orders[k], c.readings[k];
    GuardDecisionStable(c, d, today, gateNow, k, r.first.guardNow);
    RouteMeaning(c.limits, desk, c.universe, o, r, c.quote);
    var order := CreateOrder(SignalFor(desk.account, c.universe, o));
    if o.side.Buy? {
      GuardSettlesBuys(c.limits, order, Snapshot(desk, c.universe, today), r.first);
    }
  }

  // ---- caps -------------------------------------------------------------------------------

  /** The adaptive weight multiplier under the snapshot's default streak and trade history. */
  function CycleMultiplier(l: RiskLimits): real {
    if 0 >= l.lossStreakThreshold || 0.0 < l.adaptivePerformanceFloorPct then l.adaptiveWeightMultiplier else 1.0
  }

  ghost function ValueCap(c: Cycle, d: Desk): real {
    var equity := Equity(d.account, c.universe);
    c.limits.maxPositionWeight * CycleMultiplier(c.limits) * if equity > 0.0 then equity else 1.0
  }

  /** The symbols whose holding has a positive marked value: the holdings the rules count. */
  ghost function LiveHoldings(a: Account, u: Universe): set<Symbol> {
    set s | s in a.positions && HeldValue(a, u, s) > 0.0
  }

  ghost function SnapshotCap(l: RiskLimits, snapshot: RiskSnapshot): real {
    WeightCap(l, snapshot, BuildAdaptiveGuard(l, snapshot).weightMultiplier) * snapshot.equity
  }

  lemma ApprovedBuyFits(l: RiskLimits, o: OrderRequest, s: RiskSnapshot, clock: Clock)
    requires o.side.Buy? && ApproveOrder(l, o, s, clock).approved && s.regime.Sideways?
    ensures o.price.Some? && o.price.value > 0.0 && s.equity > 0.0
    ensures PositionCountAfter(s, o.symbol) <= l.maxPositions
    ensures CurrentValue(s, o.symbol) + Notional(o.price.value, o.quantity) <= SnapshotCap(l, s)
  {
    hide Notional, RollingPnlPct, NotionalCheck, CurrentPositions;
    var cap := WeightCap(l, s, BuildAdaptiveGuard(l, s).weightMultiplier);
    var value := CurrentValue(s, o.symbol) + Notional(o.price.value, o.quantity);
    assert value / s.equity <= cap;
    assert value / s.equity * s.equity <= cap * s.equity;
  }

  lemma OthersKeepValue(a: Account, u: Universe, o: OrderRequest, quote: Symbol -> real, s: Symbol)
    requires s != o.symbol
    ensures HeldValue(Place(a, o, quote).0, u, s) == HeldValue(a, u, s)
  {
    hide Notional;
    PlaceLeavesOthers(a, o, quote, s);
  }

  lemma NotionalSign(price: real, n: int)
    requires n > 0
    ensures Notional(price, n) > 0.0 <==> price > 0.0
    ensures Notional(0.0, n) == 0.0
  {
  }

  lemma MarkedBuy(a: Account, u: Universe, o: OrderRequest, quote: Symbol -> real)
    requires HoldingsSound(a) && o.side.Buy? && Place(a, o, quote).1.accepted
    requires o.price == Some(Mark(a, u, o.symbol)) && o.price.value > 0.0
    ensures var a' := Place(a, o, quote).0;
            && HeldValue(a', u, o.symbol) == HeldValue(a, u, o.symbol) + Notional(o.price.value, o.quantity)
            && HeldValue(a, u, o.symbol) >= 0.0
            && LiveHoldings(a', u) == LiveHoldings(a, u) + {o.symbol}
  {
    hide Notional, Place;
    var s, price, n := o.symbol, o.price.value, o.quantity;
    BuyValue(a, u, o, quote);
    AcceptedIsPositive(a, o, quote);
    NotionalSign(price, n);
    if s in a.positions {
      NotionalSign(price, a.positions[s].quantity);
    }
    forall k ensures k in LiveHoldings(Place(a, o, quote).0, u) <==> k in LiveHoldings(a, u) + {s} {
      if k != s {
        OthersKeepValue(a, u, o, quote, k);
        PlaceLeavesOthers(a, o, quote, k);
      }
    }
  }

  lemma AcceptedIsPositive(a: Account, o: OrderRequest, quote: Symbol -> real)
    requires Place(a, o, quote).1.accepted
    ensures o.quantity > 0
    ensures o.side.Buy? ==> o.symbol in Place(a, o, quote).0.positions
  {
  }

  lemma SellRest(a: Account, u: Universe, o: OrderRequest, quote: Symbol -> real)
    requires HoldingsSound(a) && o.side.Sell? && Place(a, o, quote).1.accepted
    ensures var a' := Place(a, o, quote).0;
            && HeldValue(a', u, o.symbol) <= MaxReal(0.0, HeldValue(a, u, o.symbol))
            && LiveHoldings(a', u) <= LiveHoldings(a, u)
  {
    hide Notional;
    var s, n := o.symbol, o.quantity;
    var a', q := Place(a, o, quote).0, a.positions[s].quantity;
    var mark := Mark(a, u, s);
    NotionalSign(mark, q);
    if q > n {
      NotionalSign(mark, q - n);
      NotionalMinus(mark, q, n);
      NotionalSign(mark, n);
    }
    forall k | k in LiveHoldings(a', u) ensures k in LiveHoldings(a, u) {
      if k != s {
        OthersKeepValue(a, u, o, quote, k);
      }
    }
  }

  lemma SnapshotSees(d: Desk, u: Universe, today: Day, s: Symbol)
    ensures var snapshot := Snapshot(d, u, today);
            && CurrentPositions(snapshot).Keys == LiveHoldings(d.account, u)
            && PositionCountAfter(snapshot, s) == |LiveHoldings(d.account, u) + {s}|
            && CurrentValue(snapshot, s) == MaxReal(0.0, HeldValue(d.account, u, s))
  {
    hide Notional, Equity, ReadPnl;
    var snapshot := Snapshot(d, u, today);
    assert CurrentPositions(snapshot).Keys == LiveHoldings(d.account, u);
    if s in LiveHoldings(d.account, u) {
      assert LiveHoldings(d.account, u) + {s} == LiveHoldings(d.account, u);
    }
  }

  /** What a placed order can do to one symbol's value and to the live holdings. */
  ghost predicate WithinCaps(l: RiskLimits, a: Account, a': Account, u: Universe, s: Symbol, cap: real) {
    && HeldValue(a', u, s) <= MaxReal(MaxReal(0.0, HeldValue(a, u, s)), cap)
    && (LiveHoldings(a', u) <= LiveHoldings(a, u) || |LiveHoldings(a', u)| <= l.maxPositions)
  }

  lemma ApprovedBuyKeepsCaps(
    l: RiskLimits, d: Desk, u: Universe, order: OrderRequest, today: Day, clock: Clock,
    quote: Symbol -> real, s: Symbol)
    requires HoldingsSound(d.account) && order.side.Buy? && order.price == Some(Mark(d.account, u, order.symbol))
    requires ApproveOrder(l, order, Snapshot(d, u, today), clock).approved && Place(d.account, order, quote).1.accepted
    ensures WithinCaps(l, d.account, Place(d.account, order, quote).0, u, s, SnapshotCap(l, Snapshot(d, u, today)))
  {
    hide Place, SnapshotCap, Notional, Snapshot, Mark, HeldValue, LiveHoldings, ApproveOrder,
      PositionCountAfter, CurrentValue, HoldingsSound;
    SnapshotIsSideways(d, u, today);
    ApprovedBuyFits(l, order, Snapshot(d, u, today), clock);
    SnapshotSees(d, u, today, order.symbol);
    MarkedBuy(d.account, u, order, quote);
    if s != order.symbol {
      OthersKeepValue(d.account, u, order, quote, s);
    }
  }

  lemma SnapshotIsSideways(d: Desk, u: Universe, today: Day)
    ensures Snapshot(d, u, today).regime.Sideways?
  {
  }

  /** A routed order cannot lift a symbol's value above both its value before and the cap, and
      cannot add a holding beyond the position limit. */
  lemma RouteKeepsCaps(
    l: RiskLimits, d: Desk, u: Universe, o: OrderRequest, r: Reading, quote: Symbol -> real, s: Symbol)
    requires HoldingsSound(d.account) && NoEarlier(r.second, r.first) && NoOwnPrice(o)
    ensures WithinCaps(l, d.account, Route(l, d, u, o, r, quote).0.account, u, s,
                       SnapshotCap(l, Snapshot(d, u, r.today)))
  {
    hide Route, ApproveOrder, Place, SnapshotCap, Notional, Snapshot, Mark, HeldValue, LiveHoldings;
    RouteMeaning(l, d, u, o, r, quote);
    var order := CreateOrder(SignalFor(d.account, u, o));
    var a' := Route(l, d, u, o, r, quote).0.account;
    if a' == d.account {
    } else if !Place(d.account, order, quote).1.accepted {
      RefusedHoldsSame(d.account, u, order, quote, s);
    } else if o.side.Buy? {
      ApprovedBuyKeepsCaps(l, d, u, order, r.today, r.first, quote, s);
    } else {
      SellRest(d.account, u, order, quote);
      if s != o.symbol {
        OthersKeepValue(d.account, u, order, quote, s);
      }
    }
  }

  lemma RefusedHoldsSame(a: Account, u: Universe, o: OrderRequest, quote: Symbol -> real, s: Symbol)
    requires !Place(a, o, quote).1.accepted
    ensures var a' := Place(a, o, quote).0;
            HeldValue(a', u, s) == HeldValue(a, u, s) && LiveHoldings(a', u) == LiveHoldings(a, u)
  {
    hide Notional;
  }

  lemma DefaultGuard(l: RiskLimits, s: RiskSnapshot)
    requires s.recentTradePnls == [] && s.consecutiveLosses == 0
    ensures BuildAdaptiveGuard(l, s).weightMultiplier == CycleMultiplier(l)
  {
  }

  lemma CapIsConstant(c: Cycle, d: Desk, k: nat)
    requires WellTimed(c) && MarkPriced(c) && k < |c.orders| && HoldingsSound(d.account)
    ensures SnapshotCap(c.limits, Snapshot(After(c, d, k), c.universe, c.readings[k].today)) == ValueCap(c, d)
  {
    hide Route, Equity, BuildAdaptiveGuard, CycleMultiplier, After, ReadPnl;
    EquityConserved(c, d, k);
    DefaultGuard(c.limits, Snapshot(After(c, d, k), c.universe, c.readings[k].today));
  }

  /** After any number of orders a symbol is worth at most its starting value or the weight cap,
      and the live holdings number at most those at the start or the position limit. */
  lemma {:induction false} CapsHold(c: Cycle, d: Desk, k: nat, s: Symbol)
    requires WellTimed(c) && MarkPriced(c) && k <= |c.orders| && HoldingsSound(d.account)
    ensures HeldValue(After(c, d, k).account, c.universe, s)
            <= MaxReal(MaxReal(0.0, HeldValue(d.account, c.universe, s)), ValueCap(c, d))
    ensures |LiveHoldings(After(c, d, k).account, c.universe)|
            <= MaxInt(|LiveHoldings(d.account, c.universe)|, c.limits.maxPositions)
  {
    hide Route, HeldValue, ValueCap, WeightCap, Snapshot, LiveHoldings, BuildAdaptiveGuard;
    if k > 0 {
      var before, r := After(c, d, k - 1), c.readings[k - 1];
      CapsHold(c, d, k - 1, s);
      LoopKeepsSound(c, d, k - 1);
      CapIsConstant(c, d, k - 1);
      RouteKeepsCaps(c.limits, before, c.universe, c.orders[k - 1], r, c.quote, s);
      var live, live' := LiveHoldings(before.account, c.universe), LiveHoldings(After(c, d, k).account, c.universe);
      if live' <= live {
        SubsetSize(live', live);
      }
    }
  }

  lemma {:induction false} SubsetSize(small: set<Symbol>, large: set<Symbol>)
    requires small <= large
    ensures |small| <= |large|
  {
    if small != {} {
      var x :| x in small;
      SubsetSize(small - {x}, large - {x});
    }
  }


  ghost predicate PositiveCloses(u: Universe) {
    forall i :: 0 <= i < |u| ==> u[i].close > 0.0
  }

  lemma EveryHoldingIsLive(a: Account, u: Universe)
    requires HoldingsSound(a) && PositiveCloses(u)
    ensures LiveHoldings(a, u) == a.positions.Keys
  {
    forall s | s in a.positions ensures HeldValue(a, u, s) > 0.0 {
      NotionalSign(Mark(a, u, s), a.positions[s].quantity);
    }
  }

  /** When the snapshot's defaults do not raise the weight limit, the value cap reads as documented:
      maximum weight times equity, whatever the signs of the closes. */
  lemma ValueCapInPlainTerms(c: Cycle, d: Desk, k: nat, s: Symbol)
    requires WellTimed(c) && MarkPriced(c) && k <= |c.orders| && HoldingsSound(d.account)
    requires Equity(d.account, c.universe) > 0.0
    requires CycleMultiplier(c.limits) <= 1.0 && c.limits.maxPositionWeight >= 0.0
    ensures HeldValue(After(c, d, k).account, c.universe, s)
            <= MaxReal(HeldValue(d.account, c.universe, s),
                       c.limits.maxPositionWeight * Equity(d.account, c.universe))
  {
    hide After, Equity, HeldValue, LiveHoldings, CycleMultiplier;
    CapsHold(c, d, k, s);
    var equity := Equity(d.account, c.universe);
    CapBelowFullWeight(c.limits.maxPositionWeight, CycleMultiplier(c.limits), equity);
    assert ValueCap(c, d) <= c.limits.maxPositionWeight * equity;
    hide ValueCap;
  }

  lemma CapBelowFullWeight(weight: real, multiplier: real, equity: real)
    requires weight >= 0.0 && multiplier <= 1.0 && equity > 0.0
    ensures weight * multiplier * equity <= weight * equity && weight * equity >= 0.0
  {
    assert weight * multiplier <= weight;
  }

  /** With positive closes the holdings number at most those at the start or the position limit,
      for every limits and every equity. */
  lemma HoldingCapInPlainTerms(c: Cycle, d: Desk, k: nat)
    requires WellTimed(c) && MarkPriced(c) && k <= |c.orders| && HoldingsSound(d.account)
    requires PositiveCloses(c.universe)
    ensures |After(c, d, k).account.positions| <= MaxInt(|d.account.positions|, c.limits.maxPositions)
  {
    hide After, Equity, HeldValue, LiveHoldings, ValueCap;
    CapsHold(c, d, k, "");
    LoopKeepsSound(c, d, k);
    EveryHoldingIsLive(d.account, c.universe);
    EveryHoldingIsLive(After(c, d, k).account, c.universe);
    assert |After(c, d, k).account.positions| == |After(c, d, k).account.positions.Keys|;
  }

  // ---- the jobs object ----------------------------------------------------------------------

  datatype CycleReport =
    | EmptyUniverse
    | Halted(verdict: Verdict, equity: real)
    | Completed(accepted: nat, rejected: nat, equity: real)

  class SchedulerJobs {
    const desk: RiskDesk
    const killSwitch: KillSwitch?
    var manualOverride: bool

    constructor (desk: RiskDesk, killSwitch: KillSwitch?)
      ensures this.desk == desk && this.killSwitch == killSwitch && !manualOverride
    {
      this.desk, this.killSwitch, manualOverride := desk, killSwitch, false;
    }

    /** Whether the gate skips the cycle: a total-loss verdict that no manual override covers. */
    ghost predicate GateHalts(u: Universe, today: Day, guardNow: Instant)
      reads this, desk, desk.broker, desk.tracker
    {
      && !manualOverride
      && killSwitch != null
      && Evaluate(killSwitch.limits, Snapshot(desk.View(), u, today), guardNow).riskOff
    }

    /** `run_daily_cycle` for the order list that the strategy produced: gate, order loop, report. */
    method RunDailyCycle(
      u: Universe, orders: seq<OrderRequest>, gateDay: Day, gateNow: Instant, readings: seq<Reading>)
      returns (report: CycleReport)
      requires WellTimed(Cycle(desk.limits, u, orders, readings, desk.broker.quote))
      modifies desk.broker, desk.tracker, killSwitch
      ensures u == [] ==> report == EmptyUniverse && desk.View() == old(desk.View())
      ensures u != [] && old(GateHalts(u, gateDay, gateNow)) ==>
                && report == Halted(
                     Evaluate(killSwitch.limits, Snapshot(old(desk.View()), u, gateDay), gateNow),
                     Snapshot(old(desk.View()), u, gateDay).equity)
                && desk.View() == AfterSnapshot(old(desk.View()), u, gateDay)
      ensures u != [] && !old(GateHalts(u, gateDay, gateNow)) ==>
                var c := Cycle(desk.limits, u, orders, readings, desk.broker.quote);
                var gated := AfterSnapshot(old(desk.View()), u, gateDay);
                && desk.View() == After(c, gated, |orders|)
                && report == Completed(
                     CountAccepted(c, gated, |orders|), |orders| - CountAccepted(c, gated, |orders|),
                     Equity(desk.broker.State(), u))
                && (MarkPriced(c) && HoldingsSound(gated.account) ==>
                     report.equity == Equity(old(desk.broker.State()), u))
      ensures u != [] && !manualOverride && killSwitch != null ==>
                killSwitch.View() == Evaluate(killSwitch.limits, Snapshot(old(desk.View()), u, gateDay), gateNow)
    {
      hide Route, Snapshot, Evaluate;
      if u == [] {
        return EmptyUniverse;
      }
      ghost var c := Cycle(desk.limits, u, orders, readings, desk.broker.quote);
      var snapshot := desk.BuildRiskSnapshot(u, gateDay);
      ghost var gated := desk.View();
      if !manualOverride && killSwitch != null {
        var skip := killSwitch.Check(snapshot, gateNow);
        if skip {
          return Halted(
            Verdict(
              killSwitch.state, killSwitch.lastReasonCode, killSwitch.newEntriesBlocked, killSwitch.systemRiskOff),
            snapshot.equity);
        }
      }
      ghost var verdict := if killSwitch != null then killSwitch.View() else Verdict(Running, Ok, false, false);
      var accepted, rejected := 0, 0;
      for k := 0 to |orders|
        invariant desk.View() == After(c, gated, k)
        invariant accepted == CountAccepted(c, gated, k) && rejected == k - accepted
        invariant killSwitch != null ==> killSwitch.View() == verdict
      {
        var result := desk.RouteOrder(u, orders[k], readings[k]);
        if result.accepted {
          accepted := accepted + 1;
        } else {
          rejected := rejected + 1;
        }
      }
      var equity, _ := desk.CurrentEquity(u);
      if MarkPriced(c) && HoldingsSound(gated.account) {
        EquityConserved(c, gated, |orders|);
      }
      report := Completed(accepted, rejected, equity);
    }
  }
}
