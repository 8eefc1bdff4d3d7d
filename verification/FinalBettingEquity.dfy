/** What a tick of the closing-auction strategy does to the account's equity, and how its sizing meets
    the risk rules (app/scheduler/intraday_jobs.py, app/strategy/final_betting_v1_strategy.py,
    app/risk/rules.py). */
module FinalBettingEquity {
  import opened Common
  import opened Orders
  import opened PaperAccount
  import opened RiskRules
  import opened EquityTracking
  import opened OrderManagement
  import opened TradingDesk
  import opened DailyCycles
  import opened PositionSizing
  import opened FinalBettingExits
  import opened FinalBettingSizing
  import opened FinalBettingState
  import opened FinalBettingTicks
  import opened FinalBettingRuns

  // ---- prices --------------------------------------------------------------------------------------

  /** The price is the close of the symbol's latest row. */
  predicate IsLatestClose(u: Universe, s: Symbol, price: real) {
    LatestRow(u, s).Some? && LatestRow(u, s).value.close == price
  }

  /** The strategy and the marks read the same bars. */
  ghost predicate PricedFromUniverse(env: TickEnv) {
    && (forall s :: s in env.views ==> IsLatestClose(env.universe, s, env.views[s].lastPx))
    && (forall c :: c in env.ranked ==> IsLatestClose(env.universe, c.symbol, c.lastClose))
  }

  ghost predicate AtClose(u: Universe, fo: FbOrder) {
    fo.order.price.Some? && IsLatestClose(u, fo.order.symbol, fo.order.price.value)
  }

  ghost predicate AllAtClose(u: Universe, orders: seq<FbOrder>) {
    forall i :: 0 <= i < |orders| ==> AtClose(u, orders[i])
  }

  lemma {:induction false} ScanAtClose(cfg: FbConfig, env: TickEnv, carry: Carry, held: seq<Holding>)
    requires PricedFromUniverse(env)
    ensures AllAtClose(env.universe, ExitScan(cfg, env, carry, held).orders)
  {
    hide DecideExit, RecordFullExit, IsLatestClose;
    if held != [] {
      ScanAtClose(cfg, env, carry, held[..|held| - 1]);
    }
  }

  lemma PickAtClose(cfg: FbConfig, env: TickEnv, c: Candidate)
    requires PricedFromUniverse(env) && c in Ranked(cfg, env)
    ensures AtClose(env.universe, BuyOrder(c))
  {
    hide IsLatestClose, EntryShares;
    var i :| 0 <= i < |env.ranked| && c == CandidateFor(cfg, env, env.ranked[i]);
    assert env.ranked[i] in env.ranked;
  }

  /** The order is a sale, or the purchase of a sized ranked candidate. */
  ghost predicate SaleOrSized(cfg: FbConfig, env: TickEnv, fo: FbOrder) {
    fo.order.side.Sell? || exists c :: c in Ranked(cfg, env) && Sized(c) && fo == BuyOrder(c)
  }

  ghost predicate Proper(cfg: FbConfig, env: TickEnv, orders: seq<FbOrder>) {
    forall i :: 0 <= i < |orders| ==> AtClose(env.universe, orders[i]) && SaleOrSized(cfg, env, orders[i])
  }

  lemma SignalsProper(cfg: FbConfig, env: TickEnv, w: World)
    requires TimelyTick(env) && PricedFromUniverse(env)
    ensures Proper(cfg, env, Signals(cfg, env, w).orders)
  {
    hide ExitScan, RollDay, Signals, TickPicks, Portfolio, PosSymbols, Sized, BuyOrder, IsLatestClose, Ranked;
    var carry, held := RollDay(w.saved, env.today).carry, PosSymbols(Portfolio(w.desk.account));
    var scan, picks := ExitScan(cfg, env, carry, held), TickPicks(cfg, env, w);
    SignalShape(cfg, env, w);
    ExitScanKeepsShares(cfg, env, carry, held);
    ScanAtClose(cfg, env, carry, held);
    var signals := scan.orders + BuyOrders(picks);
    forall i | 0 <= i < |signals| ensures AtClose(env.universe, signals[i]) && SaleOrSized(cfg, env, signals[i]) {
      if i >= |scan.orders| {
        assert signals[i] == BuyOrder(picks[i - |scan.orders|]);
        TickPicksAreRanked(cfg, env, w, i - |scan.orders|);
        PickAtClose(cfg, env, picks[i - |scan.orders|]);
      }
    }
  }

  lemma {:induction false} GatedProper(cfg: FbConfig, env: TickEnv, st: PaperState, orders: seq<FbOrder>)
    requires Proper(cfg, env, orders)
    ensures Proper(cfg, env, GatedOrders(cfg, env, st, orders))
    ensures (forall i :: 0 <= i < |orders| ==> orders[i].order.side.Buy?) ==>
              forall i :: 0 <= i < |GatedOrders(cfg, env, st, orders)| ==>
                GatedOrders(cfg, env, st, orders)[i].order.side.Buy?
  {
    hide AtClose, SaleOrSized, BuyAllowed;
    if orders != [] {
      GatedProper(cfg, env, st, orders[..|orders| - 1]);
    }
  }

  // ---- equity over a tick --------------------------------------------------------------------------

  lemma CloseIsMark(a: Account, u: Universe, fo: FbOrder)
    requires AtClose(u, fo)
    ensures PricedAtMark(a, u, fo.order)
  {
  }

  lemma OneConserves(cfg: FbConfig, env: TickEnv, x: Execution, fo: FbOrder)
    requires HoldingsSound(x.desk.account) && NoEarlier(env.clock.second, env.clock.first)
    requires AtClose(env.universe, fo)
    ensures var x' := ExecuteOne(cfg, env, x, fo);
            HoldingsSound(x'.desk.account)
            && Equity(x'.desk.account, env.universe) == Equity(x.desk.account, env.universe)
  {
    hide Route, OnAccepted, Equity, HoldingsSound, AtClose, PricedAtMark;
    var reading := Reading(env.today, env.clock.first, env.clock.second);
    CloseIsMark(x.desk.account, env.universe, fo);
    RouteConservesEquity(cfg.limits, x.desk, env.universe, fo.order, reading, cfg.quote);
    RouteKeepsSound(cfg.limits, x.desk, env.universe, fo.order, reading, cfg.quote);
  }

  lemma {:induction false} ExecuteConserves(cfg: FbConfig, env: TickEnv, x: Execution, orders: seq<FbOrder>)
    requires HoldingsSound(x.desk.account) && TimelyTick(env) && Proper(cfg, env, orders)
    ensures var x' := Execute(cfg, env, x, orders);
            HoldingsSound(x'.desk.account)
            && Equity(x'.desk.account, env.universe) == Equity(x.desk.account, env.universe)
  {
    hide ExecuteOne, Equity, HoldingsSound, AtClose, SaleOrSized;
    if orders != [] {
      var prefix := orders[..|orders| - 1];
      ExecuteConserves(cfg, env, x, prefix);
      OneConserves(cfg, AtOrder(env, |orders| - 1), Execute(cfg, env, x, prefix), orders[|orders| - 1]);
    }
  }

  lemma QueueProper(cfg: FbConfig, env: TickEnv, w: World)
    requires TimelyTick(env) && PricedFromUniverse(env)
    ensures Proper(cfg, env, TickQueue(cfg, env, w))
  {
    hide Proper, Signals, Ready, GatedOrders;
    SignalsProper(cfg, env, w);
    GatedProper(cfg, env, Ready(cfg, env, w).state, Signals(cfg, env, w).orders);
  }

  /** A whole tick conserves equity at the mark: exits, refusals and entries alike. */
  lemma TickConservesEquity(cfg: FbConfig, env: TickEnv, w: World)
    requires InStep(w) && TimelyTick(env) && PricedFromUniverse(env)
    ensures Equity(Tick(cfg, env, w).0.desk.account, env.universe) == Equity(w.desk.account, env.universe)
  {
    hide Execute, TickQueue, TickHalts, Signals, Equity, Proper, RollDay, HeldOrder, HoldingsMatchLog;
    QueueProper(cfg, env, w);
    ExecuteConserves(cfg, env, Ready(cfg, env, w), TickQueue(cfg, env, w));
  }

  // ---- sizing against the risk rules -----------------------------------------------------------------

  /** The largest value of one symbol that the rules approve in a snapshot of the account. */
  ghost function BuyCap(l: RiskLimits, a: Account, u: Universe): real {
    var equity := Equity(a, u);
    l.maxPositionWeight * CycleMultiplier(l) * if equity > 0.0 then equity else 1.0
  }

  lemma CapOfSnapshot(l: RiskLimits, d: Desk, u: Universe, today: Day)
    ensures SnapshotCap(l, Snapshot(d, u, today)) == BuyCap(l, d.account, u)
  {
    hide Equity, BuildAdaptiveGuard, CycleMultiplier, ReadPnl;
    DefaultGuard(l, Snapshot(d, u, today));
  }

  /** The minimum allocation of the candidate is out of reach of the cap by a share. */
  ghost predicate TooLarge(c: Candidate, cap: real) {
    c.lastClose >= SMALLEST_PRICE && cap + c.lastClose <= PctOf(EffectiveEquity(c.terms), MinPct(c.terms))
  }

  lemma SizedCost(c: Candidate, cap: real)
    requires Sized(c) && TooLarge(c, cap)
    ensures Notional(c.lastClose, c.Shares()) > cap && c.lastClose > 0.0
  {
    var price, n := c.lastClose, c.Shares();
    assert MaxReal(price, SMALLEST_PRICE) == price;
    EntryWithinLimits(c.terms, price, c.stopLossPct);
    NotionalMinus(price, n + 1, 1);
    OneShare(price);
  }

  /** The rules refuse a sized entry whose minimum allocation exceeds the weight cap by a share. */
  lemma OversizedBuyRefused(
    l: RiskLimits, d: Desk, u: Universe, c: Candidate, r: Reading, quote: Symbol -> real)
    requires Sized(c) && TooLarge(c, BuyCap(l, d.account, u)) && NoEarlier(r.second, r.first)
    ensures var (d', result) := Route(l, d, u, BuyOrder(c).order, r, quote);
            result.status == RejectedRisk && !result.accepted && d'.account == d.account
  {
    hide Route, Sized, TooLarge, BuyCap, Snapshot, ApproveOrder, SnapshotCap, Notional, CurrentValue, Place,
      EntryShares, PositionCountAfter;
    var o := BuyOrder(c).order;
    SizedCost(c, BuyCap(l, d.account, u));
    RouteMeaning(l, d, u, o, r, quote);
    var order, snapshot := CreateOrder(SignalFor(d.account, u, o)), Snapshot(d, u, r.today);
    assert order.price == Some(c.lastClose) && order.quantity == c.Shares();
    CapOfSnapshot(l, d, u, r.today);
    ValueNotNegative(snapshot, order.symbol);
    if ApproveOrder(l, order, snapshot, r.first).approved {
      SnapshotIsSideways(d, u, r.today);
      ApprovedBuyFits(l, order, snapshot, r.first);
    }
  }

  lemma ValueNotNegative(s: RiskSnapshot, symbol: Symbol)
    ensures CurrentValue(s, symbol) >= 0.0
  {
  }

  ghost predicate AllTooLarge(cfg: FbConfig, env: TickEnv, cap: real) {
    forall c :: c in Ranked(cfg, env) ==> TooLarge(c, cap)
  }

  lemma OneNeverBuys(cfg: FbConfig, env: TickEnv, now: TickEnv, x: Execution, fo: FbOrder)
    requires NoEarlier(now.clock.second, now.clock.first) && now.universe == env.universe && now.today == env.today
    requires SaleOrSized(cfg, env, fo) && AllTooLarge(cfg, env, BuyCap(cfg.limits, x.desk.account, env.universe))
    ensures var x' := ExecuteOne(cfg, now, x, fo);
            && x'.bought == x.bought
            && (fo.order.side.Buy? ==> x'.desk.account == x.desk.account)
  {
    hide Route, OnAccepted, BuyCap, TooLarge, Sized, Ranked, EntryShares;
    if fo.order.side.Buy? {
      var c :| c in Ranked(cfg, env) && Sized(c) && fo == BuyOrder(c);
      OversizedBuyRefused(
        cfg.limits, x.desk, env.universe, c, Reading(now.today, now.clock.first, now.clock.second), cfg.quote);
    }
  }

  ghost predicate OnlyBuys(orders: seq<FbOrder>) {
    forall i :: 0 <= i < |orders| ==> orders[i].order.side.Buy?
  }

  lemma SameEquitySameCap(l: RiskLimits, a: Account, b: Account, u: Universe)
    requires Equity(a, u) == Equity(b, u)
    ensures BuyCap(l, a, u) == BuyCap(l, b, u)
  {
    hide Equity;
  }

  lemma {:induction false} ExecuteNeverBuys(cfg: FbConfig, env: TickEnv, x: Execution, orders: seq<FbOrder>)
    requires HoldingsSound(x.desk.account) && TimelyTick(env) && Proper(cfg, env, orders)
    requires AllTooLarge(cfg, env, BuyCap(cfg.limits, x.desk.account, env.universe))
    ensures var x' := Execute(cfg, env, x, orders);
            && x'.bought == x.bought
            && (OnlyBuys(orders) ==> x'.desk.account == x.desk.account)
  {
    hide ExecuteOne, Equity, HoldingsSound, AtClose, SaleOrSized, AllTooLarge, BuyCap;
    if orders != [] {
      var prefix := orders[..|orders| - 1];
      var before := Execute(cfg, env, x, prefix);
      ExecuteNeverBuys(cfg, env, x, prefix);
      ExecuteConserves(cfg, env, x, prefix);
      SameEquitySameCap(cfg.limits, x.desk.account, before.desk.account, env.universe);
      OneNeverBuys(cfg, env, AtOrder(env, |orders| - 1), before, orders[|orders| - 1]);
    }
  }

  /** When every candidate's minimum allocation exceeds the weight cap by a share, the tick buys
      nothing, whatever it signals and sells. */
  lemma OversizedEntriesNeverFill(cfg: FbConfig, env: TickEnv, w: World)
    requires InStep(w) && TimelyTick(env) && PricedFromUniverse(env)
    requires AllTooLarge(cfg, env, BuyCap(cfg.limits, w.desk.account, env.universe))
    ensures Tick(cfg, env, w).1.bought == []
  {
    hide Execute, TickQueue, TickHalts, Signals, Equity, Proper, RollDay, HeldOrder, HoldingsMatchLog, AllTooLarge,
      BuyCap, OnlyBuys;
    QueueProper(cfg, env, w);
    ExecuteNeverBuys(cfg, env, Ready(cfg, env, w), TickQueue(cfg, env, w));
  }

  /** With the shipped maximum weight of 15% and the default minimum allocation of 20%, no entry at
      full effective equity in shares of up to 1% of the equity is ever bought, in any market mode. */
  lemma ShippedLimitsBlockEntries(cfg: FbConfig, env: TickEnv, w: World)
    requires InStep(w) && TimelyTick(env) && PricedFromUniverse(env)
    requires cfg.limits.maxPositionWeight == 0.15 && CycleMultiplier(cfg.limits) <= 1.0
    requires cfg.minAllocationPct == 20.0
    requires EffectiveEquity(TermsFor(cfg, env)) >= Equity(w.desk.account, env.universe) > 0.0
    requires forall c :: c in env.ranked ==>
               SMALLEST_PRICE <= c.lastClose <= 0.01 * Equity(w.desk.account, env.universe)
    ensures Tick(cfg, env, w).1.bought == []
  {
    hide Tick, InStep, TimelyTick, PricedFromUniverse, Equity, CycleMultiplier, EffectiveEquity;
    LargeAtDefault(
      cfg, env, Equity(w.desk.account, env.universe), BuyCap(cfg.limits, w.desk.account, env.universe));
    OversizedEntriesNeverFill(cfg, env, w);
  }

  /** Such an entry: a flat account of a million and shares at 100, under the default settings and
      limits, are sized and too large. */
  lemma SizedAndTooLarge(u: Universe)
    ensures var c := Candidate("B", 100.0, 2.0, DefaultTerms(Neutral, false, 0, 1000000.0));
            Sized(c) && TooLarge(c, BuyCap(DEFAULT_LIMITS, NewAccount(1000000.0), u))
  {
    var t := DefaultTerms(Neutral, false, 0, 1000000.0);
    FlatEquity(1000000.0, u);
    assert EffectiveEquity(t) == 1000000.0 && MinPct(t) == 20.0 && MaxPct(t) == 25.0;
    assert PctOf(1000000.0, 20.0) == 200000.0 && PctOf(1000000.0, 25.0) == 250000.0;
    assert PctOf(1000000.0, 0.45) == 4500.0 && StopDistance(100.0, 2.0) == 2.0;
    assert Affords(200000.0, 100.0) == 2000 && Affords(250000.0, 100.0) == 2500 && Affords(4500.0, 2.0) == 2250;
    assert MinShares(t, 100.0) == 2000 && FeasibleShares(t, 100.0, 2.0) == 2250 && Reduced(2250, 1.0) == 2250;
    assert BuyCap(DEFAULT_LIMITS, NewAccount(1000000.0), u) == 150000.0;
  }

  lemma LargeAtDefault(cfg: FbConfig, env: TickEnv, equity: real, cap: real)
    requires equity > 0.0 && CycleMultiplier(cfg.limits) <= 1.0
    requires cap == 0.15 * CycleMultiplier(cfg.limits) * equity
    requires cfg.minAllocationPct == 20.0 && EffectiveEquity(TermsFor(cfg, env)) >= equity
    requires forall c :: c in env.ranked ==> SMALLEST_PRICE <= c.lastClose <= 0.01 * equity
    ensures AllTooLarge(cfg, env, cap)
  {
    hide CycleMultiplier, EffectiveEquity, PctOf, MinPct;
    CapBelowFullWeight(0.15, CycleMultiplier(cfg.limits), equity);
    assert cap <= 0.15 * equity;
    forall c | c in Ranked(cfg, env) ensures TooLarge(c, cap) {
      var i :| 0 <= i < |env.ranked| && c == CandidateFor(cfg, env, env.ranked[i]);
      assert env.ranked[i] in env.ranked && c.lastClose == env.ranked[i].lastClose;
      MinimumAtDefault(c.terms, equity);
      assert cap + c.lastClose <= 0.16 * equity;
    }
  }

  lemma MinimumAtDefault(t: EntryTerms, equity: real)
    requires t.minAllocationPct == 20.0 && EffectiveEquity(t) >= equity
    ensures PctOf(EffectiveEquity(t), MinPct(t)) >= 0.16 * equity
  {
    hide EffectiveEquity;
    assert MinPct(t) >= 16.0;
    ScaleUp(EffectiveEquity(t), 0.16, MinPct(t) / 100.0);
  }

  // ---- from a flat start -----------------------------------------------------------------------------

  /** The tick sees prices from its own bars, at full effective equity, in shares of up to 1%. */
  ghost predicate FullSizeTick(cfg: FbConfig, env: TickEnv, cash: real) {
    && PricedFromUniverse(env)
    && EffectiveEquity(TermsFor(cfg, env)) >= cash
    && forall c :: c in env.ranked ==> SMALLEST_PRICE <= c.lastClose <= 0.01 * cash
  }

  lemma FlatQueueOnlyBuys(cfg: FbConfig, env: TickEnv, w: World)
    requires w.desk.account.fills == []
    ensures OnlyBuys(TickQueue(cfg, env, w))
  {
    hide RollDay, TickPicks, EntriesOpen, RiskHalt, EntryPicks, BuyOrder, EntryShares;
    assert HeldOrder(w.desk.account.fills) == [];
    assert Portfolio(w.desk.account) == [] && PosSymbols(Portfolio(w.desk.account)) == [];
    var carry := RollDay(w.saved, env.today).carry;
    SignalShape(cfg, env, w);
    assert ExitScan(cfg, env, carry, []).orders == [];
    var picks := TickPicks(cfg, env, w);
    assert [] + BuyOrders(picks) == BuyOrders(picks);
    PurchasesAreBuys(picks);
    GatedOnlyBuys(cfg, env, Ready(cfg, env, w).state, BuyOrders(picks));
  }

  lemma PurchasesAreBuys(picks: seq<Candidate>)
    ensures OnlyBuys(BuyOrders(picks))
  {
  }

  lemma {:induction false} GatedOnlyBuys(cfg: FbConfig, env: TickEnv, st: PaperState, orders: seq<FbOrder>)
    requires OnlyBuys(orders)
    ensures OnlyBuys(GatedOrders(cfg, env, st, orders))
  {
    hide BuyAllowed;
    if orders != [] {
      GatedOnlyBuys(cfg, env, st, orders[..|orders| - 1]);
    }
  }

  lemma FlatTick(cfg: FbConfig, env: TickEnv, w: World)
    requires InStep(w) && TimelyTick(env) && PricedFromUniverse(env) && w.desk.account.fills == []
    requires AllTooLarge(cfg, env, BuyCap(cfg.limits, w.desk.account, env.universe))
    ensures Tick(cfg, env, w).1.bought == [] && Tick(cfg, env, w).0.desk.account == w.desk.account
  {
    hide Execute, TickQueue, TickHalts, Signals, Equity, Proper, RollDay, HeldOrder, HoldingsMatchLog, AllTooLarge,
      BuyCap, OnlyBuys;
    QueueProper(cfg, env, w);
    FlatQueueOnlyBuys(cfg, env, w);
    ExecuteNeverBuys(cfg, env, Ready(cfg, env, w), TickQueue(cfg, env, w));
  }

  lemma FlatEquity(cash: real, u: Universe)
    ensures Equity(NewAccount(cash), u) == cash
  {
    assert PositionValues(NewAccount(cash), u) == map[];
  }

  /** From a flat start with the shipped limits, over any run of such ticks, the strategy never buys
      and the account stays what it was. */
  lemma {:induction false} ShippedLimitsNeverEnter(
    cfg: FbConfig, cash: real, today: Day, tracked: bool, envs: seq<TickEnv>, k: nat)
    requires cash > 0.0 && k <= |envs| && TimelyRun(FreshWorld(cash, today, tracked), envs)
    requires cfg.limits.maxPositionWeight == 0.15 && CycleMultiplier(cfg.limits) <= 1.0
    requires cfg.minAllocationPct == 20.0
    requires forall i :: 0 <= i < |envs| ==> FullSizeTick(cfg, envs[i], cash)
    ensures WorldAt(cfg, FreshWorld(cash, today, tracked), envs, k).desk.account == NewAccount(cash)
    ensures k < |envs| ==> LogAt(cfg, FreshWorld(cash, today, tracked), envs, k).bought == []
  {
    hide Tick, InStep, TimelyTick, CycleMultiplier, AllTooLarge, FullSizeTick;
    var w := FreshWorld(cash, today, tracked);
    if k > 0 {
      ShippedLimitsNeverEnter(cfg, cash, today, tracked, envs, k - 1);
      FreshWorldInStep(cash, today, tracked);
      RunKeepsInStep(cfg, w, envs, k - 1);
      FullSizeIsTooLarge(cfg, envs[k - 1], cash);
      FlatTick(cfg, envs[k - 1], WorldAt(cfg, w, envs, k - 1));
    }
    if k < |envs| {
      FreshWorldInStep(cash, today, tracked);
      RunKeepsInStep(cfg, w, envs, k);
      FullSizeIsTooLarge(cfg, envs[k], cash);
      FlatTick(cfg, envs[k], WorldAt(cfg, w, envs, k));
    }
  }

  lemma FullSizeIsTooLarge(cfg: FbConfig, env: TickEnv, cash: real)
    requires cash > 0.0 && cfg.limits.maxPositionWeight == 0.15 && CycleMultiplier(cfg.limits) <= 1.0
    requires cfg.minAllocationPct == 20.0 && FullSizeTick(cfg, env, cash)
    ensures AllTooLarge(cfg, env, BuyCap(cfg.limits, NewAccount(cash), env.universe)) && PricedFromUniverse(env)
  {
    hide PricedFromUniverse;
    FlatEquity(cash, env.universe);
    LargeAtDefault(cfg, env, cash, BuyCap(cfg.limits, NewAccount(cash), env.universe));
  }
}
