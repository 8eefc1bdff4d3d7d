/** Marking, snapshot building and order routing, which the daily and the intraday jobs share
    (app/scheduler/jobs.py, app/scheduler/intraday_jobs.py). */
module TradingDesk {
  import opened Common
  import opened Orders
  import opened PaperAccount
  import opened PaperBrokers
  import opened RiskRules
  import opened EquityTracking
  import opened OrderManagement

  datatype PriceRow = PriceRow(symbol: Symbol, date: int, close: real)

  type Universe = seq<PriceRow>

  /** The row of `s` with the latest date, the last one among equal dates. */
  function LatestRow(u: Universe, s: Symbol): (row: Option<PriceRow>)
    ensures row.None? <==> forall i :: 0 <= i < |u| ==> u[i].symbol != s
    ensures row.Some? ==> row.value in u && row.value.symbol == s
    ensures row.Some? ==> forall i :: 0 <= i < |u| && u[i].symbol == s ==> u[i].date <= row.value.date
  {
    if u == [] then None
    else
      var before, last := LatestRow(u[..|u| - 1], s), u[|u| - 1];
      assert u == u[..|u| - 1] + [last];
      if last.symbol == s && (before.None? || before.value.date <= last.date) then Some(last) else before
  }

  /** Among rows of the latest date the last one counts. */
  lemma {:induction false} LastOfTheLatest(u: Universe, s: Symbol) returns (i: nat)
    requires LatestRow(u, s).Some?
    ensures i < |u| && u[i] == LatestRow(u, s).value
    ensures forall j :: i < j < |u| && u[j].symbol == s ==> u[j].date < u[i].date
  {
    var n := |u| - 1;
    var before := LatestRow(u[..n], s);
    if u[n].symbol == s && (before.None? || before.value.date <= u[n].date) {
      i := n;
    } else {
      assert LatestRow(u, s) == before;
      i := LastOfTheLatest(u[..n], s);
      forall j | i < j < |u| && u[j].symbol == s ensures u[j].date < u[i].date {
        if j < n {
          assert u[..n][j] == u[j];
        }
      }
    }
  }

  /** `_latest_close_safe`: last close, else a held symbol's average price, else one. */
  function Mark(a: Account, u: Universe, s: Symbol): real {
    match LatestRow(u, s)
    case Some(row) => row.close
    case None =>
      if s in a.positions && a.positions[s].averagePrice != 0.0 then a.positions[s].averagePrice else 1.0
  }

  function PositionValues(a: Account, u: Universe): map<Symbol, real> {
    map s | s in a.positions :: Notional(Mark(a, u, s), a.positions[s].quantity)
  }

  ghost function Equity(a: Account, u: Universe): real {
    a.cash + Sum(PositionValues(a, u))
  }

  datatype AccountEquity = AccountEquity(orderableCash: real, cashTotal: Option<real>, reservedCash: real)

  function CashForEquity(e: AccountEquity): real {
    if e.cashTotal.Some? && e.cashTotal.value > 0.0 then e.cashTotal.value
    else e.orderableCash + e.reservedCash
  }

  /** A positive reported total counts as it is; without one, cash reserved for open orders counts as
      if it were free. */
  lemma CashForEquityMeaning(free: real, reserved: real, total: real, moved: real)
    ensures total > 0.0 ==> CashForEquity(AccountEquity(free, Some(total), reserved)) == total
    ensures CashForEquity(AccountEquity(free, None, 0.0)) == free
    ensures CashForEquity(AccountEquity(free - moved, None, reserved + moved))
         == CashForEquity(AccountEquity(free, None, reserved))
    ensures total <= 0.0 ==>
              var unreported := AccountEquity(free, None, reserved);
              CashForEquity(unreported.(cashTotal := Some(total))) == CashForEquity(unreported)
  {
  }

  /** The account and the equity tracker's file (absent when the jobs run without a tracker). */
  datatype Desk = Desk(account: Account, tracked: bool, baseline: Option<Baseline>)

  ghost function GatePnl(d: Desk, u: Universe, today: Day): Pnl {
    if d.tracked then ReadPnl(d.baseline, Equity(d.account, u), today, true) else Pnl(0.0, 0.0)
  }

  /** `_build_risk_snapshot`: regime, loss streak and entry counts keep their defaults. */
  ghost function Snapshot(d: Desk, u: Universe, today: Day): RiskSnapshot {
    var equity := Equity(d.account, u);
    var pnl := GatePnl(d, u, today);
    RiskSnapshot(
      pnl.dailyPct, pnl.totalPct, if equity > 0.0 then equity else 1.0, true,
      PositionValues(d.account, u), Sideways, [], 0, None, 0, None, map[])
  }

  /** What the rules see of the account: its tracked profit, its equity or one, its marked holdings, and
      nothing of regime, loss streak, entries, scores or cooldowns. */
  lemma SnapshotFields(d: Desk, u: Universe, today: Day)
    ensures var s := Snapshot(d, u, today);
            var equity := d.account.cash + Sum(s.positionValues);
            && s.equity == (if equity > 0.0 then equity else 1.0)
            && (d.tracked && d.baseline.Some? && d.baseline.value.day == today
                && d.baseline.value.dayOpenEquity > 0.0 ==>
                 equity == d.baseline.value.dayOpenEquity * (1.0 + s.dailyPnlPct / 100.0))
            && (d.tracked && d.baseline.Some? && d.baseline.value.baselineEquity > 0.0 ==>
                 equity == d.baseline.value.baselineEquity * (1.0 + s.totalPnlPct / 100.0))
            && (!d.tracked || d.baseline.None? ==> s.dailyPnlPct == s.totalPnlPct == 0.0)
            && (forall k :: k in s.positionValues <==> k in d.account.positions)
            && (forall k :: k in s.positionValues ==>
                  s.positionValues[k] == Mark(d.account, u, k) * d.account.positions[k].quantity as real)
            && s.marketFilterOk && s.regime.Sideways? && s.recentTradePnls == [] && s.consecutiveLosses == 0
            && s.latestEntryScore.None? && s.todaysNewEntries == 0
            && s.tradingCooldownUntil.None? && s.cooldownUntil == map[]
  {
    if d.tracked && d.baseline.Some? {
      PnlMeaning(d.baseline.value, Equity(d.account, u), today);
    }
    hide ReadPnl;
  }

  ghost function AfterSnapshot(d: Desk, u: Universe, today: Day): Desk {
    if d.tracked then d.(baseline := RollBaseline(d.baseline, Equity(d.account, u), today, true)) else d
  }

  /** The clock readings taken while one order is routed. */
  datatype Reading = Reading(today: Day, first: Clock, second: Clock)

  /** `order.price or latest close`: a missing and a zero price both fall back to the mark. */
  function LimitPrice(a: Account, u: Universe, o: OrderRequest): real {
    if o.price.Some? && o.price.value != 0.0 then o.price.value else Mark(a, u, o.symbol)
  }

  function SignalFor(a: Account, u: Universe, o: OrderRequest): OrderSignal {
    OrderSignal(o.symbol, o.side, o.quantity, Some(LimitPrice(a, u, o)), o.stopLossPct)
  }

  /** One turn of the order loop: fresh snapshot, then the order manager. */
  ghost function Route(
    l: RiskLimits, d: Desk, u: Universe, o: OrderRequest, r: Reading, quote: Symbol -> real): (Desk, OrderResult)
  {
    var snapshot := Snapshot(d, u, r.today);
    var read := AfterSnapshot(d, u, r.today);
    var (a', result) := Process(l, d.account, SignalFor(d.account, u, o), snapshot, r.first, r.second, quote);
    (read.(account := a'), result)
  }

  // ---- values of holdings ---------------------------------------------------------------

  /** Held quantities and average prices are positive. */
  ghost predicate HoldingsSound(a: Account) {
    forall s :: s in a.positions ==> a.positions[s].quantity > 0 && a.positions[s].averagePrice > 0.0
  }

  function HeldValue(a: Account, u: Universe, s: Symbol): real {
    if s in a.positions then Notional(Mark(a, u, s), a.positions[s].quantity) else 0.0
  }

  lemma PlaceLeavesOthers(a: Account, o: OrderRequest, quote: Symbol -> real, s: Symbol)
    requires s != o.symbol
    ensures var a' := Place(a, o, quote).0;
            && (s in a'.positions <==> s in a.positions)
            && (s in a.positions ==> a'.positions[s] == a.positions[s])
  {
  }

  /** Only the ordered symbol's value can move when an order is placed. */
  lemma ValuesAfterPlace(a: Account, u: Universe, o: OrderRequest, quote: Symbol -> real)
    ensures var a' := Place(a, o, quote).0;
            Sum(PositionValues(a', u)) == Sum(PositionValues(a, u))
              + HeldValue(a', u, o.symbol) - HeldValue(a, u, o.symbol)
  {
    hide Notional;
    var a', s := Place(a, o, quote).0, o.symbol;
    var v, v' := PositionValues(a, u), PositionValues(a', u);
    forall k | k != s
      ensures k in v' <==> k in v
      ensures k in v ==> v'[k] == v[k]
    {
      PlaceLeavesOthers(a, o, quote, k);
    }
    assert v' - {s} == v - {s};
    if s in v { SumRemove(v, s); } else { assert v - {s} == v; }
    if s in v' { SumRemove(v', s); } else { assert v' - {s} == v'; }
  }

  /** The value an accepted order adds to its own symbol. */
  function TradeGain(a: Account, u: Universe, o: OrderRequest, price: real): real {
    match (LatestRow(u, o.symbol), o.side)
    case (Some(row), Buy) => Notional(row.close - price, o.quantity)
    case (Some(row), Sell) => Notional(price - row.close, o.quantity)
    case (None, Buy) => 0.0
    case (None, Sell) =>
      if o.symbol in a.positions then Notional(price - a.positions[o.symbol].averagePrice, o.quantity) else 0.0
  }

  lemma NotionalOfDifference(p: real, q: real, n: int)
    ensures Notional(p - q, n) == Notional(p, n) - Notional(q, n)
  {
  }

  lemma NotionalPlus(p: real, m: int, n: int)
    ensures Notional(p, m + n) == Notional(p, m) + Notional(p, n)
  {
  }

  lemma BuyValue(a: Account, u: Universe, o: OrderRequest, quote: Symbol -> real)
    requires HoldingsSound(a)
    requires o.side.Buy? && FillPrice(o, quote) > 0.0 && Place(a, o, quote).1.accepted
    ensures var price := FillPrice(o, quote);
            HeldValue(Place(a, o, quote).0, u, o.symbol) ==
            HeldValue(a, u, o.symbol) + Notional(price, o.quantity) + TradeGain(a, u, o, price)
  {
    hide Notional;
    var s, n, price := o.symbol, o.quantity, FillPrice(o, quote);
    if LatestRow(u, s).Some? {
      var close := LatestRow(u, s).value.close;
      NotionalOfDifference(close, price, n);
      if s in a.positions {
        NotionalPlus(close, a.positions[s].quantity, n);
      }
    } else if s in a.positions {
      var prev := a.positions[s];
      AverageNotional(Cost(prev) + Notional(price, n), prev.quantity + n);
      AverageIsPositive(prev.averagePrice, prev.quantity, price, n);
    }
  }

  lemma SellValue(a: Account, u: Universe, o: OrderRequest, quote: Symbol -> real)
    requires HoldingsSound(a)
    requires o.side.Sell? && Place(a, o, quote).1.accepted
    ensures var price := FillPrice(o, quote);
            HeldValue(Place(a, o, quote).0, u, o.symbol) ==
            HeldValue(a, u, o.symbol) - Notional(price, o.quantity) + TradeGain(a, u, o, price)
  {
    hide Notional;
    var s, n, price := o.symbol, o.quantity, FillPrice(o, quote);
    NotionalMinus(Mark(a, u, s), a.positions[s].quantity, n);
    NotionalOfDifference(price, Mark(a, u, s), n);
    if a.positions[s].quantity == n {
      assert s !in Place(a, o, quote).0.positions;
    }
  }

  lemma AverageIsPositive(avg: real, q: int, price: real, n: int)
    requires q > 0 && n > 0 && price > 0.0 && avg > 0.0
    ensures (Notional(avg, q) + Notional(price, n)) / (q + n) as real > 0.0
  {
    assert avg * q as real > 0.0 && price * n as real > 0.0;
  }

  lemma PlaceKeepsSound(a: Account, o: OrderRequest, quote: Symbol -> real)
    requires HoldingsSound(a)
    requires o.side.Buy? ==> FillPrice(o, quote) > 0.0
    ensures HoldingsSound(Place(a, o, quote).0)
  {
    hide Notional;
    var a' := Place(a, o, quote).0;
    forall s | s in a'.positions
      ensures a'.positions[s].quantity > 0 && a'.positions[s].averagePrice > 0.0
    {
      if s != o.symbol {
        PlaceLeavesOthers(a, o, quote, s);
      } else if s in a.positions && o.side.Buy? && o.quantity > 0 {
        AverageIsPositive(a.positions[s].averagePrice, a.positions[s].quantity, FillPrice(o, quote), o.quantity);
      }
    }
  }

  /** Equity moves by exactly the gain of the accepted order against the mark, and not at all
      when the order is refused. */
  lemma EquityAfterPlace(a: Account, u: Universe, o: OrderRequest, quote: Symbol -> real)
    requires HoldingsSound(a)
    requires o.side.Buy? ==> FillPrice(o, quote) > 0.0
    ensures var (a', r) := Place(a, o, quote);
            Equity(a', u) == Equity(a, u) + if r.accepted then TradeGain(a, u, o, FillPrice(o, quote)) else 0.0
  {
    hide Notional, TradeGain;
    ValuesAfterPlace(a, u, o, quote);
    if Place(a, o, quote).1.accepted {
      if o.side.Buy? {
        BuyValue(a, u, o, quote);
      } else {
        SellValue(a, u, o, quote);
      }
    }
  }

  // ---- one routed order -----------------------------------------------------------------

  predicate NoOwnPrice(o: OrderRequest) {
    o.price.None? || o.price.value == 0.0
  }

  /** The order goes to the broker at the mark: it has no price of its own, or that of the mark. */
  predicate PricedAtMark(a: Account, u: Universe, o: OrderRequest) {
    LimitPrice(a, u, o) == Mark(a, u, o.symbol)
  }

  /** What the order manager did with the order: refused by the rules, or handed to the broker. */
  lemma RouteMeaning(l: RiskLimits, d: Desk, u: Universe, o: OrderRequest, r: Reading, quote: Symbol -> real)
    requires NoEarlier(r.second, r.first)
    ensures var (d', result) := Route(l, d, u, o, r, quote);
            var price := if o.price.Some? && o.price.value != 0.0 then o.price.value else Mark(d.account, u, o.symbol);
            var order := OrderRequest(o.symbol, o.side, o.quantity, Some(price), o.stopLossPct);
            var decision := ApproveOrder(l, order, Snapshot(d, u, r.today), r.first);
            && d' == AfterSnapshot(d, u, r.today).(account := d'.account)
            && (result.status == RejectedRisk <==> !decision.approved)
            && (!decision.approved ==> d'.account == d.account && !result.accepted
                                       && result.refusal == Some(RiskRefusal(decision.code)))
            && (decision.approved ==> d'.account == Place(d.account, order, quote).0
                                      && result.accepted == Place(d.account, order, quote).1.accepted)
            && (decision.approved && o.side.Buy? ==> FillPrice(order, quote) > 0.0)
  {
    hide Notional, Place, RollingPnlPct, ValidateBuyWeight, NotionalCheck;
    SecondCheckAgrees(l, d.account, SignalFor(d.account, u, o), Snapshot(d, u, r.today), r.first, r.second, quote);
  }

  /** Routing an order keeps the holdings sound whatever its price, sign or quantity. */
  lemma RouteKeepsSound(l: RiskLimits, d: Desk, u: Universe, o: OrderRequest, r: Reading, quote: Symbol -> real)
    requires HoldingsSound(d.account) && NoEarlier(r.second, r.first)
    ensures HoldingsSound(Route(l, d, u, o, r, quote).0.account)
  {
    hide Route, Place;
    RouteMeaning(l, d, u, o, r, quote);
    var order := CreateOrder(SignalFor(d.account, u, o));
    if Route(l, d, u, o, r, quote).0.account != d.account {
      PlaceKeepsSound(d.account, order, quote);
    }
  }

  /** An order priced by the mark conserves equity. */
  lemma RouteConservesEquity(l: RiskLimits, d: Desk, u: Universe, o: OrderRequest, r: Reading, quote: Symbol -> real)
    requires HoldingsSound(d.account) && NoEarlier(r.second, r.first) && PricedAtMark(d.account, u, o)
    ensures Equity(Route(l, d, u, o, r, quote).0.account, u) == Equity(d.account, u)
  {
    hide Route, Equity;
    RouteConservesIff(l, d, u, o, r, quote);
  }

  ghost predicate QuantitiesPositive(a: Account) {
    forall s :: s in a.positions ==> a.positions[s].quantity > 0
  }

  /** A holding that no row prices and that cost nothing. */
  predicate CostlessUnlisted(a: Account, u: Universe, s: Symbol) {
    s in a.positions && LatestRow(u, s).None? && a.positions[s].averagePrice == 0.0
  }

  /** The value a purchase at the mark leaves: it loses the holding's mark of one per share exactly
      for a costless unlisted one, which is marked at its new average afterwards. */
  lemma MarkedBuyValue(a: Account, u: Universe, o: OrderRequest, quote: Symbol -> real)
    requires QuantitiesPositive(a) && o.side.Buy? && Place(a, o, quote).1.accepted
    requires o.price == Some(Mark(a, u, o.symbol)) && o.price.value > 0.0
    ensures var s, price := o.symbol, o.price.value;
            HeldValue(Place(a, o, quote).0, u, s) ==
            Notional(price, o.quantity) + if CostlessUnlisted(a, u, s) then 0.0 else HeldValue(a, u, s)
  {
    hide Notional;
    var s, n, price := o.symbol, o.quantity, o.price.value;
    if s in a.positions {
      var prev := a.positions[s];
      NotionalPlus(price, prev.quantity, n);
      AverageNotional(Cost(prev) + Notional(price, n), prev.quantity + n);
      if LatestRow(u, s).None? {
        NoCostNoNotional(prev);
        if prev.averagePrice == 0.0 {
          FreshAverageIsPositive(prev.quantity, price, n);
        } else {
          AverageIsPositive(prev.averagePrice, prev.quantity, price, n);
        }
      }
    }
  }

  lemma NoCostNoNotional(p: PositionView)
    ensures p.averagePrice == 0.0 ==> Cost(p) == 0.0
  {
  }

  lemma FreshAverageIsPositive(q: int, price: real, n: int)
    requires q > 0 && n > 0 && price > 0.0
    ensures (0.0 + Notional(price, n)) / (q + n) as real > 0.0
  {
    assert price * n as real > 0.0;
  }

  lemma MarkedSaleValue(a: Account, u: Universe, o: OrderRequest, quote: Symbol -> real)
    requires o.side.Sell? && Place(a, o, quote).1.accepted
    requires o.price == Some(Mark(a, u, o.symbol))
    ensures HeldValue(Place(a, o, quote).0, u, o.symbol) ==
            HeldValue(a, u, o.symbol) - Notional(o.price.value, o.quantity)
  {
    hide Notional;
    NotionalMinus(o.price.value, a.positions[o.symbol].quantity, o.quantity);
    if a.positions[o.symbol].quantity == o.quantity {
      assert o.symbol !in Place(a, o, quote).0.positions;
    }
  }

  /** An order at the mark conserves equity exactly unless it is an accepted purchase of
      a held symbol that no row prices and that cost nothing. */
  lemma RouteConservesIff(l: RiskLimits, d: Desk, u: Universe, o: OrderRequest, r: Reading, quote: Symbol -> real)
    requires QuantitiesPositive(d.account) && NoEarlier(r.second, r.first) && PricedAtMark(d.account, u, o)
    ensures var (d', result) := Route(l, d, u, o, r, quote);
            Equity(d'.account, u) == Equity(d.account, u) <==>
            !(result.accepted && o.side.Buy? && CostlessUnlisted(d.account, u, o.symbol))
  {
    hide Route, Place, Equity, HeldValue;
    RouteMeaning(l, d, u, o, r, quote);
    var order := CreateOrder(SignalFor(d.account, u, o));
    assert order.price == Some(Mark(d.account, u, o.symbol));
    if Route(l, d, u, o, r, quote).1.accepted {
      AcceptedMarkedOrder(d.account, u, order, quote);
    } else if Route(l, d, u, o, r, quote).0.account != d.account {
      RefusedKeepsEquity(d.account, u, order, quote);
    }
  }

  lemma AcceptedMarkedOrder(a: Account, u: Universe, o: OrderRequest, quote: Symbol -> real)
    requires QuantitiesPositive(a) && Place(a, o, quote).1.accepted
    requires o.price == Some(Mark(a, u, o.symbol)) && (o.side.Buy? ==> o.price.value > 0.0)
    ensures Equity(Place(a, o, quote).0, u) == Equity(a, u) <==> !(o.side.Buy? && CostlessUnlisted(a, u, o.symbol))
  {
    hide Notional;
    ValuesAfterPlace(a, u, o, quote);
    if o.side.Buy? {
      MarkedBuyValue(a, u, o, quote);
      if CostlessUnlisted(a, u, o.symbol) {
        NotionalOfOne(a.positions[o.symbol].quantity);
      }
    } else {
      MarkedSaleValue(a, u, o, quote);
    }
  }

  lemma NotionalOfOne(n: int)
    ensures Notional(1.0, n) == n as real
  {
  }

  lemma RefusedKeepsEquity(a: Account, u: Universe, o: OrderRequest, quote: Symbol -> real)
    requires !Place(a, o, quote).1.accepted
    ensures Equity(Place(a, o, quote).0, u) == Equity(a, u)
  {
    ValuesAfterPlace(a, u, o, quote);
  }

  /** An untracked desk with 100 in cash and one share of A, bought from the broker at a price of zero. */
  function CostlessDesk(quote: Symbol -> real): Desk {
    Desk(Place(NewAccount(100.0), OrderRequest("A", Buy, 1, Some(0.0), None), quote).0, false, None)
  }

  lemma CostlessDeskHoldings(quote: Symbol -> real)
    ensures var a := CostlessDesk(quote).account;
            && a.cash == 100.0 && a.positions == map["A" := PositionView(1, 0.0)]
            && PositionValues(a, []) == map["A" := 1.0] && Equity(a, []) == 101.0
  {
    var a := CostlessDesk(quote).account;
    var values := PositionValues(a, []);
    assert LatestRow([], "A").None?;
    assert values == map["A" := 1.0];
    SumRemove(values, "A");
    assert values - {"A"} == map[];
  }

  /** The default rules let that desk buy ten more of the unlisted symbol at its mark of one, and the
      purchase does not conserve equity: afterwards the holding is marked at its new average. */
  lemma ZeroAverageBreaksConservation(quote: Symbol -> real)
    ensures var o := OrderRequest("A", Buy, 10, None, Some(4.0));
            var (d', result) := Route(
              DEFAULT_LIMITS, CostlessDesk(quote), [], o, Reading(0, Clock(0, 0), Clock(0, 0)), quote);
            result.accepted && Equity(d'.account, []) != Equity(CostlessDesk(quote).account, [])
  {
    var d, o := CostlessDesk(quote), OrderRequest("A", Buy, 10, None, Some(4.0));
    var r := Reading(0, Clock(0, 0), Clock(0, 0));
    CostlessDeskHoldings(quote);
    var order, snapshot := CreateOrder(SignalFor(d.account, [], o)), Snapshot(d, [], 0);
    assert order == OrderRequest("A", Buy, 10, Some(1.0), Some(4.0));
    assert CurrentPositions(snapshot) == map["A" := 1.0];
    assert WeightAfter(snapshot, "A", 1.0, 10) == 11.0 / 101.0;
    assert ApproveOrder(DEFAULT_LIMITS, order, snapshot, r.first).approved;
    hide Route, Equity, Snapshot, ApproveOrder;
    RouteMeaning(DEFAULT_LIMITS, d, [], o, r, quote);
    RouteConservesIff(DEFAULT_LIMITS, d, [], o, r, quote);
  }

  // ---- the desk object --------------------------------------------------------------------

  class RiskDesk {
    const broker: PaperBroker
    const tracker: EquityTracker?
    const limits: RiskLimits

    constructor (broker: PaperBroker, tracker: EquityTracker?, limits: RiskLimits)
      ensures this.broker == broker && this.tracker == tracker && this.limits == limits
    {
      this.broker, this.tracker, this.limits := broker, tracker, limits;
    }

    ghost function View(): Desk
      reads this, broker, tracker
    {
      Desk(broker.State(), tracker != null, if tracker != null then tracker.saved else None)
    }

    method LatestCloseSafe(u: Universe, s: Symbol) returns (price: real)
      ensures price == Mark(broker.State(), u, s)
    {
      var row := LatestRow(u, s);
      if row.Some? {
        return row.value.close;
      }
      if s in broker.positions && broker.positions[s].averagePrice != 0.0 {
        return broker.positions[s].averagePrice;
      }
      price := 1.0;
    }

    /** The marked value of every holding, and their total. */
    method MarkHoldings(u: Universe) returns (values: map<Symbol, real>, total: real)
      ensures values == PositionValues(broker.State(), u) && total == Sum(values)
    {
      hide Notional;
      values, total := map[], 0.0;
      var pending := broker.positions.Keys;
      while pending != {}
        invariant pending <= broker.positions.Keys
        invariant values == map s | s in broker.positions && s !in pending :: PositionValues(broker.State(), u)[s]
        invariant total == Sum(values)
      {
        var s :| s in pending;
        var price := LatestCloseSafe(u, s);
        var value := Notional(price, broker.positions[s].quantity);
        SumUpdate(values, s, value);
        values, total := values[s := value], total + value;
        pending := pending - {s};
      }
      assert values == PositionValues(broker.State(), u);
    }

    method CurrentEquity(u: Universe) returns (equity: real, values: map<Symbol, real>)
      ensures equity == Equity(broker.State(), u) && values == PositionValues(broker.State(), u)
    {
      var cash := CashForEquity(AccountEquity(broker.cash, Some(broker.cash), 0.0));
      var total;
      values, total := MarkHoldings(u);
      equity := cash + total;
    }

    method BuildRiskSnapshot(u: Universe, today: Day) returns (snapshot: RiskSnapshot)
      modifies tracker
      ensures snapshot == Snapshot(old(View()), u, today)
      ensures View() == AfterSnapshot(old(View()), u, today)
    {
      var equity, values := CurrentEquity(u);
      var pnl := Pnl(0.0, 0.0);
      if tracker != null {
        pnl := tracker.PnlSnapshot(equity, today, true);
      }
      snapshot := RiskSnapshot(
        pnl.dailyPct, pnl.totalPct, if equity > 0.0 then equity else 1.0, true,
        values, Sideways, [], 0, None, 0, None, map[]);
    }

    method RouteOrder(u: Universe, order: OrderRequest, reading: Reading) returns (result: OrderResult)
      modifies broker, tracker
      ensures View() == Route(limits, old(View()), u, order, reading, broker.quote).0
      ensures result == Route(limits, old(View()), u, order, reading, broker.quote).1
    {
      hide Process;
      var price;
      if order.price.Some? && order.price.value != 0.0 {
        price := order.price.value;
      } else {
        price := LatestCloseSafe(u, order.symbol);
      }
      var signal := OrderSignal(order.symbol, order.side, order.quantity, Some(price), order.stopLossPct);
      var snapshot := BuildRiskSnapshot(u, reading.today);
      var manager := new OrderManager(broker, limits);
      result := manager.ProcessSignal(signal, snapshot, reading.first, reading.second);
    }
  }
}
