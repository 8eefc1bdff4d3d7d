/** Orders as they travel from a strategy to a broker (app/orders/models.py). */
module Orders {
  import opened Common

  datatype Side = Buy | Sell

  datatype OrderRequest = OrderRequest(
    symbol: Symbol,
    side: Side,
    quantity: int,
    price: Option<real>,
    stopLossPct: Option<real>
  )

  datatype OrderStatus = Submitted | Filled | Failed | RejectedRisk

  datatype Refusal =
    | QuantityNotPositive
    | InsufficientCash
    | InsufficientPosition
    | RiskRefusal(code: RiskReasonCode)

  datatype RiskReasonCode =
    | Ok
    | OkSell
    | OkBuy
    | OkWeight
    | OkRegimeBearishBuyConservative
    | TradingCooldownActive
    | SystemOffTotalLoss
    | HaltDailyLoss
    | HaltRollingLossLimit
    | TradingCooldownRequiredAdaptive
    | AdaptiveNewEntryLimit
    | AdaptiveEntryFilterBlock
    | BlockRegimeHighVolatilityNewEntry
    | BlockRegimeBearishNewEntryLimit
    | BlockBadMarketFilter
    | MissingStopLoss
    | BlockRegimeBearishStopLossTooWide
    | ReentryCooldown
    | InvalidOrderPrice
    | InvalidEquity
    | MaxPositionsExceeded
    | BlockRegimeBearishMaxPositions
    | PositionWeightTooHigh
    | BlockRegimeBearishPositionWeight
    | PositionWeightTooLow
    | OrderQuantityInvalid
    | OrderNotionalExceedsCap
    | SymbolNotAllowed

  datatype OrderResult = OrderResult(
    orderId: Option<nat>,
    accepted: bool,
    status: OrderStatus,
    filledQuantity: int,
    avgFillPrice: Option<real>,
    refusal: Option<Refusal>
  )

  function Refused(id: Option<nat>, status: OrderStatus, why: Refusal): OrderResult {
    OrderResult(id, false, status, 0, None, Some(why))
  }
}

/** The in-memory paper account (app/brokers/paper_broker.py). */
module PaperAccount {
  import opened Common
  import opened Orders

  datatype PositionView = PositionView(quantity: int, averagePrice: real)

  datatype OpenOrder = OpenOrder(symbol: Symbol, side: Side, quantity: int, price: Option<real>)

  datatype Fill = Fill(
    fillId: nat,
    orderId: nat,
    symbol: Symbol,
    side: Side,
    quantity: int,
    price: real
  )

  datatype Account = Account(
    cash: real,
    positions: map<Symbol, PositionView>,
    openOrders: map<nat, OpenOrder>,
    fills: seq<Fill>,
    orderSeq: nat,
    fillSeq: nat
  )

  /** The value of a number of shares at a price. */
  function Notional(price: real, shares: int): real {
    price * shares as real
  }

  lemma NotionalMinus(price: real, q: int, n: int)
    ensures Notional(price, q - n) == Notional(price, q) - Notional(price, n)
  {
  }

  lemma AverageNotional(cost: real, q: int)
    requires q > 0
    ensures Notional(cost / q as real, q) == cost
  {
  }

  function NewAccount(cash: real): Account {
    Account(cash, map[], map[], [], 0, 0)
  }

  function FillPrice(o: OrderRequest, quote: Symbol -> real): real {
    match o.price
    case Some(p) => p
    case None => quote(o.symbol)
  }

  function BuyInto(positions: map<Symbol, PositionView>, s: Symbol, n: int, price: real): map<Symbol, PositionView> {
    if s !in positions then
      positions[s := PositionView(n, price)]
    else
      var prev := positions[s];
      var total := prev.quantity + n;
      if total == 0 then positions  // the program divides by zero here; unreachable for held quantities
      else
        positions[s := PositionView(
          total,
          (Notional(prev.averagePrice, prev.quantity) + Notional(price, n)) / total as real)]
  }

  function SellOutOf(positions: map<Symbol, PositionView>, s: Symbol, n: int): map<Symbol, PositionView>
    requires s in positions
  {
    var remaining := positions[s].quantity - n;
    if remaining <= 0 then positions - {s}
    else positions[s := PositionView(remaining, positions[s].averagePrice)]
  }

  /** Everything `PaperBroker.place_order` does to the account, and what it answers. */
  function Place(a: Account, o: OrderRequest, quote: Symbol -> real): (Account, OrderResult) {
    if o.quantity <= 0 then
      (a, Refused(None, Submitted, QuantityNotPositive))
    else
      var id := a.orderSeq + 1;
      var price := FillPrice(o, quote);
      var notional := Notional(price, o.quantity);
      var settled := a.(orderSeq := id, openOrders := a.openOrders - {id});
      if o.side.Buy? && notional > a.cash then
        (settled, Refused(Some(id), Submitted, InsufficientCash))
      else if o.side.Sell? && (o.symbol !in a.positions || a.positions[o.symbol].quantity < o.quantity) then
        (settled, Refused(Some(id), Submitted, InsufficientPosition))
      else
        var fill := Fill(a.fillSeq + 1, id, o.symbol, o.side, o.quantity, price);
        var traded := settled.(fills := a.fills + [fill], fillSeq := a.fillSeq + 1);
        var after :=
          if o.side.Buy? then
            traded.(cash := a.cash - notional, positions := BuyInto(a.positions, o.symbol, o.quantity, price))
          else
            traded.(cash := a.cash + notional, positions := SellOutOf(a.positions, o.symbol, o.quantity));
        (after, OrderResult(Some(id), true, Filled, o.quantity, Some(price), None))
  }

  /** The account after a list of orders, refused ones included. */
  function RunOrders(a: Account, orders: seq<OrderRequest>, quote: Symbol -> real): Account
    decreases |orders|
  {
    if orders == [] then a
    else RunOrders(Place(a, orders[0], quote).0, orders[1..], quote)
  }

  /** An order is filled exactly when it is positive and covered, at its own price if it has one;
      a refused order changes neither cash nor holdings nor the log. */
  lemma PlaceAcceptedIff(a: Account, o: OrderRequest, quote: Symbol -> real)
    ensures var (a', r) := Place(a, o, quote);
            var price := FillPrice(o, quote);
            && (r.accepted <==>
                 o.quantity > 0
                 && if o.side.Buy? then Notional(price, o.quantity) <= a.cash
                    else o.symbol in a.positions && a.positions[o.symbol].quantity >= o.quantity)
            && (!r.accepted ==> a' == a.(orderSeq := a'.orderSeq, openOrders := a'.openOrders))
            && (!r.accepted ==>
                 && r.status == Submitted && r.filledQuantity == 0 && r.avgFillPrice.None?
                 && r.refusal == Some(if o.quantity <= 0 then QuantityNotPositive
                                      else if o.side.Buy? then InsufficientCash else InsufficientPosition))
            && (o.quantity <= 0 ==> a' == a && r.orderId.None?)
            && (o.quantity > 0 ==> a'.orderSeq == a.orderSeq + 1 && r.orderId == Some(a.orderSeq + 1)
                                   && (forall id :: id in a'.openOrders <==>
                                         id in a.openOrders && id != a.orderSeq + 1)
                                   && (forall id :: id in a'.openOrders ==> a'.openOrders[id] == a.openOrders[id]))
            && (r.accepted ==>
                 && r.status == Filled && r.refusal.None?
                 && a'.fills == a.fills + [Fill(a.fillSeq + 1, a.orderSeq + 1, o.symbol, o.side, o.quantity, price)]
                 && a'.fillSeq == a.fillSeq + 1
                 && r.filledQuantity == o.quantity && r.avgFillPrice == Some(price)
                 && a'.cash == (if o.side.Buy? then a.cash - Notional(price, o.quantity)
                                else a.cash + Notional(price, o.quantity)))
  {
    hide Notional;
  }

  // ---- what the fill log alone says -------------------------------------------------

  function Bought(fills: seq<Fill>, s: Symbol): int {
    if fills == [] then 0
    else
      var f := fills[|fills| - 1];
      Bought(fills[..|fills| - 1], s) + if f.symbol == s && f.side.Buy? then f.quantity else 0
  }

  function Sold(fills: seq<Fill>, s: Symbol): int {
    if fills == [] then 0
    else
      var f := fills[|fills| - 1];
      Sold(fills[..|fills| - 1], s) + if f.symbol == s && f.side.Sell? then f.quantity else 0
  }

  /** Buy notional minus sell proceeds over the log. */
  function NetSpent(fills: seq<Fill>): real {
    if fills == [] then 0.0
    else
      var f := fills[|fills| - 1];
      var notional := Notional(f.price, f.quantity);
      NetSpent(fills[..|fills| - 1]) + if f.side.Buy? then notional else -notional
  }

  /** Cost of the shares of `s` still held, when each sale removes its share of the average cost. */
  function CostBasis(fills: seq<Fill>, s: Symbol): real
    decreases |fills|, 0
  {
    if fills == [] then 0.0
    else
      var f, before := fills[|fills| - 1], fills[..|fills| - 1];
      if f.symbol != s then CostBasis(before, s)
      else if f.side.Buy? then CostBasis(before, s) + Notional(f.price, f.quantity)
      else CostBasis(before, s) - CostRemoved(before, f)
  }

  function CostRemoved(before: seq<Fill>, f: Fill): real
    decreases |before|, 1
  {
    var held := Bought(before, f.symbol) - Sold(before, f.symbol);
    if held <= 0 then 0.0
    else Notional(CostBasis(before, f.symbol) / held as real, f.quantity)
  }

  /** Average-cost realized profit: sale proceeds minus the cost each sale removes. */
  function Realized(fills: seq<Fill>): real {
    if fills == [] then 0.0
    else
      var f, before := fills[|fills| - 1], fills[..|fills| - 1];
      Realized(before) +
        if f.side.Buy? then 0.0 else Notional(f.price, f.quantity) - CostRemoved(before, f)
  }

  ghost function TotalCost(positions: map<Symbol, PositionView>): real {
    Sum(Costs(positions))
  }

  function Cost(p: PositionView): real {
    Notional(p.averagePrice, p.quantity)
  }

  function Costs(positions: map<Symbol, PositionView>): map<Symbol, real> {
    map s | s in positions :: Cost(positions[s])
  }

  // ---- the account is the fold of its log ---------------------------------------------

  /** The position map says exactly what the log says: quantity and average cost, symbol by symbol. */
  ghost predicate HoldingsMatchLog(a: Account) {
    forall s: Symbol :: HoldingMatchesLog(a, s)
  }

  ghost predicate HoldingMatchesLog(a: Account, s: Symbol) {
    var held := Bought(a.fills, s) - Sold(a.fills, s);
    && held >= 0
    && (s in a.positions <==> held > 0)
    && (s in a.positions ==>
         && a.positions[s].quantity == held
         && Cost(a.positions[s]) == CostBasis(a.fills, s))
    && (s !in a.positions ==> CostBasis(a.fills, s) == 0.0)
  }

  ghost predicate Booked(a: Account, initialCash: real) {
    && HoldingsMatchLog(a)
    && a.cash == initialCash - NetSpent(a.fills)
    && a.cash + TotalCost(a.positions) == initialCash + Realized(a.fills)
    && a.openOrders == map[]
    && a.fillSeq == |a.fills|
    && |a.fills| <= a.orderSeq
  }

  ghost predicate PositivelyPriced(orders: seq<OrderRequest>, quote: Symbol -> real) {
    forall o :: o in orders ==> FillPrice(o, quote) > 0.0
  }

  lemma AfterFill(before: seq<Fill>, f: Fill, s: Symbol)
    ensures Bought(before + [f], s) == Bought(before, s) + if f.symbol == s && f.side.Buy? then f.quantity else 0
    ensures Sold(before + [f], s) == Sold(before, s) + if f.symbol == s && f.side.Sell? then f.quantity else 0
    ensures CostBasis(before + [f], s) ==
            if f.symbol != s then CostBasis(before, s)
            else if f.side.Buy? then CostBasis(before, s) + Notional(f.price, f.quantity)
            else CostBasis(before, s) - CostRemoved(before, f)
  {
    assert (before + [f])[..|before|] == before;
  }

  lemma AfterFillTotals(before: seq<Fill>, f: Fill)
    ensures var notional := Notional(f.price, f.quantity);
            && NetSpent(before + [f]) == NetSpent(before) + (if f.side.Buy? then notional else -notional)
            && Realized(before + [f]) ==
               Realized(before) + if f.side.Buy? then 0.0 else notional - CostRemoved(before, f)
  {
    assert (before + [f])[..|before|] == before;
  }

  lemma TotalCostUpdate(positions: map<Symbol, PositionView>, s: Symbol, p: PositionView)
    ensures TotalCost(positions[s := p]) ==
            TotalCost(positions) + Cost(p) - (if s in positions then Cost(positions[s]) else 0.0)
  {
    SumUpdate(Costs(positions), s, Cost(p));
    assert Costs(positions[s := p]) == Costs(positions)[s := Cost(p)];
  }

  lemma TotalCostRemove(positions: map<Symbol, PositionView>, s: Symbol)
    requires s in positions
    ensures TotalCost(positions - {s}) == TotalCost(positions) - Cost(positions[s])
  {
    SumRemove(Costs(positions), s);
    assert Costs(positions - {s}) == Costs(positions) - {s};
  }

  lemma BuyKeepsHolding(a: Account, o: OrderRequest, quote: Symbol -> real, s: Symbol)
    requires HoldingsMatchLog(a) && o.side.Buy? && Place(a, o, quote).1.accepted
    ensures HoldingMatchesLog(Place(a, o, quote).0, s)
  {
    hide Notional;
    assert HoldingMatchesLog(a, s);
    var a' := Place(a, o, quote).0;
    AfterFill(a.fills, a'.fills[|a.fills|], s);
    if s == o.symbol && s in a.positions {
      var p := a.positions[s];
      AverageNotional(Cost(p) + Notional(FillPrice(o, quote), o.quantity), p.quantity + o.quantity);
    }
  }

  lemma SellKeepsHolding(a: Account, o: OrderRequest, quote: Symbol -> real, s: Symbol)
    requires HoldingsMatchLog(a) && o.side.Sell? && Place(a, o, quote).1.accepted
    ensures HoldingMatchesLog(Place(a, o, quote).0, s)
  {
    hide Notional;
    assert HoldingMatchesLog(a, s);
    var a' := Place(a, o, quote).0;
    AfterFill(a.fills, a'.fills[|a.fills|], s);
    if s == o.symbol {
      CostRemovedIsAverage(a, a'.fills[|a.fills|]);
      var p := a.positions[s];
      assert CostBasis(a'.fills, s) == Cost(p) - Notional(p.averagePrice, o.quantity);
      if p.quantity == o.quantity {
        assert s !in a'.positions;
      } else {
        NotionalMinus(p.averagePrice, p.quantity, o.quantity);
        assert a'.positions[s] == PositionView(p.quantity - o.quantity, p.averagePrice);
      }
    }
  }

  lemma CostRemovedIsAverage(a: Account, f: Fill)
    requires HoldingsMatchLog(a) && f.symbol in a.positions
    ensures CostRemoved(a.fills, f) == Notional(a.positions[f.symbol].averagePrice, f.quantity)
  {
    assert HoldingMatchesLog(a, f.symbol);
  }

  lemma BuyCost(positions: map<Symbol, PositionView>, s: Symbol, n: int, price: real)
    requires n > 0 && (s in positions ==> positions[s].quantity > 0)
    ensures TotalCost(BuyInto(positions, s, n, price)) == TotalCost(positions) + Notional(price, n)
  {
    hide Notional;
    var p := BuyInto(positions, s, n, price)[s];
    TotalCostUpdate(positions, s, p);
    if s in positions {
      AverageNotional(Cost(positions[s]) + Notional(price, n), positions[s].quantity + n);
    }
  }

  lemma SellCost(positions: map<Symbol, PositionView>, s: Symbol, n: int)
    requires s in positions && n <= positions[s].quantity
    ensures TotalCost(SellOutOf(positions, s, n)) == TotalCost(positions) - Notional(positions[s].averagePrice, n)
  {
    hide Notional;
    var p := positions[s];
    if p.quantity == n {
      TotalCostRemove(positions, s);
    } else {
      TotalCostUpdate(positions, s, PositionView(p.quantity - n, p.averagePrice));
      NotionalMinus(p.averagePrice, p.quantity, n);
    }
  }

  lemma BuyKeepsTotals(a: Account, initialCash: real, o: OrderRequest, quote: Symbol -> real)
    requires Booked(a, initialCash) && o.side.Buy? && Place(a, o, quote).1.accepted
    ensures var a' := Place(a, o, quote).0;
            && a'.cash == initialCash - NetSpent(a'.fills)
            && a'.cash + TotalCost(a'.positions) == initialCash + Realized(a'.fills)
  {
    hide Notional;
    var a' := Place(a, o, quote).0;
    AfterFillTotals(a.fills, a'.fills[|a.fills|]);
    assert HoldingMatchesLog(a, o.symbol);
    BuyCost(a.positions, o.symbol, o.quantity, FillPrice(o, quote));
  }

  lemma SellKeepsTotals(a: Account, initialCash: real, o: OrderRequest, quote: Symbol -> real)
    requires Booked(a, initialCash) && o.side.Sell? && Place(a, o, quote).1.accepted
    ensures var a' := Place(a, o, quote).0;
            && a'.cash == initialCash - NetSpent(a'.fills)
            && a'.cash + TotalCost(a'.positions) == initialCash + Realized(a'.fills)
  {
    hide Notional;
    var f := Place(a, o, quote).0.fills[|a.fills|];
    AfterFillTotals(a.fills, f);
    CostRemovedIsAverage(a, f);
    SellCost(a.positions, o.symbol, o.quantity);
  }

  lemma PlaceKeepsHoldings(a: Account, o: OrderRequest, quote: Symbol -> real)
    requires HoldingsMatchLog(a)
    ensures HoldingsMatchLog(Place(a, o, quote).0)
  {
    var (a', r) := Place(a, o, quote);
    forall s: Symbol ensures HoldingMatchesLog(a', s) {
      assert HoldingMatchesLog(a, s);
      if r.accepted {
        if o.side.Buy? { BuyKeepsHolding(a, o, quote, s); } else { SellKeepsHolding(a, o, quote, s); }
      }
    }
  }

  /** One order, accepted or refused, keeps the account equal to the fold of its log. */
  lemma PlaceKeepsBooks(a: Account, initialCash: real, o: OrderRequest, quote: Symbol -> real)
    requires Booked(a, initialCash)
    ensures Booked(Place(a, o, quote).0, initialCash)
  {
    PlaceKeepsHoldings(a, o, quote);
    if Place(a, o, quote).1.accepted {
      if o.side.Buy? {
        BuyKeepsTotals(a, initialCash, o, quote);
      } else {
        SellKeepsTotals(a, initialCash, o, quote);
      }
    }
  }

  /** Cash stays non-negative and average prices positive as long as prices are positive. */
  ghost predicate Solvent(a: Account) {
    a.cash >= 0.0 && forall s :: s in a.positions ==> a.positions[s].averagePrice > 0.0
  }

  lemma PlaceKeepsSolvent(a: Account, o: OrderRequest, quote: Symbol -> real)
    requires Solvent(a) && HoldingsMatchLog(a)
    requires FillPrice(o, quote) > 0.0
    ensures Solvent(Place(a, o, quote).0)
  {
    assert HoldingMatchesLog(a, o.symbol);
  }

  /** Over any order list the account stays the fold of its own fill log, cash never goes
      negative, and cash plus held cost is initial cash plus average-cost realized profit. */
  lemma {:induction false} AccountIsFoldOfLog(
    a: Account, initialCash: real, orders: seq<OrderRequest>, quote: Symbol -> real)
    requires Booked(a, initialCash)
    ensures Booked(RunOrders(a, orders, quote), initialCash)
    ensures Solvent(a) && PositivelyPriced(orders, quote) ==> Solvent(RunOrders(a, orders, quote))
    decreases |orders|
  {
    if orders != [] {
      PlaceKeepsBooks(a, initialCash, orders[0], quote);
      if Solvent(a) && PositivelyPriced(orders, quote) {
        PlaceKeepsSolvent(a, orders[0], quote);
      }
      AccountIsFoldOfLog(Place(a, orders[0], quote).0, initialCash, orders[1..], quote);
    }
  }

  /** The same from an empty account, spelled out for one symbol. */
  lemma RunFromCash(initialCash: real, orders: seq<OrderRequest>, quote: Symbol -> real, s: Symbol)
    requires initialCash >= 0.0 && PositivelyPriced(orders, quote)
    ensures var a := RunOrders(NewAccount(initialCash), orders, quote);
            var held := Bought(a.fills, s) - Sold(a.fills, s);
            && a.cash == initialCash - NetSpent(a.fills) >= 0.0
            && a.cash + TotalCost(a.positions) == initialCash + Realized(a.fills)
            && (s in a.positions <==> held > 0)
            && (s in a.positions ==>
                 a.positions[s].quantity == held
                 && a.positions[s].averagePrice == CostBasis(a.fills, s) / held as real > 0.0)
            && (s !in a.positions ==> held == 0)
  {
    var start := NewAccount(initialCash);
    assert Booked(start, initialCash) by { NewAccountIsBooked(initialCash); }
    hide RunOrders, Bought, Sold, CostBasis, NetSpent, Realized, Notional, TotalCost;
    AccountIsFoldOfLog(start, initialCash, orders, quote);
    var a := RunOrders(start, orders, quote);
    assert HoldingMatchesLog(a, s);
    if s in a.positions {
      AverageFromCost(a.positions[s]);
    }
  }

  lemma NewAccountIsBooked(cash: real)
    ensures Booked(NewAccount(cash), cash)
  {
    assert forall s :: HoldingMatchesLog(NewAccount(cash), s);
  }

  /** Fills are numbered from one without gaps, by orders of rising number. */
  ghost predicate Numbered(a: Account) {
    && a.fillSeq == |a.fills|
    && (forall i :: 0 <= i < |a.fills| ==> a.fills[i].fillId == i + 1 && 1 <= a.fills[i].orderId <= a.orderSeq)
    && (forall i, j :: 0 <= i < j < |a.fills| ==> a.fills[i].orderId < a.fills[j].orderId)
  }

  /** How many of the orders get a number: those of positive quantity, filled or refused. */
  function CountPositive(orders: seq<OrderRequest>): nat {
    if orders == [] then 0 else (if orders[0].quantity > 0 then 1 else 0) + CountPositive(orders[1..])
  }

  lemma {:induction false} RunIsNumbered(a: Account, orders: seq<OrderRequest>, quote: Symbol -> real)
    requires Numbered(a)
    ensures Numbered(RunOrders(a, orders, quote))
    ensures RunOrders(a, orders, quote).orderSeq == a.orderSeq + CountPositive(orders)
    decreases |orders|
  {
    hide Notional, BuyInto, SellOutOf;
    if orders != [] {
      RunIsNumbered(Place(a, orders[0], quote).0, orders[1..], quote);
    }
  }

  lemma NewAccountIsNumbered(cash: real)
    ensures var a := NewAccount(cash);
            Numbered(a) && a.orderSeq == 0 && a.cash == cash && a.positions == map[] && a.openOrders == map[]
  {
  }

  lemma AverageFromCost(p: PositionView)
    requires p.quantity > 0
    ensures p.averagePrice == Cost(p) / p.quantity as real
  {
  }

  // ---- the order in which holdings are listed -------------------------------------------

  function Without(order: seq<Symbol>, s: Symbol): seq<Symbol> {
    if order == [] then []
    else (if order[0] == s then [] else [order[0]]) + Without(order[1..], s)
  }

  /** Held symbols in the order of the position dictionary: first bought first, a symbol sold out
      and bought again going to the end. */
  function HeldOrder(fills: seq<Fill>): seq<Symbol> {
    if fills == [] then []
    else
      var order, f := HeldOrder(fills[..|fills| - 1]), fills[|fills| - 1];
      if f.side.Buy? then (if f.symbol in order then order else order + [f.symbol])
      else if Bought(fills, f.symbol) - Sold(fills, f.symbol) <= 0 then Without(order, f.symbol)
      else order
  }

  ghost predicate ListsHoldings(a: Account) {
    && Distinct(HeldOrder(a.fills))
    && forall s :: s in HeldOrder(a.fills) <==> s in a.positions
  }

  lemma {:induction false} WithoutMeaning(order: seq<Symbol>, s: Symbol)
    ensures forall k :: k in Without(order, s) <==> k in order && k != s
    ensures Distinct(order) ==> Distinct(Without(order, s))
  {
    if order != [] {
      var rest := Without(order[1..], s);
      WithoutMeaning(order[1..], s);
      assert order == [order[0]] + order[1..];
      if Distinct(order) {
        assert forall i :: 0 <= i < |order[1..]| ==> order[1..][i] == order[i + 1];
        assert order[0] !in order[1..];
        assert Distinct([order[0]] + rest);
      }
    }
  }

  lemma ListingAfter(before: seq<Fill>, f: Fill)
    ensures HeldOrder(before + [f]) ==
            if f.side.Buy? then
              (if f.symbol in HeldOrder(before) then HeldOrder(before) else HeldOrder(before) + [f.symbol])
            else if Bought(before + [f], f.symbol) - Sold(before + [f], f.symbol) <= 0 then
              Without(HeldOrder(before), f.symbol)
            else HeldOrder(before)
  {
    assert (before + [f])[..|before|] == before;
  }

  lemma PlaceKeepsListing(a: Account, o: OrderRequest, quote: Symbol -> real)
    requires HoldingsMatchLog(a) && ListsHoldings(a)
    ensures ListsHoldings(Place(a, o, quote).0)
  {
    hide Notional, HeldOrder, CostBasis, HoldingsMatchLog;
    var (a', r) := Place(a, o, quote);
    if r.accepted {
      var f := a'.fills[|a.fills|];
      assert a'.fills == a.fills + [f];
      ListingAfter(a.fills, f);
      AfterFill(a.fills, f, o.symbol);
      assert HoldingMatchesLog(a, o.symbol) by { LogOf(a, o.symbol); }
      WithoutMeaning(HeldOrder(a.fills), o.symbol);
    }
  }

  lemma LogOf(a: Account, s: Symbol)
    requires HoldingsMatchLog(a)
    ensures HoldingMatchesLog(a, s)
  {
  }

  /** Placing orders keeps the holdings listed, in step with the log. */
  lemma PlaceKeepsLogged(a: Account, o: OrderRequest, quote: Symbol -> real)
    requires HoldingsMatchLog(a) && ListsHoldings(a)
    ensures HoldingsMatchLog(Place(a, o, quote).0) && ListsHoldings(Place(a, o, quote).0)
  {
    hide Place, ListsHoldings;
    PlaceKeepsListing(a, o, quote);
    PlaceKeepsHoldings(a, o, quote);
  }
}

/** The broker object: fields updated in place, each method tied to the account function above. */
module PaperBrokers {
  import opened Common
  import opened Orders
  import opened PaperAccount

  class PaperBroker {
    const quote: Symbol -> real
    var cash: real
    var positions: map<Symbol, PositionView>
    var openOrders: map<nat, OpenOrder>
    var fills: seq<Fill>
    var orderSeq: nat
    var fillSeq: nat

    ghost function State(): Account
      reads this
    {
      Account(cash, positions, openOrders, fills, orderSeq, fillSeq)
    }

    constructor (initialCash: real, quote: Symbol -> real)
      ensures State() == NewAccount(initialCash) && this.quote == quote
    {
      this.quote := quote;
      cash, positions, openOrders, fills := initialCash, map[], map[], [];
      orderSeq, fillSeq := 0, 0;
    }

    method PlaceOrder(order: OrderRequest) returns (result: OrderResult)
      modifies this
      ensures State() == Place(old(State()), order, quote).0
      ensures result == Place(old(State()), order, quote).1
    {
      hide Notional, BuyInto, SellOutOf;
      if order.quantity <= 0 {
        return Refused(None, Submitted, QuantityNotPositive);
      }
      orderSeq := orderSeq + 1;
      var id := orderSeq;
      openOrders := openOrders[id := OpenOrder(order.symbol, order.side, order.quantity, order.price)];
      var price := FillPrice(order, quote);
      var notional := Notional(price, order.quantity);
      if order.side.Buy? {
        if notional > cash {
          DropOrder(id);
          return Refused(Some(id), Submitted, InsufficientCash);
        }
        cash := cash - notional;
        ApplyBuyFill(order.symbol, order.quantity, price);
      } else {
        if order.symbol !in positions || positions[order.symbol].quantity < order.quantity {
          DropOrder(id);
          return Refused(Some(id), Submitted, InsufficientPosition);
        }
        cash := cash + notional;
        ApplySellFill(order.symbol, order.quantity);
      }
      fillSeq := fillSeq + 1;
      fills := fills + [Fill(fillSeq, id, order.symbol, order.side, order.quantity, price)];
      DropOrder(id);
      result := OrderResult(Some(id), true, Filled, order.quantity, Some(price), None);
    }

    method DropOrder(id: nat)
      modifies this`openOrders
      ensures openOrders == old(openOrders) - {id}
    {
      openOrders := openOrders - {id};
    }

    method ApplyBuyFill(s: Symbol, n: int, price: real)
      modifies this`positions
      ensures positions == BuyInto(old(positions), s, n, price)
    {
      if s !in positions {
        positions := positions[s := PositionView(n, price)];
        return;
      }
      var prev := positions[s];
      var total := prev.quantity + n;
      if total != 0 {
        var average := (Notional(prev.averagePrice, prev.quantity) + Notional(price, n)) / total as real;
        positions := positions[s := PositionView(total, average)];
      }
    }

    method ApplySellFill(s: Symbol, n: int)
      requires s in positions
      modifies this`positions
      ensures positions == SellOutOf(old(positions), s, n)
    {
      var prev := positions[s];
      var remaining := prev.quantity - n;
      if remaining <= 0 {
        positions := positions - {s};
      } else {
        positions := positions[s := PositionView(remaining, prev.averagePrice)];
      }
    }

    /** Every order is filled or refused at once, so on booked accounts there is never one to cancel. */
    method CancelOrder(id: nat) returns (accepted: bool)
      modifies this`openOrders
      ensures openOrders == old(openOrders) - {id}
      ensures accepted <==> id in old(openOrders)
      ensures forall c :: old(Booked(State(), c)) ==> !accepted && Booked(State(), c)
    {
      accepted := id in openOrders;
      openOrders := openOrders - {id};
    }
  }
}
