/** The tracked position of one symbol (app/portfolio/positions.py) and how the order manager
    applies fills to it (app/orders/order_manager.py). */
module Positions {
  import opened Common
  import opened Orders
  import opened PaperAccount

  datatype Position = Position(
    symbol: Symbol,
    quantity: int,
    averagePrice: real,
    initialQuantity: Option<int>,
    realizedSellQuantity: int,
    firstTakeProfitDone: bool,
    trailingActive: bool,
    highestPrice: Option<real>
  )

  /** A returned value, or the ValueError of the program. */
  datatype Result<+T> = Value(value: T) | ValueError

  function NewAveragePrice(currentQty: int, currentAvg: real, buyQty: int, buyPrice: real): Result<real> {
    if currentQty < 0 || buyQty <= 0 then ValueError
    else if currentAvg < 0.0 || buyPrice <= 0.0 then ValueError
    else Value((Notional(currentAvg, currentQty) + Notional(buyPrice, buyQty)) / (currentQty + buyQty) as real)
  }

  function HighestOr(p: Position, price: real): real {
    if p.highestPrice.Some? && p.highestPrice.value != 0.0 then p.highestPrice.value else price
  }

  function InitialOf(p: Position): int {
    if p.initialQuantity.Some? then p.initialQuantity.value else p.quantity
  }

  function BuyFill(p: Option<Position>, quantity: int, price: real, symbol: Symbol): Result<Position> {
    if quantity <= 0 || price <= 0.0 then ValueError
    else
      match p
      case None => Value(Position(symbol, quantity, price, Some(quantity), 0, false, false, Some(price)))
      case Some(pos) =>
        match NewAveragePrice(pos.quantity, pos.averagePrice, quantity, price)
        case ValueError => ValueError
        case Value(avg) =>
          Value(pos.(
            quantity := pos.quantity + quantity,
            averagePrice := avg,
            initialQuantity := Some(InitialOf(pos) + quantity),
            highestPrice := Some(MaxReal(HighestOr(pos, price), price))))
  }

  /** Half the initial quantity, truncated, but at least one share. */
  function FirstProfitThreshold(initial: int): int {
    MaxInt(if initial >= 0 then initial / 2 else -(-initial / 2), 1)
  }

  function SellFill(p: Position, quantity: int, markFirstProfit: bool): Result<Option<Position>> {
    if quantity <= 0 || quantity > p.quantity then ValueError
    else if p.quantity == quantity then Value(None)
    else
      var realized := p.realizedSellQuantity + quantity;
      var done := p.firstTakeProfitDone || markFirstProfit || realized >= FirstProfitThreshold(InitialOf(p));
      Value(Some(p.(
        quantity := p.quantity - quantity,
        initialQuantity := Some(InitialOf(p)),
        realizedSellQuantity := realized,
        firstTakeProfitDone := done,
        trailingActive := done)))
  }

  function UpdateHighWatermark(p: Position, latest: real): Position {
    if latest <= 0.0 then p else p.(highestPrice := Some(MaxReal(HighestOr(p, latest), latest)))
  }

  /** `apply_fill_to_position`. */
  function ApplyFill(
    p: Option<Position>, o: OrderRequest, price: real, filled: Option<int>, markFirstProfit: bool)
    : Result<Option<Position>>
  {
    var quantity := if filled.Some? && filled.value > 0 then filled.value else o.quantity;
    if quantity <= 0 then Value(p)
    else if o.side.Buy? then
      match BuyFill(p, quantity, price, o.symbol)
      case ValueError => ValueError
      case Value(updated) => Value(Some(UpdateHighWatermark(updated, price)))
    else if p.None? then Value(None)
    else SellFill(p.value, quantity, markFirstProfit)
  }

  // ---- fills in plain terms ------------------------------------------------------------------------

  /** A purchase is refused exactly for a non-positive quantity or price or a broken position; it opens a
      position at its price, or adds its shares and its cost and keeps the highest price. */
  lemma BuyFillExactly(p: Option<Position>, quantity: int, price: real, symbol: Symbol)
    ensures var r := BuyFill(p, quantity, price, symbol);
            && (r.ValueError? <==>
                 || quantity <= 0 || price <= 0.0
                 || (p.Some? && (p.value.quantity < 0 || p.value.averagePrice < 0.0)))
            && (r.Value? && p.None? ==>
                 r.value == Position(symbol, quantity, price, Some(quantity), 0, false, false, Some(price)))
            && (r.Value? && p.Some? ==>
                 var before, after := p.value, r.value;
                 var initial := if before.initialQuantity.Some? then before.initialQuantity.value else before.quantity;
                 var high := if before.highestPrice.Some? && before.highestPrice.value != 0.0
                             then before.highestPrice.value else price;
                 && after.quantity == before.quantity + quantity
                 && after.averagePrice * after.quantity as real
                    == before.averagePrice * before.quantity as real + price * quantity as real
                 && after.initialQuantity == Some(initial + quantity)
                 && after.highestPrice == Some(if price > high then price else high)
                 && after == before.(quantity := after.quantity, averagePrice := after.averagePrice,
                                     initialQuantity := after.initialQuantity, highestPrice := after.highestPrice))
  {
    if p.Some? && quantity > 0 && price > 0.0 && p.value.quantity >= 0 && p.value.averagePrice >= 0.0 {
      AverageNotional(Notional(p.value.averagePrice, p.value.quantity) + Notional(price, quantity),
                      p.value.quantity + quantity);
    }
  }

  /** Half the initial shares, rounded down, one at least. */
  lemma HalfIsThreshold(initial: int)
    ensures var half := FirstProfitThreshold(initial);
            if initial < 4 then half == 1 else 2 * half <= initial < 2 * half + 2
  {
  }

  /** A sale is refused exactly for a non-positive quantity or more than is held; it closes the position
      or leaves the rest, whose first profit is taken once half the initial shares are sold or when marked. */
  lemma SellFillExactly(p: Position, quantity: int, markFirstProfit: bool)
    ensures var r := SellFill(p, quantity, markFirstProfit);
            && (r.ValueError? <==> quantity <= 0 || quantity > p.quantity)
            && (r.Value? ==> (r.value.None? <==> quantity == p.quantity))
            && (r.Value? && r.value.Some? ==>
                 var initial := if p.initialQuantity.Some? then p.initialQuantity.value else p.quantity;
                 var after, sold := r.value.value, p.realizedSellQuantity + quantity;
                 && after.quantity == p.quantity - quantity
                 && after.realizedSellQuantity == sold
                 && after.initialQuantity == Some(initial)
                 && (after.firstTakeProfitDone <==>
                      p.firstTakeProfitDone || markFirstProfit || sold >= FirstProfitThreshold(initial))
                 && after.trailingActive == after.firstTakeProfitDone
                 && after == p.(quantity := after.quantity, realizedSellQuantity := sold,
                                initialQuantity := after.initialQuantity,
                                firstTakeProfitDone := after.firstTakeProfitDone,
                                trailingActive := after.trailingActive))
  {
    hide FirstProfitThreshold;
  }

  /** A positive price raises the high watermark and does nothing else; any other does nothing. */
  lemma WatermarkExactly(p: Position, latest: real)
    ensures var after := UpdateHighWatermark(p, latest);
            && (latest <= 0.0 ==> after == p)
            && (latest > 0.0 ==>
                 && after == p.(highestPrice := after.highestPrice)
                 && after.highestPrice.Some? && after.highestPrice.value >= latest
                 && (if p.highestPrice.Some? && p.highestPrice.value != 0.0 && p.highestPrice.value > latest
                     then after.highestPrice == p.highestPrice else after.highestPrice == Some(latest)))
  {
  }

  /** A fill is of the reported shares, or of the ordered ones when none are reported; without shares, or
      for a sale without a position, nothing happens; a purchase also raises the watermark. */
  lemma FillRoutes(p: Option<Position>, o: OrderRequest, price: real, filled: Option<int>, markFirstProfit: bool)
    ensures var r := ApplyFill(p, o, price, filled, markFirstProfit);
            var n := if filled.Some? && filled.value >= 1 then filled.value else o.quantity;
            && (n < 1 ==> r == Value(p))
            && (n >= 1 && o.side.Sell? && p.None? ==> r == Value(None))
            && (n >= 1 && o.side.Sell? && p.Some? ==> r == SellFill(p.value, n, markFirstProfit))
            && (n >= 1 && o.side.Buy? ==>
                 var bought := BuyFill(p, n, price, o.symbol);
                 && (bought.ValueError? ==> r == ValueError)
                 && (bought.Value? ==> r == Value(Some(UpdateHighWatermark(bought.value, price)))))
  {
  }

  /** Anything that can happen to a tracked position; a refused fill leaves it as it was. */
  datatype Event =
    | FillEvent(order: OrderRequest, price: real, filled: Option<int>, markFirstProfit: bool)
    | PriceEvent(latest: real)

  function Step(p: Option<Position>, e: Event): Option<Position> {
    match e
    case PriceEvent(latest) => if p.None? then None else Some(UpdateHighWatermark(p.value, latest))
    case FillEvent(o, price, filled, mark) =>
      match ApplyFill(p, o, price, filled, mark)
      case ValueError => p
      case Value(p') => p'
  }

  function Run(p: Option<Position>, events: seq<Event>): Option<Position> {
    if events == [] then p else Step(Run(p, events[..|events| - 1]), events[|events| - 1])
  }

  ghost predicate Sound(p: Position) {
    && p.quantity > 0
    && p.averagePrice > 0.0
    && p.highestPrice.Some? && p.highestPrice.value >= p.averagePrice
    && p.realizedSellQuantity >= 0
    && p.initialQuantity == Some(p.quantity + p.realizedSellQuantity)
    && p.trailingActive == p.firstTakeProfitDone
    && (!p.firstTakeProfitDone ==> p.realizedSellQuantity < FirstProfitThreshold(p.initialQuantity.value))
  }

  /** The average of two prices lies between zero and the larger one. */
  lemma AverageBounded(avg: real, q: int, price: real, n: int, high: real)
    requires q > 0 && n > 0 && 0.0 < avg <= high && 0.0 < price <= high
    ensures 0.0 < (Notional(avg, q) + Notional(price, n)) / (q + n) as real <= high
  {
    NotionalBounded(avg, high, q);
    NotionalBounded(price, high, n);
    NotionalSum(high, q, n);
    hide Notional;
    QuotientBounded(Notional(avg, q) + Notional(price, n), (q + n) as real, high);
  }

  lemma NotionalBounded(price: real, high: real, n: int)
    requires n > 0 && 0.0 < price <= high
    ensures 0.0 < Notional(price, n) <= Notional(high, n)
  {
  }

  lemma NotionalSum(price: real, q: int, n: int)
    ensures Notional(price, q) + Notional(price, n) == price * (q + n) as real
  {
  }

  lemma QuotientBounded(x: real, total: real, high: real)
    requires 0.0 < total && 0.0 < x <= high * total
    ensures 0.0 < x / total <= high
  {
    assert x / total * total == x;
  }

  lemma StepKeepsSound(p: Option<Position>, e: Event)
    requires p.Some? ==> Sound(p.value)
    ensures Step(p, e).Some? ==> Sound(Step(p, e).value)
    ensures p.Some? && Step(p, e).Some? && p.value.firstTakeProfitDone ==> Step(p, e).value.firstTakeProfitDone
  {
    hide Notional;
    if e.FillEvent? && e.order.side.Buy? && p.Some? {
      var quantity := if e.filled.Some? && e.filled.value > 0 then e.filled.value else e.order.quantity;
      if quantity > 0 && e.price > 0.0 {
        var high := MaxReal(p.value.highestPrice.value, e.price);
        AverageBounded(p.value.averagePrice, p.value.quantity, e.price, quantity, high);
      }
    }
  }

  /** Every position reachable by buy fills, sell fills and price updates is sound: high watermark
      at or above the average, initial = held + sold, trailing exactly after the first profit. */
  lemma {:induction false} ReachableIsSound(events: seq<Event>)
    ensures Run(None, events).Some? ==> Sound(Run(None, events).value)
  {
    hide Step, Sound;
    if events != [] {
      ReachableIsSound(events[..|events| - 1]);
      StepKeepsSound(Run(None, events[..|events| - 1]), events[|events| - 1]);
    }
  }

  /** The first take-profit flag is latched until the position is closed. */
  lemma {:induction false} FirstProfitLatched(events: seq<Event>, more: seq<Event>)
    requires Run(None, events).Some? && Run(None, events).value.firstTakeProfitDone
    requires forall k :: 0 <= k <= |more| ==> Run(None, events + more[..k]).Some?
    ensures Run(None, events + more).Some? && Run(None, events + more).value.firstTakeProfitDone
  {
    hide Step, Sound;
    assert more[..|more|] == more;
    if more == [] {
      assert events + more == events;
    } else {
      var shorter, all := more[..|more| - 1], events + more;
      assert forall k :: 0 <= k <= |shorter| ==> shorter[..k] == more[..k];
      FirstProfitLatched(events, shorter);
      assert all[..|all| - 1] == events + shorter;
      ReachableIsSound(events + shorter);
      StepKeepsSound(Run(None, events + shorter), more[|more| - 1]);
    }
  }

  // ---- agreement with the broker ----------------------------------------------------------------

  /** The position of `s` kept by applying the broker's accepted results, order by order. */
  function Track(
    a: Account, p: Option<Position>, orders: seq<OrderRequest>, quote: Symbol -> real, s: Symbol): Option<Position>
    decreases |orders|
  {
    if orders == [] then p
    else
      var o := orders[0];
      var (a', r) := Place(a, o, quote);
      var p' :=
        if r.accepted && o.symbol == s then
          Step(p, FillEvent(o, r.avgFillPrice.value, Some(r.filledQuantity), false))
        else p;
      Track(a', p', orders[1..], quote, s)
  }

  ghost predicate Agrees(a: Account, p: Option<Position>, s: Symbol) {
    && (p.Some? <==> s in a.positions)
    && (p.Some? ==> Sound(p.value) && p.value.symbol == s
                    && p.value.quantity == a.positions[s].quantity
                    && p.value.averagePrice == a.positions[s].averagePrice)
  }

  lemma FillAgrees(a: Account, p: Option<Position>, o: OrderRequest, quote: Symbol -> real)
    requires Agrees(a, p, o.symbol) && Place(a, o, quote).1.accepted && FillPrice(o, quote) > 0.0
    ensures var (a', r) := Place(a, o, quote);
            && ApplyFill(p, o, r.avgFillPrice.value, Some(r.filledQuantity), false).Value?
            && Agrees(a', Step(p, FillEvent(o, r.avgFillPrice.value, Some(r.filledQuantity), false)), o.symbol)
  {
    hide Notional;
    var r := Place(a, o, quote).1;
    StepKeepsSound(p, FillEvent(o, r.avgFillPrice.value, Some(r.filledQuantity), false));
  }

  lemma OtherFillAgrees(a: Account, p: Option<Position>, o: OrderRequest, quote: Symbol -> real, s: Symbol)
    requires Agrees(a, p, s) && (o.symbol != s || !Place(a, o, quote).1.accepted)
    ensures Agrees(Place(a, o, quote).0, p, s)
  {
    hide Notional;
  }

  /** Run on the same positive-price orders, the tracked position agrees with the broker's view of
      the symbol: held together, same quantity, same average price. */
  lemma {:induction false} TrackedMatchesBroker(
    a: Account, p: Option<Position>, orders: seq<OrderRequest>, quote: Symbol -> real, s: Symbol)
    requires Agrees(a, p, s) && PositivelyPriced(orders, quote)
    ensures Agrees(RunOrders(a, orders, quote), Track(a, p, orders, quote, s), s)
    decreases |orders|
  {
    if orders != [] {
      var o, r := orders[0], Place(a, orders[0], quote).1;
      assert o in orders && (r.accepted ==> r.avgFillPrice.Some?);
      hide Place, Agrees, Step;
      if r.accepted && o.symbol == s {
        FillAgrees(a, p, o, quote);
        TrackedMatchesBroker(
          Place(a, o, quote).0, Step(p, FillEvent(o, r.avgFillPrice.value, Some(r.filledQuantity), false)),
          orders[1..], quote, s);
      } else {
        OtherFillAgrees(a, p, o, quote, s);
        TrackedMatchesBroker(Place(a, o, quote).0, p, orders[1..], quote, s);
      }
    }
  }

  lemma TrackedFromCash(cash: real, orders: seq<OrderRequest>, quote: Symbol -> real, s: Symbol)
    requires PositivelyPriced(orders, quote)
    ensures Agrees(RunOrders(NewAccount(cash), orders, quote), Track(NewAccount(cash), None, orders, quote, s), s)
  {
    TrackedMatchesBroker(NewAccount(cash), None, orders, quote, s);
  }
}
