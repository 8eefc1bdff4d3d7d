/** Share sizing of the closing-auction entries (app/strategy/final_betting_v1_strategy.py,
    app/strategy/paper_position_sizing.py, app/strategy/market_mode_policy.py). */
module FinalBettingSizing {
  import opened Common
  import opened PaperAccount
  import opened PositionSizing
  import opened FinalBettingExits

  const SMALLEST_PRICE: real := 0.000000001

  /** The entry settings that the market mode shifts. */
  datatype Policy = Policy(
    maxNewDelta: int,
    rankPoolDelta: int,
    sizeFactor: real,
    minAllocationDelta: real,
    maxCapitalDelta: real
  )

  /** The "final_betting" part of `compose_effective_policy`. */
  function PolicyFor(mode: Mode): Policy {
    match mode
    case Aggressive => Policy(3, 6, 1.18, -4.0, 4.5)
    case Neutral => Policy(0, 0, 1.0, 0.0, 0.0)
    case Defensive => Policy(-1, -1, 0.88, 2.0, -3.0)
  }

  /** What sizing reads besides the candidate's own price and stop. `penalised`: a failed market
      filter was overridden; `lastScore`: the quality of the last symbol scored in the tick. */
  datatype EntryTerms = EntryTerms(
    mode: Mode,
    penalised: bool,
    lastScore: int,
    equityBase: real,
    regimeFactor: real,
    healthFactor: real,
    minAllocationPct: real,
    maxCapitalPct: real,
    riskPerTradePct: real
  )

  /** Stronger symbols get the smaller factor. */
  function QualityFactor(score: int): (factor: real)
    ensures 0.7 <= factor <= 0.85
  {
    if score >= 5 then 0.70 else if score >= 3 then 0.80 else 0.85
  }

  /** One factor for every candidate of the tick; only an aggressive market overrides the filter. */
  function SizeReduction(t: EntryTerms): (factor: real)
    ensures 0.7 <= factor <= 1.0
  {
    if t.mode.Aggressive? && t.penalised then QualityFactor(t.lastScore) else 1.0
  }

  /** `blend_stop_tp_with_atr`, its stop. */
  function BlendedStop(fixedPct: real, atrPct: real, atrFactor: real): real {
    if atrPct <= 0.0 || atrPct > 25.0 then fixedPct
    else MaxReal(fixedPct * 0.65, MinReal(fixedPct * 1.35, atrPct * atrFactor))
  }

  function PctOf(amount: real, pct: real): real {
    amount * (pct / 100.0)
  }

  /** `int(budget / price)`, which truncates towards zero. */
  function Affords(budget: real, price: real): int
    requires price > 0.0
  {
    var quotient := budget / price;
    if quotient >= 0.0 then quotient.Floor else -(-quotient).Floor
  }

  /** What one share loses at its stop. */
  function StopDistance(price: real, stopPct: real): (distance: real)
    ensures price > 0.0 ==> distance > 0.0
  {
    PctPositive(price, MaxReal(0.05, stopPct));
    PctOf(price, MaxReal(0.05, stopPct))
  }

  lemma PctPositive(amount: real, pct: real)
    ensures amount > 0.0 && pct > 0.0 ==> PctOf(amount, pct) > 0.0
    ensures amount >= 0.0 && pct >= 0.0 ==> PctOf(amount, pct) >= 0.0
  {
  }

  /** `compute_intraday_buy_quantity`: the smallest of the risk, capital and share limits, one at least. */
  function IntradayBuyQuantity(
    price: real, stopPct: real, equity: real, budget: real,
    maxPositionPct: real, riskPct: real, fallback: int, maxShares: int): (n: int)
    ensures n >= 1
  {
    if price <= 0.0 then MaxInt(1, fallback)
    else
      var eq := MaxReal(0.0, equity);
      var pot := if MaxReal(0.0, budget) <= 0.0 && eq > 0.0 then eq else MaxReal(0.0, budget);
      var byRisk := Affords(PctOf(eq, MaxReal(0.0, riskPct)), StopDistance(price, stopPct));
      var byCapital := Affords(PctOf(pot, MaxReal(0.0, maxPositionPct)), price);
      MinInt(MinInt(MaxInt(1, byRisk), MaxInt(1, byCapital)), MaxInt(1, maxShares))
  }

  function EffectiveEquity(t: EntryTerms): (eq: real)
    ensures eq >= 1.0
  {
    MaxReal(1.0, t.equityBase * t.regimeFactor * t.healthFactor)
  }

  function MinPct(t: EntryTerms): (pct: real)
    ensures 10.0 <= pct <= 35.0
  {
    Clamp(t.minAllocationPct + PolicyFor(t.mode).minAllocationDelta, 10.0, 35.0)
  }

  function MaxPct(t: EntryTerms): (pct: real)
    ensures 12.0 <= pct <= 38.0
  {
    Clamp(t.maxCapitalPct * PolicyFor(t.mode).sizeFactor + PolicyFor(t.mode).maxCapitalDelta, 12.0, 38.0)
  }

  function RiskPct(t: EntryTerms, stopPct: real): real {
    MinReal(t.riskPerTradePct, stopPct)
  }

  function AllocationValid(t: EntryTerms): bool {
    MaxPct(t) + 0.000000001 >= MinPct(t)
  }

  function CapShares(t: EntryTerms, price: real): (n: int)
    ensures n >= 1
  {
    MaxInt(1, Affords(PctOf(EffectiveEquity(t), MaxPct(t)), MaxReal(price, SMALLEST_PRICE)))
  }

  function MinShares(t: EntryTerms, price: real): (n: int)
    ensures n >= 1
  {
    MaxInt(1, Affords(PctOf(EffectiveEquity(t), MinPct(t)), MaxReal(price, SMALLEST_PRICE)))
  }

  function FeasibleShares(t: EntryTerms, price: real, stopPct: real): (n: int)
    ensures n >= 1
  {
    var cap, eq := CapShares(t, price), EffectiveEquity(t);
    MinInt(
      IntradayBuyQuantity(price, stopPct, eq, MaxReal(eq, 1.0), MaxPct(t), RiskPct(t, stopPct), 1, cap), cap)
  }

  function Weighted(shares: int, factor: real): real {
    shares as real * factor
  }

  /** `int(shares * factor)`, which truncates towards zero. */
  function Reduced(shares: int, factor: real): int {
    var x := Weighted(shares, factor);
    if x >= 0.0 then x.Floor else -(-x).Floor
  }

  function EntryShares(t: EntryTerms, price: real, stopPct: real): int {
    Reduced(FeasibleShares(t, price, stopPct), SizeReduction(t))
  }

  /** The entry is signalled: the settings agree and the shares reach the minimum allocation. */
  predicate Sizable(t: EntryTerms, price: real, stopPct: real) {
    AllocationValid(t) && EntryShares(t, price, stopPct) >= MinShares(t, price)
  }

  // ---- what a sized entry can cost ----------------------------------------------------------------

  lemma AffordsMeaning(budget: real, price: real)
    requires budget >= 0.0 && price > 0.0
    ensures var n := Affords(budget, price);
            n == SharesFor(budget, price) && n >= 0 && Notional(price, n) <= budget < Notional(price, n + 1)
  {
    assert budget / price >= 0.0;
    SharesForMeaning(budget, price);
  }

  /** More than one feasible share fits both the capital and the loss that one trade may cost. */
  lemma FeasibleWithinLimits(t: EntryTerms, price: real, stopPct: real)
    requires price > 0.0 && FeasibleShares(t, price, stopPct) > 1
    ensures var n, eq := FeasibleShares(t, price, stopPct), EffectiveEquity(t);
            && Notional(price, n) <= PctOf(eq, MaxPct(t))
            && Notional(StopDistance(price, stopPct), n) <= PctOf(eq, MaxReal(0.0, RiskPct(t, stopPct)))
  {
    hide Notional, SharesFor, Affords, PctOf, MaxPct, RiskPct, StopDistance, EffectiveEquity;
    var n, eq := FeasibleShares(t, price, stopPct), EffectiveEquity(t);
    var capital, risk := PctOf(eq, MaxPct(t)), PctOf(eq, MaxReal(0.0, RiskPct(t, stopPct)));
    var distance := StopDistance(price, stopPct);
    PctPositive(eq, MaxPct(t));
    PctPositive(eq, MaxReal(0.0, RiskPct(t, stopPct)));
    AffordsMeaning(capital, price);
    AffordsMeaning(risk, distance);
    NotionalGrows(price, n, Affords(capital, price));
    NotionalGrows(distance, n, Affords(risk, distance));
  }

  lemma ProductInRange(x: real, factor: real)
    requires x >= 0.0 && 0.0 <= factor <= 1.0
    ensures 0.0 <= x * factor <= x
  {
    assert x * (1.0 - factor) >= 0.0;
  }

  lemma ReducedIsLess(shares: int, factor: real)
    requires shares >= 0 && 0.0 <= factor <= 1.0
    ensures 0 <= Reduced(shares, factor) <= shares
    ensures Reduced(shares, factor) as real <= shares as real * factor
    ensures shares == 1 && factor < 1.0 ==> Reduced(shares, factor) == 0
  {
    ProductInRange(shares as real, factor);
    var x := shares as real * factor;
    assert x.Floor as real <= shares as real;
  }

  /** An entry of more than one share fits the capital and risk budgets, and every entry misses the
      minimum allocation by less than one share. */
  lemma EntryWithinLimits(t: EntryTerms, price: real, stopPct: real)
    requires price > 0.0 && Sizable(t, price, stopPct)
    ensures var n, eq := EntryShares(t, price, stopPct), EffectiveEquity(t);
            && n >= 1
            && (n > 1 ==>
                 && Notional(price, n) <= PctOf(eq, MaxPct(t))
                 && Notional(StopDistance(price, stopPct), n) <= PctOf(eq, MaxReal(0.0, RiskPct(t, stopPct))))
            && PctOf(eq, MinPct(t)) < Notional(MaxReal(price, SMALLEST_PRICE), n + 1)
  {
    hide Notional, SharesFor, Affords, PctOf, MaxPct, MinPct, RiskPct, StopDistance, EffectiveEquity,
      FeasibleShares, Reduced;
    var n, feasible, eq := EntryShares(t, price, stopPct), FeasibleShares(t, price, stopPct), EffectiveEquity(t);
    var floor := MaxReal(price, SMALLEST_PRICE);
    ReducedIsLess(feasible, SizeReduction(t));
    PctPositive(eq, MinPct(t));
    AffordsMeaning(PctOf(eq, MinPct(t)), floor);
    NotionalGrows(floor, Affords(PctOf(eq, MinPct(t)), floor) + 1, n + 1);
    if n > 1 {
      FeasibleWithinLimits(t, price, stopPct);
      NotionalGrows(price, n, feasible);
      NotionalGrows(StopDistance(price, stopPct), n, feasible);
    }
  }

  lemma OneShare(price: real)
    ensures Notional(price, 1) == price
  {
  }

  /** A signalled entry exceeds the capital budget exactly when it is a single share that does, and
      the risk budget exactly when it is a single share that does. */
  lemma EntryFitsBudgetsIff(t: EntryTerms, price: real, stopPct: real)
    requires price > 0.0 && Sizable(t, price, stopPct)
    ensures var n, capital := EntryShares(t, price, stopPct), PctOf(EffectiveEquity(t), MaxPct(t));
            Notional(price, n) <= capital <==> n > 1 || price <= capital
    ensures var n, distance := EntryShares(t, price, stopPct), StopDistance(price, stopPct);
            var risk := PctOf(EffectiveEquity(t), MaxReal(0.0, RiskPct(t, stopPct)));
            Notional(distance, n) <= risk <==> n > 1 || distance <= risk
  {
    hide Notional, PctOf, MaxPct, RiskPct, StopDistance, EffectiveEquity, EntryShares, Sizable;
    EntryWithinLimits(t, price, stopPct);
    OneShare(price);
    OneShare(StopDistance(price, stopPct));
  }

  /** The default settings, at full effective equity. */
  function DefaultTerms(mode: Mode, penalised: bool, lastScore: int, equity: real): EntryTerms {
    EntryTerms(mode, penalised, lastScore, equity, 1.0, 1.0, 20.0, 25.0, 0.45)
  }

  /** An account of 1000 buys one share at 500, over both budgets. */
  lemma SingleShareOverBudgets()
    ensures var t := DefaultTerms(Neutral, false, 0, 1000.0);
            && Sizable(t, 500.0, 2.0) && EntryShares(t, 500.0, 2.0) == 1
            && 500.0 > PctOf(EffectiveEquity(t), MaxPct(t))
            && StopDistance(500.0, 2.0) > PctOf(EffectiveEquity(t), MaxReal(0.0, RiskPct(t, 2.0)))
  {
    var t := DefaultTerms(Neutral, false, 0, 1000.0);
    assert EffectiveEquity(t) == 1000.0 && MinPct(t) == 20.0 && MaxPct(t) == 25.0;
    assert PctOf(1000.0, 20.0) == 200.0 && PctOf(1000.0, 25.0) == 250.0 && PctOf(1000.0, 0.45) == 4.5;
    assert StopDistance(500.0, 2.0) == 10.0;
    assert Affords(200.0, 500.0) == 0 && Affords(250.0, 500.0) == 0 && Affords(4.5, 10.0) == 0;
    assert MinShares(t, 500.0) == 1 && FeasibleShares(t, 500.0, 2.0) == 1 && Reduced(1, 1.0) == 1;
  }

  lemma PctOfNotional(price: real, n: int, pct: real)
    ensures PctOf(Notional(price, n), pct) == Notional(PctOf(price, pct), n)
  {
  }

  lemma PctGrows(small: real, large: real, pct: real)
    ensures small < large && pct > 0.0 ==> PctOf(small, pct) < PctOf(large, pct)
    ensures small <= large && pct >= 0.0 ==> PctOf(small, pct) <= PctOf(large, pct)
  {
  }

  function Scaled(budget: real, factor: real): real {
    factor * budget
  }

  lemma ReducedNotional(price: real, feasible: int, factor: real, budget: real)
    requires price > 0.0 && feasible >= 0 && 0.0 <= factor <= 1.0 && Notional(price, feasible) <= budget
    ensures Notional(price, Reduced(feasible, factor) + 1) <= Scaled(budget, factor) + price
  {
    ReducedIsLess(feasible, factor);
    var n := Reduced(feasible, factor);
    hide Reduced;
    assert Notional(price, n + 1) == price * n as real + price;
    ScaleUp(price, n as real, feasible as real * factor);
    assert price * (feasible as real * factor) == factor * (price * feasible as real);
    ScaleUp(factor, Notional(price, feasible), budget);
  }

  /** Any real reduction of the size must still leave the minimum allocation: with it, the minimum
      stays below the reduced capital budget, and its loss below the reduced risk budget, by less
      than one share. */
  lemma ReducedEntryNeedsRoom(t: EntryTerms, price: real, stopPct: real)
    requires price >= SMALLEST_PRICE && SizeReduction(t) < 1.0
    ensures Sizable(t, price, stopPct) ==>
            var eq, least := EffectiveEquity(t), PctOf(EffectiveEquity(t), MinPct(t));
            && least < Scaled(PctOf(eq, MaxPct(t)), SizeReduction(t)) + price
            && PctOf(least, MaxReal(0.05, stopPct))
               < Scaled(PctOf(eq, MaxReal(0.0, RiskPct(t, stopPct))), SizeReduction(t)) + StopDistance(price, stopPct)
  {
    if !Sizable(t, price, stopPct) {
      return;
    }
    var n, feasible, eq := EntryShares(t, price, stopPct), FeasibleShares(t, price, stopPct), EffectiveEquity(t);
    var least, pct := PctOf(eq, MinPct(t)), MaxReal(0.05, stopPct);
    assert StopDistance(price, stopPct) == PctOf(price, pct);
    assert n == Reduced(feasible, SizeReduction(t)) && MaxReal(price, SMALLEST_PRICE) == price;
    hide Notional, PctOf, MaxPct, MinPct, RiskPct, StopDistance, EffectiveEquity, FeasibleShares, Reduced,
      EntryShares, Sizable, Scaled;
    EntryWithinLimits(t, price, stopPct);
    ReducedIsLess(feasible, SizeReduction(t));
    FeasibleWithinLimits(t, price, stopPct);
    ReducedNotional(price, feasible, SizeReduction(t), PctOf(eq, MaxPct(t)));
    ReducedNotional(
      StopDistance(price, stopPct), feasible, SizeReduction(t), PctOf(eq, MaxReal(0.0, RiskPct(t, stopPct))));
    PctGrows(least, Notional(price, n + 1), pct);
    PctOfNotional(price, n + 1, pct);
  }

  // ---- when an entry is signalled -----------------------------------------------------------------

  /** The fewest shares whose reduced number reaches the minimum. */
  function NeededShares(t: EntryTerms, price: real): (k: int)
    ensures k >= 1 && Weighted(k, SizeReduction(t)) >= MinShares(t, price) as real
    ensures Weighted(k - 1, SizeReduction(t)) < MinShares(t, price) as real
  {
    hide MinShares, SizeReduction;
    var quotient := MinShares(t, price) as real / SizeReduction(t);
    CeilingMeaning(MinShares(t, price) as real, SizeReduction(t));
    -(-quotient).Floor
  }

  lemma CeilingMeaning(x: real, factor: real)
    requires x >= 1.0 && 0.7 <= factor <= 1.0
    ensures var k := -(-(x / factor)).Floor;
            k >= 1 && Weighted(k, factor) >= x && Weighted(k - 1, factor) < x
  {
    var quotient := x / factor;
    var k := -(-quotient).Floor;
    assert (k - 1) as real < quotient <= k as real;
    QuotientCompare(x, factor, k as real);
    QuotientCompare(x, factor, (k - 1) as real);
    QuotientCompare(x, factor, 0.0);
  }

  lemma QuotientCompare(x: real, factor: real, y: real)
    requires factor > 0.0
    ensures y < x / factor <==> y * factor < x
  {
    var quotient := x / factor;
    assert quotient * factor == x;
    if y < quotient {
      assert (quotient - y) * factor > 0.0;
    } else {
      assert (y - quotient) * factor >= 0.0;
    }
  }

  lemma MoreSharesMore(few: int, many: int, factor: real)
    requires factor >= 0.0
    ensures few <= many ==> Weighted(few, factor) <= Weighted(many, factor)
  {
    if few <= many {
      ScaleUp(factor, few as real, many as real);
    }
  }

  lemma ReducedReaches(shares: int, factor: real, least: int)
    requires shares >= 0 && least >= 0 && factor >= 0.0
    ensures Reduced(shares, factor) >= least <==> Weighted(shares, factor) >= least as real
  {
    ScaleUp(shares as real, 0.0, factor);
  }

  lemma AffordsIff(budget: real, price: real, k: int)
    requires budget >= 0.0 && price > 0.0
    ensures Affords(budget, price) >= k <==> Notional(price, k) <= budget
  {
    hide Affords, Notional, SharesFor;
    AffordsMeaning(budget, price);
    var n := Affords(budget, price);
    if n >= k {
      NotionalGrows(price, k, n);
    } else {
      NotionalGrows(price, n + 1, k);
    }
  }

  /** One share loses its stop's percentage of the price, with a stop of 0.05% at least. */
  lemma StopDistanceIs(price: real, stopPct: real)
    ensures stopPct >= 0.05 ==> 100.0 * StopDistance(price, stopPct) == price * stopPct
    ensures stopPct <= 0.05 ==> 100.0 * StopDistance(price, stopPct) == price * 0.05
  {
  }

  /** More than one share is bought exactly when the share limit allows it, the loss at the stop fits the
      risk budget and the cost fits the capital; without a budget the equity is the capital. */
  lemma BuyQuantityIff(
    price: real, stopPct: real, equity: real, budget: real,
    maxPositionPct: real, riskPct: real, fallback: int, maxShares: int, k: int)
    requires k > 1
    ensures var n := IntradayBuyQuantity(price, stopPct, equity, budget, maxPositionPct, riskPct, fallback, maxShares);
            var own := if equity > 0.0 then equity else 0.0;
            var capital := if budget > 0.0 then budget else own;
            var risk := PctOf(own, if riskPct > 0.0 then riskPct else 0.0);
            var most := PctOf(capital, if maxPositionPct > 0.0 then maxPositionPct else 0.0);
            && (price <= 0.0 ==> n == if fallback > 1 then fallback else 1)
            && (price > 0.0 ==>
                 (n >= k <==>
                   k <= maxShares && Notional(StopDistance(price, stopPct), k) <= risk && Notional(price, k) <= most))
  {
    if price > 0.0 {
      var own, pct, risk := MaxReal(0.0, equity), MaxReal(0.0, maxPositionPct), MaxReal(0.0, riskPct);
      var capital := if budget > 0.0 then budget else own;
      PctPositive(own, risk);
      PctPositive(capital, pct);
      AffordsIff(PctOf(own, risk), StopDistance(price, stopPct), k);
      AffordsIff(PctOf(capital, pct), price, k);
      hide Affords, Notional, SharesFor, StopDistance, PctOf;
    }
  }

  /** The feasible shares are what both budgets afford, one at least. */
  lemma FeasibleMeaning(t: EntryTerms, price: real, stopPct: real, k: int)
    requires price >= SMALLEST_PRICE && k >= 1
    ensures var eq := EffectiveEquity(t);
            FeasibleShares(t, price, stopPct) >= k <==>
            k == 1 || (Notional(price, k) <= PctOf(eq, MaxPct(t))
                       && Notional(StopDistance(price, stopPct), k) <= PctOf(eq, MaxReal(0.0, RiskPct(t, stopPct))))
  {
    hide Notional, Affords, PctOf, MaxPct, RiskPct, StopDistance, EffectiveEquity;
    var eq := EffectiveEquity(t);
    PctPositive(eq, MaxPct(t));
    PctPositive(eq, MaxReal(0.0, RiskPct(t, stopPct)));
    AffordsIff(PctOf(eq, MaxPct(t)), price, k);
    AffordsIff(PctOf(eq, MaxReal(0.0, RiskPct(t, stopPct))), StopDistance(price, stopPct), k);
  }

  /** An entry is signalled exactly when the settings agree and the capital and risk budgets both
      afford the shares that the minimum allocation needs before the reduction. */
  lemma SizableIff(t: EntryTerms, price: real, stopPct: real)
    requires price >= SMALLEST_PRICE
    ensures var eq, k := EffectiveEquity(t), NeededShares(t, price);
            Sizable(t, price, stopPct) <==>
            AllocationValid(t)
            && (k == 1 || (Notional(price, k) <= PctOf(eq, MaxPct(t))
                           && Notional(StopDistance(price, stopPct), k)
                              <= PctOf(eq, MaxReal(0.0, RiskPct(t, stopPct)))))
  {
    hide Notional, PctOf, MaxPct, RiskPct, StopDistance, EffectiveEquity, FeasibleShares, MinShares,
      NeededShares, AllocationValid, Reduced, SizeReduction, Weighted;
    var feasible, k, factor := FeasibleShares(t, price, stopPct), NeededShares(t, price), SizeReduction(t);
    FeasibleMeaning(t, price, stopPct, k);
    ReducedReaches(feasible, factor, MinShares(t, price));
    MoreSharesMore(k, feasible, factor);
    MoreSharesMore(feasible, k - 1, factor);
  }

  lemma NeededCost(price: real, needed: int, factor: real, least: real, budget: real, minShares: int)
    requires price > 0.0 && 0.7 <= factor <= 1.0 && Weighted(needed - 1, factor) < minShares as real
    requires Notional(price, minShares) <= least && least + Scaled(price, factor) <= Scaled(budget, factor)
    ensures Notional(price, needed) <= budget
  {
    var before := Notional(price, needed - 1);
    ReducedCost(price, needed - 1, factor, minShares);
    assert Notional(price, needed) == before + price by { NotionalMinus(price, needed, 1); OneShare(price); }
    hide Notional, Scaled;
    ScaledSum(before, price, factor);
    ScaledOrder(before + price, budget, factor);
  }

  lemma ReducedCost(price: real, shares: int, factor: real, minShares: int)
    requires price > 0.0 && Weighted(shares, factor) < minShares as real
    ensures Scaled(Notional(price, shares), factor) < Notional(price, minShares)
  {
    var reduced := shares as real * factor;
    assert Scaled(Notional(price, shares), factor) == price * reduced by {
      Associate(factor, price, shares as real);
    }
    assert Notional(price, minShares) == price * minShares as real;
    hide Scaled, Notional;
    assert price * reduced < price * minShares as real by {
      ScaleUpStrictly(price, reduced, minShares as real);
    }
  }

  lemma Associate(x: real, y: real, z: real)
    ensures x * (y * z) == y * (z * x)
  {
  }

  lemma ScaledSum(x: real, y: real, factor: real)
    ensures Scaled(x + y, factor) == Scaled(x, factor) + Scaled(y, factor)
  {
  }

  lemma ScaledOrder(x: real, y: real, factor: real)
    requires factor > 0.0 && Scaled(x, factor) <= Scaled(y, factor)
    ensures x <= y
  {
  }

  /** Room for the minimum and one share more, in both reduced budgets, is enough: with
      `ReducedEntryNeedsRoom` the condition is exact to within two shares. */
  lemma RoomSuffices(t: EntryTerms, price: real, stopPct: real)
    requires price >= SMALLEST_PRICE && AllocationValid(t)
    requires var eq, factor := EffectiveEquity(t), SizeReduction(t);
             var least, pct := MaxReal(price, PctOf(eq, MinPct(t))), MaxReal(0.05, stopPct);
             && least + Scaled(price, factor) <= Scaled(PctOf(eq, MaxPct(t)), factor)
             && PctOf(least, pct) + Scaled(StopDistance(price, stopPct), factor)
                <= Scaled(PctOf(eq, MaxReal(0.0, RiskPct(t, stopPct))), factor)
    ensures Sizable(t, price, stopPct)
  {
    var eq, factor, k, m := EffectiveEquity(t), SizeReduction(t), NeededShares(t, price), MinShares(t, price);
    var least, pct := MaxReal(price, PctOf(eq, MinPct(t))), MaxReal(0.05, stopPct);
    assert StopDistance(price, stopPct) == PctOf(price, pct);
    assert Notional(price, m) <= least by { MinSharesCost(t, price); }
    hide Notional, PctOf, MaxPct, MinPct, RiskPct, StopDistance, EffectiveEquity, NeededShares, MinShares,
      AllocationValid, Sizable, SizeReduction, Scaled;
    SizableIff(t, price, stopPct);
    PctGrows(Notional(price, m), least, pct);
    PctOfNotional(price, m, pct);
    NeededCost(price, k, factor, least, PctOf(eq, MaxPct(t)), m);
    NeededCost(StopDistance(price, stopPct), k, factor, PctOf(least, pct),
               PctOf(eq, MaxReal(0.0, RiskPct(t, stopPct))), m);
  }

  lemma MinSharesCost(t: EntryTerms, price: real)
    requires price >= SMALLEST_PRICE
    ensures Notional(price, MinShares(t, price)) <= MaxReal(price, PctOf(EffectiveEquity(t), MinPct(t)))
  {
    var least := PctOf(EffectiveEquity(t), MinPct(t));
    assert Notional(price, 1) == price;
    assert MaxReal(price, SMALLEST_PRICE) == price;
    hide Notional, PctOf, MinPct, EffectiveEquity, Affords;
    PctPositive(EffectiveEquity(t), MinPct(t));
    AffordsMeaning(least, price);
  }

  /** A fixed stop of 2% is blended to between 1.3% and 2.7%. */
  lemma BlendedStopRange(atrPct: real, atrFactor: real)
    ensures 1.3 <= BlendedStop(2.0, atrPct, atrFactor) <= 2.7
  {
  }

  lemma DefaultPcts(t: EntryTerms)
    requires t.mode.Aggressive? && t.minAllocationPct == 20.0 && t.maxCapitalPct == 25.0
    ensures MinPct(t) == 16.0 && MaxPct(t) == 34.0 && AllocationValid(t)
  {
  }

  /** By how much the stop loss of a 16% allocation exceeds the reduced default risk budget. */
  function RiskShortfall(eq: real, factor: real, stopPct: real): real {
    PctOf(PctOf(eq, 16.0), stopPct) - Scaled(PctOf(eq, 0.45), factor)
  }

  /** There is no shortfall exactly up to a stop of 2.8125 times the factor. */
  lemma ShortfallByStop(eq: real, factor: real, stopPct: real)
    requires eq > 0.0
    ensures RiskShortfall(eq, factor, stopPct) <= 0.0 <==> stopPct <= 2.8125 * factor
  {
    var excess := stopPct - 2.8125 * factor;
    assert RiskShortfall(eq, factor, stopPct) == eq * (0.0016 * excess);
    if excess > 0.0 {
      assert eq * (0.0016 * excess) > 0.0;
    } else {
      assert eq * (0.0016 * -excess) >= 0.0;
    }
  }

  /** In an aggressive market with the default settings, a reduced entry at a blended stop needs a
      shortfall under the stop loss of one share, and passes when one reduced share's loss is to spare. */
  lemma ReducedEntryByStop(t: EntryTerms, price: real, stopPct: real)
    requires t.mode.Aggressive? && t.penalised
    requires t.minAllocationPct == 20.0 && t.maxCapitalPct == 25.0 && t.riskPerTradePct == 0.45
    requires price >= SMALLEST_PRICE && 1.3 <= stopPct <= 2.7
    ensures var eq, factor := EffectiveEquity(t), SizeReduction(t);
            && (Sizable(t, price, stopPct) ==> RiskShortfall(eq, factor, stopPct) < StopDistance(price, stopPct))
            && (price <= eq * 0.07
                && RiskShortfall(eq, factor, stopPct) + Scaled(StopDistance(price, stopPct), factor) <= 0.0 ==>
                 Sizable(t, price, stopPct))
  {
    DefaultPcts(t);
    assert SizeReduction(t) < 1.0 && RiskPct(t, stopPct) == 0.45;
    hide EffectiveEquity, Sizable, SizeReduction, MinPct, MaxPct, AllocationValid, PctOf, Scaled, RiskPct, StopDistance;
    var eq, factor := EffectiveEquity(t), SizeReduction(t);
    var shortfall := RiskShortfall(eq, factor, stopPct);
    if Sizable(t, price, stopPct) {
      ReducedEntryNeedsRoom(t, price, stopPct);
    } else if price <= eq * 0.07 && shortfall + Scaled(StopDistance(price, stopPct), factor) <= 0.0 {
      RoomAtDefaults(eq, factor, price);
      RoomSuffices(t, price, stopPct);
    }
  }

  lemma RoomAtDefaults(eq: real, factor: real, price: real)
    requires eq >= 1.0 && 0.7 <= factor <= 1.0 && 0.0 <= price <= eq * 0.07
    ensures MaxReal(price, PctOf(eq, 16.0)) == PctOf(eq, 16.0)
    ensures PctOf(eq, 16.0) + Scaled(price, factor) <= Scaled(PctOf(eq, 34.0), factor)
  {
    assert factor * (eq * 0.34 - price) >= 0.7 * (eq * 0.34 - price);
  }

  /** At a stop of 2% the reduction made for the strongest symbols is the one that is refused. */
  lemma StrongestSymbolsAreRefused()
    ensures forall score: int, penalised: bool ::
              Sizable(DefaultTerms(Aggressive, penalised, score, 1000000.0), 100.0, 2.0) <==>
              !penalised || score < 5
  {
    forall score: int, penalised: bool
      ensures var t := DefaultTerms(Aggressive, penalised, score, 1000000.0);
              Sizable(t, 100.0, 2.0) <==> !penalised || score < 5
    {
      var t := DefaultTerms(Aggressive, penalised, score, 1000000.0);
      DefaultPcts(t);
      assert EffectiveEquity(t) == 1000000.0;
      assert PctOf(1000000.0, 16.0) == 160000.0 && PctOf(1000000.0, 34.0) == 340000.0;
      assert PctOf(1000000.0, 0.45) == 4500.0 && StopDistance(100.0, 2.0) == 2.0;
      assert Affords(160000.0, 100.0) == 1600 && Affords(340000.0, 100.0) == 3400 && Affords(4500.0, 2.0) == 2250;
      assert MinShares(t, 100.0) == 1600 && FeasibleShares(t, 100.0, 2.0) == 2250;
      ReducedReaches(2250, SizeReduction(t), 1600);
    }
  }

  lemma AffordsMonotone(small: real, large: real, price: real)
    requires 0.0 <= small <= large && price > 0.0
    ensures Affords(small, price) <= Affords(large, price)
  {
    AffordsMeaning(small, price);
    AffordsMeaning(large, price);
    SharesForMonotone(small, large, price);
  }

  lemma ReducedMonotone(few: int, many: int, factor: real)
    requires 0 <= few <= many && factor >= 0.0
    ensures Reduced(few, factor) <= Reduced(many, factor)
  {
    MoreSharesMore(0, few, factor);
    MoreSharesMore(few, many, factor);
    assert Weighted(0, factor) == 0.0;
    hide Weighted;
  }

  /** A larger effective equity never signals fewer shares. */
  lemma MoreEquityNeverFewerShares(t: EntryTerms, richer: EntryTerms, price: real, stopPct: real)
    requires richer == t.(equityBase := richer.equityBase, regimeFactor := richer.regimeFactor,
                          healthFactor := richer.healthFactor)
    requires EffectiveEquity(t) <= EffectiveEquity(richer)
    ensures EntryShares(t, price, stopPct) <= EntryShares(richer, price, stopPct)
  {
    hide Affords, PctOf, EffectiveEquity, Reduced, MaxPct, RiskPct, StopDistance;
    var eq, eq' := EffectiveEquity(t), EffectiveEquity(richer);
    var max, risk := MaxPct(t), MaxReal(0.0, RiskPct(t, stopPct));
    assert MaxPct(richer) == max && RiskPct(richer, stopPct) == RiskPct(t, stopPct) by { SamePcts(t, richer, stopPct); }
    PctPositive(eq, max);
    PctPositive(eq, risk);
    PctGrows(eq, eq', max);
    PctGrows(eq, eq', risk);
    AffordsMonotone(PctOf(eq, max), PctOf(eq', max), MaxReal(price, SMALLEST_PRICE));
    if price > 0.0 {
      AffordsMonotone(PctOf(eq, max), PctOf(eq', max), price);
      AffordsMonotone(PctOf(eq, risk), PctOf(eq', risk), StopDistance(price, stopPct));
    }
    ReducedMonotone(FeasibleShares(t, price, stopPct), FeasibleShares(richer, price, stopPct), SizeReduction(t));
  }

  lemma SamePcts(t: EntryTerms, richer: EntryTerms, stopPct: real)
    requires richer == t.(equityBase := richer.equityBase, regimeFactor := richer.regimeFactor,
                          healthFactor := richer.healthFactor)
    ensures MaxPct(richer) == MaxPct(t) && RiskPct(richer, stopPct) == RiskPct(t, stopPct)
  {
  }
}
