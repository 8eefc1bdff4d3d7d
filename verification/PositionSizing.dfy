/** Position sizing by weight and by seven bounded multipliers (app/risk/position_sizing.py). */
module PositionSizing {
  import opened Common
  import opened PaperAccount
  import opened RiskRules

  datatype Plan = Plan(quantity: int, targetValue: real, targetWeight: real)

  /** `int(budget // price)` for a positive price. */
  function SharesFor(budget: real, price: real): int
    requires price > 0.0
  {
    (budget / price).Floor
  }

  function SizeByWeight(equity: real, price: real, minWeight: real, maxWeight: real, preferWeight: real): Plan {
    if equity <= 0.0 || price <= 0.0 || !(0.0 < minWeight <= preferWeight <= maxWeight) then Plan(0, 0.0, 0.0)
    else
      var target := equity * preferWeight;
      var first := SharesFor(target, price);
      if first <= 0 then Plan(0, target, preferWeight)
      else
        var raisedNeeded := Notional(price, first) / equity < minWeight;
        var raised := if raisedNeeded then SharesFor(equity * minWeight, price) else first;
        if raisedNeeded && raised <= 0 then Plan(0, target, preferWeight)
        else
          var qty :=
            if Notional(price, raised) / equity > maxWeight then MaxInt(SharesFor(equity * maxWeight, price), 0)
            else raised;
          Plan(qty, Notional(price, qty), if qty > 0 then Notional(price, qty) / equity else 0.0)
  }

  lemma SharesForMeaning(budget: real, price: real)
    requires price > 0.0
    ensures var n := SharesFor(budget, price);
            Notional(price, n) <= budget < Notional(price, n + 1)
  {
    var q := budget / price;
    var n := q.Floor;
    assert price * q == budget;
    assert Notional(price, n + 1) == price * (n + 1) as real;
    assert q < (n + 1) as real;
    ScaleUp(price, q.Floor as real, q);
    ScaleUpStrictly(price, q, (q.Floor + 1) as real);
  }

  lemma ScaleUpStrictly(price: real, small: real, large: real)
    requires price > 0.0 && small < large
    ensures price * small < price * large
  {
  }

  lemma SharesForMonotone(small: real, large: real, price: real)
    requires price > 0.0 && small <= large
    ensures SharesFor(small, price) <= SharesFor(large, price)
  {
    assert small / price <= large / price;
  }

  lemma ScaleUp(equity: real, small: real, large: real)
    requires equity >= 0.0 && small <= large
    ensures equity * small <= equity * large
  {
  }

  lemma WeightVersusValue(value: real, equity: real, weight: real)
    requires equity > 0.0
    ensures value / equity < weight <==> value < equity * weight
    ensures value / equity > weight <==> value > equity * weight
  {
    assert value / equity * equity == value;
  }

  /** Invalid inputs buy nothing, and neither does a target under one share. */
  lemma InvalidBuysNothing(equity: real, price: real, minWeight: real, maxWeight: real, preferWeight: real)
    ensures equity <= 0.0 || price <= 0.0
            || minWeight <= 0.0 || minWeight > preferWeight || preferWeight > maxWeight ==>
              SizeByWeight(equity, price, minWeight, maxWeight, preferWeight) == Plan(0, 0.0, 0.0)
    ensures equity > 0.0 && 0.0 < minWeight <= preferWeight <= maxWeight && price > 0.0
            && SharesFor(equity * preferWeight, price) <= 0 ==>
              SizeByWeight(equity, price, minWeight, maxWeight, preferWeight)
              == Plan(0, equity * preferWeight, preferWeight)
  {
    hide SharesFor, Notional;
  }

  /** The minimum-weight correction can only recompute the same number of shares. */
  lemma RaisingIsNoOp(equity: real, price: real, minWeight: real, preferWeight: real)
    requires equity > 0.0 && price > 0.0 && 0.0 < minWeight <= preferWeight
    requires Notional(price, SharesFor(equity * preferWeight, price)) / equity < minWeight
    ensures SharesFor(equity * minWeight, price) == SharesFor(equity * preferWeight, price)
  {
    hide Notional, SharesFor;
    var first := SharesFor(equity * preferWeight, price);
    ScaleUp(equity, minWeight, preferWeight);
    SharesForMonotone(equity * minWeight, equity * preferWeight, price);
    WeightVersusValue(Notional(price, first), equity, minWeight);
    SharesForMeaning(equity * minWeight, price);
    var n := SharesFor(equity * minWeight, price);
    if n < first {
      NotionalGrows(price, n + 1, first);
    }
  }

  lemma NotionalGrows(price: real, few: int, many: int)
    requires price > 0.0 && few <= many
    ensures Notional(price, few) <= Notional(price, many)
  {
  }

  /** For valid inputs both corrections are no-ops: the plan buys the floor of the preferred value
      and stays under the maximum weight. */
  lemma SizedByPreferredWeight(equity: real, price: real, minWeight: real, maxWeight: real, preferWeight: real)
    requires equity > 0.0 && price > 0.0 && 0.0 < minWeight <= preferWeight <= maxWeight
    ensures var plan := SizeByWeight(equity, price, minWeight, maxWeight, preferWeight);
            && plan.quantity == MaxInt(SharesFor(equity * preferWeight, price), 0)
            && Notional(price, plan.quantity) <= equity * maxWeight
            && (plan.quantity > 0 ==> plan.targetWeight == Notional(price, plan.quantity) / equity)
  {
    hide Notional, SharesFor;
    var first := SharesFor(equity * preferWeight, price);
    SharesForMeaning(equity * preferWeight, price);
    ScaleUp(equity, preferWeight, maxWeight);
    ScaleUp(equity, 0.0, maxWeight);
    WeightVersusValue(Notional(price, first), equity, maxWeight);
    NoShares(price);
    if first > 0 {
      assert Notional(price, first) / equity <= maxWeight;
      if Notional(price, first) / equity < minWeight {
        RaisingIsNoOp(equity, price, minWeight, preferWeight);
      }
      assert SizeByWeight(equity, price, minWeight, maxWeight, preferWeight)
          == Plan(first, Notional(price, first), Notional(price, first) / equity);
    }
  }

  lemma NoShares(price: real)
    ensures Notional(price, 0) == 0.0
  {
  }

  ghost predicate FitsBand(equity: real, price: real, minWeight: real, preferWeight: real, n: int) {
    n > 0 && equity * minWeight <= Notional(price, n) <= equity * preferWeight
  }

  /** A plan that buys meets the minimum weight exactly when some number of shares has a value
      between the minimum and the preferred one. */
  lemma MeetsMinimumIff(equity: real, price: real, minWeight: real, maxWeight: real, preferWeight: real)
    requires equity > 0.0 && price > 0.0 && 0.0 < minWeight <= preferWeight <= maxWeight
    ensures var plan := SizeByWeight(equity, price, minWeight, maxWeight, preferWeight);
            plan.quantity > 0 && plan.targetWeight >= minWeight <==>
            exists n :: FitsBand(equity, price, minWeight, preferWeight, n)
  {
    hide Notional, SharesFor, SizeByWeight;
    var plan := SizeByWeight(equity, price, minWeight, maxWeight, preferWeight);
    var first := SharesFor(equity * preferWeight, price);
    SizedByPreferredWeight(equity, price, minWeight, maxWeight, preferWeight);
    SharesForMeaning(equity * preferWeight, price);
    WeightVersusValue(Notional(price, plan.quantity), equity, minWeight);
    if n :| FitsBand(equity, price, minWeight, preferWeight, n) {
      if first < n {
        NotionalGrows(price, first + 1, n);
      }
      NotionalGrows(price, n, first);
    }
    if plan.quantity > 0 && plan.targetWeight >= minWeight {
      assert FitsBand(equity, price, minWeight, preferWeight, first);
    }
  }

  /** The minimum weight is not guaranteed: one share of a large price can undershoot it. */
  lemma MinimumWeightCanBeMissed()
    ensures var plan := SizeByWeight(1000.0, 65.0, 0.10, 0.15, 0.12);
            plan.quantity == 1 && plan.targetWeight < 0.10
  {
    assert (120.0 / 65.0).Floor == 1;
    assert (100.0 / 65.0).Floor == 1;
  }

  // ---- dynamic sizing ---------------------------------------------------------------------------

  datatype Profile = Profile(maxWeight: real, preferWeight: real)

  datatype SizingConfig = SizingConfig(
    bullishBoost: real,
    bearishCut: real,
    sidewaysCut: real,
    highVolatilityCut: real,
    highAtrPct: real,
    lowAtrPct: real,
    confidenceFloor: real,
    confidenceCap: real,
    confidenceWeight: real,
    performanceWeight: real,
    pnlStateWeight: real,
    deleverageStep: real,
    maxDeleverage: real,
    bearishMaxAdditionalEntries: int,
    defaultMaxAdditionalEntries: int,
    targetVolatilityMin: real,
    targetVolatilityMax: real,
    overTargetCut: real,
    underTargetBoost: real,
    bullish: Profile,
    sideways: Profile,
    bearish: Profile,
    highVolatility: Profile
  )

  const DEFAULT_SIZING := SizingConfig(
    1.20, 0.60, 0.80, 0.0, 4.0, 1.8, 0.0, 1.0, 0.35, 0.20, 0.25, 0.10, 0.50, 0, 1, 0.8, 2.5, 0.75, 1.05,
    Profile(0.15, 0.13), Profile(0.10, 0.08), Profile(0.06, 0.04), Profile(0.0, 0.0))

  datatype SizingInput = SizingInput(
    regime: MarketRegime,
    equity: real,
    entryPrice: real,
    atrPct: real,
    confidence: real,
    recentPerformancePct: real,
    dailyPnlPct: real,
    totalPnlPct: real,
    totalLossLimitPct: real,
    accountVolatilityPct: real,
    consecutiveLosses: int,
    currentWeight: real,
    recentEntries: int
  )

  datatype SizingOutput = SizingOutput(quantity: int, maxWeight: real, allowAdditional: bool, leverage: real)

  function ProfileFor(cfg: SizingConfig, regime: MarketRegime): Profile {
    match regime
    case BullishTrend => cfg.bullish
    case Sideways => cfg.sideways
    case BearishTrend => cfg.bearish
    case HighVolatilityRisk => cfg.highVolatility
  }

  function RegimeMultiplier(cfg: SizingConfig, regime: MarketRegime): real {
    match regime
    case BullishTrend => cfg.bullishBoost
    case BearishTrend => cfg.bearishCut
    case Sideways => cfg.sidewaysCut
    case HighVolatilityRisk => cfg.highVolatilityCut
  }

  function VolatilityMultiplier(cfg: SizingConfig, atrPct: real): real {
    if atrPct >= cfg.highAtrPct then 0.55 else if atrPct <= cfg.lowAtrPct then 1.10 else 1.0
  }

  function ConfidenceMultiplier(cfg: SizingConfig, confidence: real): real {
    var clipped := MinReal(MaxReal(confidence, cfg.confidenceFloor), cfg.confidenceCap);
    1.0 + (clipped - 0.5) * 2.0 * cfg.confidenceWeight
  }

  function Unit(x: real): real {
    MaxReal(MinReal(x, 1.0), -1.0)
  }

  function PerformanceMultiplier(cfg: SizingConfig, recentPct: real): real {
    1.0 + Unit(recentPct / 10.0) * cfg.performanceWeight
  }

  function PnlStateMultiplier(cfg: SizingConfig, dailyPct: real, totalPct: real): real {
    1.0 + (Unit(dailyPct / 3.0) + Unit(totalPct / 10.0)) / 2.0 * cfg.pnlStateWeight
  }

  function LosingStreakMultiplier(cfg: SizingConfig, losses: int): real {
    if losses <= 0 then 1.0 else MaxReal(1.0 - losses as real * cfg.deleverageStep, cfg.maxDeleverage)
  }

  function AccountVolatilityMultiplier(cfg: SizingConfig, volatilityPct: real): real {
    if volatilityPct >= cfg.targetVolatilityMax then cfg.overTargetCut
    else if volatilityPct <= cfg.targetVolatilityMin then cfg.underTargetBoost
    else 1.0
  }

  /** The seven factors, in the order in which they are multiplied. */
  function Multipliers(cfg: SizingConfig, x: SizingInput): (m: seq<real>)
    ensures |m| == 7
  {
    [ RegimeMultiplier(cfg, x.regime),
      VolatilityMultiplier(cfg, x.atrPct),
      ConfidenceMultiplier(cfg, x.confidence),
      PerformanceMultiplier(cfg, x.recentPerformancePct),
      PnlStateMultiplier(cfg, x.dailyPnlPct, x.totalPnlPct),
      LosingStreakMultiplier(cfg, x.consecutiveLosses),
      AccountVolatilityMultiplier(cfg, x.accountVolatilityPct) ]
  }

  function Product(factors: seq<real>): real {
    if factors == [] then 1.0 else Product(factors[..|factors| - 1]) * factors[|factors| - 1]
  }

  predicate AllowAdditional(cfg: SizingConfig, x: SizingInput) {
    x.recentEntries <=
      if x.regime.BearishTrend? then cfg.bearishMaxAdditionalEntries else cfg.defaultMaxAdditionalEntries
  }

  function TargetWeight(profile: Profile, leverage: real): real {
    MinReal(MaxReal(profile.preferWeight * leverage, 0.0), profile.maxWeight)
  }

  /** The value that a weight stands for. */
  function ValueAt(equity: real, weight: real): real {
    equity * weight
  }

  function OrderBudget(profile: Profile, x: SizingInput, leverage: real): real {
    MinReal(ValueAt(x.equity, TargetWeight(profile, leverage)),
            MaxReal(ValueAt(x.equity, profile.maxWeight - x.currentWeight), 0.0))
  }

  /** `calculate_dynamic_position_sizing`. */
  function DynamicSizing(cfg: SizingConfig, x: SizingInput): SizingOutput {
    if x.equity <= 0.0 || x.entryPrice <= 0.0 then SizingOutput(0, 0.0, false, 0.0)
    else if x.totalPnlPct <= -AbsReal(x.totalLossLimitPct) then SizingOutput(0, 0.0, false, 0.0)
    else if x.regime.HighVolatilityRisk? then SizingOutput(0, 0.0, false, 0.0)
    else
      var profile := ProfileFor(cfg, x.regime);
      var leverage := Product(Multipliers(cfg, x));
      if !AllowAdditional(cfg, x) then SizingOutput(0, profile.maxWeight, false, leverage)
      else
        var qty := SharesFor(OrderBudget(profile, x, leverage), x.entryPrice);
        SizingOutput(MaxInt(qty, 0), profile.maxWeight, true, leverage)
  }

  // ---- the factors ----------------------------------------------------------------------------------

  /** Neutral inputs change nothing, and each factor has its own range: volatility 0.55 to 1.10, confidence
      and performance a whole weight up or down, profit half a weight from the day and half from the total. */
  lemma FactorsAtTheirEnds(cfg: SizingConfig, x: real)
    ensures VolatilityMultiplier(cfg, x)
         == if x >= cfg.highAtrPct then 0.55 else if x <= cfg.lowAtrPct then 1.10 else 1.0
    ensures PerformanceMultiplier(cfg, 0.0) == 1.0
    ensures x >= 10.0 ==> PerformanceMultiplier(cfg, x) == 1.0 + cfg.performanceWeight
    ensures x <= -10.0 ==> PerformanceMultiplier(cfg, x) == 1.0 - cfg.performanceWeight
    ensures -10.0 <= x <= 10.0 ==> PerformanceMultiplier(cfg, x) == 1.0 + x * cfg.performanceWeight / 10.0
    ensures AccountVolatilityMultiplier(cfg, x)
         == if x >= cfg.targetVolatilityMax then cfg.overTargetCut
            else if x <= cfg.targetVolatilityMin then cfg.underTargetBoost else 1.0
  {
  }

  lemma ConfidenceInRange(cfg: SizingConfig, confidence: real)
    requires cfg.confidenceFloor <= cfg.confidenceCap
    ensures var c := if confidence < cfg.confidenceFloor then cfg.confidenceFloor
                     else if confidence > cfg.confidenceCap then cfg.confidenceCap else confidence;
            ConfidenceMultiplier(cfg, confidence) == 1.0 - cfg.confidenceWeight + 2.0 * c * cfg.confidenceWeight
  {
  }

  lemma ProfitInRange(cfg: SizingConfig, daily: real, total: real)
    requires -3.0 <= daily <= 3.0 && -10.0 <= total <= 10.0
    ensures PnlStateMultiplier(cfg, daily, total)
         == 1.0 + daily * cfg.pnlStateWeight / 6.0 + total * cfg.pnlStateWeight / 20.0
  {
  }

  lemma ProfitSaturates(cfg: SizingConfig, daily: real, total: real)
    ensures daily > 3.0 ==> PnlStateMultiplier(cfg, daily, total) == PnlStateMultiplier(cfg, 3.0, total)
    ensures daily < -3.0 ==> PnlStateMultiplier(cfg, daily, total) == PnlStateMultiplier(cfg, -3.0, total)
    ensures total > 10.0 ==> PnlStateMultiplier(cfg, daily, total) == PnlStateMultiplier(cfg, daily, 10.0)
    ensures total < -10.0 ==> PnlStateMultiplier(cfg, daily, total) == PnlStateMultiplier(cfg, daily, -10.0)
  {
  }

  /** No loss keeps the size, every loss of a streak takes its step, down to the floor. */
  lemma StreakCutsByStep(cfg: SizingConfig, losses: int)
    ensures losses <= 0 ==> LosingStreakMultiplier(cfg, losses) == 1.0
    ensures losses > 0 ==>
              var cut := 1.0 - losses as real * cfg.deleverageStep;
              LosingStreakMultiplier(cfg, losses) == if cut < cfg.maxDeleverage then cfg.maxDeleverage else cut
  {
  }

  /** Which reading each factor looks at. */
  lemma FactorOfReading(cfg: SizingConfig, x: SizingInput)
    ensures var m := Multipliers(cfg, x);
            && (x.regime.BullishTrend? ==> m[0] == cfg.bullishBoost)
            && (x.regime.BearishTrend? ==> m[0] == cfg.bearishCut)
            && (x.regime.Sideways? ==> m[0] == cfg.sidewaysCut)
            && m[1] == VolatilityMultiplier(cfg, x.atrPct)
            && m[2] == ConfidenceMultiplier(cfg, x.confidence)
            && m[3] == PerformanceMultiplier(cfg, x.recentPerformancePct)
            && m[4] == PnlStateMultiplier(cfg, x.dailyPnlPct, x.totalPnlPct)
            && m[5] == LosingStreakMultiplier(cfg, x.consecutiveLosses)
            && m[6] == AccountVolatilityMultiplier(cfg, x.accountVolatilityPct)
  {
  }

  lemma {:induction false} ProductAppend(factors: seq<real>, f: real)
    ensures Product([]) == 1.0 && Product(factors + [f]) == Product(factors) * f
  {
    assert (factors + [f])[..|factors|] == factors;
  }

  /** The shares bought: what the smaller of the target value and the room affords, nothing when the account
      is lost, the regime turbulent or the entries of the day used up. */
  lemma SizingExactly(cfg: SizingConfig, x: SizingInput)
    ensures var out := DynamicSizing(cfg, x);
            var barred := x.equity <= 0.0 || x.entryPrice <= 0.0 || x.regime.HighVolatilityRisk?
                          || x.totalPnlPct <= -AbsReal(x.totalLossLimitPct);
            var most := if x.regime.BearishTrend? then cfg.bearishMaxAdditionalEntries
                        else cfg.defaultMaxAdditionalEntries;
            var profile := match x.regime
                           case BullishTrend => cfg.bullish
                           case Sideways => cfg.sideways
                           case BearishTrend => cfg.bearish
                           case HighVolatilityRisk => cfg.highVolatility;
            && (barred ==> out == SizingOutput(0, 0.0, false, 0.0))
            && (!barred ==>
                 && out.maxWeight == profile.maxWeight
                 && out.leverage == Product(Multipliers(cfg, x))
                 && (out.allowAdditional <==> x.recentEntries <= most)
                 && (!out.allowAdditional ==> out.quantity == 0)
                 && (out.allowAdditional ==>
                      forall k: int :: k > 0 ==>
                        (out.quantity >= k <==>
                          && Notional(x.entryPrice, k) <= ValueAt(x.equity, TargetWeight(profile, out.leverage))
                          && Notional(x.entryPrice, k) <= ValueAt(x.equity, profile.maxWeight - x.currentWeight))))
  {
    hide Product, Multipliers, SharesFor, Notional, ValueAt, TargetWeight;
    if x.equity > 0.0 && x.entryPrice > 0.0 {
      var budget := OrderBudget(ProfileFor(cfg, x.regime), x, Product(Multipliers(cfg, x)));
      forall k: int | k > 0
        ensures SharesFor(budget, x.entryPrice) >= k <==> Notional(x.entryPrice, k) <= budget
        ensures Notional(x.entryPrice, k) > 0.0
      {
        SharesForIff(budget, x.entryPrice, k);
        PositiveNotional(x.entryPrice, k);
      }
    }
  }

  /** The target is the preferred weight scaled by the factors, never under zero nor over the maximum. */
  lemma TargetExactly(profile: Profile, leverage: real)
    requires profile.maxWeight >= 0.0
    ensures var wished, target := profile.preferWeight * leverage, TargetWeight(profile, leverage);
            && (wished <= 0.0 ==> target == 0.0)
            && (wished >= profile.maxWeight ==> target == profile.maxWeight)
            && (0.0 <= wished <= profile.maxWeight ==> target == wished)
  {
    var wished := profile.preferWeight * leverage;
    assert TargetWeight(profile, leverage) == MinReal(MaxReal(wished, 0.0), profile.maxWeight);
    hide TargetWeight;
  }

  lemma SharesForIff(budget: real, price: real, k: int)
    requires price > 0.0
    ensures SharesFor(budget, price) >= k <==> Notional(price, k) <= budget
  {
    hide Notional, SharesFor;
    SharesForMeaning(budget, price);
    var n := SharesFor(budget, price);
    if n >= k {
      NotionalGrows(price, k, n);
    } else {
      NotionalGrows(price, n + 1, k);
    }
  }

  /** Buying the recommended quantity never takes the symbol past the larger of its present weight
      and the allowed weight. */
  lemma WeightStaysAllowed(cfg: SizingConfig, x: SizingInput)
    requires x.equity > 0.0
    ensures var out := DynamicSizing(cfg, x);
            out.quantity >= 0
            && x.currentWeight + Notional(x.entryPrice, out.quantity) / x.equity
               <= MaxReal(x.currentWeight, out.maxWeight)
  {
    hide SharesFor, Notional, Product, Multipliers, TargetWeight;
    var out := DynamicSizing(cfg, x);
    NoShares(x.entryPrice);
    if out.quantity > 0 {
      var profile := ProfileFor(cfg, x.regime);
      var room := x.equity * (profile.maxWeight - x.currentWeight);
      SharesForMeaning(OrderBudget(profile, x, out.leverage), x.entryPrice);
      PositiveNotional(x.entryPrice, out.quantity);
      WeightVersusValue(Notional(x.entryPrice, out.quantity), x.equity, profile.maxWeight - x.currentWeight);
      assert Notional(x.entryPrice, out.quantity) <= room;
    }
  }

  lemma PositiveNotional(price: real, n: int)
    requires price > 0.0 && n > 0
    ensures Notional(price, n) > 0.0
  {
  }

  // ---- monotonicity -------------------------------------------------------------------------------

  ghost predicate NonNegative(factors: seq<real>) {
    forall i :: 0 <= i < |factors| ==> factors[i] >= 0.0
  }

  ghost predicate Dominates(large: seq<real>, small: seq<real>) {
    |large| == |small| && forall i :: 0 <= i < |small| ==> large[i] >= small[i]
  }

  lemma ProductStep(small: real, large: real, f: real, g: real)
    requires 0.0 <= small <= large && 0.0 <= f <= g
    ensures 0.0 <= small * f <= large * g
  {
    assert small * f <= large * f <= large * g;
  }

  lemma {:induction false} ProductMonotone(small: seq<real>, large: seq<real>)
    requires NonNegative(small) && Dominates(large, small)
    ensures 0.0 <= Product(small) <= Product(large)
  {
    if small != [] {
      var n := |small| - 1;
      ProductMonotone(small[..n], large[..n]);
      ProductStep(Product(small[..n]), Product(large[..n]), small[n], large[n]);
    }
  }

  /** Everything equal but the factors, the room and the entry count, and those no worse. */
  ghost predicate SameTrade(cfg: SizingConfig, better: SizingInput, worse: SizingInput) {
    && better.regime == worse.regime
    && better.equity == worse.equity
    && better.entryPrice == worse.entryPrice
    && better.totalLossLimitPct == worse.totalLossLimitPct
    && better.totalPnlPct >= worse.totalPnlPct
    && better.currentWeight <= worse.currentWeight
    && better.recentEntries <= worse.recentEntries
  }

  /** The recommended quantity is monotone in the seven factors together. */
  lemma QuantityMonotone(cfg: SizingConfig, better: SizingInput, worse: SizingInput)
    requires SameTrade(cfg, better, worse)
    requires NonNegative(Multipliers(cfg, worse)) && Dominates(Multipliers(cfg, better), Multipliers(cfg, worse))
    requires ProfileFor(cfg, worse.regime).preferWeight >= 0.0
    ensures DynamicSizing(cfg, better).quantity >= DynamicSizing(cfg, worse).quantity
  {
    hide SharesFor, Product, Multipliers;
    ProductMonotone(Multipliers(cfg, worse), Multipliers(cfg, better));
    if worse.equity > 0.0 && worse.entryPrice > 0.0 {
      var profile := ProfileFor(cfg, worse.regime);
      var low, high := Product(Multipliers(cfg, worse)), Product(Multipliers(cfg, better));
      BudgetMonotone(profile, better, worse, high, low);
      SharesForMonotone(OrderBudget(profile, worse, low), OrderBudget(profile, better, high), worse.entryPrice);
    }
  }

  lemma BudgetMonotone(profile: Profile, better: SizingInput, worse: SizingInput, high: real, low: real)
    requires better.equity == worse.equity >= 0.0 && better.currentWeight <= worse.currentWeight
    requires profile.preferWeight >= 0.0 && low <= high
    ensures OrderBudget(profile, worse, low) <= OrderBudget(profile, better, high)
  {
    TargetMonotone(profile, low, high);
    ValueMonotone(worse.equity, TargetWeight(profile, low), TargetWeight(profile, high));
    ValueMonotone(worse.equity, profile.maxWeight - worse.currentWeight, profile.maxWeight - better.currentWeight);
    hide TargetWeight, ValueAt;
    assert OrderBudget(profile, worse, low) <= OrderBudget(profile, better, high);
  }

  lemma ValueMonotone(equity: real, small: real, large: real)
    requires equity >= 0.0 && small <= large
    ensures ValueAt(equity, small) <= ValueAt(equity, large)
  {
    ScaleUp(equity, small, large);
  }

  lemma TargetMonotone(profile: Profile, low: real, high: real)
    requires profile.preferWeight >= 0.0 && low <= high
    ensures TargetWeight(profile, low) <= TargetWeight(profile, high)
  {
    ScaleUp(profile.preferWeight, low, high);
  }

  lemma LosingStreakMonotone(cfg: SizingConfig, fewer: int, more: int)
    requires fewer <= more && cfg.deleverageStep >= 0.0 && cfg.maxDeleverage <= 1.0
    ensures LosingStreakMultiplier(cfg, more) <= LosingStreakMultiplier(cfg, fewer)
  {
    if more > 0 {
      ScaleUp(cfg.deleverageStep, MaxInt(fewer, 0) as real, more as real);
    }
  }

  lemma ConfidenceMonotone(cfg: SizingConfig, low: real, high: real)
    requires low <= high && cfg.confidenceWeight >= 0.0
    ensures ConfidenceMultiplier(cfg, low) <= ConfidenceMultiplier(cfg, high)
  {
    var l := MinReal(MaxReal(low, cfg.confidenceFloor), cfg.confidenceCap);
    var h := MinReal(MaxReal(high, cfg.confidenceFloor), cfg.confidenceCap);
    ScaleUp(cfg.confidenceWeight, (l - 0.5) * 2.0, (h - 0.5) * 2.0);
  }

  /** With all else equal, more consecutive losses never raise the recommended quantity. */
  lemma MoreLossesNeverBuyMore(cfg: SizingConfig, x: SizingInput, losses: int)
    requires losses >= x.consecutiveLosses
    requires cfg.deleverageStep >= 0.0 && cfg.maxDeleverage <= 1.0
    requires ProfileFor(cfg, x.regime).preferWeight >= 0.0
    requires NonNegative(Multipliers(cfg, x.(consecutiveLosses := losses)))
    ensures DynamicSizing(cfg, x.(consecutiveLosses := losses)).quantity <= DynamicSizing(cfg, x).quantity
  {
    hide DynamicSizing, ConfidenceMultiplier, PerformanceMultiplier, PnlStateMultiplier, LosingStreakMultiplier;
    LosingStreakMonotone(cfg, x.consecutiveLosses, losses);
    QuantityMonotone(cfg, x, x.(consecutiveLosses := losses));
  }

  /** With all else equal, more strategy confidence never lowers the recommended quantity. */
  lemma MoreConfidenceNeverBuysLess(cfg: SizingConfig, x: SizingInput, confidence: real)
    requires confidence >= x.confidence && cfg.confidenceWeight >= 0.0
    requires ProfileFor(cfg, x.regime).preferWeight >= 0.0
    requires NonNegative(Multipliers(cfg, x))
    ensures DynamicSizing(cfg, x.(confidence := confidence)).quantity >= DynamicSizing(cfg, x).quantity
  {
    hide DynamicSizing, ConfidenceMultiplier, PerformanceMultiplier, PnlStateMultiplier, LosingStreakMultiplier;
    ConfidenceMonotone(cfg, x.confidence, confidence);
    QuantityMonotone(cfg, x.(confidence := confidence), x);
  }

  /** An account at least as healthy in every respect that sizing looks at. */
  ghost predicate Healthier(better: SizingInput, worse: SizingInput) {
    && better.atrPct <= worse.atrPct
    && better.confidence >= worse.confidence
    && better.recentPerformancePct >= worse.recentPerformancePct
    && better.dailyPnlPct >= worse.dailyPnlPct
    && better.accountVolatilityPct <= worse.accountVolatilityPct
    && better.consecutiveLosses <= worse.consecutiveLosses
  }

  /** Weights non-negative, the streak cut a cut, the volatility target a cut above and a boost below. */
  predicate OrderlyConfig(cfg: SizingConfig) {
    && cfg.confidenceWeight >= 0.0 && cfg.performanceWeight >= 0.0 && cfg.pnlStateWeight >= 0.0
    && cfg.deleverageStep >= 0.0 && cfg.maxDeleverage <= 1.0
    && cfg.overTargetCut <= 1.0 <= cfg.underTargetBoost
  }

  lemma PerformanceMonotone(cfg: SizingConfig, low: real, high: real)
    requires cfg.performanceWeight >= 0.0 && low <= high
    ensures PerformanceMultiplier(cfg, low) <= PerformanceMultiplier(cfg, high)
  {
    ScaleUp(cfg.performanceWeight, Unit(low / 10.0), Unit(high / 10.0));
  }

  lemma PnlStateMonotone(cfg: SizingConfig, dailyLow: real, dailyHigh: real, totalLow: real, totalHigh: real)
    requires cfg.pnlStateWeight >= 0.0 && dailyLow <= dailyHigh && totalLow <= totalHigh
    ensures PnlStateMultiplier(cfg, dailyLow, totalLow) <= PnlStateMultiplier(cfg, dailyHigh, totalHigh)
  {
    ScaleUp(cfg.pnlStateWeight,
            (Unit(dailyLow / 3.0) + Unit(totalLow / 10.0)) / 2.0,
            (Unit(dailyHigh / 3.0) + Unit(totalHigh / 10.0)) / 2.0);
  }

  /** All seven factors together: a healthier account is never sized smaller. */
  lemma HealthierNeverSizedSmaller(cfg: SizingConfig, better: SizingInput, worse: SizingInput)
    requires OrderlyConfig(cfg) && SameTrade(cfg, better, worse) && Healthier(better, worse)
    requires NonNegative(Multipliers(cfg, worse)) && ProfileFor(cfg, worse.regime).preferWeight >= 0.0
    ensures DynamicSizing(cfg, better).quantity >= DynamicSizing(cfg, worse).quantity
  {
    hide DynamicSizing, ConfidenceMultiplier, LosingStreakMultiplier, PerformanceMultiplier, PnlStateMultiplier;
    LosingStreakMonotone(cfg, better.consecutiveLosses, worse.consecutiveLosses);
    ConfidenceMonotone(cfg, worse.confidence, better.confidence);
    PerformanceMonotone(cfg, worse.recentPerformancePct, better.recentPerformancePct);
    PnlStateMonotone(cfg, worse.dailyPnlPct, better.dailyPnlPct, worse.totalPnlPct, better.totalPnlPct);
    QuantityMonotone(cfg, better, worse);
  }

  lemma DefaultSizingIsOrderly()
    ensures OrderlyConfig(DEFAULT_SIZING)
    ensures forall x: SizingInput :: NonNegative(Multipliers(DEFAULT_SIZING, x))
  {
  }
}
