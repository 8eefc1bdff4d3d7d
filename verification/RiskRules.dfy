/** Pre-trade risk rules (app/risk/rules.py): frozen limits and snapshots, early-return decisions. */
module RiskRules {
  import opened Common
  import opened Orders
  import opened PaperAccount

  datatype MarketRegime = BullishTrend | BearishTrend | Sideways | HighVolatilityRisk

  datatype RiskSnapshot = RiskSnapshot(
    dailyPnlPct: real,
    totalPnlPct: real,
    equity: real,
    marketFilterOk: bool,
    positionValues: map<Symbol, real>,
    regime: MarketRegime,
    recentTradePnls: seq<real>,
    consecutiveLosses: int,
    latestEntryScore: Option<real>,
    todaysNewEntries: int,
    tradingCooldownUntil: Option<Instant>,
    cooldownUntil: map<Symbol, Instant>
  )

  datatype RiskLimits = RiskLimits(
    minPositionWeight: real,
    maxPositionWeight: real,
    maxPositions: int,
    dailyLossLimitPct: real,
    totalLossLimitPct: real,
    reentryCooldown: Instant,
    bearishMaxPositions: int,
    bearishMaxPositionWeight: real,
    bearishMinPositionWeight: real,
    bearishMaxStopLossPct: real,
    bearishMaxNewEntriesPerDay: int,
    highVolNewEntryBlocked: bool,
    rollingLossWindowTrades: int,
    rollingLossLimitPct: real,
    lossStreakThreshold: int,
    adaptiveNewEntriesLimit: int,
    adaptiveWeightMultiplier: real,
    adaptiveStopLossMultiplier: real,
    adaptivePerformanceFloorPct: real,
    adaptiveMinEntryScore: real,
    adaptiveEntryFilter: bool,
    maxSingleOrderNotionalPct: real,
    allowedSymbols: seq<Symbol>
  )

  const DEFAULT_LIMITS := RiskLimits(
    0.10, 0.15, 5, 3.0, 10.0, 60 * MINUTE,
    2, 0.08, 0.03, 2.5, 1, true,
    10, 4.0, 3, 1, 0.7, 0.8, -1.0, 0.65, true,
    25.0, [])

  datatype RiskDecision = RiskDecision(approved: bool, code: RiskReasonCode, isHardStop: bool)

  /** The two clock readings one approval takes: one for re-entry, one for the global guard. */
  datatype Clock = Clock(now: Instant, guardNow: Instant)

  datatype AdaptiveGuard = AdaptiveGuard(
    maxNewEntries: int,
    weightMultiplier: real,
    stopLossMultiplier: real,
    cooldownRequired: bool,
    requireStrongerEntry: bool
  )

  function Deny(code: RiskReasonCode): RiskDecision {
    RiskDecision(false, code, false)
  }

  function HardStop(code: RiskReasonCode): RiskDecision {
    RiskDecision(false, code, true)
  }

  function Approve(code: RiskReasonCode): RiskDecision {
    RiskDecision(true, code, false)
  }

  predicate IsGlobalGuardCode(code: RiskReasonCode) {
    code in {TradingCooldownActive, SystemOffTotalLoss, HaltDailyLoss, HaltRollingLossLimit}
  }

  function TotalOf(pnls: seq<real>): real {
    if pnls == [] then 0.0 else pnls[0] + TotalOf(pnls[1..])
  }

  function RollingPnlPct(pnls: seq<real>, window: int, equity: real): real {
    if window <= 0 || equity <= 0.0 || pnls == [] then 0.0
    else
      var samples := if window >= |pnls| then pnls else pnls[|pnls| - window..];
      TotalOf(samples) / equity * 100.0
  }

  function Rolling(l: RiskLimits, s: RiskSnapshot): real {
    RollingPnlPct(s.recentTradePnls, l.rollingLossWindowTrades, s.equity)
  }

  function GlobalGuard(l: RiskLimits, s: RiskSnapshot, guardNow: Instant): (d: RiskDecision)
    ensures !d.approved ==> IsGlobalGuardCode(d.code)
  {
    if s.tradingCooldownUntil.Some? && guardNow < s.tradingCooldownUntil.value then Deny(TradingCooldownActive)
    else if s.totalPnlPct <= -AbsReal(l.totalLossLimitPct) then HardStop(SystemOffTotalLoss)
    else if s.dailyPnlPct <= -AbsReal(l.dailyLossLimitPct) then HardStop(HaltDailyLoss)
    else if Rolling(l, s) <= -AbsReal(l.rollingLossLimitPct) then Deny(HaltRollingLossLimit)
    else Approve(Ok)
  }

  predicate LossStreak(l: RiskLimits, s: RiskSnapshot) {
    s.consecutiveLosses >= l.lossStreakThreshold
  }

  predicate Deteriorating(l: RiskLimits, s: RiskSnapshot) {
    Rolling(l, s) < l.adaptivePerformanceFloorPct
  }

  function BuildAdaptiveGuard(l: RiskLimits, s: RiskSnapshot): AdaptiveGuard {
    if LossStreak(l, s) || Deteriorating(l, s) then
      AdaptiveGuard(
        l.adaptiveNewEntriesLimit, l.adaptiveWeightMultiplier, l.adaptiveStopLossMultiplier,
        LossStreak(l, s) && Deteriorating(l, s), l.adaptiveEntryFilter)
    else
      AdaptiveGuard(l.maxPositions, 1.0, 1.0, false, false)
  }

  function CurrentPositions(s: RiskSnapshot): map<Symbol, real> {
    map k | k in s.positionValues && s.positionValues[k] > 0.0 :: s.positionValues[k]
  }

  function CurrentValue(s: RiskSnapshot, symbol: Symbol): real {
    if symbol in s.positionValues && s.positionValues[symbol] > 0.0 then s.positionValues[symbol] else 0.0
  }

  function PositionCountAfter(s: RiskSnapshot, symbol: Symbol): int {
    |CurrentPositions(s)| + if symbol in CurrentPositions(s) then 0 else 1
  }

  function PositionCap(l: RiskLimits, s: RiskSnapshot): int {
    if s.regime.BearishTrend? then MinInt(l.maxPositions, l.bearishMaxPositions) else l.maxPositions
  }

  function RegimeCap(l: RiskLimits, s: RiskSnapshot): real {
    if s.regime.BearishTrend? then MinReal(l.maxPositionWeight, l.bearishMaxPositionWeight)
    else l.maxPositionWeight
  }

  /** The weight limit that applies after the regime and the adaptive multiplier. */
  function WeightCap(l: RiskLimits, s: RiskSnapshot, multiplier: real): real {
    RegimeCap(l, s) * multiplier
  }

  function MinWeight(l: RiskLimits, s: RiskSnapshot): real {
    if s.regime.BearishTrend? then l.bearishMinPositionWeight else l.minPositionWeight
  }

  function WeightFloor(l: RiskLimits, s: RiskSnapshot, multiplier: real): real {
    MinReal(MinWeight(l, s), WeightCap(l, s, multiplier) * 0.99)
  }

  function WeightAfter(s: RiskSnapshot, symbol: Symbol, price: real, quantity: int): real {
    if s.equity == 0.0 then 0.0 else (CurrentValue(s, symbol) + Notional(price, quantity)) / s.equity
  }

  function ValidateBuyWeight(
    l: RiskLimits, s: RiskSnapshot, symbol: Symbol, price: real, quantity: int, multiplier: real): RiskDecision
  {
    var bearish := s.regime.BearishTrend?;
    if s.equity <= 0.0 then Deny(InvalidEquity)
    else if PositionCountAfter(s, symbol) > PositionCap(l, s) then
      Deny(if bearish then BlockRegimeBearishMaxPositions else MaxPositionsExceeded)
    else
      var weight := WeightAfter(s, symbol, price, quantity);
      if weight > WeightCap(l, s, multiplier) then
        Deny(if bearish then BlockRegimeBearishPositionWeight else PositionWeightTooHigh)
      else if weight < WeightFloor(l, s, multiplier) then Deny(PositionWeightTooLow)
      else Approve(OkWeight)
  }

  function BearishStopLimit(l: RiskLimits, multiplier: real): real {
    l.bearishMaxStopLossPct * multiplier
  }

  /** The checks before sizing: guard, quantity, universe, defence, regime, stop, cooldown, price. */
  function EntryGates(l: RiskLimits, o: OrderRequest, s: RiskSnapshot, clock: Clock): RiskDecision {
    var guard := GlobalGuard(l, s, clock.guardNow);
    var adaptive := BuildAdaptiveGuard(l, s);
    var bearish := s.regime.BearishTrend?;
    if !guard.approved then guard
    else if o.quantity <= 0 then Deny(OrderQuantityInvalid)
    else if l.allowedSymbols != [] && o.symbol !in l.allowedSymbols then Deny(SymbolNotAllowed)
    else if adaptive.cooldownRequired then Deny(TradingCooldownRequiredAdaptive)
    else if s.todaysNewEntries >= adaptive.maxNewEntries then Deny(AdaptiveNewEntryLimit)
    else if adaptive.requireStrongerEntry && s.latestEntryScore.Some?
            && s.latestEntryScore.value < l.adaptiveMinEntryScore then Deny(AdaptiveEntryFilterBlock)
    else if s.regime.HighVolatilityRisk? && l.highVolNewEntryBlocked then Deny(BlockRegimeHighVolatilityNewEntry)
    else if bearish && s.todaysNewEntries >= l.bearishMaxNewEntriesPerDay then
      Deny(BlockRegimeBearishNewEntryLimit)
    else if !s.marketFilterOk then Deny(BlockBadMarketFilter)
    else if o.stopLossPct.None? || o.stopLossPct.value <= 0.0 then Deny(MissingStopLoss)
    else if bearish && o.stopLossPct.value > BearishStopLimit(l, adaptive.stopLossMultiplier) then
      Deny(BlockRegimeBearishStopLossTooWide)
    else if o.symbol in s.cooldownUntil && clock.now < s.cooldownUntil[o.symbol] then Deny(ReentryCooldown)
    else if o.price.None? || o.price.value <= 0.0 then Deny(InvalidOrderPrice)
    else Approve(Ok)
  }

  function NotionalCheck(l: RiskLimits, o: OrderRequest, equity: real): RiskDecision
    requires o.price.Some?
  {
    var maxNotional := equity * (l.maxSingleOrderNotionalPct / 100.0);
    if maxNotional > 0.0 && Notional(o.price.value, o.quantity) > maxNotional then Deny(OrderNotionalExceedsCap)
    else Approve(Ok)
  }

  function ApproveBuy(l: RiskLimits, o: OrderRequest, s: RiskSnapshot, clock: Clock): RiskDecision {
    var gates := EntryGates(l, o, s, clock);
    if !gates.approved then gates
    else if !NotionalCheck(l, o, s.equity).approved then NotionalCheck(l, o, s.equity)
    else
      var multiplier := BuildAdaptiveGuard(l, s).weightMultiplier;
      var weight := ValidateBuyWeight(l, s, o.symbol, o.price.value, o.quantity, multiplier);
      if !weight.approved then weight
      else Approve(if s.regime.BearishTrend? then OkRegimeBearishBuyConservative else OkBuy)
  }

  /** `approve_order`: sells always pass, buys run the whole chain. */
  function ApproveOrder(l: RiskLimits, o: OrderRequest, s: RiskSnapshot, clock: Clock): RiskDecision {
    if o.side.Sell? then Approve(OkSell) else ApproveBuy(l, o, s, clock)
  }

  /** The guard settles a buy exactly when it refuses: then its decision is the answer, and
      otherwise no refusal carries one of its codes. */
  lemma GuardSettlesBuys(l: RiskLimits, o: OrderRequest, s: RiskSnapshot, clock: Clock)
    requires o.side.Buy?
    ensures var guard, d := GlobalGuard(l, s, clock.guardNow), ApproveOrder(l, o, s, clock);
            && (!guard.approved ==> d == guard)
            && (guard.approved && !d.approved ==> !IsGlobalGuardCode(d.code))
  {
    hide Notional, RollingPnlPct, WeightAfter, CurrentPositions;
  }

  function MarkSymbolExit(l: RiskLimits, s: RiskSnapshot, symbol: Symbol, now: Instant): RiskSnapshot {
    s.(cooldownUntil := s.cooldownUntil[symbol := now + l.reentryCooldown])
  }

  // ---- the chain as one condition -------------------------------------------------------

  /** Profit of the last trades of the window, in percent of the equity. */
  ghost function RecentPct(l: RiskLimits, s: RiskSnapshot): real {
    var n := MaxInt(0, MinInt(l.rollingLossWindowTrades, |s.recentTradePnls|));
    if s.equity <= 0.0 then 0.0 else LastSum(s.recentTradePnls, n) * 100.0 / s.equity
  }

  /** The sum of the last `n` numbers. */
  ghost function LastSum(pnls: seq<real>, n: nat): real
    requires n <= |pnls|
  {
    if n == 0 then 0.0 else LastSum(pnls, n - 1) + pnls[|pnls| - n]
  }

  lemma {:induction false} TotalIsLastSum(pnls: seq<real>, n: nat)
    requires n <= |pnls|
    ensures TotalOf(pnls[|pnls| - n..]) == LastSum(pnls, n)
  {
    if n > 0 {
      TotalIsLastSum(pnls, n - 1);
      assert pnls[|pnls| - n..][1..] == pnls[|pnls| - (n - 1)..];
    }
  }

  lemma RollingMeaning(l: RiskLimits, s: RiskSnapshot)
    ensures Rolling(l, s) == RecentPct(l, s)
  {
    var pnls, window := s.recentTradePnls, l.rollingLossWindowTrades;
    if window > 0 && s.equity > 0.0 && pnls != [] {
      TotalIsLastSum(pnls, MinInt(window, |pnls|));
      assert pnls[0..] == pnls;
    }
  }

  /** No loss limit is reached and no trading cooldown is running. */
  ghost predicate AccountMayTrade(l: RiskLimits, s: RiskSnapshot, guardNow: Instant) {
    && (s.tradingCooldownUntil.Some? ==> s.tradingCooldownUntil.value <= guardNow)
    && s.totalPnlPct > -AbsReal(l.totalLossLimitPct)
    && s.dailyPnlPct > -AbsReal(l.dailyLossLimitPct)
    && RecentPct(l, s) > -AbsReal(l.rollingLossLimitPct)
  }

  ghost predicate OnStreak(l: RiskLimits, s: RiskSnapshot) {
    s.consecutiveLosses >= l.lossStreakThreshold
  }

  ghost predicate Falling(l: RiskLimits, s: RiskSnapshot) {
    RecentPct(l, s) < l.adaptivePerformanceFloorPct
  }

  /** Recent losses leave room: not both signs of trouble at once, and under either one the reduced
      number of entries and, when a score is known and the filter is on, the minimum score. */
  ghost predicate DefenceAllows(l: RiskLimits, s: RiskSnapshot) {
    && !(OnStreak(l, s) && Falling(l, s))
    && (!OnStreak(l, s) && !Falling(l, s) ==> s.todaysNewEntries < l.maxPositions)
    && (OnStreak(l, s) || Falling(l, s) ==>
         && s.todaysNewEntries < l.adaptiveNewEntriesLimit
         && (l.adaptiveEntryFilter && s.latestEntryScore.Some? ==> s.latestEntryScore.value >= l.adaptiveMinEntryScore))
  }

  ghost function DefenceFactor(l: RiskLimits, s: RiskSnapshot, factor: real): real {
    if OnStreak(l, s) || Falling(l, s) then factor else 1.0
  }

  /** In a bearish market few entries with tight stops; in a turbulent one none, if so configured. */
  ghost predicate RegimeAllows(l: RiskLimits, o: OrderRequest, s: RiskSnapshot)
    requires o.stopLossPct.Some?
  {
    && (s.regime.HighVolatilityRisk? ==> !l.highVolNewEntryBlocked)
    && (s.regime.BearishTrend? ==>
         && s.todaysNewEntries < l.bearishMaxNewEntriesPerDay
         && o.stopLossPct.value <= l.bearishMaxStopLossPct * DefenceFactor(l, s, l.adaptiveStopLossMultiplier))
  }

  /** The symbols of positive value. */
  ghost function Live(s: RiskSnapshot): set<Symbol> {
    set k | k in s.positionValues && s.positionValues[k] > 0.0
  }

  ghost function ValueAfter(s: RiskSnapshot, symbol: Symbol, price: real, quantity: int): real {
    (if symbol in Live(s) then s.positionValues[symbol] else 0.0) + price * quantity as real
  }

  /** The largest value of one symbol, in the account's money. */
  ghost function ValueLimit(l: RiskLimits, s: RiskSnapshot): real {
    var bearish := s.regime.BearishTrend? && l.bearishMaxPositionWeight < l.maxPositionWeight;
    (if bearish then l.bearishMaxPositionWeight else l.maxPositionWeight)
    * DefenceFactor(l, s, l.adaptiveWeightMultiplier) * s.equity
  }

  /** The least value of one symbol worth buying. */
  ghost function LeastValue(l: RiskLimits, s: RiskSnapshot): real {
    (if s.regime.BearishTrend? then l.bearishMinPositionWeight else l.minPositionWeight) * s.equity
  }

  /** Holdings count, single-order value and the band of the symbol's value after the purchase. */
  ghost predicate SizeAllows(l: RiskLimits, o: OrderRequest, s: RiskSnapshot)
    requires o.price.Some?
  {
    var value := ValueAfter(s, o.symbol, o.price.value, o.quantity);
    && s.equity > 0.0
    && (l.maxSingleOrderNotionalPct > 0.0 ==>
         Notional(o.price.value, o.quantity) <= s.equity * (l.maxSingleOrderNotionalPct / 100.0))
    && |Live(s) + {o.symbol}| <= l.maxPositions
    && (s.regime.BearishTrend? ==> |Live(s) + {o.symbol}| <= l.bearishMaxPositions)
    && value <= ValueLimit(l, s)
    && (value >= LeastValue(l, s) || value >= 0.99 * ValueLimit(l, s))
  }

  lemma CountMeaning(l: RiskLimits, s: RiskSnapshot, symbol: Symbol)
    ensures PositionCountAfter(s, symbol) == |Live(s) + {symbol}|
  {
    assert CurrentPositions(s).Keys == Live(s);
    if symbol in Live(s) {
      assert Live(s) + {symbol} == Live(s);
    }
  }

  lemma ShareOfEquity(value: real, equity: real, weight: real)
    requires equity > 0.0
    ensures value / equity <= weight <==> value <= weight * equity
    ensures value / equity >= weight <==> value >= weight * equity
  {
    var share := value / equity;
    assert share * equity == value;
    if share < weight {
      assert (weight - share) * equity > 0.0;
    } else {
      assert (share - weight) * equity >= 0.0;
    }
    if share > weight {
      assert (share - weight) * equity > 0.0;
    }
  }

  /** The weight band in money. */
  lemma BandMeaning(l: RiskLimits, s: RiskSnapshot, symbol: Symbol, price: real, quantity: int)
    requires s.equity > 0.0
    ensures var factor := DefenceFactor(l, s, l.adaptiveWeightMultiplier);
            var weight, value := WeightAfter(s, symbol, price, quantity), ValueAfter(s, symbol, price, quantity);
            && (weight <= WeightCap(l, s, factor) <==> value <= ValueLimit(l, s))
            && (weight >= WeightFloor(l, s, factor) <==> value >= LeastValue(l, s) || value >= 0.99 * ValueLimit(l, s))
  {
    var factor := DefenceFactor(l, s, l.adaptiveWeightMultiplier);
    var cap, value := WeightCap(l, s, factor), ValueAfter(s, symbol, price, quantity);
    assert WeightAfter(s, symbol, price, quantity) == value / s.equity;
    assert cap * s.equity == ValueLimit(l, s);
    hide ValueAfter, WeightCap, ValueLimit, DefenceFactor;
    ShareOfEquity(value, s.equity, cap);
    ShareOfEquity(value, s.equity, cap * 0.99);
    ShareOfEquity(value, s.equity, MinWeight(l, s));
    assert cap * 0.99 * s.equity == 0.99 * (cap * s.equity);
  }

  lemma NotionalCheckMeaning(l: RiskLimits, o: OrderRequest, equity: real)
    requires o.price.Some? && equity > 0.0
    ensures NotionalCheck(l, o, equity).approved <==>
            (l.maxSingleOrderNotionalPct > 0.0 ==>
              Notional(o.price.value, o.quantity) <= equity * (l.maxSingleOrderNotionalPct / 100.0))
  {
    hide Notional;
    var pct := l.maxSingleOrderNotionalPct / 100.0;
    if pct > 0.0 {
      assert equity * pct > 0.0;
    } else {
      assert equity * pct <= 0.0;
    }
  }

  lemma GatesMeaning(l: RiskLimits, o: OrderRequest, s: RiskSnapshot, clock: Clock)
    ensures EntryGates(l, o, s, clock).approved <==>
            && AccountMayTrade(l, s, clock.guardNow)
            && o.quantity > 0
            && (l.allowedSymbols == [] || o.symbol in l.allowedSymbols)
            && DefenceAllows(l, s)
            && s.marketFilterOk
            && o.stopLossPct.Some? && o.stopLossPct.value > 0.0
            && RegimeAllows(l, o, s)
            && (o.symbol in s.cooldownUntil ==> s.cooldownUntil[o.symbol] <= clock.now)
            && o.price.Some? && o.price.value > 0.0
  {
    RollingMeaning(l, s);
    hide RollingPnlPct, RecentPct;
  }

  /** The chain of refusals approves a buy exactly when every one of its conditions is met. */
  lemma BuyApprovedIff(l: RiskLimits, o: OrderRequest, s: RiskSnapshot, clock: Clock)
    requires o.side.Buy?
    ensures ApproveOrder(l, o, s, clock).approved <==>
            && AccountMayTrade(l, s, clock.guardNow)
            && o.quantity > 0
            && (l.allowedSymbols == [] || o.symbol in l.allowedSymbols)
            && DefenceAllows(l, s)
            && s.marketFilterOk
            && o.stopLossPct.Some? && o.stopLossPct.value > 0.0
            && RegimeAllows(l, o, s)
            && (o.symbol in s.cooldownUntil ==> s.cooldownUntil[o.symbol] <= clock.now)
            && o.price.Some? && o.price.value > 0.0
            && SizeAllows(l, o, s)
  {
    hide RollingPnlPct, EntryGates, NotionalCheck, Notional, WeightAfter, WeightCap, WeightFloor, CurrentPositions,
      RegimeAllows, DefenceAllows, AccountMayTrade, Live, ValueAfter, ValueLimit, RecentPct, PositionCountAfter;
    GatesMeaning(l, o, s, clock);
    RollingMeaning(l, s);
    CountMeaning(l, s, o.symbol);
    if o.price.Some? && s.equity > 0.0 {
      NotionalCheckMeaning(l, o, s.equity);
      BandMeaning(l, s, o.symbol, o.price.value, o.quantity);
    }
  }

  // ---- the reason of a refusal ----------------------------------------------------------

  /** The code if the objection applies, and else whatever comes after it. */
  ghost function Objection(applies: bool, code: RiskReasonCode, later: Option<RiskReasonCode>): Option<RiskReasonCode> {
    if applies then Some(code) else later
  }

  /** What speaks against any purchase on the account, the gravest first. */
  ghost function AccountObjection(
    l: RiskLimits, s: RiskSnapshot, guardNow: Instant, later: Option<RiskReasonCode>): Option<RiskReasonCode>
  {
    Objection(s.tradingCooldownUntil.Some? && s.tradingCooldownUntil.value > guardNow, TradingCooldownActive,
    Objection(s.totalPnlPct <= -AbsReal(l.totalLossLimitPct), SystemOffTotalLoss,
    Objection(s.dailyPnlPct <= -AbsReal(l.dailyLossLimitPct), HaltDailyLoss,
    Objection(RecentPct(l, s) <= -AbsReal(l.rollingLossLimitPct), HaltRollingLossLimit, later))))
  }

  /** What speaks against an entry at this time and of this kind. */
  ghost function EntryObjection(
    l: RiskLimits, o: OrderRequest, s: RiskSnapshot, now: Instant, later: Option<RiskReasonCode>)
    : Option<RiskReasonCode>
  {
    var trouble, bearish := OnStreak(l, s) || Falling(l, s), s.regime.BearishTrend?;
    Objection(o.quantity <= 0, OrderQuantityInvalid,
    Objection(l.allowedSymbols != [] && o.symbol !in l.allowedSymbols, SymbolNotAllowed,
    Objection(OnStreak(l, s) && Falling(l, s), TradingCooldownRequiredAdaptive,
    Objection(s.todaysNewEntries >= (if trouble then l.adaptiveNewEntriesLimit else l.maxPositions),
              AdaptiveNewEntryLimit,
    Objection(trouble && l.adaptiveEntryFilter && s.latestEntryScore.Some?
              && s.latestEntryScore.value < l.adaptiveMinEntryScore, AdaptiveEntryFilterBlock,
    Objection(s.regime.HighVolatilityRisk? && l.highVolNewEntryBlocked, BlockRegimeHighVolatilityNewEntry,
    Objection(bearish && s.todaysNewEntries >= l.bearishMaxNewEntriesPerDay, BlockRegimeBearishNewEntryLimit,
    Objection(!s.marketFilterOk, BlockBadMarketFilter,
    Objection(o.stopLossPct.None? || o.stopLossPct.value <= 0.0, MissingStopLoss,
    Objection(bearish && o.stopLossPct.Some?
              && o.stopLossPct.value > l.bearishMaxStopLossPct * DefenceFactor(l, s, l.adaptiveStopLossMultiplier),
              BlockRegimeBearishStopLossTooWide,
    Objection(o.symbol in s.cooldownUntil && s.cooldownUntil[o.symbol] > now, ReentryCooldown,
    Objection(o.price.None? || o.price.value <= 0.0, InvalidOrderPrice, later))))))))))))
  }

  /** What speaks against the symbol's share of the account after the purchase, in money. */
  ghost function ShareObjection(l: RiskLimits, s: RiskSnapshot, symbol: Symbol, value: real): Option<RiskReasonCode> {
    var bearish, holdings := s.regime.BearishTrend?, |Live(s) + {symbol}|;
    Objection(s.equity <= 0.0, InvalidEquity,
    Objection(bearish && (holdings > l.maxPositions || holdings > l.bearishMaxPositions),
              BlockRegimeBearishMaxPositions,
    Objection(!bearish && holdings > l.maxPositions, MaxPositionsExceeded,
    Objection(bearish && value > ValueLimit(l, s), BlockRegimeBearishPositionWeight,
    Objection(!bearish && value > ValueLimit(l, s), PositionWeightTooHigh,
    Objection(value < LeastValue(l, s) && value < 0.99 * ValueLimit(l, s), PositionWeightTooLow, None))))))
  }

  /** What speaks against the size of the purchase. */
  ghost function SizeObjection(l: RiskLimits, o: OrderRequest, s: RiskSnapshot, price: real): Option<RiskReasonCode> {
    var largest := s.equity * (l.maxSingleOrderNotionalPct / 100.0);
    Objection(largest > 0.0 && price * o.quantity as real > largest, OrderNotionalExceedsCap,
              ShareObjection(l, s, o.symbol, ValueAfter(s, o.symbol, price, o.quantity)))
  }

  /** A refused purchase carries the code of the first objection that applies; an approved one carries
      the code of its regime, and every sale is approved with its own. */
  lemma RefusalIsFirstObjection(l: RiskLimits, o: OrderRequest, s: RiskSnapshot, clock: Clock)
    ensures var d := ApproveOrder(l, o, s, clock);
            var size := if o.price.Some? then SizeObjection(l, o, s, o.price.value) else None;
            var first := AccountObjection(l, s, clock.guardNow, EntryObjection(l, o, s, clock.now, size));
            && (o.side.Sell? ==> d == RiskDecision(true, OkSell, false))
            && (o.side.Buy? ==>
                 && (d.approved <==> first.None?)
                 && d.code == (if first.Some? then first.value
                               else if s.regime.BearishTrend? then OkRegimeBearishBuyConservative else OkBuy)
                 && (d.isHardStop <==> d.code in {SystemOffTotalLoss, HaltDailyLoss}))
  {
    if o.side.Buy? {
      var size := if o.price.Some? then SizeObjection(l, o, s, o.price.value) else None;
      GatesObject(l, o, s, clock, size);
      if EntryGates(l, o, s, clock).approved {
        GatesMeaning(l, o, s, clock);
        SizeObjects(l, o, s);
      }
      hide EntryGates, NotionalCheck, ValidateBuyWeight, BuildAdaptiveGuard, SizeObjection, EntryObjection,
        AccountObjection, ShareObjection;
    }
  }

  lemma GuardObjects(l: RiskLimits, s: RiskSnapshot, guardNow: Instant, later: Option<RiskReasonCode>)
    ensures var d := GlobalGuard(l, s, guardNow);
            && AccountObjection(l, s, guardNow, later) == (if d.approved then later else Some(d.code))
            && (d.isHardStop <==> d.code in {SystemOffTotalLoss, HaltDailyLoss})
  {
    RollingMeaning(l, s);
    hide Rolling, RecentPct;
  }

  lemma GatesObject(l: RiskLimits, o: OrderRequest, s: RiskSnapshot, clock: Clock, later: Option<RiskReasonCode>)
    ensures var d := EntryGates(l, o, s, clock);
            && AccountObjection(l, s, clock.guardNow, EntryObjection(l, o, s, clock.now, later))
               == (if d.approved then later else Some(d.code))
            && (d.isHardStop <==> d.code in {SystemOffTotalLoss, HaltDailyLoss})
  {
    GuardObjects(l, s, clock.guardNow, EntryObjection(l, o, s, clock.now, later));
    RollingMeaning(l, s);
    hide Rolling, RecentPct, GlobalGuard, AccountObjection;
  }

  lemma ShareObjects(l: RiskLimits, s: RiskSnapshot, symbol: Symbol, price: real, quantity: int)
    ensures var multiplier := BuildAdaptiveGuard(l, s).weightMultiplier;
            var weight := ValidateBuyWeight(l, s, symbol, price, quantity, multiplier);
            && ShareObjection(l, s, symbol, ValueAfter(s, symbol, price, quantity))
               == (if weight.approved then None else Some(weight.code))
            && !weight.isHardStop && weight.code !in {SystemOffTotalLoss, HaltDailyLoss}
  {
    RollingMeaning(l, s);
    CountMeaning(l, s, symbol);
    assert BuildAdaptiveGuard(l, s).weightMultiplier == DefenceFactor(l, s, l.adaptiveWeightMultiplier);
    if s.equity > 0.0 {
      BandMeaning(l, s, symbol, price, quantity);
    }
    hide Rolling, RecentPct, WeightAfter, WeightCap, WeightFloor, PositionCountAfter, Live, ValueAfter, ValueLimit,
      LeastValue, CurrentPositions, BuildAdaptiveGuard, DefenceFactor;
  }

  lemma SizeObjects(l: RiskLimits, o: OrderRequest, s: RiskSnapshot)
    requires o.price.Some?
    ensures var price := o.price.value;
            var multiplier := BuildAdaptiveGuard(l, s).weightMultiplier;
            var notional := NotionalCheck(l, o, s.equity);
            var weight := ValidateBuyWeight(l, s, o.symbol, price, o.quantity, multiplier);
            && SizeObjection(l, o, s, price)
               == (if !notional.approved then Some(notional.code)
                   else if !weight.approved then Some(weight.code) else None)
            && !notional.isHardStop && notional.code !in {SystemOffTotalLoss, HaltDailyLoss}
            && !weight.isHardStop && weight.code !in {SystemOffTotalLoss, HaltDailyLoss}
  {
    ShareObjects(l, s, o.symbol, o.price.value, o.quantity);
    var largest := s.equity * (l.maxSingleOrderNotionalPct / 100.0);
    assert NotionalCheck(l, o, s.equity) ==
           if largest > 0.0 && o.price.value * o.quantity as real > largest then Deny(OrderNotionalExceedsCap)
           else Approve(Ok);
    hide ShareObjection, ValidateBuyWeight, BuildAdaptiveGuard, ValueAfter, NotionalCheck;
  }

  /** What an approved purchase in a bearish market leaves: few enough holdings, and a value within
      both weight limits. */
  lemma BearishBuyFits(l: RiskLimits, o: OrderRequest, s: RiskSnapshot, clock: Clock)
    requires o.side.Buy? && s.regime.BearishTrend? && ApproveOrder(l, o, s, clock).approved
    ensures |Live(s) + {o.symbol}| <= l.bearishMaxPositions && |Live(s) + {o.symbol}| <= l.maxPositions
    ensures var factor := DefenceFactor(l, s, l.adaptiveWeightMultiplier);
            o.price.Some? && (factor >= 0.0 ==>
              var value := ValueAfter(s, o.symbol, o.price.value, o.quantity);
              && value <= l.maxPositionWeight * (factor * s.equity)
              && value <= l.bearishMaxPositionWeight * (factor * s.equity))
  {
    hide ApproveOrder, DefenceFactor, ValueAfter, Live, DefenceAllows, AccountMayTrade;
    BuyApprovedIff(l, o, s, clock);
    var factor := DefenceFactor(l, s, l.adaptiveWeightMultiplier);
    if factor >= 0.0 {
      Scale(s.equity, 0.0, factor);
      Scale(factor * s.equity, MinReal(l.maxPositionWeight, l.bearishMaxPositionWeight), l.maxPositionWeight);
      Scale(factor * s.equity, MinReal(l.maxPositionWeight, l.bearishMaxPositionWeight), l.bearishMaxPositionWeight);
    }
  }

  // ---- monotonicity --------------------------------------------------------------------

  /** Everything but profit and loss streak is equal, and those are at least as good. */
  ghost predicate AtLeastAsHealthy(l: RiskLimits, better: RiskSnapshot, worse: RiskSnapshot) {
    && better == worse.(
         dailyPnlPct := better.dailyPnlPct, totalPnlPct := better.totalPnlPct,
         recentTradePnls := better.recentTradePnls, consecutiveLosses := better.consecutiveLosses)
    && better.dailyPnlPct >= worse.dailyPnlPct
    && better.totalPnlPct >= worse.totalPnlPct
    && Rolling(l, better) >= Rolling(l, worse)
    && better.consecutiveLosses <= worse.consecutiveLosses
  }

  predicate NoEarlier(later: Clock, earlier: Clock) {
    later.now >= earlier.now && later.guardNow >= earlier.guardNow
  }

  /** The defensive settings never allow more than the normal ones. */
  predicate TighteningOnly(l: RiskLimits) {
    && l.adaptiveNewEntriesLimit <= l.maxPositions
    && l.adaptiveWeightMultiplier <= 1.0
    && l.adaptiveStopLossMultiplier <= 1.0
    && l.maxPositionWeight >= 0.0
    && l.bearishMaxPositionWeight >= 0.0
    && l.bearishMaxStopLossPct >= 0.0
  }

  /** The minimum weight stays under 99% of the defensive maximum, in either regime. */
  predicate FloorBelowAdaptedCap(l: RiskLimits) {
    && l.minPositionWeight <= l.maxPositionWeight * l.adaptiveWeightMultiplier * 0.99
    && l.bearishMinPositionWeight
       <= MinReal(l.maxPositionWeight, l.bearishMaxPositionWeight) * l.adaptiveWeightMultiplier * 0.99
  }

  lemma DefaultLimitsAreMonotone()
    ensures TighteningOnly(DEFAULT_LIMITS) && FloorBelowAdaptedCap(DEFAULT_LIMITS)
  {
    assert 0.15 * 0.7 * 0.99 >= 0.10;
    assert 0.08 * 0.7 * 0.99 >= 0.03;
  }

  lemma GuardMonotone(l: RiskLimits, better: RiskSnapshot, worse: RiskSnapshot, later: Instant, earlier: Instant)
    requires AtLeastAsHealthy(l, better, worse) && later >= earlier
    requires GlobalGuard(l, worse, earlier).approved
    ensures GlobalGuard(l, better, later).approved
  {
  }

  lemma AdaptiveMonotone(l: RiskLimits, better: RiskSnapshot, worse: RiskSnapshot)
    requires AtLeastAsHealthy(l, better, worse) && TighteningOnly(l)
    ensures var b, w := BuildAdaptiveGuard(l, better), BuildAdaptiveGuard(l, worse);
            && b.maxNewEntries >= w.maxNewEntries
            && b.weightMultiplier >= w.weightMultiplier
            && b.stopLossMultiplier >= w.stopLossMultiplier
            && (b.cooldownRequired ==> w.cooldownRequired)
            && (b.requireStrongerEntry ==> w.requireStrongerEntry)
  {
  }

  lemma Scale(x: real, small: real, large: real)
    requires x >= 0.0 && small <= large
    ensures x * small <= x * large
  {
  }

  lemma GatesMonotone(
    l: RiskLimits, o: OrderRequest, better: RiskSnapshot, worse: RiskSnapshot, later: Clock, earlier: Clock)
    requires AtLeastAsHealthy(l, better, worse) && NoEarlier(later, earlier) && TighteningOnly(l)
    requires EntryGates(l, o, worse, earlier).approved
    ensures EntryGates(l, o, better, later).approved && o.price.Some?
  {
    var b, w := BuildAdaptiveGuard(l, better), BuildAdaptiveGuard(l, worse);
    GuardMonotone(l, better, worse, later.guardNow, earlier.guardNow);
    AdaptiveMonotone(l, better, worse);
    SameOtherwise(l, better, worse);
    StopLimitMonotone(l, w.stopLossMultiplier, b.stopLossMultiplier);
    hide BuildAdaptiveGuard, GlobalGuard, AtLeastAsHealthy, BearishStopLimit;
  }

  lemma StopLimitMonotone(l: RiskLimits, small: real, large: real)
    requires l.bearishMaxStopLossPct >= 0.0 && small <= large
    ensures BearishStopLimit(l, small) <= BearishStopLimit(l, large)
  {
    Scale(l.bearishMaxStopLossPct, small, large);
  }

  lemma SameOtherwise(l: RiskLimits, better: RiskSnapshot, worse: RiskSnapshot)
    requires AtLeastAsHealthy(l, better, worse)
    ensures better.todaysNewEntries == worse.todaysNewEntries && better.regime == worse.regime
    ensures better.cooldownUntil == worse.cooldownUntil && better.marketFilterOk == worse.marketFilterOk
    ensures better.latestEntryScore == worse.latestEntryScore
  {
  }

  /** With a larger multiplier only the weight floor can newly refuse. */
  lemma WeightMonotone(
    l: RiskLimits, better: RiskSnapshot, worse: RiskSnapshot,
    symbol: Symbol, price: real, quantity: int, large: real, small: real)
    requires AtLeastAsHealthy(l, better, worse) && large >= small && RegimeCap(l, worse) >= 0.0
    requires ValidateBuyWeight(l, worse, symbol, price, quantity, small).approved
    ensures var v := ValidateBuyWeight(l, better, symbol, price, quantity, large);
            && (v.approved <==> WeightAfter(better, symbol, price, quantity) >= WeightFloor(l, better, large))
            && (!v.approved ==> v.code == PositionWeightTooLow)
  {
    hide Notional, RollingPnlPct, WeightAfter;
    Scale(RegimeCap(l, worse), small, large);
    assert WeightAfter(better, symbol, price, quantity) == WeightAfter(worse, symbol, price, quantity) by {
      SameWeight(better, worse, symbol, price, quantity);
    }
    assert CurrentPositions(better) == CurrentPositions(worse);
    assert PositionCountAfter(better, symbol) == PositionCountAfter(worse, symbol);
    assert PositionCap(l, better) == PositionCap(l, worse);
    assert WeightAfter(better, symbol, price, quantity) <= WeightCap(l, better, large);
  }

  lemma SameWeight(a: RiskSnapshot, b: RiskSnapshot, symbol: Symbol, price: real, quantity: int)
    requires a.equity == b.equity && a.positionValues == b.positionValues
    ensures WeightAfter(a, symbol, price, quantity) == WeightAfter(b, symbol, price, quantity)
  {
  }

  /** A buy approved in a worse snapshot is refused in a healthier, later one exactly when its
      weight lies under the floor that the healthier snapshot demands. */
  lemma HealthierApprovalIff(
    l: RiskLimits, o: OrderRequest, better: RiskSnapshot, worse: RiskSnapshot, later: Clock, earlier: Clock)
    requires AtLeastAsHealthy(l, better, worse) && NoEarlier(later, earlier) && TighteningOnly(l)
    requires o.side.Buy? && ApproveOrder(l, o, worse, earlier).approved
    ensures ApproveOrder(l, o, better, later).approved <==>
            WeightAfter(better, o.symbol, o.price.value, o.quantity)
            >= WeightFloor(l, better, BuildAdaptiveGuard(l, better).weightMultiplier)
    ensures !ApproveOrder(l, o, better, later).approved ==>
              ApproveOrder(l, o, better, later).code == PositionWeightTooLow
  {
    hide Notional, RollingPnlPct, EntryGates, ValidateBuyWeight, NotionalCheck, WeightAfter, WeightFloor;
    GatesMonotone(l, o, better, worse, later, earlier);
    AdaptiveMonotone(l, better, worse);
    WeightMonotone(l, better, worse, o.symbol, o.price.value, o.quantity,
                   BuildAdaptiveGuard(l, better).weightMultiplier,
                   BuildAdaptiveGuard(l, worse).weightMultiplier);
  }

  /** Buy approval is monotone in profit, loss streak and time. */
  lemma ApprovalMonotone(
    l: RiskLimits, o: OrderRequest, better: RiskSnapshot, worse: RiskSnapshot, later: Clock, earlier: Clock)
    requires AtLeastAsHealthy(l, better, worse) && NoEarlier(later, earlier)
    requires TighteningOnly(l) && FloorBelowAdaptedCap(l)
    requires ApproveOrder(l, o, worse, earlier).approved
    ensures ApproveOrder(l, o, better, later).approved
  {
    if o.side.Buy? {
      assert o.price.Some?;
      hide Notional, RollingPnlPct, EntryGates, NotionalCheck, WeightAfter, BuildAdaptiveGuard;
      HealthierApprovalIff(l, o, better, worse, later, earlier);
      FloorIsTheMinimum(l, better);
      FloorIsTheMinimum(l, worse);
      SameWeight(better, worse, o.symbol, o.price.value, o.quantity);
    }
  }

  lemma FloorIsTheMinimum(l: RiskLimits, s: RiskSnapshot)
    requires TighteningOnly(l) && FloorBelowAdaptedCap(l)
    ensures WeightFloor(l, s, BuildAdaptiveGuard(l, s).weightMultiplier) == MinWeight(l, s)
  {
    hide RollingPnlPct;
    var cap, am := RegimeCap(l, s), l.adaptiveWeightMultiplier;
    Scale(cap, am, BuildAdaptiveGuard(l, s).weightMultiplier);
    assert MinWeight(l, s) <= cap * am * 0.99;
  }

  /** Waiting never turns an approval into a refusal, whatever the limits. */
  lemma ApprovalSurvivesWaiting(l: RiskLimits, o: OrderRequest, s: RiskSnapshot, later: Clock, earlier: Clock)
    requires NoEarlier(later, earlier)
    requires ApproveOrder(l, o, s, earlier).approved
    ensures ApproveOrder(l, o, s, later) == ApproveOrder(l, o, s, earlier)
  {
    hide Notional;
  }

  /** Without the floor condition monotonicity fails: nine percent passes in defence, not in health. */
  lemma FloorAboveAdaptedCapBreaksMonotonicity()
    ensures var l := DEFAULT_LIMITS.(adaptiveWeightMultiplier := 0.6);
            var o := OrderRequest("005930", Buy, 9, Some(1.0), Some(4.0));
            var worse := RiskSnapshot(0.0, 0.0, 100.0, true, map[], Sideways, [], 3, None, 0, None, map[]);
            var better := worse.(consecutiveLosses := 0);
            && TighteningOnly(l) && !FloorBelowAdaptedCap(l)
            && AtLeastAsHealthy(l, better, worse)
            && ApproveOrder(l, o, worse, Clock(0, 0)).approved
            && !ApproveOrder(l, o, better, Clock(0, 0)).approved
  {
    var worse := RiskSnapshot(0.0, 0.0, 100.0, true, map[], Sideways, [], 3, None, 0, None, map[]);
    assert CurrentPositions(worse) == map[];
    assert CurrentPositions(worse.(consecutiveLosses := 0)) == map[];
  }

  /** A symbol just exited cannot be bought until its cooldown has run out. */
  lemma ExitBlocksReentry(l: RiskLimits, o: OrderRequest, s: RiskSnapshot, exitAt: Instant, clock: Clock)
    requires o.side.Buy?
    ensures var s' := MarkSymbolExit(l, s, o.symbol, exitAt);
            && (clock.now < exitAt + l.reentryCooldown ==> !ApproveOrder(l, o, s', clock).approved)
            && (clock.now >= exitAt + l.reentryCooldown && ApproveOrder(l, o, s, clock).approved ==>
                 ApproveOrder(l, o, s', clock).approved)
  {
    hide Notional, RollingPnlPct, NotionalCheck, ValidateBuyWeight;
    var s' := MarkSymbolExit(l, s, o.symbol, exitAt);
    if o.price.Some? {
      SameSizing(l, s', s, o.symbol, o.price.value, o.quantity);
    }
  }

  lemma SameSizing(
    l: RiskLimits, a: RiskSnapshot, b: RiskSnapshot, symbol: Symbol, price: real, quantity: int)
    requires a.equity == b.equity && a.positionValues == b.positionValues && a.regime == b.regime
    ensures forall m :: ValidateBuyWeight(l, a, symbol, price, quantity, m)
                     == ValidateBuyWeight(l, b, symbol, price, quantity, m)
  {
    hide Notional, WeightAfter;
    SameWeight(a, b, symbol, price, quantity);
    assert CurrentPositions(a) == CurrentPositions(b);
  }
}
