/** The overnight carry, the per-day paper state, and how signals and accepted orders change them
    (app/strategy/final_betting_v1_strategy.py, app/strategy/intraday_paper_state.py,
    app/scheduler/final_betting_intraday_jobs.py). */
module FinalBettingState {
  import opened Common
  import opened Orders
  import opened PaperAccount
  import opened RiskRules
  import opened TradingDesk
  import opened FinalBettingExits
  import opened FinalBettingSizing

  /** The part of the state that survives a day change, except `entered` and the stop counts. */
  datatype Carry = Carry(
    positions: map<Symbol, Meta>,
    entered: seq<Symbol>,
    lossDays: seq<Day>,
    restUntil: Option<Day>,
    lastExit: map<Symbol, Day>,
    stopouts: map<Symbol, nat>,
    stopoutDay: Option<Day>
  )

  datatype PaperState = PaperState(
    day: Day,
    tradeCount: nat,
    cooldownUntil: map<Symbol, Instant>,
    lastBuy: map<Symbol, real>,
    carry: Carry
  )

  const EMPTY_CARRY := Carry(map[], [], [], None, map[], map[], None)

  function FreshState(today: Day): PaperState {
    PaperState(today, 0, map[], map[], EMPTY_CARRY)
  }

  /** `_roll_day`: a new day keeps only the carry, and resets its two daily entries. */
  function RollDay(st: PaperState, today: Day): PaperState {
    if st.day == today then st
    else PaperState(today, 0, map[], map[],
      st.carry.(entered := [], stopouts := map[], stopoutDay := Some(today)))
  }

  datatype FbConfig = FbConfig(
    limits: RiskLimits,
    killLimits: Option<RiskLimits>,
    manualOverride: bool,
    quote: Symbol -> real,
    entryStart: TimeOfDay,
    entryEnd: TimeOfDay,
    exitDeadline: TimeOfDay,
    maxNewPositions: int,
    rankPoolTop: int,
    minAllocationPct: real,
    maxCapitalPct: real,
    riskPerTradePct: real,
    fixedStopPct: real,
    atrStopFactor: real,
    reentryCooldownDays: int,
    maxDailyLossPct: real,
    duplicateGuardSec: real,
    cooldownAfterBuy: int,
    cooldownAfterProfit: int,
    cooldownAfterStop: int,
    cooldownAfterRepeatStop: int
  )

  /** A symbol that passed the indicator filters. */
  datatype Scored = Scored(symbol: Symbol, lastClose: real, atrPct: real)

  /** A scored symbol with its stop and the terms of its sizing. */
  datatype Candidate = Candidate(symbol: Symbol, lastClose: real, stopLossPct: real, terms: EntryTerms) {
    function Shares(): int {
      EntryShares(terms, lastClose, stopLossPct)
    }
  }

  /** One row of the portfolio table built from the broker. */
  datatype Holding = Holding(symbol: Symbol, quantity: int, averagePrice: real)

  /** One moment's clock readings: for cooldowns, for the duplicate guard, for the two risk checks. */
  datatype Moment = Moment(utc: Instant, mono: real, first: Clock, second: Clock)

  /** The market and the clocks as one tick sees them: `clock` at the start, `gateClocks` when the
      buy gate is asked for an order, `orderClocks` when an order is executed. */
  datatype TickEnv = TickEnv(
    today: Day,
    now: TimeOfDay,
    saveDay: Day,
    clock: Moment,
    gateClocks: nat -> Moment,
    orderClocks: nat -> Moment,
    universe: Universe,
    regularSession: bool,
    ordersAllowed: bool,
    mode: Mode,
    health: Health,
    views: map<Symbol, MorningView>,
    entryFiltersPass: bool,
    marketPenalty: bool,
    lastScore: int,
    equityBase: real,
    regimeFactor: real,
    healthFactor: real,
    ranked: seq<Scored>
  )

  function AtGate(env: TickEnv, n: nat): TickEnv {
    env.(clock := env.gateClocks(n))
  }

  function AtOrder(env: TickEnv, n: nat): TickEnv {
    env.(clock := env.orderClocks(n))
  }

  /** An order with the strategy's reason; buys carry none. */
  datatype FbOrder = FbOrder(order: OrderRequest, reason: Option<ExitReason>)

  function Portfolio(a: Account): seq<Holding> {
    var order := HeldOrder(a.fills);
    seq(|order|, i requires 0 <= i < |order| =>
      if order[i] in a.positions then
        Holding(order[i], a.positions[order[i]].quantity, a.positions[order[i]].averagePrice)
      else Holding(order[i], 0, 0.0))
  }

  /** `pos_symbols`: rows with a positive quantity and a positive average price. */
  function PosSymbols(portfolio: seq<Holding>): seq<Holding> {
    if portfolio == [] then []
    else
      (if portfolio[0].quantity > 0 && portfolio[0].averagePrice > 0.0 then [portfolio[0]] else [])
      + PosSymbols(portfolio[1..])
  }

  predicate Holds(held: seq<Holding>, s: Symbol) {
    exists i :: 0 <= i < |held| && held[i].symbol == s
  }

  // ---- loss days ------------------------------------------------------------------------------

  function Insert(d: Day, sorted: seq<Day>): seq<Day> {
    if sorted == [] || d <= sorted[0] then [d] + sorted else [sorted[0]] + Insert(d, sorted[1..])
  }

  function Sort(days: seq<Day>): seq<Day> {
    if days == [] then [] else Insert(days[0], Sort(days[1..]))
  }

  function LastTwo(days: seq<Day>): seq<Day> {
    if |days| <= 2 then days else days[|days| - 2..]
  }

  function LossDaysAfter(days: seq<Day>, today: Day, pnlPct: real): seq<Day> {
    if pnlPct >= 0.0 then []
    else if today in days then days
    else LastTwo(Sort(days + [today]))
  }

  /** A full exit updates the loss-day record, and two loss days send the strategy to rest. */
  function RecordFullExit(carry: Carry, today: Day, pnlPct: real): Carry {
    var days := LossDaysAfter(carry.lossDays, today, pnlPct);
    carry.(lossDays := days, restUntil := if |days| >= 2 then Some(today + 1) else carry.restUntil)
  }

  // ---- exit signals ---------------------------------------------------------------------------

  datatype Scan = Scan(carry: Carry, orders: seq<FbOrder>)

  /** The exit chain is run for held symbols with bars, carried since an earlier day, in the
      regular session. */
  predicate Watched(env: TickEnv, carry: Carry, s: Symbol) {
    && env.regularSession
    && s in env.views
    && s in carry.positions
    && carry.positions[s].entryDay != env.today
  }

  function InputsFor(cfg: FbConfig, env: TickEnv, meta: Meta, h: Holding): ExitInputs
    requires h.symbol in env.views
  {
    ExitInputs(env.mode, env.health, cfg.exitDeadline, env.today, env.now,
      h.quantity, h.averagePrice, meta, env.views[h.symbol])
  }

  function DecisionFor(cfg: FbConfig, env: TickEnv, carry: Carry, h: Holding): ExitDecision
    requires Watched(env, carry, h.symbol)
  {
    DecideExit(InputsFor(cfg, env, carry.positions[h.symbol], h))
  }

  function SellOrder(env: TickEnv, h: Holding, d: ExitDecision): FbOrder
    requires h.symbol in env.views
  {
    FbOrder(
      OrderRequest(h.symbol, Sell, MinInt(h.quantity, d.quantity), Some(env.views[h.symbol].lastPx), None),
      d.reason)
  }

  function ExitStep(cfg: FbConfig, env: TickEnv, scan: Scan, h: Holding): Scan {
    if !Watched(env, scan.carry, h.symbol) then scan
    else
      var d := DecisionFor(cfg, env, scan.carry, h);
      var noted := scan.carry.(positions := scan.carry.positions[h.symbol := d.meta]);
      if d.reason.None? then scan.(carry := noted)
      else
        var recorded :=
          if MinInt(h.quantity, d.quantity) >= h.quantity then
            RecordFullExit(noted, env.today, PctOver(env.views[h.symbol].lastPx, h.averagePrice))
          else noted;
        Scan(recorded, scan.orders + [SellOrder(env, h, d)])
  }

  function ExitScan(cfg: FbConfig, env: TickEnv, carry: Carry, held: seq<Holding>): Scan {
    if held == [] then Scan(carry, [])
    else ExitStep(cfg, env, ExitScan(cfg, env, carry, held[..|held| - 1]), held[|held| - 1])
  }

  // ---- entry signals --------------------------------------------------------------------------

  function EffectiveCap(cfg: FbConfig, env: TickEnv): int {
    MaxInt(1, cfg.maxNewPositions + PolicyFor(env.mode).maxNewDelta)
  }

  function PoolSize(cfg: FbConfig, env: TickEnv): nat {
    MaxInt(3, MinInt(14, cfg.rankPoolTop + PolicyFor(env.mode).rankPoolDelta))
  }

  /** The terms that every candidate of a tick shares. */
  function TermsFor(cfg: FbConfig, env: TickEnv): EntryTerms {
    EntryTerms(env.mode, env.marketPenalty, env.lastScore, env.equityBase, env.regimeFactor, env.healthFactor,
      cfg.minAllocationPct, cfg.maxCapitalPct, cfg.riskPerTradePct)
  }

  function CandidateFor(cfg: FbConfig, env: TickEnv, c: Scored): Candidate {
    Candidate(c.symbol, c.lastClose, BlendedStop(cfg.fixedStopPct, c.atrPct, cfg.atrStopFactor), TermsFor(cfg, env))
  }

  function Ranked(cfg: FbConfig, env: TickEnv): seq<Candidate> {
    seq(|env.ranked|, i requires 0 <= i < |env.ranked| => CandidateFor(cfg, env, env.ranked[i]))
  }

  predicate EntriesOpen(cfg: FbConfig, env: TickEnv, restUntil: Option<Day>, riskHalt: bool) {
    && !riskHalt
    && !(restUntil.Some? && restUntil.value >= env.today)
    && env.entryFiltersPass
    && env.regularSession
    && cfg.entryStart <= env.now <= cfg.entryEnd
  }

  function DaysBetween(a: Day, b: Day): int {
    if a <= b then b - a else a - b
  }

  predicate Eligible(cfg: FbConfig, env: TickEnv, carry: Carry, held: seq<Holding>, s: Symbol) {
    && !Holds(held, s)
    && s !in carry.entered
    && |carry.entered| < EffectiveCap(cfg, env)
    && !(s in carry.lastExit && cfg.reentryCooldownDays > 0
         && DaysBetween(carry.lastExit[s], env.today) < cfg.reentryCooldownDays)
  }

  function EligibleOnly(
    cfg: FbConfig, env: TickEnv, carry: Carry, held: seq<Holding>, candidates: seq<Candidate>): seq<Candidate>
  {
    if candidates == [] then []
    else
      (if Eligible(cfg, env, carry, held, candidates[0].symbol) then [candidates[0]] else [])
      + EligibleOnly(cfg, env, carry, held, candidates[1..])
  }

  predicate Sized(c: Candidate) {
    Sizable(c.terms, c.lastClose, c.stopLossPct)
  }

  /** The entry loop: in rank order, while open slots and today's room last. */
  function Picks(candidates: seq<Candidate>, slots: int, room: int): seq<Candidate> {
    if candidates == [] || slots <= 0 || room <= 0 then []
    else if Sized(candidates[0]) then [candidates[0]] + Picks(candidates[1..], slots - 1, room - 1)
    else Picks(candidates[1..], slots, room)
  }

  function EntryPicks(cfg: FbConfig, env: TickEnv, carry: Carry, held: seq<Holding>): seq<Candidate> {
    var cap := EffectiveCap(cfg, env);
    var pool := EligibleOnly(cfg, env, carry, held, Ranked(cfg, env));
    var top := if |pool| <= PoolSize(cfg, env) then pool else pool[..PoolSize(cfg, env)];
    Picks(top, cap - |held|, cap - |carry.entered|)
  }

  function BuyOrder(c: Candidate): FbOrder {
    FbOrder(OrderRequest(c.symbol, Buy, c.Shares(), Some(c.lastClose), Some(c.stopLossPct)), None)
  }

  function BuyOrders(picks: seq<Candidate>): seq<FbOrder> {
    seq(|picks|, i requires 0 <= i < |picks| => BuyOrder(picks[i]))
  }

  function EntryMeta(today: Day, c: Candidate): Meta {
    Meta(today, c.lastClose, c.Shares(), false, None, 0)
  }

  function Pend(pending: map<Symbol, Meta>, today: Day, picks: seq<Candidate>): map<Symbol, Meta> {
    if picks == [] then pending
    else
      var last := picks[|picks| - 1];
      Pend(pending, today, picks[..|picks| - 1])[last.symbol := EntryMeta(today, last)]
  }

  datatype Generated = Generated(carry: Carry, pending: map<Symbol, Meta>, orders: seq<FbOrder>)

  /** `generate_signals`. The rest date is read before the exits of the same tick can move it. */
  function Generate(
    cfg: FbConfig, env: TickEnv, carry: Carry, pending: map<Symbol, Meta>, portfolio: seq<Holding>, riskHalt: bool)
    : Generated
  {
    var held := PosSymbols(portfolio);
    var scan := ExitScan(cfg, env, carry, held);
    if !EntriesOpen(cfg, env, carry.restUntil, riskHalt) then Generated(scan.carry, pending, scan.orders)
    else
      var picks := EntryPicks(cfg, env, scan.carry, held);
      Generated(scan.carry, Pend(pending, env.today, picks), scan.orders + BuyOrders(picks))
  }

  // ---- accepted orders ------------------------------------------------------------------------

  datatype Outcome = Profit | Stop | Flat

  function ClassifyExit(reason: Option<ExitReason>, pnlPct: real): Outcome {
    if reason.Some? && reason.value in {GapUpFullFade, GapUpScaleout, RsiFlagTakeProfit} then Profit
    else if reason.Some? && reason.value in {GapDownStop, WeakMorningFlush} then Stop
    else if pnlPct >= 0.12 then Profit
    else if pnlPct <= -0.18 then Stop
    else Flat
  }

  /** Cooldown after a sale: longer once the symbol was already stopped out on the same day. */
  function ApplyCooldown(cfg: FbConfig, env: TickEnv, st: PaperState, s: Symbol, kind: Outcome): PaperState {
    var counts := if st.carry.stopoutDay == Some(env.today) then st.carry.stopouts else map[];
    var previous := if s in counts then counts[s] else 0;
    var minutes :=
      match kind
      case Profit => cfg.cooldownAfterProfit
      case Stop => if previous >= 1 then cfg.cooldownAfterRepeatStop else cfg.cooldownAfterStop
      case Flat => (cfg.cooldownAfterProfit + cfg.cooldownAfterStop) / 2;
    st.(
      cooldownUntil := st.cooldownUntil[s := env.clock.utc + MaxInt(1, minutes) * MINUTE],
      carry := st.carry.(
        stopouts := if kind.Stop? then counts[s := previous + 1] else counts,
        stopoutDay := Some(env.today)))
  }

  /** The carry after `sold` shares of `s` were sold. */
  function ReduceCarry(carry: Carry, today: Day, s: Symbol, sold: int): Carry
    requires s in carry.positions
  {
    var meta := carry.positions[s];
    var left := meta.shares - sold;
    if left <= 0 then
      carry.(positions := carry.positions - {s}, lastExit := carry.lastExit[s := today])
    else
      var kept := meta.(shares := left, partialDone := meta.partialDone || sold < meta.shares);
      carry.(positions := carry.positions[s := kept])
  }

  function FillBasis(fo: FbOrder, r: OrderResult, reference: real): real {
    if r.avgFillPrice.Some? then r.avgFillPrice.value
    else if fo.order.price.Some? then fo.order.price.value
    else reference
  }

  /** `on_fb_sell_accepted`. */
  function SellAccepted(cfg: FbConfig, env: TickEnv, st: PaperState, fo: FbOrder, r: OrderResult): PaperState {
    var s := fo.order.symbol;
    if s !in st.carry.positions then st
    else
      var reference := st.carry.positions[s].refClose;
      var pnlPct := PctOver(FillBasis(fo, r, reference), reference);
      ApplyCooldown(cfg, env,
        st.(carry := ReduceCarry(st.carry, env.today, s, fo.order.quantity)), s, ClassifyExit(fo.reason, pnlPct))
  }

  function BuyBooked(cfg: FbConfig, env: TickEnv, st: PaperState, s: Symbol): PaperState {
    st.(
      lastBuy := st.lastBuy[s := env.clock.mono],
      tradeCount := st.tradeCount + 1,
      cooldownUntil :=
        if cfg.cooldownAfterBuy > 0 then st.cooldownUntil[s := env.clock.utc + cfg.cooldownAfterBuy * MINUTE]
        else st.cooldownUntil)
  }

  function Enter(carry: Carry, s: Symbol, meta: Meta): Carry {
    carry.(
      positions := carry.positions[s := meta],
      entered := if s in carry.entered then carry.entered else carry.entered + [s])
  }

  /** `_on_accepted_order`, the generic part and then the carry synchronisation. */
  function OnAccepted(
    cfg: FbConfig, env: TickEnv, st: PaperState, pending: map<Symbol, Meta>, fo: FbOrder, r: OrderResult)
    : (PaperState, map<Symbol, Meta>)
  {
    var s := fo.order.symbol;
    if fo.order.side.Buy? then
      var booked := BuyBooked(cfg, env, st, s);
      if s !in pending then (booked, pending)
      else (booked.(carry := Enter(booked.carry, s, pending[s])), pending - {s})
    else
      (SellAccepted(cfg, env, st.(cooldownUntil := st.cooldownUntil - {s}), fo, r), pending)
  }

  predicate BuyAllowed(cfg: FbConfig, env: TickEnv, st: PaperState, s: Symbol) {
    var guard := MaxReal(180.0, cfg.duplicateGuardSec);
    var last := if s in st.lastBuy then st.lastBuy[s] else 0.0;
    && !(last > 0.0 && env.clock.mono - last < guard)
    && !(s in st.cooldownUntil && env.clock.utc < st.cooldownUntil[s])
  }

  /** The buy gate is asked for every order before any of them is executed. */
  function GatedOrders(cfg: FbConfig, env: TickEnv, st: PaperState, orders: seq<FbOrder>): seq<FbOrder> {
    if orders == [] then []
    else
      var fo := orders[|orders| - 1];
      GatedOrders(cfg, env, st, orders[..|orders| - 1])
      + if fo.order.side.Sell? || BuyAllowed(cfg, AtGate(env, |orders| - 1), st, fo.order.symbol) then [fo] else []
  }
}
