/** One intraday tick of the closing-auction strategy, from loaded state to saved state
    (app/scheduler/intraday_jobs.py, app/scheduler/final_betting_intraday_jobs.py), and what every
    tick keeps. */
module FinalBettingTicks {
  import opened Common
  import opened Orders
  import opened PaperAccount
  import opened RiskRules
  import opened KillSwitches
  import opened OrderManagement
  import opened TradingDesk
  import opened FinalBettingExits
  import opened FinalBettingChain
  import opened FinalBettingSizing
  import opened FinalBettingState

  /** What lasts between ticks: the desk, the state file, the strategy's pending entries. */
  datatype World = World(desk: Desk, saved: PaperState, pending: map<Symbol, Meta>)

  /** The state while the orders of one tick are executed, with the buys accepted so far. */
  datatype Execution = Execution(desk: Desk, state: PaperState, pending: map<Symbol, Meta>, bought: seq<Symbol>)

  datatype TickLog = TickLog(halted: bool, signals: seq<FbOrder>, bought: seq<Symbol>)

  ghost function ExecuteOne(cfg: FbConfig, env: TickEnv, x: Execution, fo: FbOrder): Execution {
    if !env.ordersAllowed then x
    else
      var reading := Reading(env.today, env.clock.first, env.clock.second);
      var (desk, r) := Route(cfg.limits, x.desk, env.universe, fo.order, reading, cfg.quote);
      if !r.accepted then x.(desk := desk)
      else
        var (state, pending) := OnAccepted(cfg, env, x.state, x.pending, fo, r);
        Execution(desk, state, pending, if fo.order.side.Buy? then x.bought + [fo.order.symbol] else x.bought)
  }

  ghost function Execute(cfg: FbConfig, env: TickEnv, x: Execution, orders: seq<FbOrder>): Execution {
    if orders == [] then x
    else
      ExecuteOne(
        cfg, AtOrder(env, |orders| - 1), Execute(cfg, env, x, orders[..|orders| - 1]), orders[|orders| - 1])
  }

  ghost predicate TickHalts(cfg: FbConfig, env: TickEnv, w: World) {
    && !cfg.manualOverride
    && cfg.killLimits.Some?
    && Evaluate(cfg.killLimits.value, Snapshot(w.desk, env.universe, env.today), env.clock.first.guardNow).riskOff
  }

  ghost predicate RiskHalt(cfg: FbConfig, env: TickEnv, w: World) {
    !cfg.manualOverride && Snapshot(w.desk, env.universe, env.today).dailyPnlPct <= -cfg.maxDailyLossPct
  }

  ghost function Signals(cfg: FbConfig, env: TickEnv, w: World): Generated {
    Generate(cfg, env, RollDay(w.saved, env.today).carry, w.pending,
      Portfolio(w.desk.account), RiskHalt(cfg, env, w))
  }

  ghost function Ready(cfg: FbConfig, env: TickEnv, w: World): Execution {
    var g := Signals(cfg, env, w);
    Execution(
      AfterSnapshot(w.desk, env.universe, env.today),
      RollDay(w.saved, env.today).(carry := g.carry), g.pending, [])
  }

  ghost function TickQueue(cfg: FbConfig, env: TickEnv, w: World): seq<FbOrder> {
    GatedOrders(cfg, env, Ready(cfg, env, w).state, Signals(cfg, env, w).orders)
  }

  /** `run_intraday_cycle`. A cycle that the kill switch skips does not save its state. */
  ghost function Tick(cfg: FbConfig, env: TickEnv, w: World): (World, TickLog) {
    if TickHalts(cfg, env, w) then
      (w.(desk := AfterSnapshot(w.desk, env.universe, env.today)), TickLog(true, [], []))
    else
      var x := Execute(cfg, env, Ready(cfg, env, w), TickQueue(cfg, env, w));
      (World(x.desk, RollDay(x.state, env.saveDay), x.pending),
       TickLog(false, Signals(cfg, env, w).orders, x.bought))
  }

  // ---- the invariant ---------------------------------------------------------------------------

  /** The carry mirrors the broker: same symbols, same share counts. */
  ghost predicate Mirrors(carry: Carry, a: Account) {
    && (forall s :: s in carry.positions <==> s in a.positions)
    && (forall s :: s in carry.positions ==> carry.positions[s].shares == a.positions[s].quantity)
  }

  ghost predicate AccountInOrder(a: Account) {
    HoldingsMatchLog(a) && ListsHoldings(a) && HoldingsSound(a)
  }

  /** The day's entries are distinct and counted. */
  ghost predicate Tallied(st: PaperState) {
    Distinct(st.carry.entered) && st.tradeCount == |st.carry.entered|
  }

  ghost predicate InStep(w: World) {
    && AccountInOrder(w.desk.account)
    && Mirrors(w.saved.carry, w.desk.account)
    && Tallied(w.saved)
  }

  ghost predicate TimelyTick(env: TickEnv) {
    && (forall n :: NoEarlier(env.orderClocks(n).second, env.orderClocks(n).first))
    && env.today <= env.saveDay
    && (forall i, j :: 0 <= i < j < |env.ranked| ==> env.ranked[i].symbol != env.ranked[j].symbol)
  }

  ghost predicate DistinctSymbols(cs: seq<Candidate>) {
    forall i, j :: 0 <= i < j < |cs| ==> cs[i].symbol != cs[j].symbol
  }

  // ---- portfolio --------------------------------------------------------------------------------

  lemma {:induction false} PosSymbolsKeepsAll(p: seq<Holding>)
    requires forall i :: 0 <= i < |p| ==> p[i].quantity > 0 && p[i].averagePrice > 0.0
    ensures PosSymbols(p) == p
  {
    if p != [] {
      PosSymbolsKeepsAll(p[1..]);
    }
  }

  /** The strategy looks at the rows with shares and with a price paid, and at no others. */
  lemma {:induction false} PosSymbolsExactly(p: seq<Holding>, h: Holding)
    ensures h in PosSymbols(p) <==> h in p && h.quantity > 0 && h.averagePrice > 0.0
  {
    if p != [] {
      PosSymbolsExactly(p[1..], h);
      assert p == [p[0]] + p[1..];
    }
  }

  /** For accounts in order the strategy sees exactly the broker's holdings, each once. */
  lemma StrategySeesHoldings(a: Account)
    requires AccountInOrder(a)
    ensures PosSymbols(Portfolio(a)) == Portfolio(a)
    ensures forall s :: Holds(Portfolio(a), s) <==> s in a.positions
    ensures forall i :: 0 <= i < |Portfolio(a)| ==>
              var h := Portfolio(a)[i];
              h.symbol in a.positions && h.quantity == a.positions[h.symbol].quantity > 0
              && h.averagePrice == a.positions[h.symbol].averagePrice
    ensures forall i, j :: 0 <= i < j < |Portfolio(a)| ==> Portfolio(a)[i].symbol != Portfolio(a)[j].symbol
  {
    hide HeldOrder, HoldingsMatchLog;
    var order, p := HeldOrder(a.fills), Portfolio(a);
    forall i | 0 <= i < |p|
      ensures p[i].symbol == order[i] && order[i] in a.positions && p[i].quantity > 0 && p[i].averagePrice > 0.0
      ensures p[i].quantity == a.positions[order[i]].quantity
      ensures p[i].averagePrice == a.positions[order[i]].averagePrice
    {
      assert order[i] in order;
    }
    PosSymbolsKeepsAll(p);
    HoldsMeansListed(a, p);
  }

  lemma HoldsMeansListed(a: Account, p: seq<Holding>)
    requires ListsHoldings(a) && |p| == |HeldOrder(a.fills)|
    requires forall i :: 0 <= i < |p| ==> p[i].symbol == HeldOrder(a.fills)[i]
    ensures forall s :: Holds(p, s) <==> s in a.positions
  {
    hide HeldOrder;
    var order := HeldOrder(a.fills);
    forall s ensures Holds(p, s) <==> s in order {
      if s in order {
        var i :| 0 <= i < |order| && order[i] == s;
        assert p[i].symbol == s;
      }
    }
  }

  // ---- exit signals ------------------------------------------------------------------------------

  ghost predicate SameShares(a: Carry, b: Carry) {
    && (forall s :: s in a.positions <==> s in b.positions)
    && (forall s :: s in a.positions ==>
          a.positions[s].shares == b.positions[s].shares && a.positions[s].entryDay == b.positions[s].entryDay)
  }

  /** Exit signals change neither which symbols are carried nor their shares, and are all sales. */
  lemma {:induction false} ExitScanKeepsShares(cfg: FbConfig, env: TickEnv, carry: Carry, held: seq<Holding>)
    ensures var scan := ExitScan(cfg, env, carry, held);
            && SameShares(scan.carry, carry)
            && scan.carry.entered == carry.entered && scan.carry.lastExit == carry.lastExit
            && (forall i :: 0 <= i < |scan.orders| ==> scan.orders[i].order.side.Sell?)
  {
    hide DecideExit;
    if held != [] {
      var before, h := ExitScan(cfg, env, carry, held[..|held| - 1]), held[|held| - 1];
      ExitScanKeepsShares(cfg, env, carry, held[..|held| - 1]);
      if Watched(env, before.carry, h.symbol) {
        ChainKeepsIdentity(InputsFor(cfg, env, before.carry.positions[h.symbol], h));
      }
    }
  }

  // ---- entry signals -----------------------------------------------------------------------------

  ghost predicate Among(part: seq<Candidate>, whole: seq<Candidate>) {
    forall c :: c in part ==> c in whole
  }

  lemma {:induction false} EligibleOnlyMeaning(
    cfg: FbConfig, env: TickEnv, carry: Carry, held: seq<Holding>, cs: seq<Candidate>)
    requires DistinctSymbols(cs)
    ensures var e := EligibleOnly(cfg, env, carry, held, cs);
            && DistinctSymbols(e) && Among(e, cs)
            && (forall i :: 0 <= i < |e| ==> Eligible(cfg, env, carry, held, e[i].symbol))
  {
    if cs != [] {
      var rest := EligibleOnly(cfg, env, carry, held, cs[1..]);
      EligibleOnlyMeaning(cfg, env, carry, held, cs[1..]);
      forall c | c in rest ensures c in cs && c.symbol != cs[0].symbol {
        assert c in cs[1..];
      }
    }
  }

  lemma {:induction false} PicksMeaning(cs: seq<Candidate>, slots: int, room: int)
    requires DistinctSymbols(cs)
    ensures var p := Picks(cs, slots, room);
            && DistinctSymbols(p) && Among(p, cs)
            && (forall i :: 0 <= i < |p| ==> Sized(p[i]))
            && |p| <= MaxInt(0, slots) && |p| <= MaxInt(0, room)
  {
    if cs != [] && slots > 0 && room > 0 {
      PicksMeaning(cs[1..], if Sized(cs[0]) then slots - 1 else slots, if Sized(cs[0]) then room - 1 else room);
      var rest := Picks(cs[1..], if Sized(cs[0]) then slots - 1 else slots, if Sized(cs[0]) then room - 1 else room);
      forall c | c in rest ensures c in cs && c.symbol != cs[0].symbol {
        assert c in cs[1..];
      }
    }
  }

  function SizedOnly(cs: seq<Candidate>): seq<Candidate> {
    if cs == [] then [] else (if Sized(cs[0]) then [cs[0]] else []) + SizedOnly(cs[1..])
  }

  /** The entry loop takes the best-ranked sized candidates, as many as slots and room allow. */
  lemma {:induction false} PicksAreBestRanked(cs: seq<Candidate>, slots: int, room: int)
    ensures var sized, count := SizedOnly(cs), MaxInt(0, MinInt(slots, room));
            Picks(cs, slots, room) == if |sized| <= count then sized else sized[..count]
  {
    hide Sized;
    if cs != [] && slots > 0 && room > 0 {
      if Sized(cs[0]) {
        PicksAreBestRanked(cs[1..], slots - 1, room - 1);
      } else {
        PicksAreBestRanked(cs[1..], slots, room);
        assert [] + SizedOnly(cs[1..]) == SizedOnly(cs[1..]);
      }
    }
  }

  /** Entry picks are distinct, new to the portfolio and to the day, positively sized, and fit
      both the open slots and the room left in the day's cap. */
  lemma EntryPicksMeaning(cfg: FbConfig, env: TickEnv, carry: Carry, held: seq<Holding>)
    requires DistinctSymbols(Ranked(cfg, env))
    ensures var p, cap := EntryPicks(cfg, env, carry, held), EffectiveCap(cfg, env);
            && DistinctSymbols(p)
            && (forall i :: 0 <= i < |p| ==>
                  p[i].Shares() > 0 && !Holds(held, p[i].symbol) && p[i].symbol !in carry.entered)
            && |held| + |p| <= MaxInt(|held|, cap)
            && |carry.entered| + |p| <= MaxInt(|carry.entered|, cap)
  {
    hide EligibleOnly, Picks, Eligible;
    var all := EligibleOnly(cfg, env, carry, held, Ranked(cfg, env));
    EligibleOnlyMeaning(cfg, env, carry, held, Ranked(cfg, env));
    var pool := if |all| <= PoolSize(cfg, env) then all else all[..PoolSize(cfg, env)];
    var cap := EffectiveCap(cfg, env);
    PicksMeaning(pool, cap - |held|, cap - |carry.entered|);
    var p := Picks(pool, cap - |held|, cap - |carry.entered|);
    forall i | 0 <= i < |p|
      ensures p[i].Shares() > 0 && !Holds(held, p[i].symbol) && p[i].symbol !in carry.entered
    {
      assert p[i] in pool;
      var j :| 0 <= j < |all| && all[j] == p[i];
      EligibleIsNew(cfg, env, carry, held, all[j].symbol);
    }
  }

  lemma EligibleIsNew(cfg: FbConfig, env: TickEnv, carry: Carry, held: seq<Holding>, s: Symbol)
    requires Eligible(cfg, env, carry, held, s)
    ensures !Holds(held, s) && s !in carry.entered
  {
  }

  lemma {:induction false} PendMeaning(pending: map<Symbol, Meta>, today: Day, picks: seq<Candidate>)
    requires DistinctSymbols(picks)
    ensures forall i :: 0 <= i < |picks| ==>
              var p := Pend(pending, today, picks);
              picks[i].symbol in p && p[picks[i].symbol] == EntryMeta(today, picks[i])
  {
    if picks != [] {
      PendMeaning(pending, today, picks[..|picks| - 1]);
    }
  }

  // ---- executing orders --------------------------------------------------------------------------

  ghost predicate Executing(x: Execution) {
    && AccountInOrder(x.desk.account)
    && Mirrors(x.state.carry, x.desk.account)
    && Tallied(x.state)
  }

  /** A buy that may come next: new symbol, not yet entered today, pending with its own shares. */
  ghost predicate BuyReady(x: Execution, fo: FbOrder) {
    var s := fo.order.symbol;
    && s !in x.desk.account.positions
    && s !in x.state.carry.entered
    && s in x.pending
    && x.pending[s].shares == fo.order.quantity
  }

  /** What routing one order can have done to the account. */
  lemma RouteOnAccount(l: RiskLimits, d: Desk, u: Universe, o: OrderRequest, r: Reading, quote: Symbol -> real)
    requires AccountInOrder(d.account) && NoEarlier(r.second, r.first)
    ensures var (d', result) := Route(l, d, u, o, r, quote);
            && AccountInOrder(d'.account)
            && (!result.accepted ==> d'.account.positions == d.account.positions)
            && (result.accepted && o.side.Sell? ==>
                 && o.symbol in d.account.positions && 0 < o.quantity <= d.account.positions[o.symbol].quantity
                 && d'.account.positions == SellOutOf(d.account.positions, o.symbol, o.quantity))
            && (result.accepted && o.side.Buy? ==>
                 && o.quantity > 0
                 && exists price :: d'.account.positions == BuyInto(d.account.positions, o.symbol, o.quantity, price))
  {
    hide Route, ApproveOrder, HoldingsMatchLog, ListsHoldings, HoldingsSound, BuyInto, SellOutOf, Notional;
    RouteMeaning(l, d, u, o, r, quote);
    var order := CreateOrder(SignalFor(d.account, u, o));
    PlaceKeepsLogged(d.account, order, quote);
    RouteKeepsSound(l, d, u, o, r, quote);
  }

  lemma ApplyCooldownKeeps(cfg: FbConfig, env: TickEnv, st: PaperState, s: Symbol, kind: Outcome)
    ensures var st' := ApplyCooldown(cfg, env, st, s, kind);
            && st'.tradeCount == st.tradeCount && st'.day == st.day
            && st'.carry == st.carry.(stopouts := st'.carry.stopouts, stopoutDay := st'.carry.stopoutDay)
  {
  }

  /** What an accepted order does to the paper state, cooldowns and stop counts aside. */
  lemma OnAcceptedMeaning(
    cfg: FbConfig, env: TickEnv, st: PaperState, pending: map<Symbol, Meta>, fo: FbOrder, r: OrderResult)
    ensures var (st', pending') := OnAccepted(cfg, env, st, pending, fo, r);
            var s := fo.order.symbol;
            && st'.day == st.day
            && st'.carry.lossDays == st.carry.lossDays && st'.carry.restUntil == st.carry.restUntil
            && (fo.order.side.Sell? ==> pending' == pending && st'.tradeCount == st.tradeCount
                                        && st'.carry.entered == st.carry.entered)
            && (fo.order.side.Sell? && s !in st.carry.positions ==>
                 st' == st.(cooldownUntil := st.cooldownUntil - {s}))
            && (fo.order.side.Sell? && s in st.carry.positions ==>
                 st'.carry.positions == ReduceCarry(st.carry, env.today, s, fo.order.quantity).positions)
            && (fo.order.side.Buy? && s in pending ==>
                 && pending' == pending - {s} && st'.tradeCount == st.tradeCount + 1
                 && st'.carry == Enter(st.carry, s, pending[s]))
  {
    hide ReduceCarry;
    var cleared := st.(cooldownUntil := st.cooldownUntil - {fo.order.symbol});
    var s := fo.order.symbol;
    if fo.order.side.Sell? && s in st.carry.positions {
      var reference := st.carry.positions[s].refClose;
      var kind := ClassifyExit(fo.reason, PctOver(FillBasis(fo, r, reference), reference));
      var reduced := ReduceCarry(st.carry, env.today, s, fo.order.quantity);
      ApplyCooldownKeeps(cfg, env, cleared.(carry := reduced), s, kind);
      ReduceCarryKeeps(st.carry, env.today, s, fo.order.quantity);
      hide ApplyCooldown, ClassifyExit, PctOver;
      assert SellAccepted(cfg, env, cleared, fo, r) == ApplyCooldown(cfg, env, cleared.(carry := reduced), s, kind);
    }
  }

  lemma ReduceCarryKeeps(carry: Carry, today: Day, s: Symbol, sold: int)
    requires s in carry.positions
    ensures var c := ReduceCarry(carry, today, s, sold);
            && c == carry.(positions := c.positions, lastExit := c.lastExit)
            && (c.positions == carry.positions - {s}
                || (s in c.positions && c.positions == carry.positions[s := c.positions[s]]
                    && c.positions[s].runnerTarget == carry.positions[s].runnerTarget))
  {
  }

  /** After an accepted sale of a carried symbol the buy gate stays closed for the cooldown that the
      outcome earns, a minute at least, and a repeated stop of the day earns the repeat cooldown. */
  lemma SaleClosesBuyGate(cfg: FbConfig, env: TickEnv, st: PaperState, fo: FbOrder, r: OrderResult, later: TickEnv)
    requires fo.order.symbol in st.carry.positions
    ensures var s, reference := fo.order.symbol, st.carry.positions[fo.order.symbol].refClose;
            var kind := ClassifyExit(fo.reason, PctOver(FillBasis(fo, r, reference), reference));
            var st' := SellAccepted(cfg, env, st, fo, r);
            var stoppedBefore :=
              st.carry.stopoutDay == Some(env.today) && s in st.carry.stopouts && st.carry.stopouts[s] >= 1;
            var stopMinutes := if stoppedBefore then cfg.cooldownAfterRepeatStop else cfg.cooldownAfterStop;
            var minutes := st'.cooldownUntil[s] - env.clock.utc;
            && s in st'.cooldownUntil && minutes >= MINUTE
            && (later.clock.utc < env.clock.utc + minutes ==> !BuyAllowed(cfg, later, st', s))
            && (kind.Stop? ==>
                 && minutes == MaxInt(1, stopMinutes) * MINUTE
                 && s in st'.carry.stopouts && st'.carry.stopouts[s] >= 1 && st'.carry.stopoutDay == Some(env.today))
            && (kind.Profit? ==> minutes == MaxInt(1, cfg.cooldownAfterProfit) * MINUTE)
  {
    hide PctOver, ClassifyExit;
  }

  /** Taking profit on a gap or a signal counts as a profit, a gap down or a weak morning as a stop,
      whatever the price; otherwise 0.12% over the recorded close is a profit and 0.18% under it a stop. */
  ghost predicate SoldAtProfit(reason: Option<ExitReason>, price: real, reference: real) {
    || reason in {Some(GapUpScaleout), Some(GapUpFullFade), Some(RsiFlagTakeProfit)}
    || (reason !in {Some(GapDownStop), Some(WeakMorningFlush)} && reference > 0.0 && price >= reference * 1.0012)
  }

  ghost predicate SoldAtStop(reason: Option<ExitReason>, price: real, reference: real) {
    || reason in {Some(GapDownStop), Some(WeakMorningFlush)}
    || (reason !in {Some(GapUpScaleout), Some(GapUpFullFade), Some(RsiFlagTakeProfit)}
        && reference > 0.0 && price <= reference * 0.9982)
  }

  lemma OutcomeOnPrices(reason: Option<ExitReason>, price: real, reference: real)
    ensures var kind := ClassifyExit(reason, PctOver(price, reference));
            && (kind.Profit? <==> SoldAtProfit(reason, price, reference))
            && (kind.Stop? <==> SoldAtStop(reason, price, reference))
  {
    hide PctOver;
    if reference > 0.0 {
      PctAsPrice(price, reference, 0.12);
      PctAsPrice(price, reference, -0.18);
      assert reference * 0.9982 < reference * 1.0012;
    } else {
      NoBaseNoPct(price, reference);
    }
  }

  /** The price of an accepted sale: the broker's, else the order's, else the recorded close. */
  ghost predicate SoldAt(fo: FbOrder, r: OrderResult, price: real, reference: real) {
    || r.avgFillPrice == Some(price)
    || (r.avgFillPrice.None? && fo.order.price == Some(price))
    || (r.avgFillPrice.None? && fo.order.price.None? && price == reference)
  }

  /** What an accepted sale costs in waiting, on prices: a profit, a first stop of the day, a repeated
      stop and a flat sale each close the buy gate for their own time, and stops are counted by day. */
  lemma SaleOnPrices(
    cfg: FbConfig, env: TickEnv, st: PaperState, fo: FbOrder, r: OrderResult, price: real)
    requires fo.order.symbol in st.carry.positions
    requires SoldAt(fo, r, price, st.carry.positions[fo.order.symbol].refClose)
    ensures var s, reference := fo.order.symbol, st.carry.positions[fo.order.symbol].refClose;
            var st' := SellAccepted(cfg, env, st, fo, r);
            var before := if st.carry.stopoutDay == Some(env.today) && s in st.carry.stopouts
                          then st.carry.stopouts[s] else 0;
            var profit, stop := SoldAtProfit(fo.reason, price, reference), SoldAtStop(fo.reason, price, reference);
            var minutes := if profit then cfg.cooldownAfterProfit
                           else if stop && before == 0 then cfg.cooldownAfterStop
                           else if stop then cfg.cooldownAfterRepeatStop
                           else (cfg.cooldownAfterProfit + cfg.cooldownAfterStop) / 2;
            && s in st'.cooldownUntil
            && st'.cooldownUntil[s] == env.clock.utc + (if minutes <= 1 then MINUTE else minutes * MINUTE)
            && st'.carry.stopoutDay == Some(env.today)
            && (stop ==> s in st'.carry.stopouts && st'.carry.stopouts[s] == before + 1)
            && (!stop ==> (if s in st'.carry.stopouts then st'.carry.stopouts[s] else 0) == before)
            && (forall k :: k != s ==>
                  && (k in st'.cooldownUntil <==> k in st.cooldownUntil)
                  && (k in st.cooldownUntil ==> st'.cooldownUntil[k] == st.cooldownUntil[k])
                  && (st.carry.stopoutDay == Some(env.today) ==>
                       && (k in st'.carry.stopouts <==> k in st.carry.stopouts)
                       && (k in st.carry.stopouts ==> st'.carry.stopouts[k] == st.carry.stopouts[k]))
                  && (st.carry.stopoutDay != Some(env.today) ==> k !in st'.carry.stopouts))
  {
    var reference := st.carry.positions[fo.order.symbol].refClose;
    assert FillBasis(fo, r, reference) == price;
    OutcomeOnPrices(fo.reason, price, reference);
    hide PctOver, ClassifyExit, SoldAtProfit, SoldAtStop, SoldAt, FillBasis;
  }

  /** A sale of the whole carried holding ends it and bars the symbol from new entries for the
      re-entry days, over any day roll; a smaller sale leaves exactly the rest, marked as partly sold. */
  lemma SaleEndsOrMarks(
    cfg: FbConfig, env: TickEnv, st: PaperState, fo: FbOrder, r: OrderResult, later: TickEnv, held: seq<Holding>)
    requires fo.order.symbol in st.carry.positions && env.today <= later.today
    ensures var s, meta := fo.order.symbol, st.carry.positions[fo.order.symbol];
            var carry := RollDay(SellAccepted(cfg, env, st, fo, r), later.today).carry;
            && (s in carry.positions <==> fo.order.quantity < meta.shares)
            && (s in carry.positions ==>
                 carry.positions[s] == meta.(shares := meta.shares - fo.order.quantity, partialDone := true))
            && (fo.order.quantity >= meta.shares && later.today < env.today + cfg.reentryCooldownDays ==>
                 !Eligible(cfg, later, carry, held, s))
  {
    hide PctOver, ClassifyExit;
  }

  /** One executed order keeps the carry and the broker in step. */
  lemma ExecuteOneKeeps(cfg: FbConfig, env: TickEnv, x: Execution, fo: FbOrder)
    requires Executing(x) && NoEarlier(env.clock.second, env.clock.first)
    requires fo.order.side.Buy? ==> BuyReady(x, fo)
    ensures Executing(ExecuteOne(cfg, env, x, fo))
  {
    hide Route, OnAccepted, HoldingsMatchLog, ListsHoldings, HoldingsSound, Notional;
    var reading := Reading(env.today, env.clock.first, env.clock.second);
    var (desk, r) := Route(cfg.limits, x.desk, env.universe, fo.order, reading, cfg.quote);
    RouteOnAccount(cfg.limits, x.desk, env.universe, fo.order, reading, cfg.quote);
    OnAcceptedMeaning(cfg, env, x.state, x.pending, fo, r);
    if env.ordersAllowed && r.accepted && fo.order.side.Buy? {
      var x' := ExecuteOne(cfg, env, x, fo);
      assert x'.state.carry.entered == x.state.carry.entered + [fo.order.symbol];
    }
  }

  /** How far one executed order reaches. */
  ghost predicate Reach(x: Execution, x': Execution, fo: FbOrder) {
    var s, buy := fo.order.symbol, fo.order.side.Buy?;
    var bought := |x'.bought| > |x.bought|;
    && x'.state.day == x.state.day
    && x'.state.carry.lossDays == x.state.carry.lossDays
    && x'.state.carry.restUntil == x.state.carry.restUntil
    && (bought ==> buy && x'.bought == x.bought + [s] && x'.state.carry.entered == x.state.carry.entered + [s])
    && (!bought ==> x'.bought == x.bought && x'.state.carry.entered == x.state.carry.entered)
    && (forall k :: k != s ==>
          && (k in x'.desk.account.positions <==> k in x.desk.account.positions)
          && (k in x'.pending <==> k in x.pending)
          && (k in x.pending ==> x'.pending[k] == x.pending[k])
          && (k in x'.state.carry.positions <==> k in x.state.carry.positions)
          && (k in x.state.carry.positions ==> x'.state.carry.positions[k] == x.state.carry.positions[k]))
    && (!buy && s in x'.state.carry.positions ==>
          s in x.state.carry.positions
          && x'.state.carry.positions[s].runnerTarget == x.state.carry.positions[s].runnerTarget)
    && (!buy && s in x'.desk.account.positions ==> s in x.desk.account.positions)
    && (!buy ==> x'.pending == x.pending)
  }

  lemma ExecuteOneReaches(cfg: FbConfig, env: TickEnv, x: Execution, fo: FbOrder)
    requires Executing(x) && NoEarlier(env.clock.second, env.clock.first)
    requires fo.order.side.Buy? ==> BuyReady(x, fo)
    ensures Reach(x, ExecuteOne(cfg, env, x, fo), fo)
  {
    hide Route, OnAccepted, HoldingsMatchLog, ListsHoldings, HoldingsSound, Notional, ReduceCarry;
    var reading := Reading(env.today, env.clock.first, env.clock.second);
    var (desk, r) := Route(cfg.limits, x.desk, env.universe, fo.order, reading, cfg.quote);
    RouteOnAccount(cfg.limits, x.desk, env.universe, fo.order, reading, cfg.quote);
    OnAcceptedMeaning(cfg, env, x.state, x.pending, fo, r);
    if fo.order.side.Sell? && fo.order.symbol in x.state.carry.positions {
      ReduceCarryKeeps(x.state.carry, env.today, fo.order.symbol, fo.order.quantity);
    }
  }

  ghost predicate Buys(orders: seq<FbOrder>, s: Symbol) {
    exists i :: 0 <= i < |orders| && orders[i].order.side.Buy? && orders[i].order.symbol == s
  }

  function CountBuys(orders: seq<FbOrder>): nat {
    if orders == [] then 0
    else CountBuys(orders[..|orders| - 1]) + if orders[|orders| - 1].order.side.Buy? then 1 else 0
  }

  /** The orders of one tick: every buy ready, no symbol bought twice. */
  ghost predicate Queued(x: Execution, orders: seq<FbOrder>) {
    && (forall i :: 0 <= i < |orders| && orders[i].order.side.Buy? ==> BuyReady(x, orders[i]))
    && (forall i, j :: 0 <= i < j < |orders| && orders[i].order.side.Buy? && orders[j].order.side.Buy? ==>
          orders[i].order.symbol != orders[j].order.symbol)
  }

  /** From the start of the order loop to some later point of it. */
  ghost predicate Progress(x: Execution, x': Execution, orders: seq<FbOrder>) {
    && Executing(x')
    && x'.state.day == x.state.day
    && x'.state.carry.lossDays == x.state.carry.lossDays
    && x'.state.carry.restUntil == x.state.carry.restUntil
    && x'.state.carry.entered == x.state.carry.entered + x'.bought
    && |x'.bought| <= CountBuys(orders)
    && (forall s :: s in x'.bought ==> Buys(orders, s))
    && (forall s :: !Buys(orders, s) ==>
          && (s in x'.desk.account.positions ==> s in x.desk.account.positions)
          && (s in x.pending ==> s in x'.pending && x'.pending[s] == x.pending[s])
          && (s in x'.state.carry.positions ==>
                s in x.state.carry.positions
                && x'.state.carry.positions[s].runnerTarget == x.state.carry.positions[s].runnerTarget))
  }

  lemma BuysAppend(orders: seq<FbOrder>, fo: FbOrder, s: Symbol)
    ensures Buys(orders + [fo], s) <==> Buys(orders, s) || (fo.order.side.Buy? && fo.order.symbol == s)
  {
    var all := orders + [fo];
    if Buys(orders, s) {
      var i :| 0 <= i < |orders| && orders[i].order.side.Buy? && orders[i].order.symbol == s;
      assert all[i] == orders[i];
    }
    if fo.order.side.Buy? && fo.order.symbol == s {
      assert all[|orders|] == fo;
    }
  }

  lemma StillReady(x: Execution, before: Execution, orders: seq<FbOrder>, fo: FbOrder)
    requires Progress(x, before, orders) && fo.order.side.Buy?
    requires BuyReady(x, fo) && !Buys(orders, fo.order.symbol)
    ensures BuyReady(before, fo)
  {
  }

  lemma ProgressStep(x: Execution, before: Execution, after: Execution, orders: seq<FbOrder>, fo: FbOrder)
    requires Progress(x, before, orders) && Executing(after) && Reach(before, after, fo)
    ensures Progress(x, after, orders + [fo])
  {
    hide Executing;
    var all := orders + [fo];
    assert all[..|orders|] == orders;
    forall s ensures Buys(all, s) <==> Buys(orders, s) || (fo.order.side.Buy? && fo.order.symbol == s) {
      BuysAppend(orders, fo, s);
    }
    hide Buys;
  }

  /** The order loop keeps carry and broker in step, and enters exactly what it bought. */
  lemma {:induction false} ExecuteKeeps(cfg: FbConfig, env: TickEnv, x: Execution, orders: seq<FbOrder>)
    requires Executing(x) && TimelyTick(env) && Queued(x, orders) && x.bought == []
    ensures Progress(x, Execute(cfg, env, x, orders), orders)
  {
    hide ExecuteOne, Executing, Reach, BuyReady;
    if orders == [] {
      assert x.state.carry.entered == x.state.carry.entered + x.bought;
    } else {
      var prefix, fo := orders[..|orders| - 1], orders[|orders| - 1];
      var before := Execute(cfg, env, x, prefix);
      ExecuteKeeps(cfg, env, x, prefix);
      if fo.order.side.Buy? {
        StillReady(x, before, prefix, fo);
      }
      var now := AtOrder(env, |orders| - 1);
      ExecuteOneKeeps(cfg, now, before, fo);
      ExecuteOneReaches(cfg, now, before, fo);
      ProgressStep(x, before, ExecuteOne(cfg, now, before, fo), prefix, fo);
      assert prefix + [fo] == orders;
    }
  }

  // ---- a whole tick ------------------------------------------------------------------------------

  lemma {:induction false} GatedKeepsQueue(
    cfg: FbConfig, env: TickEnv, st: PaperState, x: Execution, orders: seq<FbOrder>)
    requires Queued(x, orders)
    ensures var g := GatedOrders(cfg, env, st, orders);
            && Queued(x, g) && CountBuys(g) <= CountBuys(orders)
            && (forall s :: Buys(g, s) ==> Buys(orders, s))
  {
    hide BuyReady, BuyAllowed, Buys, CountBuys, Queued;
    if orders == [] {
      assert GatedOrders(cfg, env, st, orders) == [];
    } else {
      var prefix, fo := orders[..|orders| - 1], orders[|orders| - 1];
      var g := GatedOrders(cfg, env, st, prefix);
      assert orders == prefix + [fo] && g + [] == g;
      QueuedPrefix(x, prefix, fo);
      GatedKeepsQueue(cfg, env, st, x, prefix);
      GateStep(x, prefix, g, fo);
    }
  }

  lemma QueuedPrefix(x: Execution, prefix: seq<FbOrder>, fo: FbOrder)
    requires Queued(x, prefix + [fo])
    ensures Queued(x, prefix)
  {
    hide BuyReady;
    var all := prefix + [fo];
    assert forall i :: 0 <= i < |prefix| ==> all[i] == prefix[i];
  }

  lemma GateStep(x: Execution, prefix: seq<FbOrder>, g: seq<FbOrder>, fo: FbOrder)
    requires Queued(x, prefix + [fo]) && Queued(x, g) && CountBuys(g) <= CountBuys(prefix)
    requires forall s :: Buys(g, s) ==> Buys(prefix, s)
    ensures Queued(x, g + [fo]) && CountBuys(g + [fo]) <= CountBuys(prefix + [fo])
    ensures CountBuys(g) <= CountBuys(prefix + [fo])
    ensures forall s :: Buys(g + [fo], s) || Buys(g, s) ==> Buys(prefix + [fo], s)
  {
    hide BuyReady;
    assert (g + [fo])[..|g|] == g && (prefix + [fo])[..|prefix|] == prefix;
    assert (prefix + [fo])[|prefix|] == fo;
    NewBuyIsNew(x, prefix, g, fo);
    hide Buys;
    forall s ensures Buys(g + [fo], s) || Buys(g, s) ==> Buys(prefix + [fo], s) {
      BuysAppend(prefix, fo, s);
      BuysAppend(g, fo, s);
    }
  }

  lemma NewBuyIsNew(x: Execution, prefix: seq<FbOrder>, g: seq<FbOrder>, fo: FbOrder)
    requires Queued(x, prefix + [fo]) && forall s :: Buys(g, s) ==> Buys(prefix, s)
    ensures forall i :: 0 <= i < |g| && g[i].order.side.Buy? && fo.order.side.Buy? ==>
                          g[i].order.symbol != fo.order.symbol
  {
    hide BuyReady;
    var all := prefix + [fo];
    forall i | 0 <= i < |g| && g[i].order.side.Buy? && fo.order.side.Buy?
      ensures g[i].order.symbol != fo.order.symbol
    {
      assert Buys(g, g[i].order.symbol);
      var j :| 0 <= j < |prefix| && prefix[j].order.side.Buy? && prefix[j].order.symbol == g[i].order.symbol;
      assert all[j] == prefix[j] && all[|prefix|] == fo;
    }
  }

  lemma {:induction false} SalesAreNoBuys(orders: seq<FbOrder>)
    requires forall i :: 0 <= i < |orders| ==> orders[i].order.side.Sell?
    ensures CountBuys(orders) == 0
  {
    if orders != [] {
      SalesAreNoBuys(orders[..|orders| - 1]);
    }
  }

  lemma {:induction false} CountAppendedBuys(orders: seq<FbOrder>, picks: seq<Candidate>)
    ensures CountBuys(orders + BuyOrders(picks)) == CountBuys(orders) + |picks|
  {
    hide EntryShares;
    if picks == [] {
      assert orders + BuyOrders(picks) == orders;
    } else {
      var last := picks[|picks| - 1];
      var all := orders + BuyOrders(picks);
      CountAppendedBuys(orders, picks[..|picks| - 1]);
      assert all[..|all| - 1] == orders + BuyOrders(picks[..|picks| - 1]);
      assert all[|all| - 1] == BuyOrder(last);
    }
  }

  /** Rolling to another day keeps the positions, the loss days, the rest date, the last exits and a sound
      tally; counts, cooldowns, guards, entries and stops of the day start anew. */
  lemma RollDayKeeps(st: PaperState, today: Day)
    ensures Tallied(st) ==> Tallied(RollDay(st, today))
    ensures st.day == today ==> RollDay(st, today) == st
    ensures st.day != today ==>
              var r := RollDay(st, today);
              && r.tradeCount == 0 && r.cooldownUntil == map[] && r.lastBuy == map[]
              && r.carry.entered == [] && r.carry.stopouts == map[] && r.carry.stopoutDay == Some(today)
              && r.carry.lastExit == st.carry.lastExit
    ensures RollDay(st, today).day == today
    ensures RollDay(st, today).carry.positions == st.carry.positions
    ensures RollDay(st, today).carry.lossDays == st.carry.lossDays
    ensures RollDay(st, today).carry.restUntil == st.carry.restUntil
  {
  }

  /** The picks behind the buys of a tick. */
  ghost function TickPicks(cfg: FbConfig, env: TickEnv, w: World): seq<Candidate> {
    var carry, held := RollDay(w.saved, env.today).carry, PosSymbols(Portfolio(w.desk.account));
    if EntriesOpen(cfg, env, carry.restUntil, RiskHalt(cfg, env, w)) then
      EntryPicks(cfg, env, ExitScan(cfg, env, carry, held).carry, held)
    else []
  }

  lemma SignalShape(cfg: FbConfig, env: TickEnv, w: World)
    ensures var g := Signals(cfg, env, w);
            var carry, held := RollDay(w.saved, env.today).carry, PosSymbols(Portfolio(w.desk.account));
            var scan := ExitScan(cfg, env, carry, held);
            && g.carry == scan.carry
            && g.orders == scan.orders + BuyOrders(TickPicks(cfg, env, w))
            && g.pending == Pend(w.pending, env.today, TickPicks(cfg, env, w))
  {
    hide ExitScan, EntryPicks, RollDay, EntriesOpen, RiskHalt, Portfolio, PosSymbols;
  }

  /** The picks of a tick are new symbols and fit both caps. */
  lemma TickPicksMeaning(cfg: FbConfig, env: TickEnv, w: World)
    requires InStep(w) && TimelyTick(env)
    ensures var p, cap := TickPicks(cfg, env, w), EffectiveCap(cfg, env);
            var entered := RollDay(w.saved, env.today).carry.entered;
            && DistinctSymbols(p)
            && (forall i :: 0 <= i < |p| ==>
                  p[i].Shares() > 0 && p[i].symbol !in w.desk.account.positions && p[i].symbol !in entered)
            && |Portfolio(w.desk.account)| + |p| <= MaxInt(|Portfolio(w.desk.account)|, cap)
            && |entered| + |p| <= MaxInt(|entered|, cap)
  {
    hide ExitScan, EntryPicks, RollDay, EntriesOpen, RiskHalt, Portfolio, PosSymbols, AccountInOrder;
    var carry, held := RollDay(w.saved, env.today).carry, PosSymbols(Portfolio(w.desk.account));
    StrategySeesHoldings(w.desk.account);
    ExitScanKeepsShares(cfg, env, carry, held);
    EntryPicksMeaning(cfg, env, ExitScan(cfg, env, carry, held).carry, held);
  }

  lemma ReadyToExecute(cfg: FbConfig, env: TickEnv, w: World)
    requires InStep(w) && TimelyTick(env)
    ensures var x := Ready(cfg, env, w);
            && Executing(x) && Queued(x, TickQueue(cfg, env, w))
            && CountBuys(TickQueue(cfg, env, w)) <= |TickPicks(cfg, env, w)|
            && (forall s :: Buys(TickQueue(cfg, env, w), s) ==>
                  s !in w.desk.account.positions && s !in x.state.carry.entered)
  {
    hide ExitScan, RollDay, RiskHalt, Portfolio, PosSymbols, AccountInOrder, TickPicks, Signals, GatedOrders, Equity,
      EntryShares, EffectiveCap, Distinct;
    var x, g, p := Ready(cfg, env, w), Signals(cfg, env, w), TickPicks(cfg, env, w);
    var carry, held := RollDay(w.saved, env.today).carry, PosSymbols(Portfolio(w.desk.account));
    var scan := ExitScan(cfg, env, carry, held);
    RollDayKeeps(w.saved, env.today);
    SignalShape(cfg, env, w);
    TickPicksMeaning(cfg, env, w);
    ExitScanKeepsShares(cfg, env, carry, held);
    PendMeaning(w.pending, env.today, p);
    assert Queued(x, g.orders) by {
      forall i | 0 <= i < |g.orders| && g.orders[i].order.side.Buy?
        ensures i >= |scan.orders| && g.orders[i] == BuyOrder(p[i - |scan.orders|]) && BuyReady(x, g.orders[i])
      {
        assert g.orders[i] == BuyOrders(p)[i - |scan.orders|];
      }
    }
    SalesAreNoBuys(scan.orders);
    CountAppendedBuys(scan.orders, p);
    GatedKeepsQueue(cfg, env, x.state, x, g.orders);
  }

  /** Every tick keeps the carry a mirror of the broker. */
  lemma TickKeepsInStep(cfg: FbConfig, env: TickEnv, w: World)
    requires InStep(w) && TimelyTick(env)
    ensures InStep(Tick(cfg, env, w).0)
  {
    hide RollDay, Ready, TickQueue, Execute, AccountInOrder, Signals, TickHalts, Equity, Queued, Buys;
    if !TickHalts(cfg, env, w) {
      var x := Execute(cfg, env, Ready(cfg, env, w), TickQueue(cfg, env, w));
      assert Executing(x) by { TickExecutes(cfg, env, w); }
      RollDayKeeps(x.state, env.saveDay);
    }
  }

  lemma TickExecutes(cfg: FbConfig, env: TickEnv, w: World)
    requires InStep(w) && TimelyTick(env)
    ensures Executing(Execute(cfg, env, Ready(cfg, env, w), TickQueue(cfg, env, w)))
  {
    hide Executing, Queued, Execute, Ready, TickQueue, Buys;
    ReadyToExecute(cfg, env, w);
    NothingBoughtYet(cfg, env, w);
    ExecuteKeeps(cfg, env, Ready(cfg, env, w), TickQueue(cfg, env, w));
  }

  lemma NothingBoughtYet(cfg: FbConfig, env: TickEnv, w: World)
    ensures Ready(cfg, env, w).bought == []
  {
  }
}
