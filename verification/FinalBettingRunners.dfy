/** Exit signals of whole ticks and runs: the deadline, and the one scale-out of a carried position. */
module FinalBettingRunners {
  import opened Common
  import opened PaperAccount
  import opened FinalBettingExits
  import opened FinalBettingState
  import opened FinalBettingTicks
  import opened FinalBettingRuns

  ghost predicate DistinctHoldings(held: seq<Holding>) {
    forall i, j :: 0 <= i < j < |held| ==> held[i].symbol != held[j].symbol
  }

  ghost predicate HasOrder(orders: seq<FbOrder>, fo: FbOrder) {
    exists i :: 0 <= i < |orders| && orders[i] == fo
  }

  /** The chain signals an exit for this holding. */
  ghost predicate Exits(cfg: FbConfig, env: TickEnv, carry: Carry, h: Holding) {
    Watched(env, carry, h.symbol) && DecisionFor(cfg, env, carry, h).reason.Some?
  }

  lemma HoldsExtends(held: seq<Holding>, s: Symbol)
    requires held != []
    ensures Holds(held[..|held| - 1], s) || held[|held| - 1].symbol == s ==> Holds(held, s)
  {
    var prefix := held[..|held| - 1];
    if Holds(prefix, s) {
      var i :| 0 <= i < |prefix| && prefix[i].symbol == s;
      assert held[i].symbol == s;
    }
  }

  lemma DistinctLast(held: seq<Holding>)
    requires held != [] && DistinctHoldings(held)
    ensures !Holds(held[..|held| - 1], held[|held| - 1].symbol)
  {
  }

  /** Each holding is decided from its own entry of the carry, untouched by the others. */
  lemma {:induction false} ScanLeavesOthers(cfg: FbConfig, env: TickEnv, carry: Carry, held: seq<Holding>, s: Symbol)
    requires !Holds(held, s)
    ensures var c := ExitScan(cfg, env, carry, held).carry;
            && (s in c.positions <==> s in carry.positions)
            && (s in c.positions ==> c.positions[s] == carry.positions[s])
  {
    hide DecideExit, RecordFullExit;
    if held != [] {
      var prefix, h := held[..|held| - 1], held[|held| - 1];
      HoldsExtends(held, s);
      ScanLeavesOthers(cfg, env, carry, prefix, s);
      RecordKeepsPositions(ExitScan(cfg, env, carry, prefix).carry, env, h);
    }
  }

  lemma RecordKeepsPositions(carry: Carry, env: TickEnv, h: Holding)
    ensures forall c: Carry, pnlPct: real :: RecordFullExit(c, env.today, pnlPct).positions == c.positions
  {
  }

  lemma StepOnSymbol(cfg: FbConfig, env: TickEnv, scan: Scan, h: Holding)
    requires Watched(env, scan.carry, h.symbol)
    ensures var d, scan' := DecisionFor(cfg, env, scan.carry, h), ExitStep(cfg, env, scan, h);
            && h.symbol in scan'.carry.positions && scan'.carry.positions[h.symbol] == d.meta
            && scan'.orders == scan.orders + if d.reason.Some? then [SellOrder(env, h, d)] else []
  {
    hide DecideExit, RecordFullExit;
    RecordKeepsPositions(scan.carry, env, h);
  }

  /** The exit orders of a scan are exactly the chain's exits of the holdings, one each. */
  lemma {:induction false} ScanOrdersExact(
    cfg: FbConfig, env: TickEnv, carry: Carry, held: seq<Holding>, i: nat)
    requires DistinctHoldings(held) && i < |held|
    ensures var scan, h := ExitScan(cfg, env, carry, held), held[i];
            && (Watched(env, carry, h.symbol) ==>
                 && h.symbol in scan.carry.positions
                 && scan.carry.positions[h.symbol] == DecisionFor(cfg, env, carry, h).meta)
            && (forall fo :: HasOrder(scan.orders, fo) && fo.order.symbol == h.symbol <==>
                  Exits(cfg, env, carry, h) && fo == SellOrder(env, h, DecisionFor(cfg, env, carry, h)))
  {
    hide DecideExit, RecordFullExit, ExitStep;
    var prefix, last := held[..|held| - 1], held[|held| - 1];
    var before, h := ExitScan(cfg, env, carry, prefix), held[i];
    if i < |prefix| {
      ScanOrdersExact(cfg, env, carry, prefix, i);
      StepLeavesSymbol(cfg, env, before, last, h.symbol);
    } else {
      DistinctLast(held);
      ScanLeavesOthers(cfg, env, carry, prefix, h.symbol);
      ScanOrdersOnlyHeld(cfg, env, carry, prefix, h.symbol);
      if Watched(env, carry, h.symbol) {
        StepOnSymbol(cfg, env, before, h);
        AppendedOrder(before.orders, SellOrder(env, h, DecisionFor(cfg, env, carry, h)));
      } else {
        UnwatchedStep(cfg, env, before, h);
      }
    }
  }

  lemma UnwatchedStep(cfg: FbConfig, env: TickEnv, scan: Scan, h: Holding)
    requires !Watched(env, scan.carry, h.symbol)
    ensures ExitStep(cfg, env, scan, h) == scan
  {
  }

  lemma AppendedOrder(orders: seq<FbOrder>, added: FbOrder)
    ensures forall fo :: HasOrder(orders + [added], fo) <==> HasOrder(orders, fo) || fo == added
  {
    var all := orders + [added];
    assert all[|orders|] == added;
    forall fo ensures HasOrder(all, fo) <==> HasOrder(orders, fo) || fo == added {
      if HasOrder(orders, fo) {
        var i :| 0 <= i < |orders| && orders[i] == fo;
        assert all[i] == fo;
      }
    }
  }

  lemma StepLeavesSymbol(cfg: FbConfig, env: TickEnv, scan: Scan, last: Holding, s: Symbol)
    requires last.symbol != s
    ensures var scan' := ExitStep(cfg, env, scan, last);
            && (s in scan'.carry.positions <==> s in scan.carry.positions)
            && (s in scan.carry.positions ==> scan'.carry.positions[s] == scan.carry.positions[s])
            && (forall fo: FbOrder :: fo.order.symbol == s ==>
                  (HasOrder(scan'.orders, fo) <==> HasOrder(scan.orders, fo)))
  {
    hide DecideExit, RecordFullExit;
    RecordKeepsPositions(scan.carry, env, last);
    if Watched(env, scan.carry, last.symbol) {
      AppendedOrder(scan.orders, SellOrder(env, last, DecisionFor(cfg, env, scan.carry, last)));
    }
  }

  lemma {:induction false} ScanOrdersOnlyHeld(
    cfg: FbConfig, env: TickEnv, carry: Carry, held: seq<Holding>, s: Symbol)
    requires !Holds(held, s)
    ensures forall fo :: HasOrder(ExitScan(cfg, env, carry, held).orders, fo) ==> fo.order.symbol != s
  {
    hide ExitStep;
    if held != [] {
      var prefix, last := held[..|held| - 1], held[|held| - 1];
      HoldsExtends(held, s);
      ScanOrdersOnlyHeld(cfg, env, carry, prefix, s);
      StepLeavesSymbol(cfg, env, ExitScan(cfg, env, carry, prefix), last, s);
    }
  }

  // ---- one tick ------------------------------------------------------------------------------------

  ghost function HoldingOf(a: Account, s: Symbol): Holding
    requires s in a.positions
  {
    Holding(s, a.positions[s].quantity, a.positions[s].averagePrice)
  }

  /** Carried since an earlier day, with bars, in the regular session. */
  ghost predicate Overnight(env: TickEnv, w: World, s: Symbol) {
    && s in w.desk.account.positions && s in w.saved.carry.positions
    && w.saved.carry.positions[s].entryDay != env.today
    && s in env.views && env.regularSession
  }

  ghost function TickDecision(cfg: FbConfig, env: TickEnv, w: World, s: Symbol): ExitDecision
    requires Overnight(env, w, s)
  {
    DecisionFor(cfg, env, w.saved.carry, HoldingOf(w.desk.account, s))
  }

  ghost predicate SignalsSale(log: TickLog, s: Symbol, quantity: int, reason: Option<ExitReason>) {
    exists fo: FbOrder :: HasOrder(log.signals, fo) && fo.order.symbol == s
      && fo.order.side.Sell? && fo.order.quantity == quantity && fo.reason == reason
  }

  lemma HasOrderInSum(a: seq<FbOrder>, b: seq<FbOrder>, fo: FbOrder)
    ensures HasOrder(a + b, fo) <==> HasOrder(a, fo) || HasOrder(b, fo)
  {
    var all := a + b;
    if HasOrder(a, fo) {
      var i :| 0 <= i < |a| && a[i] == fo;
      assert all[i] == fo;
    }
    if HasOrder(b, fo) {
      var i :| 0 <= i < |b| && b[i] == fo;
      assert all[|a| + i] == fo;
    }
  }

  /** For a held symbol the signals of a tick contain the chain's exit and nothing else. */
  lemma TickOrdersOf(cfg: FbConfig, env: TickEnv, w: World, s: Symbol)
    requires InStep(w) && TimelyTick(env) && s in w.desk.account.positions
    ensures forall fo :: HasOrder(Signals(cfg, env, w).orders, fo) && fo.order.symbol == s <==>
              && Overnight(env, w, s) && TickDecision(cfg, env, w, s).reason.Some?
              && fo == SellOrder(env, HoldingOf(w.desk.account, s), TickDecision(cfg, env, w, s))
  {
    hide DecideExit, Signals, TickPicks, ExitScan, AccountInOrder, Portfolio, PosSymbols, RollDay, HasOrder, SellOrder;
    var a, carry := w.desk.account, RollDay(w.saved, env.today).carry;
    var held, picks := PosSymbols(Portfolio(a)), TickPicks(cfg, env, w);
    var scan := ExitScan(cfg, env, carry, held);
    RollDayKeeps(w.saved, env.today);
    StrategySeesHoldings(a);
    SignalShape(cfg, env, w);
    TickPicksMeaning(cfg, env, w);
    var i :| 0 <= i < |held| && held[i].symbol == s;
    assert held[i] == HoldingOf(a, s);
    ScanOrdersExact(cfg, env, carry, held, i);
    forall fo: FbOrder
      ensures HasOrder(Signals(cfg, env, w).orders, fo) && fo.order.symbol == s <==>
              HasOrder(scan.orders, fo) && fo.order.symbol == s
    {
      HasOrderInSum(scan.orders, BuyOrders(picks), fo);
      BuysAreNew(picks, a, fo);
    }
  }

  lemma BuysAreNew(picks: seq<Candidate>, a: Account, fo: FbOrder)
    requires forall i :: 0 <= i < |picks| ==> picks[i].symbol !in a.positions
    ensures HasOrder(BuyOrders(picks), fo) ==> fo.order.symbol !in a.positions
  {
  }

  /** A tick signals a sale of a held symbol exactly when the chain exits it, with the chain's
      reason and the chain's quantity, which lies between one share and the holding. */
  lemma TickSignalsChain(cfg: FbConfig, env: TickEnv, w: World, s: Symbol, quantity: int, reason: Option<ExitReason>)
    requires InStep(w) && TimelyTick(env) && !TickHalts(cfg, env, w) && s in w.desk.account.positions
    ensures SignalsSale(Tick(cfg, env, w).1, s, quantity, reason) <==>
            && Overnight(env, w, s)
            && TickDecision(cfg, env, w, s).reason.Some?
            && reason == TickDecision(cfg, env, w, s).reason
            && quantity == TickDecision(cfg, env, w, s).quantity
    ensures SignalsSale(Tick(cfg, env, w).1, s, quantity, reason) ==>
              1 <= quantity <= w.desk.account.positions[s].quantity
  {
    hide DecideExit, Signals, Tick, TickHalts, AccountInOrder, HasOrder, Executed, RollDay, TickPicks, Watched;
    StrategySeesQuantity(w, s);
    TickDetail(cfg, env, w);
    TickOrdersOf(cfg, env, w, s);
    if Overnight(env, w, s) && TickDecision(cfg, env, w, s).reason.Some? {
      OvernightQuantity(cfg, env, w, s);
      var fo := SellOrder(env, HoldingOf(w.desk.account, s), TickDecision(cfg, env, w, s));
      assert HasOrder(Signals(cfg, env, w).orders, fo);
    }
  }

  lemma OvernightQuantity(cfg: FbConfig, env: TickEnv, w: World, s: Symbol)
    requires Overnight(env, w, s) && TickDecision(cfg, env, w, s).reason.Some?
    requires w.desk.account.positions[s].quantity >= 1
    ensures s in env.views
    ensures 1 <= TickDecision(cfg, env, w, s).quantity <= w.desk.account.positions[s].quantity
  {
    hide DecideExit;
    ExitQuantityInRange(InputsFor(cfg, env, w.saved.carry.positions[s], HoldingOf(w.desk.account, s)));
  }

  ghost predicate SignalsFullExit(log: TickLog, w: World, s: Symbol)
    requires s in w.desk.account.positions
  {
    exists reason: Option<ExitReason> :: SignalsSale(log, s, w.desk.account.positions[s].quantity, reason)
  }

  /** From a deadline after 09:30 on, a regular-session tick signals the full exit of every
      overnight carry with bars, unless the strong runner in an aggressive market is allowed to hold. */
  lemma DeadlineTick(cfg: FbConfig, env: TickEnv, w: World, s: Symbol)
    requires InStep(w) && TimelyTick(env) && !TickHalts(cfg, env, w) && Overnight(env, w, s)
    requires env.now >= cfg.exitDeadline > At(9, 30)
    ensures var x := InputsFor(cfg, env, w.saved.carry.positions[s], HoldingOf(w.desk.account, s));
            && (SignalsFullExit(Tick(cfg, env, w).1, w, s) <==> !HeldThroughTimeValue(x))
            && (HeldThroughTimeValue(x) ==> env.mode.Aggressive? && env.health.Strong? && RunnerActive(x))
  {
    var x := InputsFor(cfg, env, w.saved.carry.positions[s], HoldingOf(w.desk.account, s));
    hide DecideExit, Tick, TickHalts, AccountInOrder, HeldThroughTimeValue, SignalsSale;
    assert x.qty >= 1 by { StrategySeesQuantity(w, s); }
    LateDeadlineSellsAll(x);
    var d, q := TickDecision(cfg, env, w, s), w.desk.account.positions[s].quantity;
    TickSignalsChain(cfg, env, w, s, q, d.reason);
    forall reason: Option<ExitReason> | SignalsSale(Tick(cfg, env, w).1, s, q, reason)
      ensures d.reason.Some? && d.quantity == q
    {
      TickSignalsChain(cfg, env, w, s, q, reason);
    }
  }

  lemma StrategySeesQuantity(w: World, s: Symbol)
    requires InStep(w) && s in w.desk.account.positions
    ensures w.desk.account.positions[s].quantity >= 1
  {
  }

  // ---- the life of one carried position -------------------------------------------------------------

  ghost predicate HasRunner(w: World, s: Symbol) {
    s in w.saved.carry.positions && w.saved.carry.positions[s].runnerTarget > 0
  }

  /** A runner keeps its target through a tick, for as long as it is carried. */
  lemma RunnerSurvivesTick(cfg: FbConfig, env: TickEnv, w: World, s: Symbol)
    requires InStep(w) && TimelyTick(env) && HasRunner(w, s)
    requires s in Tick(cfg, env, w).0.saved.carry.positions
    ensures HasRunner(Tick(cfg, env, w).0, s)
  {
    hide DecideExit, Signals, Executed, Tick, TickHalts, TickPicks, ExitScan, AccountInOrder, Portfolio,
      PosSymbols, RollDay;
    if TickHalts(cfg, env, w) {
      HaltedTick(cfg, env, w);
    } else {
      RunnerInSignals(cfg, env, w, s);
      TickDetail(cfg, env, w);
      RollDayKeeps(Executed(cfg, env, w).state, env.saveDay);
    }
  }

  lemma RunnerInSignals(cfg: FbConfig, env: TickEnv, w: World, s: Symbol)
    requires InStep(w) && TimelyTick(env) && s in w.saved.carry.positions
    ensures var meta, carry := w.saved.carry.positions[s], Signals(cfg, env, w).carry;
            && s in carry.positions
            && (Overnight(env, w, s) ==> carry.positions[s] == TickDecision(cfg, env, w, s).meta)
            && (meta.runnerTarget > 0 ==> carry.positions[s].runnerTarget == meta.runnerTarget)
  {
    hide DecideExit, Signals, TickPicks, ExitScan, AccountInOrder, Portfolio, PosSymbols, RollDay;
    var a, carry := w.desk.account, RollDay(w.saved, env.today).carry;
    var held := PosSymbols(Portfolio(a));
    RollDayKeeps(w.saved, env.today);
    StrategySeesHoldings(a);
    SignalShape(cfg, env, w);
    var i :| 0 <= i < |held| && held[i].symbol == s;
    ScanOrdersExact(cfg, env, carry, held, i);
    ExitScanKeepsShares(cfg, env, carry, held);
    assert held[i] == HoldingOf(a, s);
    if Watched(env, carry, s) {
      if carry.positions[s].runnerTarget > 0 {
        RunnerLatched(InputsFor(cfg, env, carry.positions[s], held[i]));
      }
    } else {
      UnwatchedKeepsMeta(cfg, env, carry, held, s);
    }
  }

  lemma {:induction false} UnwatchedKeepsMeta(
    cfg: FbConfig, env: TickEnv, carry: Carry, held: seq<Holding>, s: Symbol)
    requires s in carry.positions && !Watched(env, carry, s)
    ensures var c := ExitScan(cfg, env, carry, held).carry;
            s in c.positions && c.positions[s] == carry.positions[s] && !Watched(env, c, s)
  {
    hide ExitStep;
    if held != [] {
      var prefix, last := held[..|held| - 1], held[|held| - 1];
      var before := ExitScan(cfg, env, carry, prefix);
      UnwatchedKeepsMeta(cfg, env, carry, prefix, s);
      if last.symbol == s {
        UnwatchedStep(cfg, env, before, last);
      } else {
        StepLeavesSymbol(cfg, env, before, last, s);
      }
    }
  }

  /** A scale-out of two or more shares leaves a runner, if the position is still carried. */
  lemma ScaleoutLeavesRunner(cfg: FbConfig, env: TickEnv, w: World, s: Symbol, quantity: int)
    requires InStep(w) && TimelyTick(env) && !TickHalts(cfg, env, w)
    requires s in w.desk.account.positions && w.desk.account.positions[s].quantity >= 2
    requires SignalsSale(Tick(cfg, env, w).1, s, quantity, Some(GapUpScaleout))
    ensures quantity < w.desk.account.positions[s].quantity
    ensures s in Tick(cfg, env, w).0.saved.carry.positions ==> HasRunner(Tick(cfg, env, w).0, s)
  {
    hide DecideExit, Signals, Executed, Tick, TickHalts, TickPicks, ExitScan, AccountInOrder, Portfolio,
      PosSymbols, RollDay, SignalsSale;
    TickSignalsChain(cfg, env, w, s, quantity, Some(GapUpScaleout));
    PartialExitOnlyOnce(InputsFor(cfg, env, w.saved.carry.positions[s], HoldingOf(w.desk.account, s)));
    RunnerInSignals(cfg, env, w, s);
    TickDetail(cfg, env, w);
    RollDayKeeps(Executed(cfg, env, w).state, env.saveDay);
  }

  /** The symbol stayed in the carry after each of the ticks from `i` up to `j`. */
  ghost predicate CarriedThrough(cfg: FbConfig, w: World, envs: seq<TickEnv>, i: nat, j: nat, s: Symbol)
    requires i <= j <= |envs|
  {
    forall m :: i < m <= j ==> s in WorldAt(cfg, w, envs, m).saved.carry.positions
  }

  lemma {:induction false} RunnerSurvivesRun(cfg: FbConfig, w: World, envs: seq<TickEnv>, i: nat, j: nat, s: Symbol)
    requires i <= j <= |envs| && TimelyRun(w, envs) && InStep(w)
    requires HasRunner(WorldAt(cfg, w, envs, i), s) && CarriedThrough(cfg, w, envs, i, j, s)
    ensures HasRunner(WorldAt(cfg, w, envs, j), s)
  {
    hide Tick, InStep, TimelyTick, HasRunner;
    if i < j {
      RunnerSurvivesRun(cfg, w, envs, i, j - 1, s);
      RunKeepsInStep(cfg, w, envs, j - 1);
      assert s in WorldAt(cfg, w, envs, j).saved.carry.positions;
      RunnerSurvivesTick(cfg, envs[j - 1], WorldAt(cfg, w, envs, j - 1), s);
    }
  }

  /** Tick `i` signals the gap-up scale-out of a holding of two or more shares. */
  ghost predicate ScaledOutAt(cfg: FbConfig, w: World, envs: seq<TickEnv>, i: nat, s: Symbol, quantity: int)
    requires i < |envs|
  {
    var at := WorldAt(cfg, w, envs, i);
    && s in at.desk.account.positions && at.desk.account.positions[s].quantity >= 2
    && SignalsSale(LogAt(cfg, w, envs, i), s, quantity, Some(GapUpScaleout))
  }

  /** Over the life of one carried position of two or more shares the gap-up scale-out is signalled
      at most once, and every later exit is for the whole remaining holding. */
  lemma ScaleoutOnlyOnce(
    cfg: FbConfig, w: World, envs: seq<TickEnv>, i: nat, j: nat, s: Symbol,
    first: int, later: int, reason: Option<ExitReason>)
    requires i < j < |envs| && TimelyRun(w, envs) && InStep(w)
    requires ScaledOutAt(cfg, w, envs, i, s, first) && CarriedThrough(cfg, w, envs, i, j, s)
    ensures SignalsSale(LogAt(cfg, w, envs, j), s, later, reason) ==>
              var at := WorldAt(cfg, w, envs, j);
              && s in at.desk.account.positions
              && reason != Some(GapUpScaleout)
              && later == at.desk.account.positions[s].quantity
  {
    hide Tick, TickHalts, AccountInOrder, TimelyTick, DecideExit, SignalsSale;
    if !SignalsSale(LogAt(cfg, w, envs, j), s, later, reason) {
      return;
    }
    var at, afterwards := WorldAt(cfg, w, envs, i), WorldAt(cfg, w, envs, j);
    RunKeepsInStep(cfg, w, envs, i);
    RunKeepsInStep(cfg, w, envs, j);
    SaleNeedsLiveTick(cfg, envs[i], at, s, first, Some(GapUpScaleout));
    ScaleoutLeavesRunner(cfg, envs[i], at, s, first);
    assert s in WorldAt(cfg, w, envs, i + 1).saved.carry.positions;
    RunnerSurvivesRun(cfg, w, envs, i + 1, j, s);
    assert !TickHalts(cfg, envs[j], afterwards) by { SaleNeedsLiveTick(cfg, envs[j], afterwards, s, later, reason); }
    TickSignalsChain(cfg, envs[j], afterwards, s, later, reason);
    RunnerLatched(InputsFor(cfg, envs[j], afterwards.saved.carry.positions[s], HoldingOf(afterwards.desk.account, s)));
  }

  lemma SaleNeedsLiveTick(cfg: FbConfig, env: TickEnv, w: World, s: Symbol, quantity: int, reason: Option<ExitReason>)
    requires SignalsSale(Tick(cfg, env, w).1, s, quantity, reason)
    ensures !TickHalts(cfg, env, w)
  {
    hide TickHalts, Execute, Ready;
  }
}
