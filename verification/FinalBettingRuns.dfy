/** Whole runs of the closing-auction strategy: ticks and days in any number. */
module FinalBettingRuns {
  import opened Common
  import opened PaperAccount
  import opened RiskRules
  import opened KillSwitches
  import opened EquityTracking
  import opened TradingDesk
  import opened FinalBettingState
  import opened FinalBettingTicks

  /** The world after `k` ticks. */
  ghost function WorldAt(cfg: FbConfig, w: World, envs: seq<TickEnv>, k: nat): World
    requires k <= |envs|
  {
    if k == 0 then w else Tick(cfg, envs[k - 1], WorldAt(cfg, w, envs, k - 1)).0
  }

  ghost function LogAt(cfg: FbConfig, w: World, envs: seq<TickEnv>, k: nat): TickLog
    requires k < |envs|
  {
    Tick(cfg, envs[k], WorldAt(cfg, w, envs, k)).1
  }

  /** Ticks follow each other in time, and none is earlier than the state file. */
  ghost predicate TimelyRun(w: World, envs: seq<TickEnv>) {
    && (forall k :: 0 <= k < |envs| ==> TimelyTick(envs[k]) && w.saved.day <= envs[k].today)
    && (forall i, j :: 0 <= i < j < |envs| ==> envs[i].saveDay <= envs[j].today)
  }

  /** A flat account and a fresh state file. */
  function FreshWorld(cash: real, today: Day, tracked: bool): World {
    World(Desk(NewAccount(cash), tracked, None), FreshState(today), map[])
  }

  lemma FreshWorldInStep(cash: real, today: Day, tracked: bool)
    ensures InStep(FreshWorld(cash, today, tracked))
  {
    var a := NewAccount(cash);
    assert forall s :: HoldingMatchesLog(a, s);
  }

  // ---- the carry simulates the broker ------------------------------------------------------------

  lemma {:induction false} RunKeepsInStep(cfg: FbConfig, w: World, envs: seq<TickEnv>, k: nat)
    requires k <= |envs| && TimelyRun(w, envs) && InStep(w)
    ensures InStep(WorldAt(cfg, w, envs, k))
  {
    hide Tick, InStep;
    if k > 0 {
      RunKeepsInStep(cfg, w, envs, k - 1);
      TickKeepsInStep(cfg, envs[k - 1], WorldAt(cfg, w, envs, k - 1));
    }
  }

  /** From a flat start, over any run, a symbol is carried exactly when it is held, with the
      broker's own share count. */
  lemma CarryMirrorsBroker(
    cfg: FbConfig, cash: real, today: Day, tracked: bool, envs: seq<TickEnv>, k: nat, s: Symbol)
    requires k <= |envs| && TimelyRun(FreshWorld(cash, today, tracked), envs)
    ensures var now := WorldAt(cfg, FreshWorld(cash, today, tracked), envs, k);
            var carried, held := now.saved.carry.positions, now.desk.account.positions;
            && (s in carried <==> s in held)
            && (s in held ==> carried[s].shares == held[s].quantity > 0)
  {
    hide WorldAt, HoldingsMatchLog, ListsHoldings;
    FreshWorldInStep(cash, today, tracked);
    RunKeepsInStep(cfg, FreshWorld(cash, today, tracked), envs, k);
  }

  // ---- inside one tick ---------------------------------------------------------------------------

  ghost function Executed(cfg: FbConfig, env: TickEnv, w: World): Execution {
    Execute(cfg, env, Ready(cfg, env, w), TickQueue(cfg, env, w))
  }

  /** The facts of an executed tick that the run theorems use. */
  lemma TickDetail(cfg: FbConfig, env: TickEnv, w: World)
    requires InStep(w) && TimelyTick(env) && !TickHalts(cfg, env, w)
    ensures var x, (w', log) := Executed(cfg, env, w), Tick(cfg, env, w);
            var loaded, g := RollDay(w.saved, env.today), Signals(cfg, env, w);
            && w'.saved == RollDay(x.state, env.saveDay)
            && log == TickLog(false, g.orders, x.bought)
            && x.state.day == env.today && Tallied(x.state)
            && x.state.carry.entered == loaded.carry.entered + x.bought
            && |x.bought| <= |TickPicks(cfg, env, w)|
            && x.state.carry.lossDays == g.carry.lossDays
            && x.state.carry.restUntil == g.carry.restUntil
            && (forall s :: s in w.desk.account.positions && s in x.state.carry.positions ==>
                  s in g.carry.positions
                  && x.state.carry.positions[s].runnerTarget == g.carry.positions[s].runnerTarget)
  {
    hide RollDay, TickQueue, Execute, AccountInOrder, Signals, TickHalts, Equity;
    var ready := Ready(cfg, env, w);
    ReadyToExecute(cfg, env, w);
    assert ready.bought == [];
    ExecuteKeeps(cfg, env, ready, TickQueue(cfg, env, w));
    RollDayKeeps(w.saved, env.today);
    EnteredAfterSignals(cfg, env, w);
  }

  lemma EnteredAfterSignals(cfg: FbConfig, env: TickEnv, w: World)
    ensures Signals(cfg, env, w).carry.entered == RollDay(w.saved, env.today).carry.entered
  {
    hide ExitScan, RollDay, RiskHalt, Portfolio, PosSymbols, TickPicks;
    SignalShape(cfg, env, w);
    ExitScanKeepsShares(cfg, env, RollDay(w.saved, env.today).carry, PosSymbols(Portfolio(w.desk.account)));
  }

  /** The entries signalled in one tick never push the holdings above that tick's cap, and are new
      both to the portfolio and to the day. */
  lemma EntriesRespectCap(cfg: FbConfig, env: TickEnv, w: World)
    requires InStep(w) && TimelyTick(env) && !TickHalts(cfg, env, w)
    ensures var signals, cap := Tick(cfg, env, w).1.signals, EffectiveCap(cfg, env);
            && CountBuys(signals) + |w.desk.account.positions| <= MaxInt(|w.desk.account.positions|, cap)
            && (forall s :: Buys(signals, s) ==> s !in w.desk.account.positions)
  {
    hide ExitScan, RollDay, TickQueue, Execute, Signals, TickHalts, Equity, TickPicks, RiskHalt, Buys, Tick,
      AccountInOrder, Portfolio, PosSymbols, Executed;
    var picks := TickPicks(cfg, env, w);
    var scan := ExitScan(cfg, env, RollDay(w.saved, env.today).carry, PosSymbols(Portfolio(w.desk.account)));
    TickDetail(cfg, env, w);
    SignalShape(cfg, env, w);
    ExitScanKeepsShares(cfg, env, RollDay(w.saved, env.today).carry, PosSymbols(Portfolio(w.desk.account)));
    SalesAreNoBuys(scan.orders);
    CountAppendedBuys(scan.orders, picks);
    TickPicksMeaning(cfg, env, w);
    HoldingCount(w.desk.account);
    forall s ensures Buys(scan.orders + BuyOrders(picks), s) ==> s !in w.desk.account.positions {
      BuysOfPicks(scan.orders, picks, s);
    }
  }

  /** A tick is skipped exactly when the switch is set up and not overridden and the account's total loss
      has reached its limit; it then signals nothing, buys nothing and keeps account and state file. */
  lemma TickHaltsIff(cfg: FbConfig, env: TickEnv, w: World)
    ensures var (w', log) := Tick(cfg, env, w);
            && (log.halted <==>
                 && !cfg.manualOverride && cfg.killLimits.Some?
                 && Snapshot(w.desk, env.universe, env.today).totalPnlPct
                    <= -AbsReal(cfg.killLimits.value.totalLossLimitPct))
            && (log.halted ==> log.signals == [] && log.bought == []
                               && w'.desk.account == w.desk.account && w'.saved == w.saved && w'.pending == w.pending)
  {
    hide Equity, Signals, Execute, Ready, TickQueue, ReadPnl;
  }

  ghost predicate Picked(picks: seq<Candidate>, s: Symbol) {
    exists i :: 0 <= i < |picks| && picks[i].symbol == s
  }

  /** The picks that the state loaded from the file would give, had the tick no exits. */
  ghost function LoadedPicks(cfg: FbConfig, env: TickEnv, w: World): seq<Candidate> {
    EntryPicks(cfg, env, RollDay(w.saved, env.today).carry, PosSymbols(Portfolio(w.desk.account)))
  }

  lemma {:induction false} EligibleIgnoresExits(
    cfg: FbConfig, env: TickEnv, carry: Carry, after: Carry, held: seq<Holding>, cs: seq<Candidate>)
    requires carry.entered == after.entered && carry.lastExit == after.lastExit
    ensures EligibleOnly(cfg, env, after, held, cs) == EligibleOnly(cfg, env, carry, held, cs)
  {
    if cs != [] {
      EligibleIgnoresExits(cfg, env, carry, after, held, cs[1..]);
    }
  }

  /** New entries may be signalled: the day's loss is within its limit or overridden, the rest date as
      loaded has passed, the market filters pass, and it is entry time in the regular session. */
  ghost predicate MayEnter(cfg: FbConfig, env: TickEnv, w: World) {
    && (cfg.manualOverride || Snapshot(w.desk, env.universe, env.today).dailyPnlPct > -cfg.maxDailyLossPct)
    && (w.saved.carry.restUntil.Some? ==> w.saved.carry.restUntil.value < env.today)
    && env.entryFiltersPass
    && env.regularSession
    && cfg.entryStart <= env.now && env.now <= cfg.entryEnd
  }

  /** A live tick signals a purchase of a symbol exactly when entries are allowed on the rest date as
      loaded, whatever the tick's own exits do to it, and the loaded state picks the symbol. */
  lemma TickBuysIff(cfg: FbConfig, env: TickEnv, w: World, s: Symbol)
    requires InStep(w) && TimelyTick(env) && !TickHalts(cfg, env, w)
    ensures Buys(Tick(cfg, env, w).1.signals, s) <==> Picked(TickPicks(cfg, env, w), s)
    ensures Picked(TickPicks(cfg, env, w), s) <==> MayEnter(cfg, env, w) && Picked(LoadedPicks(cfg, env, w), s)
  {
    assert EntriesOpen(cfg, env, w.saved.carry.restUntil, RiskHalt(cfg, env, w)) <==> MayEnter(cfg, env, w) by {
      OpenMeansMayEnter(cfg, env, w);
    }
    hide Picked, MayEnter, EntriesOpen, RiskHalt;
    TickBuysExactly(cfg, env, w, s);
    PicksFromLoaded(cfg, env, w);
    assert !Picked([], s) by { NothingPicked(s); }
  }

  lemma OpenMeansMayEnter(cfg: FbConfig, env: TickEnv, w: World)
    ensures EntriesOpen(cfg, env, w.saved.carry.restUntil, RiskHalt(cfg, env, w)) <==> MayEnter(cfg, env, w)
  {
    hide Snapshot;
  }

  /** No purchase is signalled on a day whose loss has reached the limit, before the entry time or
      after it, outside the regular session, or against the market filters. */
  lemma ClosedTickSignalsNoBuy(cfg: FbConfig, env: TickEnv, w: World, s: Symbol)
    requires InStep(w) && TimelyTick(env) && !TickHalts(cfg, env, w)
    requires || (!cfg.manualOverride
                 && Snapshot(w.desk, env.universe, env.today).dailyPnlPct <= -cfg.maxDailyLossPct)
             || env.now < cfg.entryStart || env.now > cfg.entryEnd
             || !env.regularSession || !env.entryFiltersPass
    ensures !Buys(Tick(cfg, env, w).1.signals, s)
  {
    hide InStep, TickHalts, Tick, Buys, Picked, LoadedPicks, TickPicks, Snapshot;
    TickBuysIff(cfg, env, w, s);
  }

  lemma NothingPicked(s: Symbol)
    ensures !Picked([], s)
  {
  }

  lemma PicksFromLoaded(cfg: FbConfig, env: TickEnv, w: World)
    ensures TickPicks(cfg, env, w) ==
            if EntriesOpen(cfg, env, w.saved.carry.restUntil, RiskHalt(cfg, env, w)) then LoadedPicks(cfg, env, w)
            else []
  {
    hide ExitScan, Portfolio, PosSymbols, Picks, EligibleOnly, RollDay, EntriesOpen, RiskHalt;
    var carry, held := RollDay(w.saved, env.today).carry, PosSymbols(Portfolio(w.desk.account));
    RollDayKeeps(w.saved, env.today);
    ExitScanKeepsShares(cfg, env, carry, held);
    EligibleIgnoresExits(cfg, env, carry, ExitScan(cfg, env, carry, held).carry, held, Ranked(cfg, env));
  }

  lemma TickBuysExactly(cfg: FbConfig, env: TickEnv, w: World, s: Symbol)
    requires InStep(w) && TimelyTick(env) && !TickHalts(cfg, env, w)
    ensures Buys(Tick(cfg, env, w).1.signals, s) <==> Picked(TickPicks(cfg, env, w), s)
  {
    hide ExitScan, RollDay, TickQueue, Execute, Signals, TickHalts, TickPicks, Tick, AccountInOrder, Portfolio,
      PosSymbols, Executed;
    var carry, held := RollDay(w.saved, env.today).carry, PosSymbols(Portfolio(w.desk.account));
    TickDetail(cfg, env, w);
    SignalShape(cfg, env, w);
    ExitScanKeepsShares(cfg, env, carry, held);
    BuysOfPicks(ExitScan(cfg, env, carry, held).orders, TickPicks(cfg, env, w), s);
  }

  lemma BuysOfPicks(sales: seq<FbOrder>, picks: seq<Candidate>, s: Symbol)
    requires forall i :: 0 <= i < |sales| ==> sales[i].order.side.Sell?
    ensures Buys(sales + BuyOrders(picks), s) <==> Picked(picks, s)
  {
    var signals := sales + BuyOrders(picks);
    if Buys(signals, s) {
      var i :| 0 <= i < |signals| && signals[i].order.side.Buy? && signals[i].order.symbol == s;
      assert signals[i] == BuyOrder(picks[i - |sales|]);
    }
    if i :| 0 <= i < |picks| && picks[i].symbol == s {
      assert signals[|sales| + i] == BuyOrder(picks[i]);
    }
  }

  /** Every purchase a live tick signals is for a ranked candidate's own shares at its last close,
      and the candidate is sized. */
  lemma TickBuysAreSized(cfg: FbConfig, env: TickEnv, w: World, i: nat)
    requires InStep(w) && TimelyTick(env) && !TickHalts(cfg, env, w)
    requires i < |Tick(cfg, env, w).1.signals| && Tick(cfg, env, w).1.signals[i].order.side.Buy?
    ensures exists c :: c in Ranked(cfg, env) && Sized(c) && Tick(cfg, env, w).1.signals[i] == BuyOrder(c)
  {
    hide ExitScan, RollDay, TickQueue, Execute, Signals, TickHalts, TickPicks, Tick, AccountInOrder, Portfolio,
      PosSymbols, Executed, Sized, BuyOrder;
    var carry, held := RollDay(w.saved, env.today).carry, PosSymbols(Portfolio(w.desk.account));
    var scan, picks := ExitScan(cfg, env, carry, held), TickPicks(cfg, env, w);
    TickDetail(cfg, env, w);
    SignalShape(cfg, env, w);
    ExitScanKeepsShares(cfg, env, carry, held);
    var signals := scan.orders + BuyOrders(picks);
    assert signals[i] == BuyOrder(picks[i - |scan.orders|]);
    TickPicksAreRanked(cfg, env, w, i - |scan.orders|);
  }

  lemma TickPicksAreRanked(cfg: FbConfig, env: TickEnv, w: World, i: nat)
    requires TimelyTick(env) && i < |TickPicks(cfg, env, w)|
    ensures TickPicks(cfg, env, w)[i] in Ranked(cfg, env) && Sized(TickPicks(cfg, env, w)[i])
  {
    hide ExitScan, RollDay, Portfolio, PosSymbols, Sized, EligibleOnly, Picks, EntriesOpen;
    var held := PosSymbols(Portfolio(w.desk.account));
    var carry := ExitScan(cfg, env, RollDay(w.saved, env.today).carry, held).carry;
    var all := EligibleOnly(cfg, env, carry, held, Ranked(cfg, env));
    var pool := if |all| <= PoolSize(cfg, env) then all else all[..PoolSize(cfg, env)];
    EligibleOnlyMeaning(cfg, env, carry, held, Ranked(cfg, env));
    PicksMeaning(pool, EffectiveCap(cfg, env) - |held|, EffectiveCap(cfg, env) - |carry.entered|);
    assert TickPicks(cfg, env, w)[i] in pool;
    assert pool <= all;
  }

  lemma HoldingCount(a: Account)
    requires AccountInOrder(a)
    ensures |Portfolio(a)| == |a.positions|
  {
    DistinctCount(HeldOrder(a.fills), a.positions.Keys);
  }

  lemma {:induction false} DistinctCount(order: seq<Symbol>, keys: set<Symbol>)
    requires Distinct(order) && forall s :: s in order <==> s in keys
    ensures |order| == |keys|
  {
    if order != [] {
      var last := order[|order| - 1];
      forall s ensures s in order[..|order| - 1] <==> s in keys - {last} {
        if s in order[..|order| - 1] { assert s in order; }
      }
      DistinctCount(order[..|order| - 1], keys - {last});
    } else {
      assert keys == {};
    }
  }

  // ---- buys per day ------------------------------------------------------------------------------

  /** The symbols bought on `day` in the first `k` ticks, in order. */
  ghost function BoughtOn(cfg: FbConfig, w: World, envs: seq<TickEnv>, k: nat, day: Day): seq<Symbol>
    requires k <= |envs|
  {
    if k == 0 then []
    else BoughtOn(cfg, w, envs, k - 1, day)
         + if envs[k - 1].today == day then LogAt(cfg, w, envs, k - 1).bought else []
  }

  /** The largest effective cap of the ticks on `day`. */
  function DayCap(cfg: FbConfig, envs: seq<TickEnv>, k: nat, day: Day): int
    requires k <= |envs|
  {
    if k == 0 then 0
    else
      var before := DayCap(cfg, envs, k - 1, day);
      if envs[k - 1].today == day then MaxInt(before, EffectiveCap(cfg, envs[k - 1])) else before
  }

  lemma {:induction false} StateFileDay(cfg: FbConfig, w: World, envs: seq<TickEnv>, k: nat)
    requires k <= |envs| && TimelyRun(w, envs) && InStep(w)
    ensures var now := WorldAt(cfg, w, envs, k);
            forall j :: k <= j < |envs| ==> now.saved.day <= envs[j].today
  {
    hide Tick, InStep, TimelyTick;
    if k > 0 {
      StateFileDay(cfg, w, envs, k - 1);
      SavedDayAfter(cfg, envs[k - 1], WorldAt(cfg, w, envs, k - 1));
    }
  }

  lemma SavedDayAfter(cfg: FbConfig, env: TickEnv, w: World)
    ensures var d := Tick(cfg, env, w).0.saved.day;
            if TickHalts(cfg, env, w) then d == w.saved.day else d == env.saveDay
  {
    hide Execute, Ready, TickQueue, TickHalts;
  }

  /** The state file's entry list is exactly what was bought on its day. */
  lemma {:induction false} EnteredIsBought(cfg: FbConfig, w: World, envs: seq<TickEnv>, k: nat)
    requires k <= |envs| && TimelyRun(w, envs) && InStep(w) && w.saved.carry.entered == []
    ensures var now := WorldAt(cfg, w, envs, k);
            && BoughtOn(cfg, w, envs, k, now.saved.day) == now.saved.carry.entered
            && (forall day :: day > now.saved.day ==> BoughtOn(cfg, w, envs, k, day) == [])
  {
    hide Tick, InStep, TickHalts, Executed, Signals, TickPicks;
    if k > 0 {
      var before, env := WorldAt(cfg, w, envs, k - 1), envs[k - 1];
      EnteredIsBought(cfg, w, envs, k - 1);
      RunKeepsInStep(cfg, w, envs, k - 1);
      StateFileDay(cfg, w, envs, k - 1);
      if TickHalts(cfg, env, before) {
        HaltedTick(cfg, env, before);
      } else {
        TickDetail(cfg, env, before);
        var loaded := RollDay(before.saved, env.today);
        assert loaded.carry.entered == BoughtOn(cfg, w, envs, k - 1, env.today);
      }
    }
  }

  lemma HaltedTick(cfg: FbConfig, env: TickEnv, w: World)
    requires TickHalts(cfg, env, w)
    ensures Tick(cfg, env, w).0.saved == w.saved && Tick(cfg, env, w).1 == TickLog(true, [], [])
    ensures Tick(cfg, env, w).0.desk.account == w.desk.account
  {
    hide Snapshot, Equity;
  }

  /** On any day, over any ticks, no symbol is bought twice, and the number of accepted buys stays
      within the largest effective cap of that day. */
  lemma {:induction false} DailyBuysWithinCap(cfg: FbConfig, w: World, envs: seq<TickEnv>, k: nat, day: Day)
    requires k <= |envs| && TimelyRun(w, envs) && InStep(w) && w.saved.carry.entered == []
    ensures Distinct(BoughtOn(cfg, w, envs, k, day))
    ensures |BoughtOn(cfg, w, envs, k, day)| <= DayCap(cfg, envs, k, day)
  {
    hide Tick, InStep, TickHalts, Executed, Signals, TickPicks, EffectiveCap;
    if k > 0 {
      var before, env := WorldAt(cfg, w, envs, k - 1), envs[k - 1];
      DailyBuysWithinCap(cfg, w, envs, k - 1, day);
      RunKeepsInStep(cfg, w, envs, k - 1);
      if TickHalts(cfg, env, before) {
        HaltedTick(cfg, env, before);
      } else if env.today == day {
        EnteredIsBought(cfg, w, envs, k - 1);
        StateFileDay(cfg, w, envs, k - 1);
        TickDetail(cfg, env, before);
        TickPicksMeaning(cfg, env, before);
        var loaded := RollDay(before.saved, env.today);
        assert loaded.carry.entered == BoughtOn(cfg, w, envs, k - 1, env.today);
      }
    }
  }
}
