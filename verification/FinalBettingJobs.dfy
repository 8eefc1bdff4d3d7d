/** The objects of the closing-auction jobs: state file, state record, strategy and scheduler, each
    method tied to the functions of FinalBettingState and FinalBettingTicks. */
module FinalBettingJobs {
  import opened Common
  import opened Orders
  import opened PaperAccount
  import opened RiskRules
  import opened KillSwitches
  import opened TradingDesk
  import opened FinalBettingExits
  import opened FinalBettingState
  import opened FinalBettingTicks

  class IntradayPaperState {
    var day: Day
    var tradeCount: nat
    var cooldownUntil: map<Symbol, Instant>
    var lastBuy: map<Symbol, real>
    var carry: Carry

    ghost function View(): PaperState
      reads this
    {
      PaperState(day, tradeCount, cooldownUntil, lastBuy, carry)
    }

    constructor (st: PaperState)
      ensures View() == st
    {
      day, tradeCount, cooldownUntil, lastBuy, carry :=
        st.day, st.tradeCount, st.cooldownUntil, st.lastBuy, st.carry;
    }
  }

  /** What the path of the state file holds; reading an unreadable file raises a caught error. */
  datatype StateFile = Missing | Unreadable | Stored(state: PaperState)

  class IntradayPaperStateStore {
    var file: StateFile

    constructor (file: StateFile)
      ensures this.file == file
    {
      this.file := file;
    }

    /** A missing or unreadable file counts as a fresh state. */
    ghost function Content(today: Day): PaperState
      reads this
    {
      if file.Stored? then file.state else FreshState(today)
    }

    method Load(today: Day) returns (st: IntradayPaperState)
      ensures fresh(st) && st.View() == RollDay(Content(today), today)
    {
      match file {
        case Missing =>
          st := new IntradayPaperState(FreshState(today));
        case Unreadable =>
          st := new IntradayPaperState(FreshState(today));
        case Stored(state) =>
          st := new IntradayPaperState(RollDay(state, today));
      }
    }

    method Save(st: IntradayPaperState, today: Day)
      modifies this
      ensures file == Stored(RollDay(st.View(), today))
    {
      file := Stored(RollDay(PaperState(st.day, st.tradeCount, st.cooldownUntil, st.lastBuy, st.carry), today));
    }
  }

  class FinalBettingStrategy {
    const cfg: FbConfig
    var pending: map<Symbol, Meta>

    constructor (cfg: FbConfig)
      ensures this.cfg == cfg && pending == map[]
    {
      this.cfg, pending := cfg, map[];
    }

    method ConsumePendingCarryUpdate(s: Symbol) returns (meta: Option<Meta>)
      modifies this
      ensures pending == old(pending) - {s}
      ensures meta == if s in old(pending) then Some(old(pending)[s]) else None
    {
      meta := if s in pending then Some(pending[s]) else None;
      pending := pending - {s};
    }

    /** The exit loop of `generate_signals`: decides one holding after the other. */
    method ScanExits(env: TickEnv, st: IntradayPaperState, held: seq<Holding>) returns (orders: seq<FbOrder>)
      modifies st
      ensures st.View() == old(st.View()).(carry := ExitScan(cfg, env, old(st.carry), held).carry)
      ensures orders == ExitScan(cfg, env, old(st.carry), held).orders
    {
      hide DecideExit, RecordFullExit;
      orders := [];
      for n := 0 to |held|
        invariant st.View() == old(st.View()).(carry := ExitScan(cfg, env, old(st.carry), held[..n]).carry)
        invariant orders == ExitScan(cfg, env, old(st.carry), held[..n]).orders
      {
        assert held[..n + 1][..n] == held[..n];
        var h := held[n];
        if Watched(env, st.carry, h.symbol) {
          var d := DecideExit(InputsFor(cfg, env, st.carry.positions[h.symbol], h));
          st.carry := st.carry.(positions := st.carry.positions[h.symbol := d.meta]);
          if d.reason.Some? {
            if MinInt(h.quantity, d.quantity) >= h.quantity {
              st.carry := RecordFullExit(st.carry, env.today, PctOver(env.views[h.symbol].lastPx, h.averagePrice));
            }
            orders := orders + [SellOrder(env, h, d)];
          }
        }
      }
      assert held[..|held|] == held;
    }

    method RankedCandidates(env: TickEnv, carry: Carry, held: seq<Holding>) returns (ranked: seq<Candidate>)
      ensures ranked == EligibleOnly(cfg, env, carry, held, Ranked(cfg, env))
    {
      hide Eligible;
      ranked := [];
      var rest := Ranked(cfg, env);
      while rest != []
        invariant ranked + EligibleOnly(cfg, env, carry, held, rest)
               == EligibleOnly(cfg, env, carry, held, Ranked(cfg, env))
        decreases |rest|
      {
        ghost var tail := EligibleOnly(cfg, env, carry, held, rest[1..]);
        if Eligible(cfg, env, carry, held, rest[0].symbol) {
          assert ranked + ([rest[0]] + tail) == (ranked + [rest[0]]) + tail;
          ranked := ranked + [rest[0]];
        } else {
          assert [] + tail == tail;
        }
        rest := rest[1..];
      }
    }

    /** The entry loop: each pick becomes a buy signal and a pending carry entry. */
    method PickEntries(env: TickEnv, carry: Carry, held: seq<Holding>) returns (orders: seq<FbOrder>)
      modifies this
      ensures orders == BuyOrders(EntryPicks(cfg, env, carry, held))
      ensures pending == Pend(old(pending), env.today, EntryPicks(cfg, env, carry, held))
    {
      hide EligibleOnly, Sized, BuyOrder, EntryMeta;
      var cap := EffectiveCap(cfg, env);
      var openSlots := MaxInt(0, cap - |held|);
      orders := [];
      if openSlots <= 0 {
        return;
      }
      var ranked := RankedCandidates(env, carry, held);
      var rest := if |ranked| <= PoolSize(cfg, env) then ranked else ranked[..PoolSize(cfg, env)];
      var all := EntryPicks(cfg, env, carry, held);
      ghost var picks: seq<Candidate> := [];
      assert Picks(rest, openSlots, cap - |carry.entered|) == all;
      while rest != []
        invariant picks + Picks(rest, openSlots - |picks|, cap - (|carry.entered| + |picks|)) == all
        invariant orders == BuyOrders(picks)
        invariant pending == Pend(old(pending), env.today, picks)
        decreases |rest|
      {
        if |orders| >= openSlots || |carry.entered| + |orders| >= cap {
          break;
        }
        var c := rest[0];
        if Sized(c) {
          pending := pending[c.symbol := EntryMeta(env.today, c)];
          assert (picks + [c])[..|picks|] == picks;
          orders := orders + [BuyOrder(c)];
          picks := picks + [c];
        }
        rest := rest[1..];
      }
      assert picks == all;
    }

    method GenerateSignals(env: TickEnv, st: IntradayPaperState, portfolio: seq<Holding>, riskHalt: bool)
      returns (orders: seq<FbOrder>)
      modifies this, st
      ensures var g := Generate(cfg, env, old(st.carry), old(pending), portfolio, riskHalt);
              && st.View() == old(st.View()).(carry := g.carry)
              && pending == g.pending
              && orders == g.orders
    {
      hide ExitScan, EntryPicks, EntriesOpen;
      var restUntil := st.carry.restUntil;
      var held := PosSymbols(portfolio);
      orders := ScanExits(env, st, held);
      if EntriesOpen(cfg, env, restUntil, riskHalt) {
        var buys := PickEntries(env, st.carry, held);
        orders := orders + buys;
      }
    }

    method OnSellAccepted(env: TickEnv, st: IntradayPaperState, fo: FbOrder, r: OrderResult)
      modifies st
      ensures st.View() == SellAccepted(cfg, env, old(st.View()), fo, r)
    {
      var s := fo.order.symbol;
      if s !in st.carry.positions {
        return;
      }
      var meta := st.carry.positions[s];
      var fillPx := FillBasis(fo, r, meta.refClose);
      var pnlPct := PctOver(fillPx, meta.refClose);
      var left := meta.shares - fo.order.quantity;
      if left <= 0 {
        st.carry := st.carry.(positions := st.carry.positions - {s}, lastExit := st.carry.lastExit[s := env.today]);
      } else {
        var kept := meta.(shares := left, partialDone := meta.partialDone || fo.order.quantity < meta.shares);
        st.carry := st.carry.(positions := st.carry.positions[s := kept]);
      }
      CoolDown(env, st, s, ClassifyExit(fo.reason, pnlPct));
    }

    method CoolDown(env: TickEnv, st: IntradayPaperState, s: Symbol, kind: Outcome)
      modifies st
      ensures st.View() == ApplyCooldown(cfg, env, old(st.View()), s, kind)
    {
      if st.carry.stopoutDay != Some(env.today) {
        st.carry := st.carry.(stopouts := map[], stopoutDay := Some(env.today));
      }
      var minutes;
      match kind {
        case Profit =>
          minutes := cfg.cooldownAfterProfit;
        case Stop =>
          var previous := if s in st.carry.stopouts then st.carry.stopouts[s] else 0;
          minutes := if previous >= 1 then cfg.cooldownAfterRepeatStop else cfg.cooldownAfterStop;
          st.carry := st.carry.(stopouts := st.carry.stopouts[s := previous + 1]);
        case Flat =>
          minutes := (cfg.cooldownAfterProfit + cfg.cooldownAfterStop) / 2;
      }
      st.cooldownUntil := st.cooldownUntil[s := env.clock.utc + MaxInt(1, minutes) * MINUTE];
    }
  }

  class FinalBettingIntradayJobs {
    const desk: RiskDesk
    const killSwitch: KillSwitch?
    const strategy: FinalBettingStrategy
    const store: IntradayPaperStateStore

    constructor (
      desk: RiskDesk, killSwitch: KillSwitch?, strategy: FinalBettingStrategy, store: IntradayPaperStateStore)
      ensures this.desk == desk && this.killSwitch == killSwitch
      ensures this.strategy == strategy && this.store == store
    {
      this.desk, this.killSwitch, this.strategy, this.store := desk, killSwitch, strategy, store;
    }

    /** The configuration describes the objects it is used with. */
    ghost predicate Wired()
      reads this
    {
      && strategy.cfg.limits == desk.limits
      && strategy.cfg.quote == desk.broker.quote
      && strategy.cfg.killLimits == (if killSwitch != null then Some(killSwitch.limits) else None)
    }

    ghost function View(today: Day): World
      reads this, desk, desk.broker, desk.tracker, strategy, store
    {
      World(desk.View(), store.Content(today), strategy.pending)
    }

    method IntradayBuyGate(env: TickEnv, st: IntradayPaperState, s: Symbol) returns (ok: bool)
      ensures ok == BuyAllowed(strategy.cfg, env, st.View(), s)
    {
      var guard := MaxReal(180.0, strategy.cfg.duplicateGuardSec);
      var last := if s in st.lastBuy then st.lastBuy[s] else 0.0;
      if last > 0.0 && env.clock.mono - last < guard {
        return false;
      }
      if s in st.cooldownUntil && env.clock.utc < st.cooldownUntil[s] {
        return false;
      }
      ok := true;
    }

    method FilterOrders(env: TickEnv, st: IntradayPaperState, orders: seq<FbOrder>) returns (filtered: seq<FbOrder>)
      ensures filtered == GatedOrders(strategy.cfg, env, st.View(), orders)
    {
      hide BuyAllowed;
      filtered := [];
      for n := 0 to |orders|
        invariant filtered == GatedOrders(strategy.cfg, env, st.View(), orders[..n])
      {
        assert orders[..n + 1][..n] == orders[..n];
        var ok := true;
        if orders[n].order.side.Buy? {
          ok := IntradayBuyGate(AtGate(env, n), st, orders[n].order.symbol);
        }
        if ok {
          filtered := filtered + [orders[n]];
        }
      }
      assert orders[..|orders|] == orders;
    }

    /** `_on_accepted_order`: the generic bookkeeping, then the carry synchronisation. */
    method OnAcceptedOrder(env: TickEnv, st: IntradayPaperState, fo: FbOrder, r: OrderResult)
      modifies st, strategy
      ensures (st.View(), strategy.pending)
           == OnAccepted(strategy.cfg, env, old(st.View()), old(strategy.pending), fo, r)
    {
      hide SellAccepted;
      var s := fo.order.symbol;
      if fo.order.side.Buy? {
        st.lastBuy := st.lastBuy[s := env.clock.mono];
        st.tradeCount := st.tradeCount + 1;
        if strategy.cfg.cooldownAfterBuy > 0 {
          st.cooldownUntil := st.cooldownUntil[s := env.clock.utc + strategy.cfg.cooldownAfterBuy * MINUTE];
        }
        var meta := strategy.ConsumePendingCarryUpdate(s);
        if meta.Some? {
          st.carry := st.carry.(positions := st.carry.positions[s := meta.value]);
          if s !in st.carry.entered {
            st.carry := st.carry.(entered := st.carry.entered + [s]);
          }
        } else {
          assert strategy.pending == old(strategy.pending);
        }
      } else {
        st.cooldownUntil := st.cooldownUntil - {s};
        strategy.OnSellAccepted(env, st, fo, r);
      }
    }

    /** The execution loop over the filtered orders. */
    method ExecuteOrders(env: TickEnv, st: IntradayPaperState, orders: seq<FbOrder>) returns (bought: seq<Symbol>)
      requires Wired()
      modifies st, strategy, desk.broker, desk.tracker
      ensures var x := Execute(
                strategy.cfg, env, Execution(old(desk.View()), old(st.View()), old(strategy.pending), []), orders);
              x == Execution(desk.View(), st.View(), strategy.pending, bought)
    {
      hide Route, OnAccepted;
      ghost var start := Execution(desk.View(), st.View(), strategy.pending, []);
      bought := [];
      for n := 0 to |orders|
        invariant Execute(strategy.cfg, env, start, orders[..n])
               == Execution(desk.View(), st.View(), strategy.pending, bought)
      {
        assert orders[..n + 1][..n] == orders[..n];
        if env.ordersAllowed {
          var fo := orders[n];
          var now := AtOrder(env, n);
          var r := desk.RouteOrder(env.universe, fo.order, Reading(env.today, now.clock.first, now.clock.second));
          if r.accepted {
            OnAcceptedOrder(now, st, fo, r);
            if fo.order.side.Buy? {
              bought := bought + [fo.order.symbol];
            }
          }
        }
      }
      assert orders[..|orders|] == orders;
    }

    method PortfolioFromBroker() returns (portfolio: seq<Holding>)
      ensures portfolio == Portfolio(desk.broker.State())
    {
      hide HeldOrder;
      var order := HeldOrder(desk.broker.fills);
      portfolio := [];
      for i := 0 to |order|
        invariant portfolio == Portfolio(desk.broker.State())[..i]
      {
        var p :=
          if order[i] in desk.broker.positions then desk.broker.positions[order[i]] else PositionView(0, 0.0);
        portfolio := portfolio + [Holding(order[i], p.quantity, p.averagePrice)];
      }
    }

    /** `run_intraday_cycle`: one tick, from the loaded to the saved state. */
    method RunIntradayCycle(env: TickEnv) returns (log: TickLog)
      requires Wired()
      modifies strategy, store, desk.broker, desk.tracker, killSwitch
      ensures (View(env.today), log) == Tick(strategy.cfg, env, old(View(env.today)))
    {
      hide Route, Generate, GatedOrders, Execute, Snapshot, GlobalGuard, RollDay, AfterSnapshot;
      ghost var w := View(env.today);
      var st := store.Load(env.today);
      var snapshot := desk.BuildRiskSnapshot(env.universe, env.today);
      var riskHalt := !strategy.cfg.manualOverride && snapshot.dailyPnlPct <= -strategy.cfg.maxDailyLossPct;
      if !strategy.cfg.manualOverride && killSwitch != null {
        var skip := killSwitch.Check(snapshot, env.clock.first.guardNow);
        if skip {
          return TickLog(true, [], []);
        }
      }
      var portfolio := PortfolioFromBroker();
      assert desk.broker.State() == w.desk.account by { SnapshotKeepsAccount(w.desk, env); }
      var signals := strategy.GenerateSignals(env, st, portfolio, riskHalt);
      var filtered := FilterOrders(env, st, signals);
      var bought := ExecuteOrders(env, st, filtered);
      store.Save(st, env.saveDay);
      log := TickLog(false, signals, bought);
    }

    lemma SnapshotKeepsAccount(d: Desk, env: TickEnv)
      ensures AfterSnapshot(d, env.universe, env.today).account == d.account
    {
    }
  }
}
