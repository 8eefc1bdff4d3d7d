/** The entry side of a tick in plain terms: who is eligible, how many are picked, what is signalled and
    recorded for them, and when an accepted order may follow
    (app/strategy/final_betting_v1_strategy.py, app/scheduler/final_betting_intraday_jobs.py). */
module FinalBettingEntries {
  import opened Common
  import opened Orders
  import opened PaperAccount
  import opened FinalBettingExits
  import opened FinalBettingSizing
  import opened FinalBettingState
  import opened FinalBettingTicks

  /** Three more entries in an aggressive market, one fewer in a defensive one, one at least. */
  function EntryCap(cfg: FbConfig, mode: Mode): int {
    var most := match mode
                case Aggressive => cfg.maxNewPositions + 3
                case Neutral => cfg.maxNewPositions
                case Defensive => cfg.maxNewPositions - 1;
    if most < 1 then 1 else most
  }

  /** Six more candidates in an aggressive market, one fewer in a defensive one; three to fourteen. */
  function TopCount(cfg: FbConfig, mode: Mode): int {
    var top := match mode
               case Aggressive => cfg.rankPoolTop + 6
               case Neutral => cfg.rankPoolTop
               case Defensive => cfg.rankPoolTop - 1;
    if top < 3 then 3 else if top > 14 then 14 else top
  }

  lemma CapsByMode(cfg: FbConfig, env: TickEnv)
    ensures EffectiveCap(cfg, env) == EntryCap(cfg, env.mode)
    ensures PoolSize(cfg, env) == TopCount(cfg, env.mode)
  {
  }

  /** The allocation band of an entry, in percent of the scaled equity. */
  lemma AllocationByMode(t: EntryTerms)
    ensures var least := match t.mode
                         case Aggressive => t.minAllocationPct - 4.0
                         case Neutral => t.minAllocationPct
                         case Defensive => t.minAllocationPct + 2.0;
            MinPct(t) == if least < 10.0 then 10.0 else if least > 35.0 then 35.0 else least
    ensures var most := match t.mode
                        case Aggressive => t.maxCapitalPct * 1.18 + 4.5
                        case Neutral => t.maxCapitalPct
                        case Defensive => t.maxCapitalPct * 0.88 - 3.0;
            MaxPct(t) == if most < 12.0 then 12.0 else if most > 38.0 then 38.0 else most
    ensures AllocationValid(t) <==> MinPct(t) <= MaxPct(t) + 0.000000001
  {
  }

  /** Only an overridden filter in an aggressive market reduces, by 30%, 20% or 15%. */
  lemma ReductionByScore(t: EntryTerms)
    ensures !t.penalised || !t.mode.Aggressive? ==> SizeReduction(t) == 1.0
    ensures t.penalised && t.mode.Aggressive? ==>
              && (t.lastScore >= 5 <==> SizeReduction(t) == 0.70)
              && (3 <= t.lastScore <= 4 <==> SizeReduction(t) == 0.80)
              && (t.lastScore <= 2 <==> SizeReduction(t) == 0.85)
  {
  }

  /** The stop follows the volatility between 65% and 135% of the fixed one, which replaces it when the
      volatility is not to be trusted. */
  lemma StopByVolatility(fixedPct: real, atrPct: real, atrFactor: real)
    requires fixedPct > 0.0
    ensures var stop := BlendedStop(fixedPct, atrPct, atrFactor);
            && (atrPct <= 0.0 || atrPct > 25.0 ==> stop == fixedPct)
            && (0.0 < atrPct <= 25.0 ==>
                 && fixedPct * 0.65 <= stop <= fixedPct * 1.35
                 && (fixedPct * 0.65 <= atrPct * atrFactor <= fixedPct * 1.35 ==> stop == atrPct * atrFactor)
                 && (atrPct * atrFactor < fixedPct * 0.65 ==> stop == fixedPct * 0.65)
                 && (atrPct * atrFactor > fixedPct * 1.35 ==> stop == fixedPct * 1.35))
  {
  }

  /** Without a price one share is feasible. */
  lemma UnpricedIsOne(t: EntryTerms, price: real, stopPct: real)
    requires price <= 0.0
    ensures FeasibleShares(t, price, stopPct) == 1
  {
  }

  /** The equity scaled by regime and health, one krw at least. */
  lemma ScaledEquity(t: EntryTerms)
    ensures var eq := t.equityBase * t.regimeFactor * t.healthFactor;
            EffectiveEquity(t) == if eq < 1.0 then 1.0 else eq
  {
    var eq := t.equityBase * t.regimeFactor * t.healthFactor;
    assert EffectiveEquity(t) == MaxReal(1.0, eq);
    assert MaxReal(1.0, eq) == if eq < 1.0 then 1.0 else eq;
  }

  /** The terms of a tick are its own figures and the settings as configured. */
  lemma TermsOfTick(cfg: FbConfig, env: TickEnv)
    ensures var t := TermsFor(cfg, env);
            && t.equityBase == env.equityBase && t.regimeFactor == env.regimeFactor
            && t.healthFactor == env.healthFactor
            && t.mode == env.mode && t.penalised == env.marketPenalty && t.lastScore == env.lastScore
            && t.minAllocationPct == cfg.minAllocationPct && t.maxCapitalPct == cfg.maxCapitalPct
            && t.riskPerTradePct == cfg.riskPerTradePct
  {
  }

  /** Not held, not entered today, and not exited within the re-entry days before or after. */
  ghost predicate MayBeEntered(cfg: FbConfig, env: TickEnv, carry: Carry, held: seq<Holding>, s: Symbol) {
    && (forall i :: 0 <= i < |held| ==> held[i].symbol != s)
    && s !in carry.entered
    && (s in carry.lastExit ==>
         || env.today >= carry.lastExit[s] + cfg.reentryCooldownDays
         || env.today <= carry.lastExit[s] - cfg.reentryCooldownDays)
  }

  lemma EligibleIff(cfg: FbConfig, env: TickEnv, carry: Carry, held: seq<Holding>, s: Symbol)
    requires |carry.entered| < EntryCap(cfg, env.mode)
    ensures Eligible(cfg, env, carry, held, s) <==> MayBeEntered(cfg, env, carry, held, s)
  {
  }

  ghost predicate HasCandidate(cs: seq<Candidate>, c: Candidate) {
    exists i :: 0 <= i < |cs| && cs[i] == c
  }

  lemma {:induction false} EligibleExactly(
    cfg: FbConfig, env: TickEnv, carry: Carry, held: seq<Holding>, cs: seq<Candidate>, c: Candidate)
    requires |carry.entered| < EntryCap(cfg, env.mode)
    ensures HasCandidate(EligibleOnly(cfg, env, carry, held, cs), c)
            <==> HasCandidate(cs, c) && MayBeEntered(cfg, env, carry, held, c.symbol)
    ensures |EligibleOnly(cfg, env, carry, held, cs)| <= |cs|
  {
    hide Eligible, MayBeEntered;
    if cs != [] {
      EligibleExactly(cfg, env, carry, held, cs[1..], c);
      EligibleIff(cfg, env, carry, held, cs[0].symbol);
      var rest := EligibleOnly(cfg, env, carry, held, cs[1..]);
      FrontOrRest(cs, c);
      if Eligible(cfg, env, carry, held, cs[0].symbol) {
        var all := [cs[0]] + rest;
        assert all[1..] == rest;
        FrontOrRest(all, c);
      } else {
        assert [] + rest == rest;
      }
    }
  }

  lemma FrontOrRest(cs: seq<Candidate>, c: Candidate)
    requires cs != []
    ensures HasCandidate(cs, c) <==> cs[0] == c || HasCandidate(cs[1..], c)
  {
    if HasCandidate(cs, c) {
      var i :| 0 <= i < |cs| && cs[i] == c;
      if i > 0 {
        assert cs[1..][i - 1] == c;
      }
    }
    if HasCandidate(cs[1..], c) {
      var i :| 0 <= i < |cs[1..]| && cs[1..][i] == c;
      assert cs[i + 1] == c;
    }
  }

  /** With few enough candidates the tick picks exactly the eligible ones that are sized. */
  lemma PicksOfFew(cfg: FbConfig, env: TickEnv, carry: Carry, held: seq<Holding>, c: Candidate)
    requires |env.ranked| <= TopCount(cfg, env.mode)
    requires |held| + |env.ranked| <= EntryCap(cfg, env.mode)
    requires |carry.entered| + |env.ranked| <= EntryCap(cfg, env.mode)
    ensures HasCandidate(EntryPicks(cfg, env, carry, held), c) <==>
              && HasCandidate(Ranked(cfg, env), c)
              && MayBeEntered(cfg, env, carry, held, c.symbol)
              && Sized(c)
  {
    hide Sized, MayBeEntered, Eligible, EffectiveCap, PoolSize, EntryCap, TopCount, HasCandidate, Picks, SizedOnly;
    var all := EligibleOnly(cfg, env, carry, held, Ranked(cfg, env));
    CapsByMode(cfg, env);
    SizedOnlyExactly(all, c);
    PicksAreBestRanked(all, EffectiveCap(cfg, env) - |held|, EffectiveCap(cfg, env) - |carry.entered|);
    if env.ranked == [] {
      assert Ranked(cfg, env) == [] && all == [];
      NoCandidate(c);
    } else {
      EligibleExactly(cfg, env, carry, held, Ranked(cfg, env), c);
    }
    hide EligibleOnly;
    assert EntryPicks(cfg, env, carry, held) == SizedOnly(all);
  }

  lemma NoCandidate(c: Candidate)
    ensures !HasCandidate([], c) && SizedOnly([]) == []
  {
  }

  lemma {:induction false} SizedOnlyExactly(cs: seq<Candidate>, c: Candidate)
    ensures HasCandidate(SizedOnly(cs), c) <==> HasCandidate(cs, c) && Sized(c)
    ensures |SizedOnly(cs)| <= |cs|
  {
    hide Sized;
    if cs != [] {
      var rest := SizedOnly(cs[1..]);
      SizedOnlyExactly(cs[1..], c);
      FrontOrRest(cs, c);
      if Sized(cs[0]) {
        var all := [cs[0]] + rest;
        assert all[1..] == rest;
        FrontOrRest(all, c);
      } else {
        assert [] + rest == rest;
      }
    }
  }

  /** What is signalled for a pick, and what is recorded until the order is accepted. */
  lemma SignalOfPick(today: Day, c: Candidate)
    ensures BuyOrder(c) == FbOrder(
              OrderRequest(c.symbol, Buy, EntryShares(c.terms, c.lastClose, c.stopLossPct),
                           Some(c.lastClose), Some(c.stopLossPct)), None)
    ensures var m := EntryMeta(today, c);
            && m.shares == BuyOrder(c).order.quantity && BuyOrder(c).order.price == Some(m.refClose)
            && m.entryDay == today && !m.partialDone && m.scaleoutDay.None? && m.runnerTarget == 0
  {
  }

  // ---- the buy gate --------------------------------------------------------------------------------

  /** The last purchase of the symbol is three minutes past, or the configured time if that is longer,
      and its cooldown has run out. */
  ghost predicate GateOpen(cfg: FbConfig, st: PaperState, s: Symbol, now: Moment) {
    && (s in st.lastBuy && st.lastBuy[s] > 0.0 ==>
         now.mono >= st.lastBuy[s] + 180.0 && now.mono >= st.lastBuy[s] + cfg.duplicateGuardSec)
    && (s in st.cooldownUntil ==> st.cooldownUntil[s] <= now.utc)
  }

  ghost predicate Passes(cfg: FbConfig, env: TickEnv, st: PaperState, orders: seq<FbOrder>, i: nat)
    requires i < |orders|
  {
    orders[i].order.side.Sell? || GateOpen(cfg, st, orders[i].order.symbol, env.gateClocks(i))
  }

  lemma GateStepsBy(cfg: FbConfig, env: TickEnv, st: PaperState, orders: seq<FbOrder>)
    requires orders != []
    ensures var n := |orders| - 1;
            var g := GatedOrders(cfg, env, st, orders[..n]);
            GatedOrders(cfg, env, st, orders) == if Passes(cfg, env, st, orders, n) then g + [orders[n]] else g
  {
    hide BuyAllowed, GateOpen;
    var n := |orders| - 1;
    var g := GatedOrders(cfg, env, st, orders[..n]);
    GateIsOpen(cfg, AtGate(env, n), st, orders[n].order.symbol);
    assert g + [] == g;
  }

  /** The gate keeps every sale and every purchase that it finds open at its own reading. */
  lemma {:induction false} GateKeepsOpen(cfg: FbConfig, env: TickEnv, st: PaperState, orders: seq<FbOrder>, i: nat)
    requires i < |orders| && Passes(cfg, env, st, orders, i)
    ensures orders[i] in GatedOrders(cfg, env, st, orders)
  {
    hide GatedOrders, GateOpen;
    GateStepsBy(cfg, env, st, orders);
    if i < |orders| - 1 {
      GateKeepsOpen(cfg, env, st, orders[..|orders| - 1], i);
    }
  }

  /** The gate keeps nothing else, and the orders in their order. */
  lemma {:induction false} GateKeepsOnlyOpen(
    cfg: FbConfig, env: TickEnv, st: PaperState, orders: seq<FbOrder>, k: nat) returns (i: nat)
    requires k < |GatedOrders(cfg, env, st, orders)|
    ensures k <= i < |orders| && Passes(cfg, env, st, orders, i)
    ensures GatedOrders(cfg, env, st, orders)[k] == orders[i]
  {
    hide GatedOrders, GateOpen;
    assert orders != [] by { NothingToGate(cfg, env, st); }
    GateStepsBy(cfg, env, st, orders);
    var n := |orders| - 1;
    if k < |GatedOrders(cfg, env, st, orders[..n])| {
      i := GateKeepsOnlyOpen(cfg, env, st, orders[..n], k);
    } else {
      i := n;
      GateShortens(cfg, env, st, orders[..n]);
    }
  }

  lemma NothingToGate(cfg: FbConfig, env: TickEnv, st: PaperState)
    ensures GatedOrders(cfg, env, st, []) == []
  {
  }

  lemma {:induction false} GateShortens(cfg: FbConfig, env: TickEnv, st: PaperState, orders: seq<FbOrder>)
    ensures |GatedOrders(cfg, env, st, orders)| <= |orders|
  {
    hide BuyAllowed;
    if orders != [] {
      GateShortens(cfg, env, st, orders[..|orders| - 1]);
    }
  }

  lemma GateIsOpen(cfg: FbConfig, env: TickEnv, st: PaperState, s: Symbol)
    ensures BuyAllowed(cfg, env, st, s) <==> GateOpen(cfg, st, s, env.clock)
  {
  }

  /** An accepted purchase is remembered for the gate, counted, and cools the symbol down if so configured. */
  lemma PurchaseIsRemembered(cfg: FbConfig, env: TickEnv, st: PaperState, s: Symbol)
    ensures var st' := BuyBooked(cfg, env, st, s);
            && s in st'.lastBuy && st'.lastBuy[s] == env.clock.mono
            && st'.tradeCount == st.tradeCount + 1
            && (cfg.cooldownAfterBuy > 0 ==>
                 s in st'.cooldownUntil
                 && st'.cooldownUntil[s] == env.clock.utc + cfg.cooldownAfterBuy * 60_000_000)
            && (cfg.cooldownAfterBuy <= 0 ==> st'.cooldownUntil == st.cooldownUntil)
            && (forall k :: k != s ==>
                  && (k in st'.lastBuy <==> k in st.lastBuy) && (k in st.lastBuy ==> st'.lastBuy[k] == st.lastBuy[k])
                  && (k in st'.cooldownUntil <==> k in st.cooldownUntil)
                  && (k in st.cooldownUntil ==> st'.cooldownUntil[k] == st.cooldownUntil[k]))
            && st'.carry == st.carry && st'.day == st.day
  {
  }
}
