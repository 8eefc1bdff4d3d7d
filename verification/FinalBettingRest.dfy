/** Loss days and the rest they force, over whole runs. */
module FinalBettingRest {
  import opened Common
  import opened Orders
  import opened PaperAccount
  import opened RiskRules
  import opened TradingDesk
  import opened FinalBettingSizing
  import opened FinalBettingExits
  import opened FinalBettingChain
  import opened FinalBettingState
  import opened FinalBettingTicks
  import opened FinalBettingRuns

  ghost predicate StrictlySorted(days: seq<Day>) {
    forall i, j :: 0 <= i < j < |days| ==> days[i] < days[j]
  }

  /** Sorted, without duplicates, at most two long. */
  ghost predicate LossRecord(days: seq<Day>) {
    StrictlySorted(days) && |days| <= 2
  }

  lemma {:induction false} InsertMeaning(d: Day, sorted: seq<Day>)
    requires StrictlySorted(sorted) && d !in sorted
    ensures StrictlySorted(Insert(d, sorted)) && |Insert(d, sorted)| == |sorted| + 1
    ensures forall x :: x in Insert(d, sorted) <==> x == d || x in sorted
  {
    if sorted != [] && d > sorted[0] {
      InsertMeaning(d, sorted[1..]);
      assert sorted == [sorted[0]] + sorted[1..];
      var rest := Insert(d, sorted[1..]);
      forall k | 0 <= k < |rest| ensures sorted[0] < rest[k] {
        assert rest[k] in rest;
        if rest[k] != d {
          var i :| 0 <= i < |sorted[1..]| && sorted[1..][i] == rest[k];
          assert sorted[i + 1] == rest[k];
        }
      }
    }
  }

  lemma {:induction false} SortMeaning(days: seq<Day>)
    requires Distinct(days)
    ensures StrictlySorted(Sort(days)) && |Sort(days)| == |days|
    ensures forall x :: x in Sort(days) <==> x in days
  {
    if days != [] {
      SortMeaning(days[1..]);
      assert days == [days[0]] + days[1..];
      assert days[0] !in days[1..];
      InsertMeaning(days[0], Sort(days[1..]));
    }
  }

  /** One full exit keeps the loss record a record; a profit clears it, a loss adds its day, and of
      three days exactly the earliest is dropped. */
  lemma LossDaysStayARecord(days: seq<Day>, today: Day, pnlPct: real)
    requires LossRecord(days)
    ensures var after := LossDaysAfter(days, today, pnlPct);
            && LossRecord(after)
            && (pnlPct >= 0.0 <==> after == [])
            && (forall d :: d in after ==> d in days || d == today)
            && (pnlPct < 0.0 ==> forall d :: (d in days || d == today) && d !in after ==>
                  |after| == 2 && d < after[0])
            && (pnlPct < 0.0 && (forall d :: d in days ==> d <= today) ==> today in after)
  {
    hide Sort, LastTwo;
    if pnlPct < 0.0 && today !in days {
      assert Distinct(days + [today]);
      SortMeaning(days + [today]);
      LastTwoMeaning(Sort(days + [today]));
      if forall d :: d in days ==> d <= today {
        LatestIsLast(days + [today], Sort(days + [today]), today);
      }
    }
  }

  lemma LastTwoMeaning(sorted: seq<Day>)
    requires StrictlySorted(sorted) && |sorted| <= 3
    ensures var after := LastTwo(sorted);
            && LossRecord(after)
            && (sorted != [] ==> after != [] && after[|after| - 1] == sorted[|sorted| - 1])
            && (forall d :: d in after ==> d in sorted)
            && (forall d :: d in sorted && d !in after ==> |after| == 2 && d < after[0])
  {
    var after := LastTwo(sorted);
    forall d | d in sorted ensures d in after || (|sorted| == 3 && d == sorted[0]) {
      var i :| 0 <= i < |sorted| && sorted[i] == d;
      if |sorted| == 3 && i > 0 {
        assert after[i - 1] == d;
      }
    }
  }

  lemma LatestIsLast(all: seq<Day>, sorted: seq<Day>, today: Day)
    requires StrictlySorted(sorted) && (forall x :: x in sorted <==> x in all)
    requires today in all && forall d :: d in all ==> d <= today
    ensures sorted != [] && sorted[|sorted| - 1] == today
  {
    var i :| 0 <= i < |sorted| && sorted[i] == today;
    assert sorted[|sorted| - 1] in sorted;
  }

  // ---- the rest date inside one tick -------------------------------------------------------------

  ghost predicate NoEarlierRest(later: Option<Day>, earlier: Option<Day>) {
    earlier.Some? ==> later.Some? && later.value >= earlier.value
  }

  ghost predicate RestWithin(rest: Option<Day>, today: Day) {
    rest.Some? ==> rest.value <= today + 1
  }

  ghost function ScanPrefix(cfg: FbConfig, env: TickEnv, carry: Carry, held: seq<Holding>, n: nat): Carry
    requires n <= |held|
  {
    ExitScan(cfg, env, carry, held[..n]).carry
  }

  /** Holding `n` is sold off at a loss that leaves two loss days on record. */
  ghost predicate SecondLoss(cfg: FbConfig, env: TickEnv, carry: Carry, held: seq<Holding>, n: nat)
    requires n < |held|
  {
    var before, h := ScanPrefix(cfg, env, carry, held, n), held[n];
    && Watched(env, before, h.symbol)
    && DecisionFor(cfg, env, before, h).reason.Some?
    && DecisionFor(cfg, env, before, h).quantity >= h.quantity
    && var pnlPct := PctOver(env.views[h.symbol].lastPx, h.averagePrice);
       pnlPct < 0.0 && |LossDaysAfter(before.lossDays, env.today, pnlPct)| >= 2
  }

  /** One holding's exit touches the loss record only if it is a full one: a sale at or over the average
      clears it, a sale under it records the day and, with two days on record, sets the rest. */
  lemma StepOnRecord(cfg: FbConfig, env: TickEnv, scan: Scan, h: Holding)
    requires h.averagePrice > 0.0
    ensures var before, after := scan.carry, ExitStep(cfg, env, scan, h).carry;
            var full := Watched(env, before, h.symbol) && DecisionFor(cfg, env, before, h).reason.Some?
                        && DecisionFor(cfg, env, before, h).quantity >= h.quantity;
            var loss := full && env.views[h.symbol].lastPx < h.averagePrice;
            && (!full ==> after.lossDays == before.lossDays && after.restUntil == before.restUntil)
            && (full && !loss ==> after.lossDays == [] && after.restUntil == before.restUntil)
            && (loss && env.today in before.lossDays ==> after.lossDays == before.lossDays)
            && (loss && env.today !in before.lossDays && |before.lossDays| < 2 ==>
                 |after.lossDays| == |before.lossDays| + 1)
            && (loss ==> after.restUntil == if |after.lossDays| >= 2 then Some(env.today + 1) else before.restUntil)
  {
    hide DecideExit, PctOver, LastTwo, Sort;
    if Watched(env, scan.carry, h.symbol) {
      var days := scan.carry.lossDays;
      PctAsPrice(env.views[h.symbol].lastPx, h.averagePrice, 0.0);
      SortKeepsLength(days + [env.today]);
      if |days| < 2 {
        ShortStays(Sort(days + [env.today]));
      }
    }
  }

  lemma ShortStays(days: seq<Day>)
    requires |days| <= 2
    ensures LastTwo(days) == days
  {
  }

  lemma {:induction false} SortKeepsLength(days: seq<Day>)
    ensures |Sort(days)| == |days|
  {
    if days != [] {
      SortKeepsLength(days[1..]);
      InsertKeepsLength(days[0], Sort(days[1..]));
    }
  }

  lemma {:induction false} InsertKeepsLength(d: Day, sorted: seq<Day>)
    ensures |Insert(d, sorted)| == |sorted| + 1
  {
    if sorted != [] && d > sorted[0] {
      InsertKeepsLength(d, sorted[1..]);
    }
  }

  lemma StepOnRest(cfg: FbConfig, env: TickEnv, scan: Scan, h: Holding)
    requires LossRecord(scan.carry.lossDays) && RestWithin(scan.carry.restUntil, env.today)
    ensures var c := ExitStep(cfg, env, scan, h).carry;
            && LossRecord(c.lossDays)
            && RestWithin(c.restUntil, env.today)
            && NoEarlierRest(c.restUntil, scan.carry.restUntil)
  {
    hide DecideExit, LossDaysAfter, PctOver;
    if Watched(env, scan.carry, h.symbol) {
      LossDaysStayARecord(scan.carry.lossDays, env.today, PctOver(env.views[h.symbol].lastPx, h.averagePrice));
    }
  }

  /** Exit signals keep the record, and only ever move the rest date forward, to tomorrow. */
  lemma {:induction false} ScanOnRest(cfg: FbConfig, env: TickEnv, carry: Carry, held: seq<Holding>)
    requires LossRecord(carry.lossDays) && RestWithin(carry.restUntil, env.today)
    ensures var c := ExitScan(cfg, env, carry, held).carry;
            && LossRecord(c.lossDays)
            && RestWithin(c.restUntil, env.today)
            && NoEarlierRest(c.restUntil, carry.restUntil)
  {
    hide ExitStep;
    if held != [] {
      ScanOnRest(cfg, env, carry, held[..|held| - 1]);
      StepOnRest(cfg, env, ExitScan(cfg, env, carry, held[..|held| - 1]), held[|held| - 1]);
    }
  }

  /** After a second loss in the scan, the rest date is tomorrow, whatever else is sold. */
  lemma {:induction false} SecondLossForcesRest(cfg: FbConfig, env: TickEnv, carry: Carry, held: seq<Holding>, n: nat)
    requires LossRecord(carry.lossDays) && RestWithin(carry.restUntil, env.today)
    requires n < |held| && SecondLoss(cfg, env, carry, held, n)
    ensures ExitScan(cfg, env, carry, held).carry.restUntil == Some(env.today + 1)
  {
    hide DecideExit, LossDaysAfter, PctOver, LossRecord;
    var prefix, h := held[..|held| - 1], held[|held| - 1];
    ScanOnRest(cfg, env, carry, prefix);
    if n == |held| - 1 {
      assert held[..n] == prefix;
    } else {
      assert prefix[..n] == held[..n];
      SecondLossForcesRest(cfg, env, carry, prefix, n);
      StepOnRest(cfg, env, ExitScan(cfg, env, carry, prefix), h);
    }
  }

  // ---- over runs -----------------------------------------------------------------------------------

  ghost predicate RestInOrder(w: World) {
    LossRecord(w.saved.carry.lossDays) && RestWithin(w.saved.carry.restUntil, w.saved.day)
  }

  lemma TickOnRest(cfg: FbConfig, env: TickEnv, w: World)
    requires InStep(w) && TimelyTick(env) && RestInOrder(w) && w.saved.day <= env.today
    ensures var w' := Tick(cfg, env, w).0;
            RestInOrder(w') && NoEarlierRest(w'.saved.carry.restUntil, w.saved.carry.restUntil)
  {
    hide InStep, TickHalts, Executed, Signals, TickPicks, ExitScan, Tick, LossRecord, RollDay;
    if TickHalts(cfg, env, w) {
      HaltedTick(cfg, env, w);
    } else {
      TickDetail(cfg, env, w);
      SignalShape(cfg, env, w);
      RollDayKeeps(w.saved, env.today);
      RollDayKeeps(Executed(cfg, env, w).state, env.saveDay);
      ScanOnRest(cfg, env, RollDay(w.saved, env.today).carry, PosSymbols(Portfolio(w.desk.account)));
    }
  }

  /** Over any run the loss record stays a record and the rest date never moves backwards. */
  lemma {:induction false} RestNeverMovesBack(cfg: FbConfig, w: World, envs: seq<TickEnv>, i: nat, k: nat)
    requires i <= k <= |envs| && TimelyRun(w, envs) && InStep(w) && RestInOrder(w)
    ensures RestInOrder(WorldAt(cfg, w, envs, k))
    ensures NoEarlierRest(WorldAt(cfg, w, envs, k).saved.carry.restUntil,
                          WorldAt(cfg, w, envs, i).saved.carry.restUntil)
  {
    hide InStep, Tick, RestInOrder, TimelyTick;
    if k > 0 {
      var before := WorldAt(cfg, w, envs, k - 1);
      RestNeverMovesBack(cfg, w, envs, if i < k then i else k - 1, k - 1);
      RunKeepsInStep(cfg, w, envs, k - 1);
      StateFileDay(cfg, w, envs, k - 1);
      TickOnRest(cfg, envs[k - 1], before);
    }
  }

  /** A tick inside the rest signals no buy. */
  lemma RestingTickSignalsNoBuy(cfg: FbConfig, env: TickEnv, w: World, s: Symbol)
    requires InStep(w) && TimelyTick(env) && !TickHalts(cfg, env, w)
    requires w.saved.carry.restUntil.Some? && w.saved.carry.restUntil.value >= env.today
    ensures !Buys(Tick(cfg, env, w).1.signals, s)
  {
    hide InStep, TickHalts, Tick, Snapshot, Buys, Picked, LoadedPicks, TickPicks;
    TickBuysIff(cfg, env, w, s);
  }

  /** The tick that completes the two loss days sets the rest to tomorrow, and itself still signals
      exactly the purchases that the rest date it loaded allows. */
  lemma CompletingTickBuysIff(cfg: FbConfig, env: TickEnv, w: World, n: nat, s: Symbol)
    requires InStep(w) && TimelyTick(env) && RestInOrder(w) && w.saved.day <= env.today && !TickHalts(cfg, env, w)
    requires var held := PosSymbols(Portfolio(w.desk.account));
             n < |held| && SecondLoss(cfg, env, RollDay(w.saved, env.today).carry, held, n)
    ensures var (w', log) := Tick(cfg, env, w);
            && w'.saved.carry.restUntil == Some(env.today + 1)
            && (Buys(log.signals, s) <==> MayEnter(cfg, env, w) && Picked(LoadedPicks(cfg, env, w), s))
  {
    hide InStep, Tick, RollDay, TickHalts, ExitScan, SecondLoss, Signals, Executed, Portfolio, PosSymbols, LossRecord,
      MayEnter, Picked, LoadedPicks, Buys, TickPicks;
    var carry, held := RollDay(w.saved, env.today).carry, PosSymbols(Portfolio(w.desk.account));
    RollDayKeeps(w.saved, env.today);
    SecondLossForcesRest(cfg, env, carry, held, n);
    TickDetail(cfg, env, w);
    SignalShape(cfg, env, w);
    RollDayKeeps(Executed(cfg, env, w).state, env.saveDay);
    TickBuysIff(cfg, env, w, s);
  }

  /** A flat account with a fresh state file meets the conditions of the theorems on rest. */
  lemma FreshWorldAtRest(cash: real, today: Day, tracked: bool)
    ensures InStep(FreshWorld(cash, today, tracked)) && RestInOrder(FreshWorld(cash, today, tracked))
  {
    FreshWorldInStep(cash, today, tracked);
  }

  /** From the tick that completes two loss days on, through the next calendar day, a buy is
      signalled by that tick alone, and there exactly as the rest date it loaded allows. */
  lemma TwoLossDaysForceRest(cfg: FbConfig, w: World, envs: seq<TickEnv>, i: nat, j: nat, n: nat, s: Symbol)
    requires i <= j < |envs| && TimelyRun(w, envs) && InStep(w) && RestInOrder(w)
    requires var at := WorldAt(cfg, w, envs, i);
             var held := PosSymbols(Portfolio(at.desk.account));
             !TickHalts(cfg, envs[i], at) && n < |held|
             && SecondLoss(cfg, envs[i], RollDay(at.saved, envs[i].today).carry, held, n)
    requires envs[j].today <= envs[i].today + 1
    ensures Buys(LogAt(cfg, w, envs, j).signals, s) <==>
            var at := WorldAt(cfg, w, envs, i);
            && j == i
            && MayEnter(cfg, envs[i], at)
            && Picked(LoadedPicks(cfg, envs[i], at), s)
  {
    hide InStep, Tick, RollDay, TickHalts, SecondLoss, Portfolio, PosSymbols, MayEnter, Picked,
      LoadedPicks;
    RunKeepsInStep(cfg, w, envs, i);
    RunKeepsInStep(cfg, w, envs, j);
    RestNeverMovesBack(cfg, w, envs, i, i);
    StateFileDay(cfg, w, envs, i);
    CompletingTickBuysIff(cfg, envs[i], WorldAt(cfg, w, envs, i), n, s);
    if j == i {
      return;
    }
    RestNeverMovesBack(cfg, w, envs, i + 1, j);
    assert WorldAt(cfg, w, envs, i + 1).saved.carry.restUntil == Some(envs[i].today + 1);
    var later := WorldAt(cfg, w, envs, j);
    if TickHalts(cfg, envs[j], later) {
      HaltedTick(cfg, envs[j], later);
    } else {
      RestingTickSignalsNoBuy(cfg, envs[j], later, s);
    }
  }

  // ---- a tick that completes two loss days and still buys ------------------------------------------

  /** Default settings where they matter: entries from 14:30 to 15:18, deadline 10:30, three entries. */
  function SampleConfig(quote: Symbol -> real): FbConfig {
    FbConfig(DEFAULT_LIMITS, None, false, quote, At(14, 30), At(15, 18), At(10, 30), 3,
      5, 20.0, 25.0, 0.45, 2.0, 1.0, 2, 3.0, 180.0, 0, 1, 1, 1)
  }

  /** One share of A, bought at 100 on day 0, which was a loss day. */
  function SampleWorld(quote: Symbol -> real): World {
    World(
      Desk(Place(NewAccount(1000.0), OrderRequest("A", Buy, 1, Some(100.0), None), quote).0, false, None),
      PaperState(1, 0, map[], map[],
        Carry(map["A" := Meta(0, 100.0, 1, false, None, 0)], [], [0], None, map[], map[], None)),
      map[])
  }

  function SampleCandidate(): Candidate {
    Candidate("B", 100.0, 2.0, DefaultTerms(Neutral, false, 0, 1000.0))
  }

  /** Day 1 at 14:40: A trades at 90, and B is ranked. */
  function SampleTick(): TickEnv {
    var moment := Moment(0, 1.0, Clock(0, 0), Clock(0, 0));
    TickEnv(1, At(14, 40), 1, moment, (n: nat) => moment, (n: nat) => moment, [], true, true, Neutral, Ordinary,
      map["A" := MorningView(90.0, 100.0, false, 1.0, None, None, 0.0, false)],
      true, false, 0, 1000.0, 1.0, 1.0, [Scored("B", 100.0, 0.0)])
  }

  lemma SampleIsInOrder(quote: Symbol -> real)
    ensures InStep(SampleWorld(quote)) && TimelyTick(SampleTick()) && RestInOrder(SampleWorld(quote))
    ensures Portfolio(SampleWorld(quote).desk.account) == [Holding("A", 1, 100.0)]
  {
    var start, o := NewAccount(1000.0), OrderRequest("A", Buy, 1, Some(100.0), None);
    var a := Place(start, o, quote).0;
    assert a.positions == map["A" := PositionView(1, 100.0)];
    SampleIsListed(a.fills[0]);
    assert a.fills == [a.fills[0]];
    FreshWorldInStep(1000.0, 0, false);
    PlaceKeepsLogged(start, o, quote);
    hide HoldingsMatchLog, HeldOrder, Place;
    assert SampleWorld(quote).desk.account == a;
  }

  lemma SampleIsListed(f: Fill)
    requires f.side.Buy?
    ensures HeldOrder([f]) == [f.symbol]
  {
    ListingAfter([], f);
    assert [f] == [] + [f] && HeldOrder([]) == [];
  }

  lemma SampleIsSized()
    ensures Sized(SampleCandidate())
  {
    var t := SampleCandidate().terms;
    assert EffectiveEquity(t) == 1000.0 && MinPct(t) == 20.0 && MaxPct(t) == 25.0;
    assert Affords(200.0, 100.0) == 2 && Affords(250.0, 100.0) == 2 && Affords(4.5, 2.0) == 2;
    assert PctOf(1000.0, 20.0) == 200.0 && PctOf(1000.0, 25.0) == 250.0 && PctOf(1000.0, 0.45) == 4.5;
    assert StopDistance(100.0, 2.0) == 2.0;
    assert MinShares(t, 100.0) == 2;
    assert FeasibleShares(t, 100.0, 2.0) == 2;
    assert Reduced(2, 1.0) == 2;
  }

  lemma SampleDecision(quote: Symbol -> real)
    ensures var carry, h := SampleWorld(quote).saved.carry, Holding("A", 1, 100.0);
            && Watched(SampleTick(), carry, "A")
            && DecisionFor(SampleConfig(quote), SampleTick(), carry, h)
               == ExitDecision(Some(TimeValueExit1000), 1, carry.positions["A"])
            && PctOver(90.0, 100.0) < 0.0
  {
    var x := InputsFor(SampleConfig(quote), SampleTick(), SampleWorld(quote).saved.carry.positions["A"],
      Holding("A", 1, 100.0));
    assert GapPct(x) == 0.0;
    assert PctOver(90.0, 100.0) == -10.0;
    hide Score, HoldAllowed;
  }

  lemma SamplePicks(quote: Symbol -> real)
    ensures LoadedPicks(SampleConfig(quote), SampleTick(), SampleWorld(quote)) == [SampleCandidate()]
  {
    hide Sized, Portfolio;
    SampleIsInOrder(quote);
    SampleIsSized();
    var cs := [SampleCandidate()];
    var held := [Holding("A", 1, 100.0)];
    assert PosSymbols(held) == held by { PosSymbolsKeepsAll(held); }
    var cfg, env, w := SampleConfig(quote), SampleTick(), SampleWorld(quote);
    var carry := w.saved.carry;
    assert RollDay(w.saved, env.today).carry == carry && EffectiveCap(cfg, env) == 3;
    assert cs[1..] == [] && EligibleOnly(cfg, env, carry, held, cs[1..]) == [];
    assert Eligible(cfg, env, carry, held, "B");
    assert EligibleOnly(cfg, env, carry, held, cs) == cs;
    assert Picks(cs[1..], 1, 2) == [] && Picks(cs, 2, 3) == cs;
    assert Ranked(cfg, env) == cs && PoolSize(cfg, env) == 5;
    assert EntryPicks(cfg, env, carry, held) == cs;
  }

  /** Such a tick exists: A is sold at a loss on a second loss day, the rest date becomes the next
      day, and B is bought all the same. */
  lemma CompletingTickCanBuy(quote: Symbol -> real)
    ensures var (w', log) := Tick(SampleConfig(quote), SampleTick(), SampleWorld(quote));
            && w'.saved.carry.restUntil == Some(SampleTick().today + 1)
            && Buys(log.signals, "B")
  {
    var cfg, env, w := SampleConfig(quote), SampleTick(), SampleWorld(quote);
    var held := [Holding("A", 1, 100.0)];
    SampleIsInOrder(quote);
    SampleDecision(quote);
    SamplePicks(quote);
    assert Picked([SampleCandidate()], "B") by { assert [SampleCandidate()][0].symbol == "B"; }
    assert PosSymbols(held) == held by { PosSymbolsKeepsAll(held); }
    assert held[..0] == [];
    assert MayEnter(cfg, env, w) by { SampleMayEnter(quote); }
    assert LossDaysAfter([0], 1, PctOver(90.0, 100.0)) == [0, 1] by { SampleLossDays(); }
    assert SecondLoss(cfg, env, w.saved.carry, held, 0);
    hide Tick, InStep, SecondLoss, MayEnter, LoadedPicks, Picked, PosSymbols, Portfolio;
    CompletingTickBuysIff(cfg, env, w, 0, "B");
  }

  lemma SampleMayEnter(quote: Symbol -> real)
    ensures MayEnter(SampleConfig(quote), SampleTick(), SampleWorld(quote))
  {
  }

  lemma SampleLossDays()
    ensures LossDaysAfter([0], 1, PctOver(90.0, 100.0)) == [0, 1]
  {
    assert PctOver(90.0, 100.0) == -10.0;
    assert [0] + [1] == [0, 1] && Sort([0, 1][1..]) == [1];
  }
}
