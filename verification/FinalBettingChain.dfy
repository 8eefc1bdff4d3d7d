/** The exit chain on prices and times: for every reason, exactly when it is given
    (app/strategy/final_betting_v1_strategy.py). */
module FinalBettingChain {
  import opened Common
  import opened FinalBettingExits

  // ---- percentages as prices ---------------------------------------------------------------------

  lemma PctAsPrice(now: real, base: real, pct: real)
    requires base > 0.0
    ensures PctOver(now, base) <= pct <==> now <= base * (1.0 + pct / 100.0)
    ensures PctOver(now, base) < pct <==> now < base * (1.0 + pct / 100.0)
  {
    GainAsPrice(now, base, pct);
  }

  lemma ClockFace(hour: int, minute: int)
    ensures At(0, 0) == 0 && At(hour, minute + 1) == At(hour, minute) + 60_000_000 && At(hour + 1, 0) == At(hour, 60)
  {
  }

  /** The close the gap is measured from: the recorded one, or the average price without one. */
  function Reference(x: ExitInputs): real {
    if x.meta.refClose == 0.0 then x.avg else x.meta.refClose
  }

  // ---- the conditions of the chain -----------------------------------------------------------------

  /** The tolerated gap down, in percent: wider in a volatile morning. */
  function GapLimit(atrPct: real): (pct: real)
    ensures 0.68 <= pct <= 1.22
  {
    var limit := if atrPct <= 0.0 then 0.52 else 0.52 + 0.11 * atrPct;
    if limit < 0.68 then 0.68 else if limit > 1.22 then 1.22 else limit
  }

  /** Opened 1.18% under the reference at any time, or under the tolerated gap from 09:10 on. */
  ghost predicate OpenedDown(x: ExitInputs) {
    && Reference(x) > 0.0
    && (x.view.openPx <= Reference(x) * 0.9882
        || (x.now >= At(9, 10) && x.view.openPx <= Reference(x) * (1.0 - GapLimit(x.view.atrPct) / 100.0)))
  }

  lemma DownIsUnder(x: ExitInputs)
    requires OpenedDown(x)
    ensures x.view.openPx < Reference(x)
  {
    assert Reference(x) * (GapLimit(x.view.atrPct) / 100.0) > 0.0;
  }

  ghost predicate Sagging(x: ExitInputs) {
    && !x.view.morningEmpty && At(9, 12) <= x.now < At(10, 0)
    && x.view.lastPx < x.avg * 0.9905 && x.view.lastPx < x.view.openPx * 0.996
  }

  ghost predicate OpenedUp(x: ExitInputs) {
    At(9, 5) <= x.now <= At(9, 30) && x.view.openPx > Reference(x) > 0.0
  }

  ghost predicate Losing(x: ExitInputs) {
    At(9, 0) <= x.now <= At(9, 30) && x.avg > 0.0 && x.view.lastPx < x.avg
  }

  /** Part of it was sold before, a scale-out was signalled today, or a runner is recorded. */
  ghost predicate IsRunner(x: ExitInputs) {
    x.meta.partialDone || x.meta.scaleoutDay == Some(x.today) || x.meta.runnerTarget > 0
  }

  /** Opened 2.8% up or more and fell back on a weak tape. */
  ghost predicate FadedAway(x: ExitInputs) {
    && Reference(x) > 0.0 && x.view.openPx >= Reference(x) * 1.028
    && Score(x) <= 0.34
    && x.view.pullbackPct >= 1.35
    && (x.view.vwap.Some? ==> x.view.lastPx < x.view.vwap.value * if x.mode.Aggressive? then 0.996 else 0.998)
  }

  /** Under the early low, too deep a pullback, under the volume-weighted price, or too low a score:
      the limits narrow from aggressive to defensive markets. */
  ghost predicate LostItsTrend(x: ExitInputs) {
    || (x.view.earlyLow.Some? && x.view.lastPx < x.view.earlyLow.value)
    || x.view.pullbackPct >= (if x.mode.Aggressive? then 2.45 else if x.mode.Neutral? then 2.25 else 2.05)
    || (x.now >= At(9, 15) && x.view.vwap.Some?
        && x.view.lastPx < x.view.vwap.value
           * (if x.mode.Aggressive? then 0.9965 else if x.mode.Neutral? then 0.998 else 0.999))
    || (x.now >= At(9, 18)
        && Score(x) < (if x.mode.Aggressive? then 0.46 else if x.mode.Neutral? then 0.50 else 0.55))
  }

  /** The runner that the time-value exit spares. */
  ghost predicate MayRunOn(x: ExitInputs) {
    && IsRunner(x) && x.mode.Aggressive? && x.health.Strong?
    && x.view.vwap.Some? && x.view.lastPx >= x.view.vwap.value && x.view.lastPx >= x.view.vwap.value * 0.996
    && (x.view.earlyLow.Some? ==> x.view.lastPx >= x.view.earlyLow.value * 1.001)
    && x.view.pullbackPct <= 2.25
    && Score(x) >= 0.72
  }

  lemma ConditionsOnPrices(x: ExitInputs)
    ensures GapDown(x) <==> OpenedDown(x)
    ensures MorningWeak(x) <==> Sagging(x)
    ensures ScaleWindow(x) <==> OpenedUp(x)
    ensures LossCutoff(x) <==> Losing(x)
    ensures RunnerActive(x) <==> IsRunner(x)
    ensures FullFade(x) <==> FadedAway(x)
    ensures RunnerFails(x) <==> LostItsTrend(x)
    ensures AllowHold(x) <==> MayRunOn(x)
  {
    assert RefClose(x) == Reference(x) && Score(x) == FollowthroughScore(x.mode, x.view, GapPct(x));
    hide Score, PctOver, FollowthroughScore;
    GapOnPrices(x);
    if x.avg > 0.0 {
      PctAsPrice(x.view.lastPx, x.avg, 0.0);
    } else {
      assert PnlPct(x) == 0.0 by { NoBaseNoPct(x.view.lastPx, x.avg); }
    }
  }

  lemma GapOnPrices(x: ExitInputs)
    ensures GapDown(x) <==> OpenedDown(x)
    ensures GapPct(x) > 0.0 <==> x.view.openPx > Reference(x) > 0.0
    ensures GapPct(x) >= 2.8 <==> Reference(x) > 0.0 && x.view.openPx >= Reference(x) * 1.028
  {
    hide PctOver;
    var ref := Reference(x);
    assert RefClose(x) == ref;
    var threshold := -MaxReal(0.68, MinReal(1.22, 0.52 + 0.11 * MaxReal(0.0, x.view.atrPct)));
    if ref > 0.0 {
      PctAsPrice(x.view.openPx, ref, -1.18);
      PctAsPrice(x.view.openPx, ref, threshold);
      PctAsPrice(x.view.openPx, ref, 0.0);
      PctAsPrice(x.view.openPx, ref, 2.8);
    } else {
      NoBaseNoPct(x.view.openPx, ref);
    }
  }

  lemma NoBaseNoPct(now: real, base: real)
    requires base <= 0.0
    ensures PctOver(now, base) == 0.0
  {
  }

  // ---- every reason, exactly -----------------------------------------------------------------------

  /** The runner's own branch: between 09:12 and the deadline, when nothing earlier decides. */
  ghost predicate RunnerTurn(x: ExitInputs) {
    && !OpenedDown(x) && !Sagging(x) && !OpenedUp(x) && !Losing(x)
    && IsRunner(x) && At(9, 12) <= x.now < x.deadline
  }

  /** What is left to the time-value exit, the deadline and the loss cut-off. */
  ghost predicate LastTurn(x: ExitInputs) {
    && !OpenedDown(x) && !Sagging(x) && !OpenedUp(x)
    && !(!Losing(x) && IsRunner(x) && At(9, 12) <= x.now < x.deadline)
  }

  /** The whole chain as a table: each reason with its exact condition, and no exit in the rest. */
  lemma ReasonsExactly(x: ExitInputs)
    ensures var r := DecideExit(x).reason;
            var late, first := x.now >= At(10, 0), OpenedUp(x) && !Sagging(x) && !IsRunner(x);
            && (r == Some(GapDownStop) <==> OpenedDown(x))
            && (r == Some(WeakMorningFlush) <==> !OpenedDown(x) && Sagging(x))
            && (r == Some(GapUpFullFade) <==> first && FadedAway(x))
            && (r == Some(GapUpScaleout) <==> first && !FadedAway(x))
            && (r == Some(RunnerFollowthroughFail) <==> RunnerTurn(x) && LostItsTrend(x))
            && (r == Some(RsiFlagTakeProfit) <==>
                 RunnerTurn(x) && !LostItsTrend(x) && x.view.rsiBlueFlag && x.view.lastPx > x.avg)
            && (r == Some(TimeValueExit1000) <==>
                 LastTurn(x) && late && x.view.lastPx < x.avg * 1.01 && !MayRunOn(x))
            && (r == Some(HardExit) <==>
                 LastTurn(x) && !Losing(x) && !(late && x.view.lastPx < x.avg * 1.01) && x.now >= x.deadline)
            && (r == Some(LossCutoff0930) <==>
                 Losing(x) && (LastTurn(x) || (OpenedUp(x) && !Sagging(x) && IsRunner(x))))
  {
    hide Score, PctOver, GapPct, PnlPct, RefClose, ScaleoutPct, HoldAllowed, RoundHalfEven, Reference,
      GapDown, MorningWeak, ScaleWindow, LossCutoff, RunnerActive, FullFade, RunnerFails, AllowHold,
      OpenedDown, Sagging, OpenedUp, IsRunner, FadedAway, LostItsTrend, MayRunOn;
    ConditionsOnPrices(x);
    WindowFacts(x);
  }

  lemma WindowFacts(x: ExitInputs)
    ensures OpenedUp(x) ==> !OpenedDown(x)
    ensures Losing(x) || OpenedUp(x) ==> x.now < At(10, 0)
  {
    if OpenedDown(x) {
      DownIsUnder(x);
    }
  }

  /** Every exit but the first scale-out is for the whole holding. */
  lemma QuantitiesExactly(x: ExitInputs)
    ensures var d := DecideExit(x);
            && (d.reason.Some? && d.reason != Some(GapUpScaleout) ==> d.quantity == x.qty)
            && (d.reason == Some(GapUpScaleout) ==>
                 d.quantity == ScaleoutQuantity(
                   x.qty, ScaleoutPct(GapPct(x), Score(x), x.mode, ProfitProfile(x.mode, x.health))))
  {
    hide Score, PctOver, GapPct, PnlPct, RefClose, ScaleoutPct, ScaleoutQuantity, GapDown, MorningWeak, ScaleWindow,
      LossCutoff, RunnerActive, FullFade, RunnerFails, AllowHold;
  }

  /** Only the two profit exits on a gap touch the position's memory: a scale-out records its day and
      what it leaves to run, a full exit drops the target. */
  lemma MemoryExactly(x: ExitInputs)
    ensures var d := DecideExit(x);
            && (d.reason == Some(GapUpScaleout) ==>
                 d.meta == x.meta.(scaleoutDay := Some(x.today), runnerTarget := x.qty - d.quantity,
                                   partialDone := false))
            && (d.reason == Some(GapUpFullFade) ==> d.meta == x.meta.(runnerTarget := 0))
            && (d.reason !in {Some(GapUpScaleout), Some(GapUpFullFade)} ==> d.meta == x.meta)
  {
    hide Score, PctOver, GapPct, PnlPct, RefClose, ScaleoutPct, ScaleoutQuantity, GapDown, MorningWeak, ScaleWindow,
      LossCutoff, RunnerActive, FullFade, RunnerFails, AllowHold;
  }

  /** A position that broke its early low after 09:30 is sold, whatever else holds for it. */
  lemma BrokenRunnerIsSold(x: ExitInputs)
    requires x.meta.runnerTarget > 0 && x.view.lastPx >= x.avg > 0.0
    requires x.view.openPx >= x.meta.refClose > 0.0
    requires At(9, 30) < x.now < x.deadline
    requires x.view.earlyLow.Some? && x.view.lastPx < x.view.earlyLow.value
    ensures DecideExit(x) == ExitDecision(Some(RunnerFollowthroughFail), x.qty, x.meta)
  {
    ReasonsExactly(x);
    QuantitiesExactly(x);
    MemoryExactly(x);
    if OpenedDown(x) {
      DownIsUnder(x);
    }
  }

  // ---- the tape's score ----------------------------------------------------------------------------

  /** The score out of a hundred: 24 for holding the volume-weighted price, 22 for the early low, up to
      22 for a shallow pullback, 18 for holding the open, up to 14 for the gap. */
  lemma ScoreOnTape(mode: Mode, v: MorningView, gapPct: real)
    requires v.openPx > 0.0
    ensures var factor := if mode.Aggressive? then 0.996 else if mode.Neutral? then 0.998 else 0.999;
            var vwap := if v.vwap.Some? && v.lastPx >= v.vwap.value * factor then 24.0 else 0.0;
            var low := if v.earlyLow.Some? && v.lastPx < v.earlyLow.value * 1.001 then 0.0 else 22.0;
            var pullback := if v.pullbackPct <= 0.0 then 22.0 else if v.pullbackPct >= 2.2 then 0.0
                            else 22.0 - 10.0 * v.pullbackPct;
            var open := if v.lastPx >= v.openPx * 0.9985 then 18.0 else 0.0;
            var gap := if gapPct <= 0.0 then 0.0 else if gapPct >= 2.2 then 14.0 else 14.0 * gapPct / 2.2;
            100.0 * FollowthroughScore(mode, v, gapPct) == vwap + low + pullback + open + gap
  {
    PctAsPrice(v.lastPx, v.openPx, -0.15);
    hide PctOver;
  }

  /** The score that permission to hold takes, out of a hundred: the time-value exit asks for 72 anyway. */
  function HoldScore(mode: Mode, health: Health): (score: real)
    ensures score <= 71.0
  {
    (match mode case Aggressive => 58.0 case Neutral => 62.0 case Defensive => 67.0)
    + if health.Weak? then 4.0 else 0.0
  }

  lemma HoldOnPrices(mode: Mode, health: Health, v: MorningView, gapPct: real)
    ensures HoldAllowed(mode, health, v, gapPct) <==>
              var factor := if mode.Aggressive? then 0.996 else if mode.Neutral? then 0.998 else 0.999;
              && 100.0 * FollowthroughScore(mode, v, gapPct) >= HoldScore(mode, health)
              && v.vwap.Some? && v.lastPx >= v.vwap.value * factor
              && (v.earlyLow.Some? ==> v.lastPx >= v.earlyLow.value * 1.001)
              && v.pullbackPct <= 2.25
  {
    hide FollowthroughScore;
  }

  // ---- the scale-out -------------------------------------------------------------------------------

  /** The share a balanced tape sells, in percent, by the size of the gap. */
  function GapShare(gapPct: real): real {
    if gapPct >= 2.8 then 68.0 else if gapPct >= 1.6 then 56.0 else if gapPct >= 0.75 then 46.0 else 32.0
  }

  function ScoreShift(score: real): real {
    if score <= 0.40 then 10.0 else if score <= 0.52 then 5.0
    else if score < 0.66 then 0.0 else if score < 0.78 then -6.0 else -10.0
  }

  /** More in a defensive market or in weak health, less in an aggressive market, least when strong. */
  function MoodShift(mode: Mode, health: Health): real {
    match (mode, health)
    case (Defensive, _) => 9.0
    case (Neutral, Weak) => 4.0
    case (Neutral, _) => 0.0
    case (Aggressive, Weak) => 0.0
    case (Aggressive, Ordinary) => -4.0
    case (Aggressive, Strong) => -7.0
  }

  lemma ScaleoutTable(gapPct: real, score: real, mode: Mode, health: Health)
    ensures gapPct <= 0.0 ==> ScaleoutPct(gapPct, score, mode, ProfitProfile(mode, health)) == 1.0
    ensures gapPct > 0.0 ==>
            var share := GapShare(gapPct) + ScoreShift(score) + MoodShift(mode, health);
            100.0 * ScaleoutPct(gapPct, score, mode, ProfitProfile(mode, health))
            == if share < 22.0 then 22.0 else if share > 92.0 then 92.0 else share
  {
  }

  /** The scale-out is the whole number of shares nearest to its share, but leaves one and sells one. */
  lemma ScaleoutIsNearest(qty: int, pct: real)
    requires qty >= 1
    ensures var n := ScaleoutQuantity(qty, pct);
            && n >= 1 && (qty >= 2 ==> n <= qty - 1)
            && (n > 1 ==> n as real <= qty as real * pct + 0.5)
            && (n < qty - 1 ==> n as real >= qty as real * pct - 0.5)
  {
  }
}
