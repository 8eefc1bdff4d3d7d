/** The overnight exit chain of the closing-auction strategy
    (app/strategy/final_betting_v1_strategy.py), for one carried position at one tick. */
module FinalBettingExits {
  import opened Common

  /** Time of day in KST, in microseconds since midnight. */
  type TimeOfDay = int

  function At(hour: int, minute: int): TimeOfDay {
    (hour * 60 + minute) * MINUTE
  }

  datatype Mode = Aggressive | Neutral | Defensive

  datatype Health = Strong | Ordinary | Weak

  datatype Profile = DefensiveTakeProfit | WeakHealthTakeProfit | AggressiveRunner | BalancedRunner

  datatype ExitReason =
    | LossCutoff0930
    | GapDownStop
    | WeakMorningFlush
    | GapUpFullFade
    | GapUpScaleout
    | RunnerFollowthroughFail
    | RsiFlagTakeProfit
    | TimeValueExit1000
    | HardExit

  /** What the carry dictionary remembers of one position. */
  datatype Meta = Meta(
    entryDay: Day,
    refClose: real,
    shares: int,
    partialDone: bool,
    scaleoutDay: Option<Day>,
    runnerTarget: int
  )

  /** Market readings of one symbol; indicator formulas are inputs. */
  datatype MorningView = MorningView(
    lastPx: real,
    openPx: real,
    morningEmpty: bool,
    atrPct: real,
    vwap: Option<real>,
    earlyLow: Option<real>,
    pullbackPct: real,
    rsiBlueFlag: bool
  )

  datatype ExitInputs = ExitInputs(
    mode: Mode,
    health: Health,
    deadline: TimeOfDay,
    today: Day,
    now: TimeOfDay,
    qty: int,
    avg: real,
    meta: Meta,
    view: MorningView
  )

  datatype ExitDecision = ExitDecision(reason: Option<ExitReason>, quantity: int, meta: Meta)

  // ---- scores -------------------------------------------------------------------------------

  function VwapHoldFactor(mode: Mode): real {
    match mode
    case Aggressive => 0.996
    case Neutral => 0.998
    case Defensive => 0.999
  }

  function VwapHolds(mode: Mode, v: MorningView): bool {
    v.vwap.Some? && v.lastPx >= v.vwap.value * VwapHoldFactor(mode)
  }

  function EarlyLowIntact(v: MorningView): bool {
    v.earlyLow.None? || v.lastPx >= v.earlyLow.value * 1.001
  }

  function PctOver(now: real, base: real): real {
    if base > 0.0 then (now / base - 1.0) * 100.0 else 0.0
  }

  function FollowthroughScore(mode: Mode, v: MorningView, gapPct: real): (score: real)
    ensures 0.0 <= score <= 1.0
  {
    var gapStrength := if gapPct > 0.0 then Clamp(gapPct / 2.2, 0.0, 1.0) else 0.0;
    var pullbackScore := 1.0 - Clamp(v.pullbackPct / 2.2, 0.0, 1.0);
    var openHold := if PctOver(v.lastPx, v.openPx) >= -0.15 then 1.0 else 0.0;
    Clamp(
      0.24 * (if VwapHolds(mode, v) then 1.0 else 0.0)
      + 0.22 * (if EarlyLowIntact(v) then 1.0 else 0.0)
      + 0.22 * pullbackScore
      + 0.18 * openHold
      + 0.14 * gapStrength,
      0.0, 1.0)
  }

  function HoldThreshold(mode: Mode, health: Health): real {
    0.62
    - (if mode.Aggressive? then 0.04 else 0.0)
    + (if mode.Defensive? then 0.05 else 0.0)
    + (if health.Weak? then 0.04 else 0.0)
  }

  predicate HoldAllowed(mode: Mode, health: Health, v: MorningView, gapPct: real) {
    && FollowthroughScore(mode, v, gapPct) >= HoldThreshold(mode, health)
    && VwapHolds(mode, v)
    && EarlyLowIntact(v)
    && v.pullbackPct <= 2.25
  }

  function ProfitProfile(mode: Mode, health: Health): Profile {
    if mode.Defensive? then DefensiveTakeProfit
    else if health.Weak? then WeakHealthTakeProfit
    else if mode.Aggressive? && health.Strong? then AggressiveRunner
    else BalancedRunner
  }

  function ScaleoutPct(gapPct: real, score: real, mode: Mode, profile: Profile): (pct: real)
    ensures gapPct > 0.0 ==> 0.22 <= pct <= 0.92
  {
    if gapPct <= 0.0 then 1.0
    else
      var base := if gapPct < 0.75 then 0.32 else if gapPct < 1.6 then 0.46 else if gapPct < 2.8 then 0.56 else 0.68;
      var byScore :=
        if score >= 0.78 then -0.10 else if score >= 0.66 then -0.06
        else if score <= 0.40 then 0.10 else if score <= 0.52 then 0.05 else 0.0;
      var byMode := match mode case Aggressive => -0.04 case Neutral => 0.0 case Defensive => 0.05;
      var byProfile :=
        match profile
        case DefensiveTakeProfit => 0.04
        case WeakHealthTakeProfit => 0.04
        case AggressiveRunner => -0.03
        case BalancedRunner => 0.0;
      Clamp(base + byScore + byMode + byProfile, 0.22, 0.92)
  }

  function ScaleoutQuantity(qty: int, pct: real): int {
    MaxInt(1, MinInt(qty - 1, RoundHalfEven(qty as real * pct)))
  }

  // ---- the chain ----------------------------------------------------------------------------

  function RefClose(x: ExitInputs): real {
    if x.meta.refClose != 0.0 then x.meta.refClose else x.avg
  }

  function GapPct(x: ExitInputs): real {
    PctOver(x.view.openPx, RefClose(x))
  }

  function Score(x: ExitInputs): real {
    FollowthroughScore(x.mode, x.view, GapPct(x))
  }

  function PnlPct(x: ExitInputs): real {
    PctOver(x.view.lastPx, x.avg)
  }

  predicate RunnerActive(x: ExitInputs) {
    x.meta.partialDone || x.meta.scaleoutDay == Some(x.today) || x.meta.runnerTarget > 0
  }

  predicate LossCutoff(x: ExitInputs) {
    At(9, 0) <= x.now <= At(9, 30) && PnlPct(x) < 0.0
  }

  predicate GapDown(x: ExitInputs) {
    var threshold := -MaxReal(0.68, MinReal(1.22, 0.52 + 0.11 * MaxReal(0.0, x.view.atrPct)));
    GapPct(x) <= -1.18 || (x.now >= At(9, 10) && GapPct(x) <= threshold)
  }

  predicate MorningWeak(x: ExitInputs) {
    && !x.view.morningEmpty
    && At(9, 12) <= x.now < At(10, 0)
    && x.view.lastPx < x.avg * 0.9905
    && x.view.lastPx < x.view.openPx * 0.996
  }

  predicate ScaleWindow(x: ExitInputs) {
    At(9, 5) <= x.now <= At(9, 30) && GapPct(x) > 0.0
  }

  predicate FullFade(x: ExitInputs) {
    var factor := if x.mode.Aggressive? then 0.996 else 0.998;
    && GapPct(x) >= 2.8
    && Score(x) <= 0.34
    && x.view.pullbackPct >= 1.35
    && !(x.view.vwap.Some? && x.view.lastPx >= x.view.vwap.value * factor)
  }

  predicate RunnerFails(x: ExitInputs) {
    var pullbackLimit := match x.mode case Aggressive => 2.45 case Neutral => 2.25 case Defensive => 2.05;
    var scoreLimit := match x.mode case Aggressive => 0.46 case Neutral => 0.50 case Defensive => 0.55;
    var vwapFactor := match x.mode case Aggressive => 0.9965 case Neutral => 0.998 case Defensive => 0.999;
    || (x.view.earlyLow.Some? && x.view.lastPx < x.view.earlyLow.value)
    || x.view.pullbackPct >= pullbackLimit
    || (x.view.vwap.Some? && x.now >= At(9, 15) && x.view.lastPx < x.view.vwap.value * vwapFactor)
    || (Score(x) < scoreLimit && x.now >= At(9, 18))
  }

  /** The time-value exit is waived for a strong runner in an aggressive market. */
  predicate AllowHold(x: ExitInputs) {
    && RunnerActive(x)
    && HoldAllowed(x.mode, x.health, x.view, GapPct(x))
    && Score(x) >= 0.72
    && x.view.vwap.Some? && x.view.lastPx >= x.view.vwap.value
    && x.mode.Aggressive?
    && x.health.Strong?
  }

  function FullExit(x: ExitInputs, reason: ExitReason): ExitDecision {
    ExitDecision(Some(reason), x.qty, x.meta)
  }

  function Stay(x: ExitInputs): ExitDecision {
    ExitDecision(None, x.qty, x.meta)
  }

  /** The whole if/elif chain for a carried overnight position in the regular session. */
  function DecideExit(x: ExitInputs): ExitDecision {
    var early := if LossCutoff(x) then FullExit(x, LossCutoff0930) else Stay(x);
    if GapDown(x) then FullExit(x, GapDownStop)
    else if MorningWeak(x) then FullExit(x, WeakMorningFlush)
    else if ScaleWindow(x) then
      if RunnerActive(x) then early
      else if FullFade(x) then FullExit(x, GapUpFullFade).(meta := x.meta.(runnerTarget := 0))
      else
        var pct := ScaleoutPct(GapPct(x), Score(x), x.mode, ProfitProfile(x.mode, x.health));
        var quantity := ScaleoutQuantity(x.qty, pct);
        ExitDecision(Some(GapUpScaleout), quantity, x.meta.(
          scaleoutDay := Some(x.today), runnerTarget := x.qty - quantity, partialDone := false))
    else if RunnerActive(x) && early.reason.None? && At(9, 12) <= x.now < x.deadline then
      if RunnerFails(x) then FullExit(x, RunnerFollowthroughFail)
      else if x.view.rsiBlueFlag && x.view.lastPx > x.avg then FullExit(x, RsiFlagTakeProfit)
      else Stay(x)
    else if x.now >= At(10, 0) && x.view.lastPx < x.avg * 1.01 then
      if AllowHold(x) then early else FullExit(x, TimeValueExit1000)
    else if early.reason.None? && x.now >= x.deadline then FullExit(x, HardExit)
    else early
  }

  // ---- what the chain guarantees -----------------------------------------------------------

  /** The branch in which the time-value exit is waived is reached. */
  predicate HeldThroughTimeValue(x: ExitInputs) {
    && !GapDown(x) && !MorningWeak(x) && !ScaleWindow(x)
    && !(RunnerActive(x) && !LossCutoff(x) && At(9, 12) <= x.now < x.deadline)
    && x.now >= At(10, 0) && x.view.lastPx < x.avg * 1.01
    && AllowHold(x)
  }

  /** The scale-out window swallows the exit: a partial sale, or a runner that is left alone. */
  predicate ScaleWindowEscapes(x: ExitInputs) {
    && ScaleWindow(x) && !MorningWeak(x)
    && if RunnerActive(x) then !LossCutoff(x) else !FullFade(x) && x.qty >= 2
  }

  /** At or after the deadline the chain sells the whole position, except exactly in the waived
      case and, for deadlines inside the scale-out window, in the window's own case. */
  lemma FullExitFromDeadlineIff(x: ExitInputs)
    requires x.qty >= 1 && x.now >= x.deadline
    ensures var d := DecideExit(x);
            (d.reason.Some? && d.quantity == x.qty) <==> !HeldThroughTimeValue(x) && !ScaleWindowEscapes(x)
  {
    hide GapPct, Score, PnlPct, ScaleoutPct, HoldAllowed, RunnerFails, RoundHalfEven;
  }

  /** With a deadline after 09:30 the scale-out window cannot interfere. */
  lemma LateDeadlineSellsAll(x: ExitInputs)
    requires x.qty >= 1 && x.now >= x.deadline > At(9, 30)
    ensures var d := DecideExit(x);
            (d.reason.Some? && d.quantity == x.qty) <==> !HeldThroughTimeValue(x)
    ensures HeldThroughTimeValue(x) ==> RunnerActive(x) && x.mode.Aggressive? && x.health.Strong?
  {
    hide GapPct, Score, PnlPct, ScaleoutPct, HoldAllowed, RunnerFails, RoundHalfEven, GapDown, MorningWeak, FullFade;
    FullExitFromDeadlineIff(x);
  }

  /** The waiver can apply only at or after the deadline. */
  lemma WaiverOnlyFromDeadline(x: ExitInputs)
    requires HeldThroughTimeValue(x)
    ensures x.now >= x.deadline
  {
    hide GapPct, Score, PnlPct, HoldAllowed, GapDown, MorningWeak;
  }

  /** A loss cut-off always ends in an exit, and in a partial one exactly when a first scale-out of
      two or more shares takes its place. */
  lemma LossCutoffSurvivesIff(x: ExitInputs)
    requires x.qty >= 1 && LossCutoff(x)
    ensures var d := DecideExit(x);
            && d.reason.Some?
            && (d.quantity < x.qty <==>
                 ScaleWindow(x) && !MorningWeak(x) && !RunnerActive(x) && !FullFade(x) && x.qty >= 2)
  {
    hide Score, PnlPct, ScaleoutPct, HoldAllowed, RunnerFails, RoundHalfEven;
  }

  /** A morning of a position bought at 100: opened at 101, a shallow pullback. */
  function GapUpMorning(lastPx: real, runnerTarget: int, deadline: TimeOfDay, now: TimeOfDay): ExitInputs {
    ExitInputs(Neutral, Ordinary, deadline, 1, now, 10, 100.0,
      Meta(0, 100.0, 10, false, None, runnerTarget),
      MorningView(lastPx, 101.0, false, 1.0, Some(99.0), None, 2.0, false))
  }

  /** At 09:06 a gap-up position that has fallen below its price meets the loss cut-off, and only a
      part of it is sold. */
  lemma LossCutoffWitness()
    ensures var x := GapUpMorning(99.0, 0, At(10, 30), At(9, 6));
            var d := DecideExit(x);
            LossCutoff(x) && d.reason == Some(GapUpScaleout) && 1 <= d.quantity < x.qty
  {
    var x := GapUpMorning(99.0, 0, At(10, 30), At(9, 6));
    assert GapPct(x) == 1.0;
    assert PnlPct(x) == -1.0;
    hide Score, ScaleoutPct, RoundHalfEven;
  }

  /** With a deadline of 09:20 a gap-up position is sold in part at 09:25, or, when it already is a
      runner, not at all. */
  lemma EarlyDeadlineWitness()
    ensures var x := GapUpMorning(101.0, 0, At(9, 20), At(9, 25));
            x.now >= x.deadline && DecideExit(x).reason.Some? && DecideExit(x).quantity < x.qty
    ensures var x := GapUpMorning(101.0, 4, At(9, 20), At(9, 25));
            x.now >= x.deadline && DecideExit(x).reason.None?
  {
    forall target: int ensures GapPct(GapUpMorning(101.0, target, At(9, 20), At(9, 25))) == 1.0 {
    }
    forall target: int ensures PnlPct(GapUpMorning(101.0, target, At(9, 20), At(9, 25))) == 1.0 {
    }
    hide Score, ScaleoutPct, RoundHalfEven, GapPct, PnlPct;
  }

  /** A gap-down or a weak morning sells everything with its own reason, whatever else holds; no
      other branch uses these reasons, and nothing is taken as profit on a gap that is not up. */
  lemma StopsComeFirst(x: ExitInputs)
    ensures var d := DecideExit(x);
            && (d.reason == Some(GapDownStop) <==> GapDown(x))
            && (d.reason == Some(WeakMorningFlush) <==> !GapDown(x) && MorningWeak(x))
            && (d.reason in {Some(GapUpScaleout), Some(GapUpFullFade)} ==> GapPct(x) > 0.0 && !RunnerActive(x))
            && (d.reason == Some(RsiFlagTakeProfit) ==> x.view.lastPx > x.avg && RunnerActive(x))
            && (d.reason == Some(TimeValueExit1000) ==> x.now >= At(10, 0) && x.view.lastPx < x.avg * 1.01)
            && (d.reason == Some(RunnerFollowthroughFail) ==>
                 RunnerActive(x) && RunnerFails(x) && At(9, 12) <= x.now < x.deadline)
            && (d.reason == Some(HardExit) ==> x.now >= x.deadline)
            && (d.reason == Some(LossCutoff0930) ==> LossCutoff(x))
  {
    hide GapPct, Score, PnlPct, ScaleoutPct, HoldAllowed, RunnerFails, RoundHalfEven, GapDown, MorningWeak, FullFade;
  }

  /** A higher last price and a shallower pullback never lower the follow-through score, and never
      take back the permission to hold. */
  lemma StrongerTapeScoresHigher(mode: Mode, health: Health, v: MorningView, better: MorningView, gapPct: real)
    requires better == v.(lastPx := better.lastPx, pullbackPct := better.pullbackPct)
    requires better.lastPx >= v.lastPx && better.pullbackPct <= v.pullbackPct
    ensures FollowthroughScore(mode, better, gapPct) >= FollowthroughScore(mode, v, gapPct)
    ensures HoldAllowed(mode, health, v, gapPct) ==> HoldAllowed(mode, health, better, gapPct)
  {
    if v.openPx > 0.0 {
      QuotientMonotone(v.lastPx, better.lastPx, v.openPx);
    }
  }

  lemma QuotientMonotone(small: real, large: real, base: real)
    requires base > 0.0 && small <= large
    ensures small / base <= large / base
  {
  }

  /** Every signalled quantity lies between one share and the holding. */
  lemma ExitQuantityInRange(x: ExitInputs)
    requires x.qty >= 1 && DecideExit(x).reason.Some?
    ensures 1 <= DecideExit(x).quantity <= x.qty
  {
    hide GapPct, Score, PnlPct, ScaleoutPct, HoldAllowed, RunnerFails, RoundHalfEven, GapDown, MorningWeak, FullFade;
  }

  /** Less than the whole holding is sold only by a first scale-out of two or more shares, and
      that scale-out leaves a runner behind. */
  lemma PartialExitOnlyOnce(x: ExitInputs)
    requires x.qty >= 1
    ensures var d := DecideExit(x);
            && (d.reason.Some? && d.quantity < x.qty ==>
                 d.reason == Some(GapUpScaleout) && !RunnerActive(x) && x.qty >= 2)
            && (d.reason == Some(GapUpScaleout) ==>
                 !RunnerActive(x) && d.meta.runnerTarget == x.qty - d.quantity
                 && (x.qty >= 2 ==> d.quantity < x.qty && d.meta.runnerTarget >= 1))
  {
    hide GapPct, Score, PnlPct, ScaleoutPct, HoldAllowed, RunnerFails, RoundHalfEven, GapDown, MorningWeak, FullFade;
  }

  /** A runner stays a runner: its target survives, and any exit sells all that is left. */
  lemma RunnerLatched(x: ExitInputs)
    requires x.qty >= 1 && x.meta.runnerTarget > 0
    ensures var d := DecideExit(x);
            && d.meta == x.meta
            && (d.reason.Some? ==> d.quantity == x.qty && d.reason != Some(GapUpScaleout))
  {
    hide GapPct, Score, PnlPct, ScaleoutPct, HoldAllowed, RunnerFails, RoundHalfEven, GapDown, MorningWeak, FullFade;
  }

  /** The chain never touches the recorded shares, entry day or reference price. */
  lemma ChainKeepsIdentity(x: ExitInputs)
    ensures var m := DecideExit(x).meta;
            m.shares == x.meta.shares && m.entryDay == x.meta.entryDay && m.refClose == x.meta.refClose
  {
    hide GapPct, Score, PnlPct, ScaleoutPct, HoldAllowed, RunnerFails, RoundHalfEven, GapDown, MorningWeak, FullFade;
  }

  lemma RoundMonotone(x: real, y: real)
    requires x <= y
    ensures RoundHalfEven(x) <= RoundHalfEven(y)
  {
  }

  lemma ScaleoutPctMonotone(
    gap: real, smallerGap: real, score: real, higherScore: real, mode: Mode, profile: Profile)
    requires 0.0 < smallerGap <= gap && score <= higherScore
    ensures ScaleoutPct(smallerGap, higherScore, mode, profile) <= ScaleoutPct(gap, score, mode, profile)
  {
  }

  lemma ShareMonotone(qty: int, less: real, more: real)
    requires qty >= 0 && less <= more
    ensures qty as real * less <= qty as real * more
  {
  }

  lemma ScaleoutQuantityMonotone(qty: int, less: real, more: real)
    requires qty >= 1 && less <= more
    ensures ScaleoutQuantity(qty, less) <= ScaleoutQuantity(qty, more)
  {
    hide RoundHalfEven;
    ShareMonotone(qty, less, more);
    RoundMonotone(qty as real * less, qty as real * more);
  }

  /** A stronger follow-through, or a smaller gap, never sells more shares. */
  lemma StrongerFollowThroughSellsNoMore(
    qty: int, gap: real, smallerGap: real, score: real, higherScore: real, mode: Mode, profile: Profile)
    requires qty >= 1 && 0.0 < smallerGap <= gap && score <= higherScore
    ensures ScaleoutQuantity(qty, ScaleoutPct(smallerGap, higherScore, mode, profile))
            <= ScaleoutQuantity(qty, ScaleoutPct(gap, score, mode, profile))
  {
    hide ScaleoutPct, ScaleoutQuantity;
    ScaleoutPctMonotone(gap, smallerGap, score, higherScore, mode, profile);
    ScaleoutQuantityMonotone(
      qty, ScaleoutPct(smallerGap, higherScore, mode, profile), ScaleoutPct(gap, score, mode, profile));
  }
}
