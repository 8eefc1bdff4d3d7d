/** The account-level switch over the risk rules (app/risk/kill_switch.py). */
module KillSwitches {
  import opened Common
  import opened Orders
  import opened RiskRules

  datatype KillState = Running | Cooldown | HaltedDaily | SystemOff

  /** What one evaluation leaves in the switch; the previous state plays no part. */
  datatype Verdict = Verdict(state: KillState, code: RiskReasonCode, entriesBlocked: bool, riskOff: bool)

  function Evaluate(l: RiskLimits, s: RiskSnapshot, guardNow: Instant): Verdict {
    var d := GlobalGuard(l, s, guardNow);
    if d.approved then Verdict(Running, d.code, false, false)
    else if d.code == SystemOffTotalLoss then Verdict(SystemOff, d.code, true, true)
    else if d.code == HaltDailyLoss then Verdict(HaltedDaily, d.code, true, false)
    else Verdict(Cooldown, d.code, true, false)
  }

  /** The switch and the rules agree: entries are blocked exactly when the guard refuses every buy,
      with the code the switch reports; the cycle is skipped exactly on the total loss limit, unless
      a trading cooldown is running. */
  lemma VerdictMatchesRules(l: RiskLimits, s: RiskSnapshot, guardNow: Instant, o: OrderRequest, now: Instant)
    requires o.side.Buy?
    ensures var v := Evaluate(l, s, guardNow);
            && (v.entriesBlocked ==> ApproveOrder(l, o, s, Clock(now, guardNow)).code == v.code)
            && (!v.entriesBlocked ==> !IsGlobalGuardCode(ApproveOrder(l, o, s, Clock(now, guardNow)).code))
            && (v.entriesBlocked <==> !AccountMayTrade(l, s, guardNow))
            && (v.riskOff <==>
                 s.totalPnlPct <= -AbsReal(l.totalLossLimitPct)
                 && !(s.tradingCooldownUntil.Some? && guardNow < s.tradingCooldownUntil.value))
            && (v.state.Running? <==> !v.entriesBlocked) && (v.state.SystemOff? <==> v.riskOff)
  {
    hide RollingPnlPct, RecentPct, EntryGates, NotionalCheck, ValidateBuyWeight;
    RollingMeaning(l, s);
    GuardSettlesBuys(l, o, s, Clock(now, guardNow));
    if GlobalGuard(l, s, guardNow).approved && ApproveOrder(l, o, s, Clock(now, guardNow)).approved {
      ApprovalCodes(l, o, s, Clock(now, guardNow));
    }
  }

  lemma ApprovalCodes(l: RiskLimits, o: OrderRequest, s: RiskSnapshot, clock: Clock)
    requires ApproveOrder(l, o, s, clock).approved
    ensures ApproveOrder(l, o, s, clock).code in {OkSell, OkBuy, OkRegimeBearishBuyConservative}
  {
    hide RollingPnlPct, EntryGates, NotionalCheck, ValidateBuyWeight;
  }

  class KillSwitch {
    const limits: RiskLimits
    var state: KillState
    var lastReasonCode: RiskReasonCode
    var newEntriesBlocked: bool
    var systemRiskOff: bool

    ghost function View(): Verdict
      reads this
    {
      Verdict(state, lastReasonCode, newEntriesBlocked, systemRiskOff)
    }

    constructor (limits: RiskLimits)
      ensures this.limits == limits && View() == Verdict(Running, Ok, false, false)
    {
      this.limits := limits;
      state, lastReasonCode, newEntriesBlocked, systemRiskOff := Running, Ok, false, false;
    }

    /** True tells the scheduler to skip the whole cycle. */
    method Check(snapshot: RiskSnapshot, guardNow: Instant) returns (skip: bool)
      modifies this
      ensures View() == Evaluate(limits, snapshot, guardNow)
      ensures skip == systemRiskOff
    {
      var decision := GlobalGuard(limits, snapshot, guardNow);
      lastReasonCode := decision.code;
      if decision.approved {
        state, newEntriesBlocked, systemRiskOff := Running, false, false;
        return false;
      }
      newEntriesBlocked := true;
      if decision.code == SystemOffTotalLoss {
        state, systemRiskOff := SystemOff, true;
        return true;
      }
      systemRiskOff := false;
      // The guard's remaining codes are the trading cooldown and the rolling loss limit.
      state := if decision.code == HaltDailyLoss then HaltedDaily else Cooldown;
      skip := false;
    }
  }
}

/** Day-open and long-run baselines of the account's equity (app/scheduler/equity_tracker.py). */
module EquityTracking {
  import opened Common

  datatype Baseline = Baseline(baselineEquity: real, day: Day, dayOpenEquity: real)

  datatype Pnl = Pnl(dailyPct: real, totalPct: real)

  function PctChange(now: real, base: real): real {
    var b := if base > 0.0 then base else 1.0;
    (now / b - 1.0) * 100.0
  }

  /** The stored baseline after one reading of the equity. */
  function RollBaseline(b: Option<Baseline>, equity: real, today: Day, valid: bool): Option<Baseline> {
    if !valid then b
    else
      match b
      case None => Some(Baseline(equity, today, equity))
      case Some(base) =>
        if base.day != today then Some(Baseline(base.baselineEquity, today, equity)) else b
  }

  function ReadPnl(b: Option<Baseline>, equity: real, today: Day, valid: bool): Pnl {
    if !valid || b.None? then Pnl(0.0, 0.0)
    else
      var base := RollBaseline(b, equity, today, valid).value;
      Pnl(PctChange(equity, base.dayOpenEquity), PctChange(equity, base.baselineEquity))
  }

  class EquityTracker {
    var saved: Option<Baseline>

    constructor ()
      ensures saved == None
    {
      saved := None;
    }

    method PnlSnapshot(equity: real, today: Day, valid: bool) returns (pnl: Pnl)
      modifies this
      ensures saved == RollBaseline(old(saved), equity, today, valid)
      ensures pnl == ReadPnl(old(saved), equity, today, valid)
    {
      if !valid {
        return Pnl(0.0, 0.0);
      }
      if saved.None? {
        saved := Some(Baseline(equity, today, equity));
        return Pnl(0.0, 0.0);
      }
      if saved.value.day != today {
        saved := Some(Baseline(saved.value.baselineEquity, today, equity));
      }
      pnl := Pnl(PctChange(equity, saved.value.dayOpenEquity), PctChange(equity, saved.value.baselineEquity));
    }
  }

  /** The very first reading finds no file and a non-positive equity. */
  predicate FirstReadingUnderWater(b: Option<Baseline>, equity: real, valid: bool) {
    valid && b.None? && equity <= 0.0
  }

  /** Reading an unchanged equity again on the same day leaves the stored baseline alone, and
      repeats the percentages exactly unless the first reading ever was of a non-positive equity. */
  lemma SecondReadingStableIff(b: Option<Baseline>, equity: real, today: Day, valid: bool)
    ensures var b' := RollBaseline(b, equity, today, valid);
            && RollBaseline(b', equity, today, valid) == b'
            && (ReadPnl(b', equity, today, valid) == ReadPnl(b, equity, today, valid)
                <==> !FirstReadingUnderWater(b, equity, valid))
  {
    if equity > 0.0 {
      assert equity / equity == 1.0;
    }
  }

  datatype EquityReading = EquityReading(equity: real, today: Day)

  function AfterReadings(b: Option<Baseline>, readings: seq<EquityReading>): Option<Baseline> {
    if readings == [] then b
    else
      var last := readings[|readings| - 1];
      RollBaseline(AfterReadings(b, readings[..|readings| - 1]), last.equity, last.today, true)
  }

  /** From a fresh file: the long-run baseline is the first equity ever read, and the day's opening
      equity is the first one read on the last day. */
  lemma {:induction false} BaselinesAreFirstReadings(readings: seq<EquityReading>, k: nat)
    requires k < |readings|
    requires forall i :: k <= i < |readings| ==> readings[i].today == readings[k].today
    requires k > 0 ==> readings[k - 1].today != readings[k].today
    ensures AfterReadings(None, readings)
         == Some(Baseline(readings[0].equity, readings[k].today, readings[k].equity))
  {
    var before := readings[..|readings| - 1];
    if k < |before| {
      BaselinesAreFirstReadings(before, k);
    } else if k > 0 {
      BaselineOfPrefix(before);
    }
  }

  lemma {:induction false} BaselineOfPrefix(readings: seq<EquityReading>)
    requires readings != []
    ensures var b := AfterReadings(None, readings);
            b.Some? && b.value.baselineEquity == readings[0].equity && b.value.day == readings[|readings| - 1].today
  {
    if |readings| > 1 {
      BaselineOfPrefix(readings[..|readings| - 1]);
    } else {
      assert AfterReadings(None, readings[..0]) == None;
    }
  }

  lemma PctOfBase(now: real, base: real)
    ensures now == (if base > 0.0 then base else 1.0) * (1.0 + PctChange(now, base) / 100.0)
  {
  }

  /** The total percentage is measured from the long-run baseline and the daily one from the day's
      opening equity, which a new day takes from its first reading; a non-positive base counts as one. */
  lemma PnlMeaning(b: Baseline, equity: real, today: Day)
    ensures var p := ReadPnl(Some(b), equity, today, true);
            && (b.baselineEquity > 0.0 ==> equity == b.baselineEquity * (1.0 + p.totalPct / 100.0))
            && (b.baselineEquity <= 0.0 ==> equity == 1.0 + p.totalPct / 100.0)
            && (b.day == today && b.dayOpenEquity > 0.0 ==> equity == b.dayOpenEquity * (1.0 + p.dailyPct / 100.0))
            && (b.day == today && b.dayOpenEquity <= 0.0 ==> equity == 1.0 + p.dailyPct / 100.0)
            && (b.day != today && equity > 0.0 ==> p.dailyPct == 0.0)
            && (b.day != today && equity <= 0.0 ==> equity == 1.0 + p.dailyPct / 100.0)
  {
    PctOfBase(equity, b.baselineEquity);
    PctOfBase(equity, if b.day == today then b.dayOpenEquity else equity);
  }

  /** What the last of the readings answers. */
  function LastPnl(readings: seq<EquityReading>): Pnl
    requires readings != []
  {
    var last := readings[|readings| - 1];
    ReadPnl(AfterReadings(None, readings[..|readings| - 1]), last.equity, last.today, true)
  }

  /** Over any readings of positive equity the total percentage is measured from the first reading
      ever, and the daily one from the first reading of the last day. */
  lemma PnlOverReadings(readings: seq<EquityReading>, k: nat)
    requires k < |readings| && forall i :: 0 <= i < |readings| ==> readings[i].equity > 0.0
    requires forall i :: k <= i < |readings| ==> readings[i].today == readings[k].today
    requires k > 0 ==> readings[k - 1].today != readings[k].today
    ensures var p, equity := LastPnl(readings), readings[|readings| - 1].equity;
            && equity == readings[0].equity * (1.0 + p.totalPct / 100.0)
            && equity == readings[k].equity * (1.0 + p.dailyPct / 100.0)
  {
    hide ReadPnl;
    var before, last := readings[..|readings| - 1], readings[|readings| - 1];
    if before == [] {
      FirstPnl(last.equity, last.today);
    } else {
      BaselineOfPrefix(before);
      PnlMeaning(AfterReadings(None, before).value, last.equity, last.today);
      if k < |before| {
        BaselinesAreFirstReadings(before, k);
      }
    }
  }

  lemma FirstPnl(equity: real, today: Day)
    ensures AfterReadings(None, []) == None && ReadPnl(None, equity, today, true) == Pnl(0.0, 0.0)
  {
  }

  /** Minus one as the first equity ever reads 0%, and -200% when it is read again. */
  lemma UnderWaterReadingWitness()
    ensures FirstReadingUnderWater(None, -1.0, true)
    ensures ReadPnl(None, -1.0, 0, true) == Pnl(0.0, 0.0)
    ensures ReadPnl(RollBaseline(None, -1.0, 0, true), -1.0, 0, true) == Pnl(-200.0, -200.0)
  {
  }
}
