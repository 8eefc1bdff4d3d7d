/** Month arithmetic of the proleptic Gregorian calendar, as the date offsets of the program use it. */
module Calendars {
  import opened Common

  /** A month, counted as twelve times the year plus the month of the year from zero. */
  type Month = int

  predicate IsLeap(year: int) {
    year % 4 == 0 && (year % 100 != 0 || year % 400 == 0)
  }

  function MonthLength(m: Month): (n: int)
    ensures 28 <= n <= 31
  {
    var k := m % 12;
    if k == 1 then (if IsLeap(m / 12) then 29 else 28)
    else if k in {3, 5, 8, 10} then 30
    else 31
  }

  function DaysBeforeYear(year: int): int {
    var y := year - 1;
    365 * y + y / 4 - y / 100 + y / 400
  }

  function DaysBeforeInYear(k: int, leap: bool): int {
    var shift := if leap && k >= 2 then 1 else 0;
    shift + if k == 0 then 0 else if k == 1 then 31 else if k == 2 then 59 else if k == 3 then 90
            else if k == 4 then 120 else if k == 5 then 151 else if k == 6 then 181 else if k == 7 then 212
            else if k == 8 then 243 else if k == 9 then 273 else if k == 10 then 304 else 334
  }

  function DaysBeforeMonth(m: Month): int {
    DaysBeforeYear(m / 12) + DaysBeforeInYear(m % 12, IsLeap(m / 12))
  }

  datatype Date = Date(month: Month, day: int)

  predicate ValidDate(d: Date) {
    1 <= d.day <= MonthLength(d.month)
  }

  function Ordinal(d: Date): int {
    DaysBeforeMonth(d.month) + d.day
  }

  /** `date + DateOffset(months=k)`: a day past the end of the target month becomes its last day. */
  function AddMonths(d: Date, k: int): Date {
    Date(d.month + k, MinInt(d.day, MonthLength(d.month + k)))
  }

  function NextDay(d: Date): Date {
    if d.day < MonthLength(d.month) then Date(d.month, d.day + 1) else Date(d.month + 1, 1)
  }

  function PreviousDay(d: Date): Date {
    if d.day > 1 then Date(d.month, d.day - 1) else Date(d.month - 1, MonthLength(d.month - 1))
  }

  lemma QuotientStep(y: int)
    ensures y / 4 == (y - 1) / 4 + if y % 4 == 0 then 1 else 0
    ensures y / 100 == (y - 1) / 100 + if y % 100 == 0 then 1 else 0
    ensures y / 400 == (y - 1) / 400 + if y % 400 == 0 then 1 else 0
  {
  }

  lemma Centuries(y: int)
    ensures y % 100 == 0 ==> y % 4 == 0
    ensures y % 400 == 0 ==> y % 100 == 0
  {
    if y % 100 == 0 {
      assert y == 4 * (25 * (y / 100));
    }
    if y % 400 == 0 {
      assert y == 100 * (4 * (y / 400));
    }
  }

  lemma YearStep(year: int)
    ensures DaysBeforeYear(year + 1) == DaysBeforeYear(year) + if IsLeap(year) then 366 else 365
  {
    QuotientStep(year);
    Centuries(year);
  }

  /** Months follow each other without gap or overlap. */
  lemma MonthStep(m: Month)
    ensures DaysBeforeMonth(m + 1) == DaysBeforeMonth(m) + MonthLength(m)
  {
    YearStep(m / 12);
    if m % 12 == 11 {
      assert (m + 1) / 12 == m / 12 + 1 && (m + 1) % 12 == 0;
    } else {
      assert (m + 1) / 12 == m / 12 && (m + 1) % 12 == m % 12 + 1;
    }
  }

  lemma {:induction false} LaterMonth(m: Month, n: Month)
    requires m < n
    ensures DaysBeforeMonth(m) + MonthLength(m) <= DaysBeforeMonth(n)
    decreases n - m
  {
    hide DaysBeforeMonth, MonthLength;
    MonthStep(m);
    if m + 1 < n {
      LaterMonth(m + 1, n);
      assert MonthLength(m + 1) >= 28;
    }
  }

  /** Day numbers order dates as month, then day. */
  lemma OrdinalOrder(a: Date, b: Date)
    requires ValidDate(a) && ValidDate(b)
    ensures Ordinal(a) < Ordinal(b) <==> a.month < b.month || (a.month == b.month && a.day < b.day)
    ensures Ordinal(a) == Ordinal(b) <==> a == b
  {
    hide DaysBeforeMonth, MonthLength;
    if a.month < b.month {
      LaterMonth(a.month, b.month);
    } else if b.month < a.month {
      LaterMonth(b.month, a.month);
    }
  }

  lemma NeighbourDays(d: Date)
    requires ValidDate(d)
    ensures ValidDate(NextDay(d)) && Ordinal(NextDay(d)) == Ordinal(d) + 1
    ensures ValidDate(PreviousDay(d)) && Ordinal(PreviousDay(d)) == Ordinal(d) - 1
    ensures NextDay(PreviousDay(d)) == d
  {
    hide DaysBeforeMonth;
    MonthStep(d.month);
    MonthStep(d.month - 1);
  }
}

/** Train and test windows of the walk-forward validation (app/backtest/walkforward.py). */
module WalkForward {
  import opened Common
  import opened Calendars

  const DAY: int := 86_400_000_000_000

  /** A date and the nanoseconds since its midnight. */
  datatype Stamp = Stamp(date: Date, time: int)

  predicate ValidStamp(s: Stamp) {
    ValidDate(s.date) && 0 <= s.time < DAY
  }

  function Nanoseconds(s: Stamp): int {
    Ordinal(s.date) * DAY + s.time
  }

  datatype Split = Split(trainStart: Stamp, trainEnd: Stamp, testStart: Stamp, testEnd: Stamp)

  datatype Months = Months(train: int, test: int, step: int)

  /** The windows that begin at one cursor. */
  function SplitFrom(cursor: Stamp, w: Months): Split {
    var trainEnd := PreviousDay(AddMonths(cursor.date, w.train));
    var testStart := NextDay(trainEnd);
    var testEnd := PreviousDay(AddMonths(testStart, w.test));
    Split(cursor, cursor.(date := trainEnd), cursor.(date := testStart), cursor.(date := testEnd))
  }

  function Advance(cursor: Stamp, w: Months): Stamp {
    cursor.(date := AddMonths(cursor.date, w.step))
  }

  function Cursor(start: Stamp, w: Months, n: nat): Stamp {
    if n == 0 then start else Advance(Cursor(start, w, n - 1), w)
  }

  function SplitAt(start: Stamp, w: Months, n: nat): Split {
    SplitFrom(Cursor(start, w, n), w)
  }

  predicate Fits(split: Split, end: Stamp) {
    Nanoseconds(split.testEnd) <= Nanoseconds(end)
  }

  lemma StampOrder(a: Stamp, b: Stamp)
    requires ValidStamp(a) && ValidStamp(b)
    ensures a.date.month < b.date.month ==> Nanoseconds(a) < Nanoseconds(b)
    ensures a.time == b.time ==> (Nanoseconds(a) < Nanoseconds(b) <==> Ordinal(a.date) < Ordinal(b.date))
    ensures a.time == b.time ==> Nanoseconds(b) - Nanoseconds(a) == (Ordinal(b.date) - Ordinal(a.date)) * DAY
    ensures a.date == b.date ==> Nanoseconds(b) - Nanoseconds(a) == b.time - a.time
  {
    hide Ordinal;
    OrdinalOrder(a.date, b.date);
  }

  /** What the windows of one cursor are: the train window ends the day before the test window
      starts, and both bounds are clamped month offsets. */
  lemma SplitMeaning(cursor: Stamp, w: Months)
    requires ValidStamp(cursor)
    ensures var s := SplitFrom(cursor, w);
            && ValidStamp(s.trainEnd) && ValidStamp(s.testStart) && ValidStamp(s.testEnd)
            && Nanoseconds(s.trainEnd) + DAY == Nanoseconds(s.testStart)
            && s.testStart.date == AddMonths(cursor.date, w.train)
            && NextDay(s.testEnd.date) == AddMonths(s.testStart.date, w.test)
            && Ordinal(s.testEnd.date) + 1 == Ordinal(AddMonths(s.testStart.date, w.test))
  {
    hide Ordinal, NextDay, PreviousDay, MonthLength;
    var testStart := AddMonths(cursor.date, w.train);
    NeighbourDays(testStart);
    NeighbourDays(AddMonths(testStart, w.test));
    var s := SplitFrom(cursor, w);
    StampOrder(s.trainEnd, s.testStart);
  }

  lemma {:induction false} CursorMeaning(start: Stamp, w: Months, n: nat)
    requires ValidStamp(start)
    ensures var c := Cursor(start, w, n);
            && ValidStamp(c) && c.time == start.time
            && c.date.month == start.date.month + n * w.step
            && c.date.day <= start.date.day
            && (start.date.day <= 28 ==> c.date.day == start.date.day)
  {
    hide MonthLength;
    if n > 0 {
      CursorMeaning(start, w, n - 1);
      assert n * w.step == (n - 1) * w.step + w.step;
    }
  }

  /** Splits are strictly ordered: every bound of a later split lies after the earlier one's. */
  lemma SplitsStrictlyOrdered(start: Stamp, w: Months, i: nat, j: nat)
    requires ValidStamp(start) && w.step > 0 && i < j
    ensures var a, b := SplitAt(start, w, i), SplitAt(start, w, j);
            && Nanoseconds(a.trainStart) < Nanoseconds(b.trainStart)
            && Nanoseconds(a.trainEnd) < Nanoseconds(b.trainEnd)
            && Nanoseconds(a.testStart) < Nanoseconds(b.testStart)
            && Nanoseconds(a.testEnd) < Nanoseconds(b.testEnd)
  {
    hide Ordinal, NextDay, PreviousDay, MonthLength, Nanoseconds, SplitFrom, Cursor;
    CursorMeaning(start, w, i);
    CursorMeaning(start, w, j);
    MonthsApart(w.step, i, j);
    LaterMonthLaterSplit(Cursor(start, w, i), Cursor(start, w, j), w);
  }

  lemma MonthsApart(step: int, i: nat, j: nat)
    requires step > 0 && i < j
    ensures i * step + step <= j * step
  {
    var gap := j - i - 1;
    assert gap * step >= 0;
    assert j * step == i * step + step + gap * step;
  }

  lemma LaterMonthLaterSplit(c: Stamp, d: Stamp, w: Months)
    requires ValidStamp(c) && ValidStamp(d) && c.time == d.time && c.date.month < d.date.month
    ensures var a, b := SplitFrom(c, w), SplitFrom(d, w);
            && Nanoseconds(a.trainStart) < Nanoseconds(b.trainStart)
            && Nanoseconds(a.trainEnd) < Nanoseconds(b.trainEnd)
            && Nanoseconds(a.testStart) < Nanoseconds(b.testStart)
            && Nanoseconds(a.testEnd) < Nanoseconds(b.testEnd)
  {
    hide Ordinal, NextDay, PreviousDay, MonthLength, Nanoseconds;
    var a, b := SplitFrom(c, w), SplitFrom(d, w);
    SplitMeaning(c, w);
    SplitMeaning(d, w);
    StampOrder(c, d);
    StampOrder(a.testStart, b.testStart);
    OrdinalOrder(AddMonths(a.testStart.date, w.test), AddMonths(b.testStart.date, w.test));
    StampOrder(a.testEnd, b.testEnd);
  }

  // ---- disjoint test windows ----------------------------------------------------------------------

  /** The condition on one cursor under which its test window ends before the next one starts. */
  predicate NextWindowClear(cursor: Date, w: Months) {
    || w.test < w.step
    || (w.test == w.step
        && MonthLength(cursor.month + w.step)
           >= MinInt(MinInt(cursor.day, MonthLength(cursor.month + w.train)),
                     MonthLength(cursor.month + w.train + w.test)))
  }

  ghost predicate TestBefore(a: Split, b: Split) {
    Nanoseconds(a.testEnd) < Nanoseconds(b.testStart)
  }

  /** Neighbouring test windows are disjoint exactly under that condition. */
  lemma NeighboursDisjointIff(cursor: Stamp, w: Months)
    requires ValidStamp(cursor)
    ensures TestBefore(SplitFrom(cursor, w), SplitFrom(Advance(cursor, w), w)) <==> NextWindowClear(cursor.date, w)
  {
    hide Ordinal, NextDay, PreviousDay, MonthLength, Nanoseconds, SplitFrom;
    var a, b := SplitFrom(cursor, w), SplitFrom(Advance(cursor, w), w);
    SplitMeaning(cursor, w);
    SplitMeaning(Advance(cursor, w), w);
    assert SplitTimes(a, cursor) && SplitTimes(b, cursor) by {
      TimesOf(cursor, w);
      TimesOf(Advance(cursor, w), w);
    }
    StampOrder(a.testEnd, b.testStart);
    OrdinalOrder(b.testStart.date, AddMonths(a.testStart.date, w.test));
  }

  ghost predicate SplitTimes(s: Split, cursor: Stamp) {
    s.testStart.time == cursor.time && s.testEnd.time == cursor.time
  }

  lemma TimesOf(cursor: Stamp, w: Months)
    ensures SplitTimes(SplitFrom(cursor, w), cursor)
  {
  }

  ghost predicate PairwiseDisjoint(start: Stamp, w: Months, count: nat) {
    forall i: nat, j: nat :: i < j <= count ==> TestBefore(SplitAt(start, w, i), SplitAt(start, w, j))
  }

  ghost predicate EveryStepClear(start: Stamp, w: Months, count: nat) {
    forall i: nat :: i < count ==> NextWindowClear(Cursor(start, w, i).date, w)
  }

  lemma StepClearIff(start: Stamp, w: Months, i: nat)
    requires ValidStamp(start)
    ensures TestBefore(SplitAt(start, w, i), SplitAt(start, w, i + 1)) <==>
            NextWindowClear(Cursor(start, w, i).date, w)
  {
    hide SplitFrom, NextWindowClear;
    CursorMeaning(start, w, i);
    NeighboursDisjointIff(Cursor(start, w, i), w);
  }

  lemma ClearStepsSeparate(start: Stamp, w: Months, count: nat, i: nat, j: nat)
    requires ValidStamp(start) && w.step > 0 && EveryStepClear(start, w, count) && i < j <= count
    ensures TestBefore(SplitAt(start, w, i), SplitAt(start, w, j))
  {
    hide SplitAt, NextWindowClear, Nanoseconds;
    StepClearIff(start, w, i);
    if i + 1 < j {
      SplitsStrictlyOrdered(start, w, i + 1, j);
    }
  }

  /** All test windows up to the last are pairwise disjoint exactly when every step is clear. */
  lemma TestWindowsDisjointIff(start: Stamp, w: Months, count: nat)
    requires ValidStamp(start) && w.step > 0
    ensures PairwiseDisjoint(start, w, count) <==> EveryStepClear(start, w, count)
  {
    hide SplitAt, NextWindowClear, TestBefore;
    if PairwiseDisjoint(start, w, count) {
      forall i: nat | i < count ensures NextWindowClear(Cursor(start, w, i).date, w) {
        StepClearIff(start, w, i);
      }
    }
    if EveryStepClear(start, w, count) {
      forall i: nat, j: nat | i < j <= count ensures TestBefore(SplitAt(start, w, i), SplitAt(start, w, j)) {
        ClearStepsSeparate(start, w, count, i, j);
      }
    }
  }

  /** With a step of at least the test length and a first day up to the 28th, the test windows are
      pairwise disjoint. */
  lemma EarlyDaysDisjoint(start: Stamp, w: Months, count: nat)
    requires ValidStamp(start) && w.step > 0 && w.step >= w.test && start.date.day <= 28
    ensures PairwiseDisjoint(start, w, count)
  {
    hide MonthLength, PairwiseDisjoint;
    forall i: nat | i < count ensures NextWindowClear(Cursor(start, w, i).date, w) {
      CursorMeaning(start, w, i);
    }
    TestWindowsDisjointIff(start, w, count);
  }

  /** Without the limit on the day it fails: from 31 January 2023 (month 24276), two-month training
      and monthly steps test 31 March to 29 April and then 28 April to 27 May. */
  lemma MonthEndOverlaps()
    ensures var start := Stamp(Date(24276, 31), 0);
            var a, b := SplitAt(start, Months(2, 1, 1), 0), SplitAt(start, Months(2, 1, 1), 1);
            && ValidStamp(start) && !TestBefore(a, b)
            && a.testStart.date == Date(24278, 31) && a.testEnd.date == Date(24279, 29)
            && b.testStart.date == Date(24279, 28) && b.testEnd.date == Date(24280, 27)
  {
    hide Ordinal, TestBefore;
    var start, w := Stamp(Date(24276, 31), 0), Months(2, 1, 1);
    var next := Stamp(Date(24277, 28), 0);
    assert MonthLength(24276) == 31 && MonthLength(24277) == 28 && MonthLength(24278) == 31;
    assert MonthLength(24279) == 30 && MonthLength(24280) == 31;
    assert Cursor(start, w, 0) == start && Cursor(start, w, 1) == Advance(Cursor(start, w, 0), w) == next;
    assert SplitFrom(start, w).testEnd.date == Date(24279, 29);
    assert SplitFrom(next, w).testStart.date == Date(24279, 28);
    StepClearIff(start, w, 0);
  }

  // ---- the loop -----------------------------------------------------------------------------------

  /** With a zero step the split after any number of turns is the first one: if that fits, the loop
      of the program appends it for ever. */
  lemma ZeroStepNeverEnds(start: Stamp, w: Months, n: nat)
    requires ValidStamp(start) && w.step == 0
    ensures SplitAt(start, w, n) == SplitAt(start, w, 0)
  {
    StandsStill(start, w, n);
  }

  /** With a negative step a first split that fits is followed by fitting ones only, and the cursor
      passes below every month: the loop cannot reach its break, and ends when the cursor leaves the
      range of a timestamp. */
  lemma NegativeStepLeavesEveryRange(start: Stamp, w: Months, end: Stamp, n: nat)
    requires ValidStamp(start) && w.step < 0 && Fits(SplitAt(start, w, 0), end)
    ensures Fits(SplitAt(start, w, n), end)
    ensures Cursor(start, w, n).date.month <= start.date.month - n
  {
    hide Ordinal, NextDay, PreviousDay, MonthLength, Nanoseconds, SplitFrom;
    CursorMeaning(start, w, n);
    if n > 0 {
      assert n * w.step + n <= 0;
      LaterMonthLaterSplit(Cursor(start, w, n), start, w);
    } else {
      StandsStill(start, w, n);
    }
  }

  lemma {:induction false} StandsStill(start: Stamp, w: Months, n: nat)
    requires ValidStamp(start) && (w.step == 0 || n == 0)
    ensures Cursor(start, w, n) == start
  {
    if n > 0 {
      StandsStill(start, w, n - 1);
    }
  }

  function Earliest(dates: seq<Stamp>): (s: Stamp)
    requires dates != []
    ensures s in dates && forall d :: d in dates ==> Nanoseconds(s) <= Nanoseconds(d)
  {
    if |dates| == 1 then dates[0]
    else
      var rest := Earliest(dates[1..]);
      assert dates == [dates[0]] + dates[1..];
      if Nanoseconds(dates[0]) <= Nanoseconds(rest) then dates[0] else rest
  }

  function Latest(dates: seq<Stamp>): (s: Stamp)
    requires dates != []
    ensures s in dates && forall d :: d in dates ==> Nanoseconds(d) <= Nanoseconds(s)
  {
    if |dates| == 1 then dates[0]
    else
      var rest := Latest(dates[1..]);
      assert dates == [dates[0]] + dates[1..];
      if Nanoseconds(dates[0]) >= Nanoseconds(rest) then dates[0] else rest
  }

  lemma FitsOnlyBelow(cursor: Stamp, w: Months, end: Stamp)
    requires ValidStamp(cursor) && ValidStamp(end) && Fits(SplitFrom(cursor, w), end)
    ensures cursor.date.month + w.train + w.test <= end.date.month + 1
  {
    hide Ordinal, NextDay, MonthLength, Nanoseconds;
    var s := SplitFrom(cursor, w);
    SplitMeaning(cursor, w);
    StampOrder(end, s.testEnd);
  }

  /** `build_time_splits`: all splits from the first date on that fit before the last one, for every
      positive step. */
  method BuildTimeSplits(dates: seq<Stamp>, w: Months) returns (splits: seq<Split>)
    requires w.step > 0 && forall d :: d in dates ==> ValidStamp(d)
    ensures dates == [] ==> splits == []
    ensures dates != [] ==>
              var start, end := Earliest(dates), Latest(dates);
              && (forall n :: 0 <= n < |splits| ==>
                    splits[n] == SplitAt(start, w, n) && Nanoseconds(splits[n].testEnd) <= Nanoseconds(end))
              && Nanoseconds(SplitAt(start, w, |splits|).testEnd) > Nanoseconds(end)
  {
    hide SplitFrom, Nanoseconds;
    splits := [];
    if dates == [] {
      return;
    }
    var start, end := Earliest(dates), Latest(dates);
    var cursor := start;
    while true
      invariant cursor == Cursor(start, w, |splits|) && ValidStamp(cursor)
      invariant forall n :: 0 <= n < |splits| ==> splits[n] == SplitAt(start, w, n) && Fits(splits[n], end)
      decreases end.date.month + 2 - (cursor.date.month + w.train + w.test)
    {
      var split := SplitFrom(cursor, w);
      if !Fits(split, end) {
        break;
      }
      FitsOnlyBelow(cursor, w, end);
      splits := splits + [split];
      cursor := Advance(cursor, w);
    }
  }

  /** The first score that no other score exceeds. */
  ghost predicate FirstBest(scores: seq<real>, best: nat) {
    && best < |scores|
    && (forall i :: 0 <= i < |scores| ==> scores[i] <= scores[best])
    && (forall i :: 0 <= i < best ==> scores[i] < scores[best])
  }

  /** The parameter selection of `walk_forward_validate`: ties go to the earlier entry of the grid,
      and an empty grid is an error. */
  method SelectParameters(scores: seq<real>) returns (best: Option<nat>)
    ensures best.None? <==> scores == []
    ensures best.Some? ==> FirstBest(scores, best.value)
  {
    if scores == [] {
      return None;
    }
    var chosen := 0;
    var bestScore: Option<real> := None;
    for k := 0 to |scores|
      invariant chosen < |scores| && (k == 0 ==> bestScore.None?)
      invariant k > 0 ==> chosen < k && bestScore == Some(scores[chosen]) && FirstBest(scores[..k], chosen)
    {
      if bestScore.None? || scores[k] > bestScore.value {
        chosen, bestScore := k, Some(scores[k]);
      }
    }
    assert scores[..|scores|] == scores;
    best := Some(chosen);
  }
}
