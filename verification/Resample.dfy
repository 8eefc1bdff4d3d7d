/** Minute bars into longer bars (app/scheduler/kis_intraday.py). */
module Resampling {
  import opened Common

  /** Times are seconds of local (KST) time; a day starts at a multiple of `DAY_SECONDS`. */
  const MINUTE_SECONDS: int := 60
  const DAY_SECONDS: int := 86_400

  datatype Bar = Bar(symbol: Symbol, time: int, open: real, high: real, low: real, close: real, volume: real)

  // ---- sorting by time ----------------------------------------------------------------------------

  ghost predicate InTimeOrder(bars: seq<Bar>) {
    forall i, j :: 0 <= i < j < |bars| ==> bars[i].time <= bars[j].time
  }

  function InsertBar(b: Bar, sorted: seq<Bar>): seq<Bar> {
    if sorted == [] || b.time <= sorted[0].time then [b] + sorted else [sorted[0]] + InsertBar(b, sorted[1..])
  }

  /** `sort_values("date")`, keeping the order of equal times. */
  function SortBars(bars: seq<Bar>): seq<Bar> {
    if bars == [] then [] else InsertBar(bars[0], SortBars(bars[1..]))
  }

  lemma {:induction false} SortedStays(bars: seq<Bar>)
    requires InTimeOrder(bars)
    ensures SortBars(bars) == bars
  {
    if bars != [] {
      SortedStays(bars[1..]);
    }
  }

  lemma {:induction false} InsertInOrder(b: Bar, sorted: seq<Bar>)
    requires InTimeOrder(sorted)
    ensures InTimeOrder(InsertBar(b, sorted))
  {
    if sorted != [] && b.time > sorted[0].time {
      InsertInOrder(b, sorted[1..]);
      var rest := InsertBar(b, sorted[1..]);
      forall k | 0 <= k < |rest| ensures sorted[0].time <= rest[k].time {
        InsertedFrom(b, sorted[1..], k);
      }
    }
  }

  lemma {:induction false} InsertKeepsBars(b: Bar, sorted: seq<Bar>)
    ensures multiset(InsertBar(b, sorted)) == multiset(sorted) + multiset{b}
  {
    if sorted != [] && b.time > sorted[0].time {
      InsertKeepsBars(b, sorted[1..]);
      assert sorted == [sorted[0]] + sorted[1..];
    }
  }

  /** Every bar of an insertion is the new one or one of the old. */
  lemma {:induction false} InsertedFrom(b: Bar, sorted: seq<Bar>, k: nat)
    requires k < |InsertBar(b, sorted)|
    ensures InsertBar(b, sorted)[k] == b || InsertBar(b, sorted)[k] in sorted
  {
    if sorted != [] && b.time > sorted[0].time && k > 0 {
      InsertedFrom(b, sorted[1..], k - 1);
    }
  }

  function AtTime(bars: seq<Bar>, time: int): seq<Bar> {
    if bars == [] then [] else (if bars[0].time == time then [bars[0]] else []) + AtTime(bars[1..], time)
  }

  lemma {:induction false} InsertKeepsTies(b: Bar, sorted: seq<Bar>, time: int)
    ensures AtTime(InsertBar(b, sorted), time) == AtTime([b] + sorted, time)
  {
    assert ([b] + sorted)[1..] == sorted;
    if sorted != [] && b.time > sorted[0].time {
      InsertKeepsTies(b, sorted[1..], time);
      assert InsertBar(b, sorted)[1..] == InsertBar(b, sorted[1..]);
      assert ([b] + sorted[1..])[1..] == sorted[1..];
      assert sorted == [sorted[0]] + sorted[1..];
    }
  }

  /** Sorting rearranges the bars into time order and keeps the order of equal times. */
  lemma {:induction false} SortMeaning(bars: seq<Bar>)
    ensures InTimeOrder(SortBars(bars)) && multiset(SortBars(bars)) == multiset(bars)
    ensures forall time :: AtTime(SortBars(bars), time) == AtTime(bars, time)
  {
    if bars != [] {
      SortMeaning(bars[1..]);
      forall time ensures AtTime(SortBars(bars), time) == AtTime(bars, time) {
        InsertKeepsTies(bars[0], SortBars(bars[1..]), time);
        assert ([bars[0]] + SortBars(bars[1..]))[1..] == SortBars(bars[1..]);
      }
      InsertInOrder(bars[0], SortBars(bars[1..]));
      InsertKeepsBars(bars[0], SortBars(bars[1..]));
      assert bars == [bars[0]] + bars[1..];
    }
  }

  // ---- grouping -----------------------------------------------------------------------------------

  /** The start of the bin that holds `time`: left-closed bins of `width`, counted from `origin`. */
  function BinStart(time: int, origin: int, width: int): int
    requires width > 0
  {
    origin + (time - origin) / width * width
  }

  function Relabel(b: Bar, start: int, symbol: Symbol): Bar {
    b.(time := start, symbol := symbol)
  }

  function Merge(first: Bar, next: Bar): Bar {
    first.(
      high := MaxReal(first.high, next.high),
      low := MinReal(first.low, next.low),
      close := next.close,
      volume := first.volume + next.volume)
  }

  datatype Grid = Grid(origin: int, width: int, symbol: Symbol)

  predicate ValidGrid(g: Grid) {
    g.width > 0
  }

  function AddBar(g: Grid, bins: seq<Bar>, b: Bar): seq<Bar>
    requires ValidGrid(g)
  {
    var start := BinStart(b.time, g.origin, g.width);
    if bins != [] && bins[|bins| - 1].time == start then bins[..|bins| - 1] + [Merge(bins[|bins| - 1], b)]
    else bins + [Relabel(b, start, g.symbol)]
  }

  /** Bars gathered into bins, empty bins dropped. */
  function Group(g: Grid, bars: seq<Bar>): seq<Bar>
    requires ValidGrid(g)
  {
    if bars == [] then [] else AddBar(g, Group(g, bars[..|bars| - 1]), bars[|bars| - 1])
  }

  function Midnight(time: int): int {
    time / DAY_SECONDS * DAY_SECONDS
  }

  function GridFor(sorted: seq<Bar>, minutes: int, symbol: Symbol): Grid
    requires sorted != []
  {
    Grid(Midnight(sorted[0].time), minutes * MINUTE_SECONDS, symbol)
  }

  /** `resample_minute_ohlc`. Up to one minute the frame is returned as it is, unsorted. */
  function Resample(bars: seq<Bar>, minutes: int): seq<Bar> {
    if bars == [] || minutes <= 1 then bars
    else
      var sorted := SortBars(bars);
      if sorted == [] then [] else Group(GridFor(sorted, minutes, bars[0].symbol), sorted)
  }

  // ---- every bin is the aggregate of its bars --------------------------------------------------------

  function InBin(g: Grid, bars: seq<Bar>, start: int): seq<Bar>
    requires ValidGrid(g)
  {
    if bars == [] then []
    else
      var last := bars[|bars| - 1];
      InBin(g, bars[..|bars| - 1], start)
      + if BinStart(last.time, g.origin, g.width) == start then [last] else []
  }

  function HighestOf(bars: seq<Bar>): real
    requires bars != []
  {
    if |bars| == 1 then bars[0].high else MaxReal(HighestOf(bars[..|bars| - 1]), bars[|bars| - 1].high)
  }

  function LowestOf(bars: seq<Bar>): real
    requires bars != []
  {
    if |bars| == 1 then bars[0].low else MinReal(LowestOf(bars[..|bars| - 1]), bars[|bars| - 1].low)
  }

  function VolumeOf(bars: seq<Bar>): real {
    if bars == [] then 0.0 else VolumeOf(bars[..|bars| - 1]) + bars[|bars| - 1].volume
  }

  /** First open, highest high, lowest low, last close, summed volume. */
  function Aggregate(g: Grid, start: int, part: seq<Bar>): Bar
    requires part != []
  {
    Bar(g.symbol, start, part[0].open, HighestOf(part), LowestOf(part), part[|part| - 1].close, VolumeOf(part))
  }

  lemma AggregateGrows(g: Grid, start: int, part: seq<Bar>, b: Bar)
    requires part != []
    ensures Aggregate(g, start, part + [b]) == Merge(Aggregate(g, start, part), b)
  {
    assert (part + [b])[..|part|] == part;
  }

  lemma DivisionBounds(x: int, d: int)
    requires d > 0
    ensures x / d * d <= x < (x / d + 1) * d
  {
  }

  lemma Multiples(p: int, q: int, d: int)
    requires p <= q && d > 0
    ensures p * d <= q * d
  {
    assert (q - p) * d >= 0;
  }

  lemma QuotientsInOrder(p: int, q: int, x: int, y: int, d: int)
    requires d > 0 && p * d <= x <= y < (q + 1) * d
    ensures p <= q
  {
    if q + 1 <= p {
      Multiples(q + 1, p, d);
    }
  }

  lemma BinsInOrder(g: Grid, s: int, t: int)
    requires ValidGrid(g) && s <= t
    ensures BinStart(s, g.origin, g.width) <= BinStart(t, g.origin, g.width)
  {
    DivisionBounds(s - g.origin, g.width);
    DivisionBounds(t - g.origin, g.width);
    var p, q := (s - g.origin) / g.width, (t - g.origin) / g.width;
    QuotientsInOrder(p, q, s - g.origin, t - g.origin, g.width);
    Multiples(p, q, g.width);
  }

  ghost predicate HasBin(bins: seq<Bar>, start: int) {
    exists i :: 0 <= i < |bins| && bins[i].time == start
  }

  /** Every bar has its bin in the output. */
  lemma {:induction false} GroupCovers(g: Grid, bars: seq<Bar>, start: int)
    requires ValidGrid(g) && InBin(g, bars, start) != []
    ensures HasBin(Group(g, bars), start)
  {
    hide BinStart;
    var before, b := bars[..|bars| - 1], bars[|bars| - 1];
    var bins, out := Group(g, before), Group(g, bars);
    if BinStart(b.time, g.origin, g.width) == start {
      assert out[|out| - 1].time == start;
    } else {
      GroupCovers(g, before, start);
      var i :| 0 <= i < |bins| && bins[i].time == start;
      assert out[i].time == start;
    }
  }

  /** For bars in time order the bins are strictly increasing and end with the last bar's bin. */
  lemma {:induction false} GroupInOrder(g: Grid, bars: seq<Bar>)
    requires ValidGrid(g) && InTimeOrder(bars)
    ensures var out := Group(g, bars);
            && (forall i, j :: 0 <= i < j < |out| ==> out[i].time < out[j].time)
            && (bars == [] <==> out == [])
            && (bars != [] ==> out[|out| - 1].time == BinStart(bars[|bars| - 1].time, g.origin, g.width))
  {
    hide BinStart, AddBar;
    if bars != [] {
      var before, b := bars[..|bars| - 1], bars[|bars| - 1];
      GroupInOrder(g, before);
      if before != [] {
        BinsInOrder(g, before[|before| - 1].time, b.time);
      }
      AddBarInOrder(g, Group(g, before), b);
    }
  }

  lemma AddBarInOrder(g: Grid, bins: seq<Bar>, b: Bar)
    requires ValidGrid(g)
    requires forall i, j :: 0 <= i < j < |bins| ==> bins[i].time < bins[j].time
    requires bins != [] ==> bins[|bins| - 1].time <= BinStart(b.time, g.origin, g.width)
    ensures var out := AddBar(g, bins, b);
            && (forall i, j :: 0 <= i < j < |out| ==> out[i].time < out[j].time)
            && out != [] && out[|out| - 1].time == BinStart(b.time, g.origin, g.width)
  {
    hide BinStart;
  }

  lemma InBinStep(g: Grid, bars: seq<Bar>, start: int)
    requires ValidGrid(g) && bars != []
    ensures var b := bars[|bars| - 1];
            InBin(g, bars, start) ==
            InBin(g, bars[..|bars| - 1], start)
            + if BinStart(b.time, g.origin, g.width) == start then [b] else []
  {
  }

  /** In time order, each output bar is the aggregate of exactly the bars of its bin. */
  lemma {:induction false} GroupAggregates(g: Grid, bars: seq<Bar>, i: nat)
    requires ValidGrid(g) && InTimeOrder(bars) && i < |Group(g, bars)|
    ensures var out := Group(g, bars);
            InBin(g, bars, out[i].time) != []
            && out[i] == Aggregate(g, out[i].time, InBin(g, bars, out[i].time))
  {
    hide BinStart, Aggregate, InBin;
    var before, b := bars[..|bars| - 1], bars[|bars| - 1];
    var bins, start, out := Group(g, before), BinStart(b.time, g.origin, g.width), Group(g, bars);
    GroupInOrder(g, before);
    GroupInOrder(g, bars);
    InBinStep(g, bars, out[i].time);
    if i < |out| - 1 {
      assert out[i] == bins[i] && out[i].time != start;
      GroupAggregates(g, before, i);
      assert InBin(g, before, out[i].time) + [] == InBin(g, before, out[i].time);
    } else if |out| == |bins| {
      GroupAggregates(g, before, i);
      AggregateGrows(g, start, InBin(g, before, start), b);
    } else {
      assert !HasBin(bins, start) by {
        assert forall k :: 0 <= k < |bins| ==> bins[k] == out[k];
      }
      if InBin(g, before, start) != [] {
        GroupCovers(g, before, start);
      }
      assert [] + [b] == [b];
      SingleAggregate(g, start, b);
    }
  }

  lemma SingleAggregate(g: Grid, start: int, b: Bar)
    ensures Aggregate(g, start, [b]) == Relabel(b, start, g.symbol)
  {
    assert VolumeOf([b]) == VolumeOf([b][..0]) + b.volume && [b][..0] == [];
  }

  /** The whole function on a frame of more than one minute per bar: sorted bins, each the
      aggregate of the bars it holds. */
  lemma ResampleAggregates(bars: seq<Bar>, minutes: int, i: nat)
    requires bars != [] && minutes > 1 && i < |Resample(bars, minutes)|
    ensures var sorted, out := SortBars(bars), Resample(bars, minutes);
            sorted != [] && var g := GridFor(sorted, minutes, bars[0].symbol);
            InBin(g, sorted, out[i].time) != []
            && out[i] == Aggregate(g, out[i].time, InBin(g, sorted, out[i].time))
            && (i + 1 < |out| ==> out[i].time < out[i + 1].time)
  {
    hide SortBars, Group, InBin, Aggregate;
    SortMeaning(bars);
    assert bars[0] in multiset(bars) && bars[0] in multiset(SortBars(bars));
    GroupAggregates(GridFor(SortBars(bars), minutes, bars[0].symbol), SortBars(bars), i);
    GroupInOrder(GridFor(SortBars(bars), minutes, bars[0].symbol), SortBars(bars));
  }

  // ---- volume and price bounds ---------------------------------------------------------------------

  lemma {:induction false} GroupKeepsVolume(g: Grid, bars: seq<Bar>)
    requires ValidGrid(g)
    ensures VolumeOf(Group(g, bars)) == VolumeOf(bars)
  {
    hide BinStart;
    if bars != [] {
      var bins, b := Group(g, bars[..|bars| - 1]), bars[|bars| - 1];
      GroupKeepsVolume(g, bars[..|bars| - 1]);
      var out := AddBar(g, bins, b);
      if |out| == |bins| {
        assert out[..|out| - 1] == bins[..|bins| - 1];
      } else {
        assert out[..|out| - 1] == bins;
      }
    }
  }

  lemma {:induction false} InsertKeepsVolume(b: Bar, sorted: seq<Bar>)
    ensures VolumeOf(InsertBar(b, sorted)) == VolumeOf(sorted) + b.volume
  {
    if sorted == [] || b.time <= sorted[0].time {
      VolumeOfCons(b, sorted);
    } else {
      InsertKeepsVolume(b, sorted[1..]);
      VolumeOfCons(sorted[0], InsertBar(b, sorted[1..]));
      VolumeOfCons(sorted[0], sorted[1..]);
      assert sorted == [sorted[0]] + sorted[1..];
    }
  }

  lemma {:induction false} VolumeOfCons(b: Bar, bars: seq<Bar>)
    ensures VolumeOf([b] + bars) == b.volume + VolumeOf(bars)
  {
    if bars == [] {
      assert [b] + bars == [b] && VolumeOf([b][..0]) == 0.0;
    } else {
      assert ([b] + bars)[..|bars|] == [b] + bars[..|bars| - 1];
      VolumeOfCons(b, bars[..|bars| - 1]);
    }
  }

  lemma {:induction false} SortKeepsVolume(bars: seq<Bar>)
    ensures VolumeOf(SortBars(bars)) == VolumeOf(bars)
  {
    if bars != [] {
      SortKeepsVolume(bars[1..]);
      InsertKeepsVolume(bars[0], SortBars(bars[1..]));
      VolumeOfCons(bars[0], bars[1..]);
      assert bars == [bars[0]] + bars[1..];
    }
  }

  /** Total volume is conserved, whatever the bar length. */
  lemma ResampleKeepsVolume(bars: seq<Bar>, minutes: int)
    ensures VolumeOf(Resample(bars, minutes)) == VolumeOf(bars)
  {
    hide SortBars, Group;
    SortKeepsVolume(bars);
    if bars != [] && minutes > 1 && SortBars(bars) != [] {
      GroupKeepsVolume(GridFor(SortBars(bars), minutes, bars[0].symbol), SortBars(bars));
    }
  }

  predicate Bounded(b: Bar) {
    b.low <= b.open <= b.high && b.low <= b.close <= b.high
  }

  lemma {:induction false} GroupKeepsBounds(g: Grid, bars: seq<Bar>)
    requires ValidGrid(g) && forall b :: b in bars ==> Bounded(b)
    ensures forall k :: 0 <= k < |Group(g, bars)| ==> Bounded(Group(g, bars)[k])
  {
    hide BinStart;
    if bars != [] {
      var bins, last := Group(g, bars[..|bars| - 1]), bars[|bars| - 1];
      GroupKeepsBounds(g, bars[..|bars| - 1]);
      assert last in bars;
      var out := AddBar(g, bins, last);
      forall k | 0 <= k < |out| ensures Bounded(out[k]) {
        if k < |bins| {
          assert bins[k] in bins;
        }
      }
    }
  }

  /** low <= open, close <= high survives resampling. */
  lemma ResampleKeepsBounds(bars: seq<Bar>, minutes: int)
    requires forall b :: b in bars ==> Bounded(b)
    ensures forall b :: b in Resample(bars, minutes) ==> Bounded(b)
  {
    hide SortBars, Group;
    SortMeaning(bars);
    forall b | b in SortBars(bars) ensures b in bars {
      assert b in multiset(SortBars(bars));
      assert b in multiset(bars);
    }
    if bars != [] && minutes > 1 && SortBars(bars) != [] {
      GroupKeepsBounds(GridFor(SortBars(bars), minutes, bars[0].symbol), SortBars(bars));
    }
  }

  // ---- composition -----------------------------------------------------------------------------------

  lemma QuotientIs(x: int, d: int, q: int)
    requires d > 0 && q * d <= x < (q + 1) * d
    ensures x / d == q
  {
    DivisionBounds(x, d);
    QuotientsInOrder(q, x / d, x, x, d);
    QuotientsInOrder(x / d, q, x, x, d);
  }

  /** The coarse bin of a fine bin's start is the coarse bin of the time itself. */
  lemma CoarseBinOfFineBin(time: int, origin: int, fine: int, factor: int)
    requires fine > 0 && factor > 0 && fine * factor > 0
    ensures BinStart(BinStart(time, origin, fine), origin, fine * factor) == BinStart(time, origin, fine * factor)
  {
    var x, coarse := time - origin, fine * factor;
    var q, p := x / coarse, x / fine;
    DivisionBounds(x, coarse);
    DivisionBounds(x, fine);
    Regroup(q, factor, fine);
    Regroup(q + 1, factor, fine);
    QuotientsInOrder(q * factor, p, x, x, fine);
    QuotientBelow(p, (q + 1) * factor, x, fine);
    Multiples(q * factor, p, fine);
    QuotientIs(p * fine, coarse, q);
  }

  lemma Regroup(q: int, factor: int, fine: int)
    ensures (q * factor) * fine == q * (fine * factor)
  {
  }

  lemma QuotientBelow(p: int, bound: int, x: int, d: int)
    requires d > 0 && p * d <= x < bound * d
    ensures p * d < bound * d
  {
  }

  lemma MergeAssociative(a: Bar, b: Bar, c: Bar)
    ensures Merge(Merge(a, b), c) == Merge(a, Merge(b, c))
  {
  }

  /** Grouping fine bins into coarse ones is grouping the bars themselves. */
  lemma {:induction false} GroupComposes(fine: Grid, coarse: Grid, factor: int, bars: seq<Bar>)
    requires ValidGrid(fine) && factor > 0 && coarse.width == fine.width * factor && ValidGrid(coarse)
    requires coarse.origin == fine.origin && coarse.symbol == fine.symbol
    ensures Group(coarse, Group(fine, bars)) == Group(coarse, bars)
  {
    hide BinStart, Merge;
    if bars != [] {
      var before, b := bars[..|bars| - 1], bars[|bars| - 1];
      var bins, out := Group(fine, before), Group(fine, bars);
      GroupComposes(fine, coarse, factor, before);
      CoarseBinOfFineBin(b.time, fine.origin, fine.width, factor);
      if |out| == |bins| {
        MergedBinComposes(fine, coarse, bins, b);
      } else {
        assert out[..|out| - 1] == bins;
        RelabelMerges(Group(coarse, bins), coarse, b, BinStart(b.time, fine.origin, fine.width));
      }
    }
  }

  lemma RelabelMerges(bins: seq<Bar>, coarse: Grid, b: Bar, start: int)
    requires ValidGrid(coarse)
    requires BinStart(start, coarse.origin, coarse.width) == BinStart(b.time, coarse.origin, coarse.width)
    ensures AddBar(coarse, bins, Relabel(b, start, coarse.symbol)) == AddBar(coarse, bins, b)
  {
    hide BinStart;
  }

  /** Adding a bar to the last fine bin, or to the coarse bin that holds it, comes to the same. */
  lemma MergedBinComposes(fine: Grid, coarse: Grid, bins: seq<Bar>, b: Bar)
    requires ValidGrid(fine) && ValidGrid(coarse) && bins != []
    requires bins[|bins| - 1].time == BinStart(b.time, fine.origin, fine.width)
    requires BinStart(bins[|bins| - 1].time, coarse.origin, coarse.width)
          == BinStart(b.time, coarse.origin, coarse.width)
    ensures Group(coarse, AddBar(fine, bins, b)) == AddBar(coarse, Group(coarse, bins), b)
  {
    hide BinStart;
    var init, last := bins[..|bins| - 1], bins[|bins| - 1];
    var merged := AddBar(fine, bins, b);
    assert merged[..|merged| - 1] == init && merged[|merged| - 1] == Merge(last, b);
    var coarseInit := Group(coarse, init);
    if coarseInit != [] {
      MergeAssociative(coarseInit[|coarseInit| - 1], last, b);
    }
  }

  lemma {:induction false} GroupShape(g: Grid, bars: seq<Bar>)
    requires ValidGrid(g) && InTimeOrder(bars) && bars != []
    ensures var out := Group(g, bars);
            && out != [] && InTimeOrder(out)
            && (forall b :: b in out ==> b.symbol == g.symbol)
            && out[0].time == BinStart(bars[0].time, g.origin, g.width)
  {
    hide BinStart, Aggregate;
    GroupInOrder(g, bars);
    if |bars| > 1 {
      GroupShape(g, bars[..|bars| - 1]);
    }
  }

  lemma MidnightOfBin(time: int, width: int)
    requires width > 0
    ensures Midnight(BinStart(time, Midnight(time), width)) == Midnight(time)
  {
    var day, x := Midnight(time), time - Midnight(time);
    DivisionBounds(time, DAY_SECONDS);
    DivisionBounds(x, width);
    assert 0 <= x / width by {
      QuotientsInOrder(0, x / width, 0, x, width);
    }
    Multiples(0, x / width, width);
    QuotientIs(BinStart(time, day, width), DAY_SECONDS, time / DAY_SECONDS);
  }

  /** Resampling to `a` minutes and then to `a * b` minutes is resampling to `a * b` minutes at once. */
  lemma ResampleComposes(bars: seq<Bar>, a: int, b: int)
    requires a >= 1 && b >= 1
    ensures Resample(Resample(bars, a), a * b) == Resample(bars, a * b)
  {
    hide SortBars, Group, BinStart;
    if bars != [] && a > 1 {
      assert a * b > 1 by { Multiples(1, b, a); }
      SortMeaning(bars);
      var sorted := SortBars(bars);
      assert |sorted| == |multiset(sorted)| == |bars|;
      var fine, coarse := GridFor(sorted, a, bars[0].symbol), GridFor(sorted, a * b, bars[0].symbol);
      var out := Group(fine, sorted);
      GroupShape(fine, sorted);
      SortedStays(out);
      MidnightOfBin(sorted[0].time, fine.width);
      assert coarse.width == fine.width * b;
      GroupComposes(fine, coarse, b, sorted);
      assert out[0] in out;
      assert GridFor(out, a * b, out[0].symbol) == coarse;
    }
  }

  // ---- the universe, symbol by symbol ----------------------------------------------------------------

  function RowsOf(u: seq<Bar>, s: Symbol): seq<Bar> {
    if u == [] then []
    else RowsOf(u[..|u| - 1], s) + if u[|u| - 1].symbol == s then [u[|u| - 1]] else []
  }

  /** Symbols in the order of their first row. */
  function SymbolsOf(u: seq<Bar>): seq<Symbol> {
    if u == [] then []
    else
      var before, s := SymbolsOf(u[..|u| - 1]), u[|u| - 1].symbol;
      if s in before then before else before + [s]
  }

  function Parts(u: seq<Bar>, minutes: int, symbols: seq<Symbol>): seq<Bar> {
    if symbols == [] then []
    else
      Parts(u, minutes, symbols[..|symbols| - 1]) + Resample(RowsOf(u, symbols[|symbols| - 1]), minutes)
  }

  function UniverseAsTimeframe(u: seq<Bar>, minutes: int): seq<Bar> {
    if u == [] || minutes <= 1 then u else Parts(u, minutes, SymbolsOf(u))
  }

  /** The appending loop of `universe_as_timeframe`. */
  method ConvertUniverse(u: seq<Bar>, minutes: int) returns (out: seq<Bar>)
    ensures out == UniverseAsTimeframe(u, minutes)
  {
    hide Resample, RowsOf;
    if u == [] || minutes <= 1 {
      return u;
    }
    var symbols := SymbolsOf(u);
    out := [];
    for k := 0 to |symbols|
      invariant out == Parts(u, minutes, symbols[..k])
    {
      assert symbols[..k + 1][..k] == symbols[..k];
      out := out + Resample(RowsOf(u, symbols[k]), minutes);
    }
    assert symbols[..|symbols|] == symbols;
  }

  lemma {:induction false} RowsOfSum(a: seq<Bar>, b: seq<Bar>, s: Symbol)
    ensures RowsOf(a + b, s) == RowsOf(a, s) + RowsOf(b, s)
  {
    if b == [] {
      assert a + b == a;
    } else {
      assert (a + b)[..|a + b| - 1] == a + b[..|b| - 1];
      RowsOfSum(a, b[..|b| - 1], s);
    }
  }

  ghost predicate AllOf(bars: seq<Bar>, s: Symbol) {
    forall b :: b in bars ==> b.symbol == s
  }

  lemma {:induction false} RowsOfMeaning(u: seq<Bar>, s: Symbol)
    ensures AllOf(RowsOf(u, s), s)
    ensures RowsOf(u, s) != [] <==> s in SymbolsOf(u)
  {
    if u != [] {
      RowsOfMeaning(u[..|u| - 1], s);
    }
  }

  lemma {:induction false} RowsOfOneSymbol(bars: seq<Bar>, owner: Symbol, s: Symbol)
    requires AllOf(bars, owner)
    ensures RowsOf(bars, s) == if s == owner then bars else []
  {
    if bars != [] {
      assert bars[|bars| - 1] in bars;
      RowsOfOneSymbol(bars[..|bars| - 1], owner, s);
    }
  }

  lemma {:induction false} AppendOneSymbol(a: seq<Bar>, b: seq<Bar>, s: Symbol)
    requires AllOf(b, s) && b != [] && s !in SymbolsOf(a)
    ensures SymbolsOf(a + b) == SymbolsOf(a) + [s]
  {
    var all := a + b;
    assert all[..|all| - 1] == a + b[..|b| - 1];
    assert b[|b| - 1] in b;
    if |b| > 1 {
      AppendOneSymbol(a, b[..|b| - 1], s);
    } else {
      assert a + b[..0] == a;
    }
  }

  lemma ResampleOneSymbol(bars: seq<Bar>, minutes: int, s: Symbol)
    requires AllOf(bars, s) && bars != []
    ensures AllOf(Resample(bars, minutes), s) && Resample(bars, minutes) != []
  {
    hide SortBars, Group;
    if minutes > 1 {
      SortMeaning(bars);
      assert |multiset(SortBars(bars))| == |multiset(bars)|;
      assert bars[0] in bars;
      GroupShape(GridFor(SortBars(bars), minutes, bars[0].symbol), SortBars(bars));
    }
  }

  lemma {:induction false} PartsMeaning(u: seq<Bar>, minutes: int, symbols: seq<Symbol>, s: Symbol)
    requires Distinct(symbols) && forall k :: k in symbols ==> k in SymbolsOf(u)
    ensures SymbolsOf(Parts(u, minutes, symbols)) == symbols
    ensures RowsOf(Parts(u, minutes, symbols), s) == if s in symbols then Resample(RowsOf(u, s), minutes) else []
  {
    hide Resample;
    if symbols != [] {
      var before, last := symbols[..|symbols| - 1], symbols[|symbols| - 1];
      var head, tail := Parts(u, minutes, before), Resample(RowsOf(u, last), minutes);
      assert symbols == before + [last];
      PartsMeaning(u, minutes, before, s);
      RowsOfMeaning(u, last);
      ResampleOneSymbol(RowsOf(u, last), minutes, last);
      AppendOneSymbol(head, tail, last);
      RowsOfSum(head, tail, s);
      RowsOfOneSymbol(tail, last, s);
    }
  }

  lemma {:induction false} SymbolsDistinct(u: seq<Bar>)
    ensures Distinct(SymbolsOf(u))
  {
    if u != [] {
      SymbolsDistinct(u[..|u| - 1]);
    }
  }

  /** Converting the universe resamples each symbol's rows and keeps the order of symbols. */
  lemma UniverseBySymbol(u: seq<Bar>, minutes: int, s: Symbol)
    requires minutes > 1
    ensures SymbolsOf(UniverseAsTimeframe(u, minutes)) == SymbolsOf(u)
    ensures RowsOf(UniverseAsTimeframe(u, minutes), s) == Resample(RowsOf(u, s), minutes)
  {
    hide Resample;
    SymbolsDistinct(u);
    PartsMeaning(u, minutes, SymbolsOf(u), s);
    RowsOfMeaning(u, s);
    EmptyResample(minutes);
  }

  lemma EmptyResample(minutes: int)
    ensures Resample([], minutes) == []
  {
  }

  lemma {:induction false} PartsCompose(u: seq<Bar>, v: seq<Bar>, a: int, b: int, symbols: seq<Symbol>)
    requires a > 1 && b >= 1 && v == UniverseAsTimeframe(u, a)
    ensures Parts(v, a * b, symbols) == Parts(u, a * b, symbols)
  {
    hide Resample, UniverseAsTimeframe;
    if symbols != [] {
      var last := symbols[|symbols| - 1];
      PartsCompose(u, v, a, b, symbols[..|symbols| - 1]);
      UniverseBySymbol(u, a, last);
      ResampleComposes(RowsOf(u, last), a, b);
    }
  }

  /** The same composition for a whole universe, row for row. */
  lemma UniverseComposes(u: seq<Bar>, a: int, b: int)
    requires a >= 1 && b >= 1
    ensures UniverseAsTimeframe(UniverseAsTimeframe(u, a), a * b) == UniverseAsTimeframe(u, a * b)
  {
    hide Parts;
    if a > 1 && u != [] {
      var v := UniverseAsTimeframe(u, a);
      assert a * b > 1 by { Multiples(1, b, a); }
      UniverseBySymbol(u, a, u[0].symbol);
      SomeSymbol(u);
      PartsCompose(u, v, a, b, SymbolsOf(u));
    }
  }

  lemma SomeSymbol(u: seq<Bar>)
    requires u != []
    ensures SymbolsOf(u) != []
  {
  }
}
