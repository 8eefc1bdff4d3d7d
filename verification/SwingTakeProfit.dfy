/** The one-shot first take-profit of the relaxed swing strategy
    (app/strategy/swing_relaxed_v2_state.py, app/strategy/swing_relaxed_v2_strategy.py). */
module SwingTakeProfit {
  import opened Common

  // ---- the position signature and its quantity ------------------------------------------------

  const MARKER := "qty="

  predicate IsDigit(c: char) {
    '0' <= c <= '9'
  }

  function DigitValue(c: char): nat {
    if IsDigit(c) then c as int - '0' as int else 0
  }

  function DigitChar(d: nat): (c: char)
    requires d < 10
    ensures IsDigit(c) && DigitValue(c) == d
  {
    ('0' as int + d) as char
  }

  function PrintNat(n: nat): (s: string)
    ensures |s| > 0 && forall c :: c in s ==> IsDigit(c)
  {
    if n < 10 then [DigitChar(n)] else PrintNat(n / 10) + [DigitChar(n % 10)]
  }

  function PrintInt(n: int): string {
    if n < 0 then "-" + PrintNat(-n) else PrintNat(n)
  }

  function Pad(s: string, width: nat): string
    decreases width - |s|
  {
    if |s| >= width then s else Pad("0" + s, width)
  }

  /** The `.6f` format. */
  function PrintFixed6(x: real): string {
    var n: nat := RoundHalfEven(AbsReal(x) * 1_000_000.0);
    (if x < 0.0 then "-" else "") + PrintNat(n / 1_000_000) + "." + Pad(PrintNat(n % 1_000_000), 6)
  }

  function Signature(averagePrice: real, quantity: int): string {
    "avg=" + PrintFixed6(averagePrice) + "|" + MARKER + PrintInt(quantity)
  }

  function ParseNat(s: string): Option<nat> {
    if s == [] then None
    else if !IsDigit(s[|s| - 1]) then None
    else if |s| == 1 then Some(DigitValue(s[0]))
    else
      match ParseNat(s[..|s| - 1])
      case None => None
      case Some(high) => Some(10 * high + DigitValue(s[|s| - 1]))
  }

  function ParseInt(s: string): Option<int> {
    if s != [] && s[0] == '-' then
      match ParseNat(s[1..])
      case None => None
      case Some(n) => var value: int := n; Some(-value)
    else
      match ParseNat(s)
      case None => None
      case Some(n) => Some(n)
  }

  predicate MarkedAt(s: string, i: nat) {
    i + |MARKER| <= |s| && s[i..i + |MARKER|] == MARKER
  }

  /** The first position of the marker, or the length of the text. */
  function FirstMark(s: string): (i: nat)
    ensures i <= |s|
    ensures i < |s| ==> MarkedAt(s, i)
    ensures forall j :: 0 <= j < i ==> !MarkedAt(s, j)
  {
    if s == [] then 0
    else if MarkedAt(s, 0) then 0
    else
      var rest := FirstMark(s[1..]);
      MarkShifts(s);
      rest + 1
  }

  lemma MarkShifts(s: string)
    requires s != []
    ensures forall j: nat :: 1 <= j ==> (MarkedAt(s, j) <==> MarkedAt(s[1..], j - 1))
  {
    forall j: nat | 1 <= j ensures MarkedAt(s, j) <==> MarkedAt(s[1..], j - 1) {
      if j + |MARKER| <= |s| {
        assert s[1..][j - 1..j - 1 + |MARKER|] == s[j..j + |MARKER|];
      }
    }
  }

  /** `text.split("qty=")[-1]`. */
  function LastPiece(s: string): string
    decreases |s|
  {
    var i := FirstMark(s);
    if i == |s| then s else LastPiece(s[i + |MARKER|..])
  }

  lemma {:induction false} ParsePrintedNat(n: nat)
    ensures ParseNat(PrintNat(n)) == Some(n)
  {
    if n >= 10 {
      ParsePrintedNat(n / 10);
      AppendDigit(PrintNat(n / 10), DigitChar(n % 10));
    }
  }

  lemma AppendDigit(s: string, c: char)
    requires ParseNat(s).Some? && IsDigit(c)
    ensures ParseNat(s + [c]) == Some(10 * ParseNat(s).value + DigitValue(c))
  {
    assert (s + [c])[..|s|] == s;
  }

  lemma ParsePrintedInt(n: int)
    ensures ParseInt(PrintInt(n)) == Some(n)
    ensures forall c :: c in PrintInt(n) ==> c != 'q'
  {
    hide ParseNat, PrintNat;
    var digits := PrintNat(if n < 0 then -n else n);
    ParsePrintedNat(if n < 0 then -n else n);
    assert forall c :: c in digits ==> IsDigit(c) && c != 'q' && c != '-';
    if n < 0 {
      assert PrintInt(n)[1..] == digits;
    } else {
      assert digits[0] in digits;
    }
  }

  /** Of the four letters of a marker only the first is a q, so markers cannot overlap. */
  lemma MarkLetters(s: string)
    ensures forall i: nat :: MarkedAt(s, i) ==>
              'q' in s && s[i] == 'q' && s[i + 1] != 'q' && s[i + 2] != 'q' && s[i + 3] != 'q'
  {
    assert MARKER == ['q', 't', 'y', '='];
    forall i: nat | MarkedAt(s, i)
      ensures 'q' in s && s[i] == 'q' && s[i + 1] != 'q' && s[i + 2] != 'q' && s[i + 3] != 'q'
    {
      var w := s[i..i + |MARKER|];
      assert w[0] == s[i] && w[1] == s[i + 1] && w[2] == s[i + 2] && w[3] == s[i + 3];
    }
  }

  /** What follows the marker is recovered, whatever stands before it. */
  lemma {:induction false} LastPieceOf(prefix: string, tail: string)
    requires forall c :: c in tail ==> c != 'q'
    ensures LastPiece(prefix + MARKER + tail) == tail
    decreases |prefix|
  {
    var s := prefix + MARKER + tail;
    assert s[|prefix|..|prefix| + |MARKER|] == MARKER;
    assert MarkedAt(s, |prefix|);
    MarkLetters(s);
    var i := FirstMark(s);
    if i == |prefix| {
      assert s[i + |MARKER|..] == tail;
      MarkLetters(tail);
    } else {
      assert i + |MARKER| <= |prefix|;
      assert s[i + |MARKER|..] == prefix[i + |MARKER|..] + MARKER + tail;
      LastPieceOf(prefix[i + |MARKER|..], tail);
    }
  }

  function QuantityIn(signature: string): int {
    match ParseInt(LastPiece(signature))
    case Some(n) => n
    case None => -1
  }

  /** Printing a signature and reading its quantity undo each other, for every price and quantity. */
  lemma SignatureRoundTrip(averagePrice: real, quantity: int)
    ensures QuantityIn(Signature(averagePrice, quantity)) == quantity
  {
    ParsePrintedInt(quantity);
    var prefix := "avg=" + PrintFixed6(averagePrice) + "|";
    assert Signature(averagePrice, quantity) == prefix + MARKER + PrintInt(quantity);
    LastPieceOf(prefix, PrintInt(quantity));
  }

  /** A printed price is its sign, its whole part and six digits of its fraction, to the nearest millionth. */
  lemma FixedPointValue(x: real)
    ensures exists n: nat, fraction: string ::
              && PrintFixed6(x) == (if x < 0.0 then "-" else "") + PrintNat(n / 1_000_000) + "." + fraction
              && |fraction| == 6 && ParseNat(fraction) == Some(n % 1_000_000)
              && n as real - 0.5 <= AbsReal(x) * 1_000_000.0 <= n as real + 0.5
  {
    var n: nat := RoundHalfEven(AbsReal(x) * 1_000_000.0);
    var low := n % 1_000_000;
    ParsePrintedNat(low);
    PrintedLength(low, 6);
    PadMeaning(PrintNat(low), 6);
    var fraction := Pad(PrintNat(low), 6);
    assert PrintFixed6(x) == (if x < 0.0 then "-" else "") + PrintNat(n / 1_000_000) + "." + fraction;
  }

  function PowerOfTen(width: nat): nat {
    if width == 0 then 1 else 10 * PowerOfTen(width - 1)
  }

  lemma {:induction false} PrintedLength(n: nat, width: nat)
    requires width >= 1 && n < PowerOfTen(width)
    ensures |PrintNat(n)| <= width
  {
    if n >= 10 {
      assert width >= 2 by { assert PowerOfTen(1) == 10 * PowerOfTen(0); }
      PrintedLength(n / 10, width - 1);
    }
  }

  lemma {:induction false} PadMeaning(s: string, width: nat)
    requires ParseNat(s).Some? && |s| <= width
    ensures |Pad(s, width)| == width && ParseNat(Pad(s, width)) == ParseNat(s)
    decreases width - |s|
  {
    if |s| < width {
      LeadingZero(s);
      PadMeaning("0" + s, width);
    }
  }

  lemma {:induction false} LeadingZero(s: string)
    requires ParseNat(s).Some?
    ensures ParseNat("0" + s) == ParseNat(s)
  {
    var t := "0" + s;
    assert t[..|t| - 1] == "0" + s[..|s| - 1];
    if |s| == 1 {
      assert t[..1] == "0" && ParseNat("0") == Some(0);
    } else {
      LeadingZero(s[..|s| - 1]);
    }
  }

  /** A quantity prints without a sign from zero on, and an unreadable signature counts as minus one. */
  lemma PrintedSign(n: int, signature: string)
    ensures n >= 0 ==> PrintInt(n) == PrintNat(n)
    ensures n < 0 ==> PrintInt(n) == "-" + PrintNat(-n)
    ensures ParseInt(LastPiece(signature)).None? ==> QuantityIn(signature) == -1
  {
  }

  // ---- exit signals -----------------------------------------------------------------------------

  datatype SwingConfig = SwingConfig(
    stopLossPct: real,
    firstTakeProfitPct: real,
    secondTakeProfitPct: real,
    timeExitDays: int
  )

  datatype SwingView = SwingView(close: real, ma20: real, atrAvailable: bool, atrPct: real, holdDays: int)

  datatype Held = Held(averagePrice: real, quantity: int)

  function SignatureOf(p: Held): string {
    Signature(p.averagePrice, p.quantity)
  }

  datatype SwingReason = StopAtr | SecondTakeProfit | FirstTakeProfitPartial | TrailingMa | TimeExit

  datatype SwingExit = SwingExit(reason: SwingReason, quantity: int)

  function DynamicStopPct(cfg: SwingConfig, atrPct: real): real {
    var sl := AbsReal(cfg.stopLossPct);
    if atrPct <= 0.0 then sl
    else
      var blended := MaxReal(sl * 0.90, MinReal(sl * 1.32, atrPct * 1.58));
      MinReal(MaxReal(blended, sl * 0.78), sl * 1.42)
  }

  predicate TrailingMaBroken(cfg: SwingConfig, v: SwingView, pnlPct: real) {
    var buffer := if v.atrAvailable && v.atrPct > 0.0 then MaxReal(0.005, 0.38 * (v.atrPct / 100.0)) else 0.008;
    && pnlPct >= MaxReal(2.0, cfg.firstTakeProfitPct * 0.38)
    && v.ma20 > 0.0
    && v.close < v.ma20 * (1.0 - buffer)
  }

  /** `_build_exit_signals_relaxed_v2`: at most one exit per position and tick. */
  function BuildExit(cfg: SwingConfig, v: SwingView, p: Held, tp1Done: bool): Option<SwingExit> {
    if p.quantity <= 0 || p.averagePrice <= 0.0 then None
    else
      var pnlPct := (v.close / p.averagePrice - 1.0) * 100.0;
      var stop := DynamicStopPct(cfg, if v.atrAvailable then v.atrPct else 0.0);
      if pnlPct <= -AbsReal(stop) then Some(SwingExit(StopAtr, p.quantity))
      else if pnlPct >= cfg.secondTakeProfitPct then Some(SwingExit(SecondTakeProfit, p.quantity))
      else if !tp1Done && pnlPct >= cfg.firstTakeProfitPct then
        Some(SwingExit(FirstTakeProfitPartial, MaxInt(p.quantity / 2, 1)))
      else if TrailingMaBroken(cfg, v, pnlPct) then Some(SwingExit(TrailingMa, p.quantity))
      else if v.holdDays >= cfg.timeExitDays && pnlPct <= 0.0 then Some(SwingExit(TimeExit, p.quantity))
      else None
  }

  /** The volatility stop stays between 90% and 132% of the configured one: the outer limits of the
      formula never act. */
  lemma DynamicStopRange(cfg: SwingConfig, atrPct: real)
    ensures var sl, stop := AbsReal(cfg.stopLossPct), DynamicStopPct(cfg, atrPct);
            && sl * 0.90 <= stop <= sl * 1.32
            && (atrPct > 0.0 ==> stop == MaxReal(sl * 0.90, MinReal(sl * 1.32, atrPct * 1.58)))
            && (atrPct <= 0.0 ==> stop == sl)
  {
  }

  /** The partial profit is taken exactly in its band, once, and the stop comes before everything. */
  lemma FirstTakeProfitIff(cfg: SwingConfig, v: SwingView, p: Held, tp1Done: bool)
    requires p.quantity > 0 && p.averagePrice > 0.0
    ensures var pnlPct := (v.close / p.averagePrice - 1.0) * 100.0;
            var stop := DynamicStopPct(cfg, if v.atrAvailable then v.atrPct else 0.0);
            && (IsFirstTakeProfit(BuildExit(cfg, v, p, tp1Done)) <==>
                 !tp1Done && pnlPct > -stop && cfg.firstTakeProfitPct <= pnlPct < cfg.secondTakeProfitPct)
            && (BuildExit(cfg, v, p, tp1Done) == Some(SwingExit(StopAtr, p.quantity)) <==> pnlPct <= -stop)
            && (pnlPct > -stop && pnlPct >= cfg.secondTakeProfitPct ==>
                 BuildExit(cfg, v, p, tp1Done) == Some(SwingExit(SecondTakeProfit, p.quantity)))
  {
    DynamicStopRange(cfg, if v.atrAvailable then v.atrPct else 0.0);
    hide DynamicStopPct, TrailingMaBroken;
  }

  /** The stop in percent: the configured one, or 1.58 times the volatility within 90% and 132% of it. */
  ghost function StopPct(cfg: SwingConfig, v: SwingView): real {
    var fixed, byAtr := AbsReal(cfg.stopLossPct), 1.58 * v.atrPct;
    if !v.atrAvailable || v.atrPct <= 0.0 then fixed
    else if byAtr > fixed * 1.32 then fixed * 1.32
    else if byAtr < fixed * 0.90 then fixed * 0.90
    else byAtr
  }

  /** How far under its average the trailing exit lets the price fall, in percent: 0.8, or 0.38 times the
      volatility but 0.5 at least. */
  function TrailPct(v: SwingView): real {
    if !v.atrAvailable || v.atrPct <= 0.0 then 0.8 else if 0.38 * v.atrPct > 0.5 then 0.38 * v.atrPct else 0.5
  }

  /** The gain from which the trailing exit is on. */
  function TrailFrom(cfg: SwingConfig): real {
    if cfg.firstTakeProfitPct * 0.38 > 2.0 then cfg.firstTakeProfitPct * 0.38 else 2.0
  }

  /** The price at a gain over a base. */
  function PriceAt(base: real, pct: real): real {
    base * (1.0 + pct / 100.0)
  }

  ghost predicate FellUnderAverage(cfg: SwingConfig, v: SwingView, p: Held) {
    v.close >= PriceAt(p.averagePrice, TrailFrom(cfg)) && v.ma20 > 0.0 && v.close < PriceAt(v.ma20, -TrailPct(v))
  }

  /** The whole exit decision on prices, the first matching line of five, and none for a broken position. */
  lemma ExitOnPrices(cfg: SwingConfig, v: SwingView, p: Held, tp1Done: bool)
    ensures p.quantity <= 0 || p.averagePrice <= 0.0 ==> BuildExit(cfg, v, p, tp1Done).None?
    ensures p.quantity > 0 && p.averagePrice > 0.0 ==>
              var avg, all := p.averagePrice, p.quantity;
              BuildExit(cfg, v, p, tp1Done) ==
                if v.close <= PriceAt(avg, -StopPct(cfg, v)) then Some(SwingExit(StopAtr, all))
                else if v.close >= PriceAt(avg, cfg.secondTakeProfitPct) then Some(SwingExit(SecondTakeProfit, all))
                else if !tp1Done && v.close >= PriceAt(avg, cfg.firstTakeProfitPct) then
                  Some(SwingExit(FirstTakeProfitPartial, if all == 1 then 1 else all / 2))
                else if FellUnderAverage(cfg, v, p) then Some(SwingExit(TrailingMa, all))
                else if v.holdDays >= cfg.timeExitDays && v.close <= avg then Some(SwingExit(TimeExit, all))
                else None
  {
    if p.quantity > 0 && p.averagePrice > 0.0 {
      var stop, avg := StopPct(cfg, v), p.averagePrice;
      var pnlPct := (v.close / avg - 1.0) * 100.0;
      StopMeaning(cfg, v);
      GainAt(v.close, avg, -stop);
      GainAt(v.close, avg, cfg.secondTakeProfitPct);
      GainAt(v.close, avg, cfg.firstTakeProfitPct);
      GainAt(v.close, avg, 0.0);
      TrailMeaning(cfg, v, p, pnlPct);
      assert PriceAt(avg, 0.0) == avg;
      hide StopPct, DynamicStopPct, TrailingMaBroken, FellUnderAverage, PriceAt;
    }
  }

  lemma GainAt(now: real, base: real, pct: real)
    requires base > 0.0
    ensures (now / base - 1.0) * 100.0 <= pct <==> now <= PriceAt(base, pct)
    ensures (now / base - 1.0) * 100.0 >= pct <==> now >= PriceAt(base, pct)
  {
    GainAsPrice(now, base, pct);
  }

  lemma TrailMeaning(cfg: SwingConfig, v: SwingView, p: Held, pnlPct: real)
    requires p.averagePrice > 0.0 && pnlPct == (v.close / p.averagePrice - 1.0) * 100.0
    ensures TrailingMaBroken(cfg, v, pnlPct) <==> FellUnderAverage(cfg, v, p)
  {
    GainAt(v.close, p.averagePrice, TrailFrom(cfg));
    var share := if v.atrAvailable && v.atrPct > 0.0 then MaxReal(0.005, 0.38 * (v.atrPct / 100.0)) else 0.008;
    assert share == TrailPct(v) / 100.0;
    assert PriceAt(v.ma20, -TrailPct(v)) == v.ma20 * (1.0 - share);
    assert TrailFrom(cfg) == MaxReal(2.0, cfg.firstTakeProfitPct * 0.38);
    hide TrailPct, TrailFrom, PriceAt;
  }

  lemma StopMeaning(cfg: SwingConfig, v: SwingView)
    ensures DynamicStopPct(cfg, if v.atrAvailable then v.atrPct else 0.0) == StopPct(cfg, v) >= 0.0
  {
    DynamicStopRange(cfg, if v.atrAvailable then v.atrPct else 0.0);
  }

  predicate IsFirstTakeProfit(exit: Option<SwingExit>) {
    exit.Some? && exit.value.reason.FirstTakeProfitPartial?
  }

  // ---- the paper state ----------------------------------------------------------------------------

  datatype SwingState = SwingState(day: Day, tp1Done: map<Symbol, bool>, positionSig: map<Symbol, string>)

  function RollSwingDay(st: SwingState, today: Day): SwingState {
    if st.day == today then st else SwingState(today, map[], map[])
  }

  function FlagOf(st: SwingState, s: Symbol): bool {
    s in st.tp1Done && st.tp1Done[s]
  }

  /** The signature stored for `s` is from a smaller holding than the present one. */
  predicate Grown(signatures: map<Symbol, string>, held: map<Symbol, Held>, s: Symbol)
    requires s in held
  {
    s in signatures
    && signatures[s] != SignatureOf(held[s])
    && held[s].quantity > QuantityIn(signatures[s])
  }

  function KeptFlags(st: SwingState, held: map<Symbol, Held>): map<Symbol, bool> {
    map s | s in st.tp1Done && s in held :: st.tp1Done[s]
  }

  function KeptSignatures(st: SwingState, held: map<Symbol, Held>): map<Symbol, string> {
    map s | s in st.positionSig && !(s in st.tp1Done && s !in held) :: st.positionSig[s]
  }

  function RenewedSignatures(signatures: map<Symbol, string>, held: map<Symbol, Held>): map<Symbol, string> {
    signatures + map s | s in held :: SignatureOf(held[s])
  }

  function UngrownFlags(
    flags: map<Symbol, bool>, signatures: map<Symbol, string>, held: map<Symbol, Held>): map<Symbol, bool>
  {
    map s | s in flags && !(s in held && Grown(signatures, held, s)) :: flags[s]
  }

  /** `sync_tp1_with_portfolio`: flags of symbols that left or grew are dropped, and every held
      symbol's signature is renewed. */
  function Sync(st: SwingState, held: map<Symbol, Held>): SwingState {
    var flags, signatures := KeptFlags(st, held), KeptSignatures(st, held);
    SwingState(st.day, UngrownFlags(flags, signatures, held), RenewedSignatures(signatures, held))
  }

  method DropDeparted(st: SwingState, held: map<Symbol, Held>)
    returns (tp1: map<Symbol, bool>, sig: map<Symbol, string>)
    ensures tp1 == KeptFlags(st, held) && sig == KeptSignatures(st, held)
  {
    tp1, sig := st.tp1Done, st.positionSig;
    var rest := st.tp1Done.Keys;
    while rest != {}
      invariant rest <= st.tp1Done.Keys
      invariant tp1 == map s | s in st.tp1Done && (s in rest || s in held) :: st.tp1Done[s]
      invariant sig == map s | s in st.positionSig && !(s in st.tp1Done && s !in rest && s !in held)
                       :: st.positionSig[s]
    {
      var s :| s in rest;
      rest := rest - {s};
      if s !in held {
        tp1, sig := tp1 - {s}, sig - {s};
      }
    }
  }

  method RenewHeld(flags: map<Symbol, bool>, signatures: map<Symbol, string>, held: map<Symbol, Held>)
    returns (tp1: map<Symbol, bool>, sig: map<Symbol, string>)
    ensures tp1 == UngrownFlags(flags, signatures, held) && sig == RenewedSignatures(signatures, held)
  {
    hide SignatureOf, QuantityIn;
    tp1, sig := flags, signatures;
    var rest := held.Keys;
    while rest != {}
      invariant rest <= held.Keys
      invariant forall k :: k in tp1 <==> k in flags && !(k in held && k !in rest && Grown(signatures, held, k))
      invariant forall k :: k in tp1 ==> tp1[k] == flags[k]
      invariant forall k :: k in sig <==> k in signatures || (k in held && k !in rest)
      invariant forall k :: k in sig ==>
                  sig[k] == if k in held && k !in rest then SignatureOf(held[k]) else signatures[k]
    {
      var s :| s in rest;
      if Grown(sig, held, s) {
        tp1 := tp1 - {s};
      }
      assert Grown(sig, held, s) <==> Grown(signatures, held, s);
      sig := sig[s := SignatureOf(held[s])];
      rest := rest - {s};
    }
  }

  /** The two dictionary loops of the program. */
  method SyncWithPortfolio(st: SwingState, held: map<Symbol, Held>) returns (r: SwingState)
    ensures r == Sync(st, held)
  {
    var tp1, sig := DropDeparted(st, held);
    tp1, sig := RenewHeld(tp1, sig, held);
    r := SwingState(st.day, tp1, sig);
  }

  // ---- ticks ---------------------------------------------------------------------------------------

  datatype SwingTick = SwingTick(
    loadDay: Day,
    saveDay: Day,
    held: map<Symbol, Held>,
    evaluated: seq<Symbol>,
    views: map<Symbol, SwingView>
  )

  function ExitFor(cfg: SwingConfig, t: SwingTick, st: SwingState, s: Symbol): Option<SwingExit> {
    if s in t.held && s in t.views then BuildExit(cfg, t.views[s], t.held[s], FlagOf(st, s)) else None
  }

  function EvaluateOne(cfg: SwingConfig, t: SwingTick, st: SwingState, s: Symbol): SwingState {
    if IsFirstTakeProfit(ExitFor(cfg, t, st, s)) then st.(tp1Done := st.tp1Done[s := true]) else st
  }

  function Evaluate(cfg: SwingConfig, t: SwingTick, st: SwingState, symbols: seq<Symbol>): SwingState {
    if symbols == [] then st
    else EvaluateOne(cfg, t, Evaluate(cfg, t, st, symbols[..|symbols| - 1]), symbols[|symbols| - 1])
  }

  function Synced(t: SwingTick, file: SwingState): SwingState {
    Sync(RollSwingDay(file, t.loadDay), t.held)
  }

  /** The state file after one `generate_signals`. */
  function SwingTickFile(cfg: SwingConfig, t: SwingTick, file: SwingState): SwingState {
    RollSwingDay(Evaluate(cfg, t, Synced(t, file), t.evaluated), t.saveDay)
  }

  /** The tick signals the partial first take-profit of `s`. */
  predicate SignalsFirst(cfg: SwingConfig, t: SwingTick, file: SwingState, s: Symbol) {
    s in t.evaluated && IsFirstTakeProfit(ExitFor(cfg, t, Synced(t, file), s))
  }

  class SwingRelaxedV2Strategy {
    const cfg: SwingConfig
    var file: Option<SwingState>

    constructor (cfg: SwingConfig)
      ensures this.cfg == cfg && file == None
    {
      this.cfg, file := cfg, None;
    }

    ghost function Content(today: Day): SwingState
      reads this
    {
      if file.Some? then file.value else SwingState(today, map[], map[])
    }

    /** The exit half of `generate_signals`: sync, evaluate held symbols in turn, save. */
    method GenerateExits(t: SwingTick) returns (exits: seq<(Symbol, SwingExit)>)
      requires Distinct(t.evaluated)
      modifies this
      ensures file == Some(SwingTickFile(cfg, t, old(Content(t.loadDay))))
      ensures forall s, e :: (s, e) in exits <==>
                s in t.evaluated && ExitFor(cfg, t, Synced(t, old(Content(t.loadDay))), s) == Some(e)
    {
      hide BuildExit, Sync;
      var loaded := if file.Some? then file.value else SwingState(t.loadDay, map[], map[]);
      var synced := SyncWithPortfolio(RollSwingDay(loaded, t.loadDay), t.held);
      var st := synced;
      exits := [];
      for k := 0 to |t.evaluated|
        invariant st == Evaluate(cfg, t, synced, t.evaluated[..k])
        invariant forall s, e :: (s, e) in exits <==>
                    s in t.evaluated[..k] && ExitFor(cfg, t, synced, s) == Some(e)
      {
        var s := t.evaluated[k];
        assert t.evaluated[..k + 1][..k] == t.evaluated[..k];
        EvaluateFlags(cfg, t, synced, t.evaluated[..k], s);
        var exit := ExitFor(cfg, t, st, s);
        if exit.Some? {
          exits := exits + [(s, exit.value)];
        }
        st := EvaluateOne(cfg, t, st, s);
      }
      assert t.evaluated[..|t.evaluated|] == t.evaluated;
      file := Some(RollSwingDay(st, t.saveDay));
    }
  }

  /** Evaluating symbols sets exactly the flags of the first take-profits it signals. */
  lemma {:induction false} EvaluateFlags(
    cfg: SwingConfig, t: SwingTick, st: SwingState, symbols: seq<Symbol>, s: Symbol)
    requires Distinct(symbols)
    ensures var st' := Evaluate(cfg, t, st, symbols);
            && st'.day == st.day && st'.positionSig == st.positionSig
            && (FlagOf(st', s) <==> FlagOf(st, s) || (s in symbols && IsFirstTakeProfit(ExitFor(cfg, t, st, s))))
  {
    hide BuildExit;
    if symbols != [] {
      var prefix, last := symbols[..|symbols| - 1], symbols[|symbols| - 1];
      assert symbols == prefix + [last];
      EvaluateFlags(cfg, t, st, prefix, s);
      EvaluateFlags(cfg, t, st, prefix, last);
    }
  }

  // ---- runs ----------------------------------------------------------------------------------------

  function FileAt(cfg: SwingConfig, file: SwingState, ticks: seq<SwingTick>, k: nat): SwingState
    requires k <= |ticks|
  {
    if k == 0 then file else SwingTickFile(cfg, ticks[k - 1], FileAt(cfg, file, ticks, k - 1))
  }

  predicate FirstAt(cfg: SwingConfig, file: SwingState, ticks: seq<SwingTick>, k: nat, s: Symbol)
    requires k < |ticks|
  {
    SignalsFirst(cfg, ticks[k], FileAt(cfg, file, ticks, k), s)
  }

  predicate FlagAt(cfg: SwingConfig, file: SwingState, ticks: seq<SwingTick>, k: nat, s: Symbol)
    requires k < |ticks|
  {
    FlagOf(Synced(ticks[k], FileAt(cfg, file, ticks, k)), s)
  }

  /** From tick `m` to the next: one KST day, and a holding that neither vanished nor grew. */
  predicate Linked(ticks: seq<SwingTick>, m: nat, s: Symbol)
    requires m + 1 < |ticks|
  {
    && ticks[m].loadDay == ticks[m].saveDay == ticks[m + 1].loadDay
    && s in ticks[m].held && s in ticks[m + 1].held
    && ticks[m + 1].held[s].quantity <= ticks[m].held[s].quantity
  }

  ghost predicate Unbroken(ticks: seq<SwingTick>, i: nat, j: nat, s: Symbol)
    requires i <= j < |ticks|
  {
    forall m :: i <= m < j ==> Linked(ticks, m, s)
  }

  /** An earlier first take-profit of the same unbroken holding and day. */
  ghost predicate AlreadyTaken(cfg: SwingConfig, file: SwingState, ticks: seq<SwingTick>, j: nat, s: Symbol)
    requires j < |ticks|
  {
    exists i: nat :: i < j && FirstAt(cfg, file, ticks, i, s) && Unbroken(ticks, i, j, s)
  }

  lemma GrownMeansMore(before: Held, now: Held)
    ensures SignatureOf(before) != SignatureOf(now) && now.quantity > QuantityIn(SignatureOf(before))
            <==> now.quantity > before.quantity
  {
    SignatureRoundTrip(before.averagePrice, before.quantity);
    SignatureRoundTrip(now.averagePrice, now.quantity);
  }

  /** How the flag moves from one tick's sync to the next one's. */
  lemma FlagStep(cfg: SwingConfig, t: SwingTick, next: SwingTick, file: SwingState, s: Symbol)
    requires Distinct(t.evaluated)
    ensures FlagOf(Synced(next, SwingTickFile(cfg, t, file)), s) <==>
            && Linked([t, next], 0, s)
            && (FlagOf(Synced(t, file), s) || SignalsFirst(cfg, t, file, s))
  {
    hide BuildExit, SignatureOf, QuantityIn, Sync;
    var st := Evaluate(cfg, t, Synced(t, file), t.evaluated);
    EvaluateFlags(cfg, t, Synced(t, file), t.evaluated, s);
    SyncMeaning(RollSwingDay(file, t.loadDay), t.held, s);
    SyncMeaning(RollSwingDay(RollSwingDay(st, t.saveDay), next.loadDay), next.held, s);
    if s in t.held && s in next.held {
      GrownMeansMore(t.held[s], next.held[s]);
    }
  }

  /** What a sync leaves of one symbol: its flag if it is still held and has not grown, and the
      signature of its present holding. */
  lemma SyncMeaning(st: SwingState, held: map<Symbol, Held>, s: Symbol)
    ensures var synced := Sync(st, held);
            && synced.day == st.day
            && (FlagOf(synced, s) <==> FlagOf(st, s) && s in held && !Grown(st.positionSig, held, s))
            && (s in held ==> s in synced.positionSig && synced.positionSig[s] == SignatureOf(held[s]))
  {
    hide SignatureOf, QuantityIn;
  }

  /** At every tick of any run the flag of a symbol is up exactly when its first take-profit was
      already signalled, on the same day and for the same holding, which since then neither went
      flat nor grew. */
  lemma {:induction false} FlagExact(cfg: SwingConfig, file: SwingState, ticks: seq<SwingTick>, j: nat, s: Symbol)
    requires j < |ticks| && file.tp1Done == map[]
    requires forall k :: 0 <= k < |ticks| ==> Distinct(ticks[k].evaluated)
    ensures FlagAt(cfg, file, ticks, j, s) <==> AlreadyTaken(cfg, file, ticks, j, s)
  {
    hide SignalsFirst, Synced, SwingTickFile;
    if j == 0 {
      NoFlagAtStart(ticks[0], file, s);
    } else {
      FlagExact(cfg, file, ticks, j - 1, s);
      FlagStep(cfg, ticks[j - 1], ticks[j], FileAt(cfg, file, ticks, j - 1), s);
      if FlagAt(cfg, file, ticks, j, s) {
        if FirstAt(cfg, file, ticks, j - 1, s) {
          assert Unbroken(ticks, j - 1, j, s);
        } else {
          var i: nat :| i < j - 1 && FirstAt(cfg, file, ticks, i, s) && Unbroken(ticks, i, j - 1, s);
          assert Unbroken(ticks, i, j, s);
        }
      }
      if AlreadyTaken(cfg, file, ticks, j, s) {
        var i: nat :| i < j && FirstAt(cfg, file, ticks, i, s) && Unbroken(ticks, i, j, s);
        assert Linked(ticks, j - 1, s);
        if i < j - 1 {
          assert Unbroken(ticks, i, j - 1, s);
        }
      }
    }
  }

  lemma NoFlagAtStart(t: SwingTick, file: SwingState, s: Symbol)
    requires file.tp1Done == map[]
    ensures !FlagOf(Synced(t, file), s)
  {
  }

  /** Between two first take-profits of one symbol on one KST day some tick saw the symbol flat, or
      saw its quantity increase. */
  lemma SecondTakeNeedsNewShares(
    cfg: SwingConfig, file: SwingState, ticks: seq<SwingTick>, i: nat, j: nat, today: Day, s: Symbol)
    requires i < j < |ticks| && file.tp1Done == map[]
    requires forall k :: 0 <= k < |ticks| ==> Distinct(ticks[k].evaluated)
    requires forall m :: i <= m <= j ==> ticks[m].loadDay == today && ticks[m].saveDay == today
    ensures FirstAt(cfg, file, ticks, i, s) && FirstAt(cfg, file, ticks, j, s) ==>
              exists m :: i < m <= j
                && (s !in ticks[m].held
                    || (s in ticks[m - 1].held && ticks[m].held[s].quantity > ticks[m - 1].held[s].quantity))
  {
    hide FlagAt, FirstAt;
    if !FirstAt(cfg, file, ticks, i, s) || !FirstAt(cfg, file, ticks, j, s) {
      return;
    }
    FlagExact(cfg, file, ticks, j, s);
    FirstMeans(cfg, file, ticks, i, s);
    FirstMeans(cfg, file, ticks, j, s);
    assert !Unbroken(ticks, i, j, s);
    var m :| i <= m < j && !Linked(ticks, m, s);
    if s !in ticks[m].held {
      assert i < m <= j;
    } else {
      assert i < m + 1 <= j && m + 1 - 1 == m;
    }
  }

  lemma FirstMeans(cfg: SwingConfig, file: SwingState, ticks: seq<SwingTick>, i: nat, s: Symbol)
    requires i < |ticks|
    ensures FirstAt(cfg, file, ticks, i, s) ==> s in ticks[i].held && !FlagAt(cfg, file, ticks, i, s)
  {
    hide Sync, RollSwingDay, FileAt;
  }

  /** An exit never exceeds the holding, and once the first profit is taken every exit is full. */
  lemma ExitSizes(cfg: SwingConfig, v: SwingView, p: Held, tp1Done: bool)
    requires BuildExit(cfg, v, p, tp1Done).Some?
    ensures var e := BuildExit(cfg, v, p, tp1Done).value;
            && 1 <= e.quantity <= p.quantity
            && (tp1Done ==> e.quantity == p.quantity && !e.reason.FirstTakeProfitPartial?)
  {
    hide DynamicStopPct, TrailingMaBroken;
  }
}
