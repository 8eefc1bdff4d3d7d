/** The drawdown of a list of realized profits (app/strategy/strategy_fill_performance.py). */
module FillPerformance {
  import opened Common

  /** Cumulative profit after the first `k` trades. */
  function Cumulative(pnls: seq<real>, k: nat): real
    requires k <= |pnls|
  {
    if k == 0 then 0.0 else Cumulative(pnls, k - 1) + pnls[k - 1]
  }

  /** The profit made between two points of the equity curve. */
  function Leg(pnls: seq<real>, i: nat, j: nat): real
    requires i <= j <= |pnls|
  {
    Cumulative(pnls, j) - Cumulative(pnls, i)
  }

  /** The worst leg over all pairs of points, the later one not before the earlier. */
  ghost predicate IsMaxDrawdown(pnls: seq<real>, dd: real) {
    && (forall i: nat, j: nat :: i <= j <= |pnls| ==> dd <= Leg(pnls, i, j))
    && (exists i: nat, j: nat :: i <= j <= |pnls| && dd == Leg(pnls, i, j))
  }

  /** `_max_dd_proxy` before its final rounding: one pass over equity, peak and worst drop. */
  method MaxDrawdownProxy(pnls: seq<real>) returns (dd: Option<real>)
    ensures dd.None? <==> pnls == []
    ensures dd.Some? ==> IsMaxDrawdown(pnls, dd.value)
  {
    if pnls == [] {
      return None;
    }
    var equity, peak, worst := 0.0, 0.0, 0.0;
    ghost var top: nat, from: nat, to: nat := 0, 0, 0;
    for k := 0 to |pnls|
      invariant equity == Cumulative(pnls, k)
      invariant top <= k && peak == Cumulative(pnls, top)
      invariant forall i: nat :: i <= k ==> Cumulative(pnls, i) <= peak
      invariant from <= to <= k && worst == Leg(pnls, from, to)
      invariant forall i: nat, j: nat :: i <= j <= k ==> worst <= Leg(pnls, i, j)
    {
      equity := equity + pnls[k];
      if equity > peak {
        peak, top := equity, k + 1;
      }
      if equity - peak < worst {
        worst, from, to := equity - peak, top, k + 1;
      }
    }
    dd := Some(worst);
  }

  /** The definition fixes one number, and it is never positive. */
  lemma MaxDrawdownUnique(pnls: seq<real>, a: real, b: real)
    requires IsMaxDrawdown(pnls, a) && IsMaxDrawdown(pnls, b)
    ensures a == b <= 0.0
  {
    assert Leg(pnls, 0, 0) == 0.0;
  }
}
