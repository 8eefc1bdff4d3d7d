/** Shared vocabulary: optional values, number helpers and sums over maps. */
module Common {
  type Symbol = string

  /** A calendar day in KST, as an ordinal; the program's YYYYMMDD strings order the same way. */
  type Day = int

  /** A point in UTC time, or a length of time, in microseconds. */
  type Instant = int

  const MINUTE: Instant := 60_000_000

  datatype Option<+T> = None | Some(value: T)

  function MaxReal(a: real, b: real): real {
    if a >= b then a else b
  }

  function MinReal(a: real, b: real): real {
    if a <= b then a else b
  }

  function MaxInt(a: int, b: int): int {
    if a >= b then a else b
  }

  function MinInt(a: int, b: int): int {
    if a <= b then a else b
  }

  function AbsReal(a: real): (r: real)
    ensures r >= 0.0 && (r == a || r == -a)
  {
    if a < 0.0 then -a else a
  }

  function Clamp(v: real, lo: real, hi: real): real {
    MinReal(hi, MaxReal(lo, v))
  }

  /** Rounding to the nearest integer, ties to even. */
  function RoundHalfEven(x: real): (n: int)
    ensures n as real - 0.5 <= x <= n as real + 0.5
    ensures x == n as real - 0.5 || x == n as real + 0.5 ==> n % 2 == 0
  {
    var low := x.Floor;
    var rest := x - low as real;
    if rest < 0.5 then low
    else if rest > 0.5 then low + 1
    else if low % 2 == 0 then low else low + 1
  }

  /** A percentage over a base, as a price. */
  lemma GainAsPrice(now: real, base: real, pct: real)
    requires base > 0.0
    ensures (now / base - 1.0) * 100.0 <= pct <==> now <= base * (1.0 + pct / 100.0)
    ensures (now / base - 1.0) * 100.0 < pct <==> now < base * (1.0 + pct / 100.0)
  {
    var ratio, bound := now / base, 1.0 + pct / 100.0;
    assert ratio * base == now;
    assert (ratio - 1.0) * 100.0 <= pct <==> ratio <= bound;
    assert (ratio - 1.0) * 100.0 < pct <==> ratio < bound;
    ProductOrder(ratio, bound, base);
  }

  lemma ProductOrder(x: real, y: real, base: real)
    requires base > 0.0
    ensures x <= y <==> x * base <= y * base
    ensures x < y <==> x * base < y * base
  {
    if x < y {
      assert (y - x) * base > 0.0;
    } else {
      assert (x - y) * base >= 0.0;
    }
  }

  ghost predicate Distinct<T(!new)>(s: seq<T>) {
    forall i, j :: 0 <= i < j < |s| ==> s[i] != s[j]
  }

  /** The total of the values of a finite map. */
  ghost function Sum(m: map<Symbol, real>): real {
    if m == map[] then 0.0
    else var k :| k in m; m[k] + Sum(m - {k})
  }

  /** The total does not depend on the order in which entries are taken. */
  lemma {:induction false} SumRemove(m: map<Symbol, real>, k: Symbol)
    requires k in m
    ensures Sum(m) == m[k] + Sum(m - {k})
    decreases |m|
  {
    var first :| first in m && Sum(m) == m[first] + Sum(m - {first});
    if first != k {
      SumRemove(m - {first}, k);
      SumRemove(m - {k}, first);
      assert m - {first} - {k} == m - {k} - {first};
    }
  }

  /** Writing one entry changes the total by the difference of that entry alone. */
  lemma SumUpdate(m: map<Symbol, real>, k: Symbol, v: real)
    ensures Sum(m[k := v]) == Sum(m) + v - (if k in m then m[k] else 0.0)
  {
    SumRemove(m[k := v], k);
    assert m[k := v] - {k} == m - {k};
    if k in m {
      SumRemove(m, k);
    } else {
      assert m - {k} == m;
    }
  }
}
