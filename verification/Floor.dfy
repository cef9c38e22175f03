/** The floor function that periodics use, and when a periodic is due next. */
module Floor {
  import opened Watchers

  const ULONG_SHIFT := 0x1_0000_0000_0000_0000
  const MIN_INTERVAL := 0.0001220703125   // 2**-13

  /**
   The replacement for floor, with exact numbers: splits off multiples of shift, which is one more
   than the largest unsigned long, then truncates.
   */
  function EvFloor(v: real, shift: nat): (f: real)
    requires shift >= 2
    ensures f == v.Floor as real
    decreases v < 0.0, if v < 0.0 then 0 else v.Floor
  {
    if v >= shift as real then
      SplitLarge(v, shift);
      var f := Multiple(EvFloor(Quotient(v, shift), shift), shift);
      f + EvFloor(v - f, shift)
    else if v < 0.0 then
      NegativeFloor(v);
      var f := -EvFloor(-v, shift);
      f - if f == v then 0.0 else 1.0
    else
      v.Floor as real
  }

  function Quotient(v: real, shift: nat): (q: real)
    requires shift >= 2
    ensures v == shift as real * q
  {
    v * (1.0 / shift as real)
  }

  function Multiple(k: real, shift: nat): real {
    shift as real * k
  }

  /** What the function does with a large number. */
  lemma SplitLarge(v: real, shift: nat)
    requires v >= shift as real && shift >= 2
    ensures
      var q := Quotient(v, shift);
      var f := Multiple(q.Floor as real, shift);
      && 1 <= q.Floor < v.Floor && 0.0 <= v - f && 0 <= (v - f).Floor < v.Floor
      && f + (v - f).Floor as real == v.Floor as real
  {
    var q := Quotient(v, shift);
    Smaller(v, q, shift as real);
    RestIsSmaller(v, q, shift as real, shift, q.Floor as real, Multiple(q.Floor as real, shift));
  }

  /** What is left of v when f, the whole multiples of shift, are split off it. */
  lemma RestIsSmaller(v: real, q: real, s: real, shift: nat, k: real, f: real)
    requires v == s * q && v >= s == shift as real && shift >= 2
    requires k == q.Floor as real && q.Floor >= 1 && f == s * k
    ensures 0.0 <= v - f && 0 <= (v - f).Floor < v.Floor && f + (v - f).Floor as real == v.Floor as real
  {
    WholeSteps(v, q, s, k, f);
    Product(s, shift, q.Floor);
    SplitFloor(v, f, shift * q.Floor);
  }

  /** Splitting a whole number off v leaves the rest of its floor. */
  lemma SplitFloor(v: real, f: real, m: int)
    requires f == m as real
    ensures (v - f).Floor == v.Floor - m && f + (v.Floor - m) as real == v.Floor as real
  {
    var r := v.Floor - m;
    assert r as real == v.Floor as real - f;
  }

  lemma Less(s: real, a: real, b: real)
    requires s > 0.0 && a < b
    ensures s * a < s * b
  {
    assert s * (b - a) > 0.0;
  }

  lemma Next(s: real, k: real)
    ensures s * (k + 1.0) == s * k + s
  {
  }

  /** Products are ordered like their factors: v, f and g are q, k and k1, scaled. */
  lemma Between(v: real, q: real, s: real, k: real, f: real, k1: real, g: real)
    requires v == s * q && f == s * k && g == s * k1 && s > 0.0 && k <= q < k1
    ensures f <= v < g
  {
    if k < q { Less(s, k, q); }
    Less(s, q, k1);
  }

  /** f, a whole number k of steps s, is the last one that is not above v. */
  lemma WholeSteps(v: real, q: real, s: real, k: real, f: real)
    requires v == s * q && f == s * k && s > 0.0 && k <= q < k + 1.0
    ensures f <= v < f + s
  {
    Next(s, k);
    Between(v, q, s, k, f, k + 1.0, f + s);
  }

  lemma Smaller(v: real, q: real, shift: real)
    requires v == shift * q && v >= shift >= 2.0
    ensures 1 <= q.Floor < v.Floor
  {
    ScaledOrder(shift, 1.0, q);
    if shift > 2.0 { ScaledOrder(q, 2.0, shift); }
    assert v >= q + q;
  }

  lemma NegativeFloor(v: real)
    ensures v.Floor == -(-v).Floor - if (-v).Floor as real == -v then 0 else 1
  {
  }

  lemma Product(shift: real, n: nat, k: int)
    requires shift == n as real
    ensures (n * k) as real == shift * k as real
    ensures n > 0 && k > 0 ==> n * k > 0
  {
  }

  lemma ScaledOrder(s: real, a: real, b: real)
    requires s > 0.0
    ensures a < b <==> s * a < s * b
    ensures a <= b <==> s * a <= s * b
  {
    if a < b { Less(s, a, b); }
    if b < a { Less(s, b, a); }
  }

  /** x is offset plus a whole number of intervals. */
  ghost predicate OnGrid(x: real, offset: real, interval: real) {
    exists k: int :: x == GridPoint(offset, interval, k)
  }

  function GridPoint(offset: real, interval: real, k: int): real {
    offset + k as real * interval
  }

  /** Where periodic_recalc starts to search: on a grid that is never finer than MIN_INTERVAL. */
  ghost function Base(offset: real, interval: real, now: real): real {
    offset + Larger(interval, MIN_INTERVAL) * ((now - offset) / Larger(interval, MIN_INTERVAL)).Floor as real
  }

  lemma BaseIsPast(offset: real, interval: real, now: real)
    ensures Base(offset, interval, now) <= now < Base(offset, interval, now) + Larger(interval, MIN_INTERVAL)
  {
    var i := Larger(interval, MIN_INTERVAL);
    var q := (now - offset) / i;
    var k := q.Floor as real;
    WholeSteps(now - offset, q, i, k, i * k);
  }

  /** The time that periodic_recalc gives a periodic: within one interval after now. */
  ghost predicate IsNext(at: real, offset: real, interval: real, now: real) {
    && now < at <= now + interval
    && (OnGrid(at, offset, interval) <==> OnGrid(Base(offset, interval, now), offset, interval))
  }

  /** periodic_recalc */
  method Recalc(offset: real, interval: real, now: real) returns (at: real)
    requires interval > 0.0
    ensures IsNext(at, offset, interval, now)
  {
    var i := if interval > MIN_INTERVAL then interval else MIN_INTERVAL;
    var steps := EvFloor((now - offset) / i, ULONG_SHIFT);
    at := offset + i * steps;
    assert at == Base(offset, interval, now) by { assert i == Larger(interval, MIN_INTERVAL); }
    BaseIsPast(offset, interval, now);
    at := SearchUp(at, interval, now, offset);
  }

  /** The loop of periodic_recalc. */
  method SearchUp(base: real, interval: real, now: real, ghost offset: real) returns (at: real)
    requires interval > 0.0 && base <= now
    ensures now < at <= now + interval
    ensures OnGrid(at, offset, interval) <==> OnGrid(base, offset, interval)
  {
    at := base;
    ghost var n, bound := 0, ((now - base) / interval).Floor + 1;
    while at <= now
      invariant at == GridPoint(base, interval, n) && at <= now + interval
      decreases bound - n
    {
      NotBeyond(base, interval, now, n);
      var next := at + interval;
      if next == at {
        at := now;
        break;
      }
      at := next;
      n := n + 1;
    }
    SameGrid(base, n, offset, interval);
  }

  lemma NotBeyond(base: real, interval: real, now: real, n: nat)
    requires interval > 0.0 && GridPoint(base, interval, n) <= now
    ensures n < ((now - base) / interval).Floor + 1
    ensures GridPoint(base, interval, n) + interval == GridPoint(base, interval, n + 1)
  {
    var q := (now - base) / interval;
    assert q * interval == now - base;
    ScaledOrder(interval, n as real, q);
  }

  lemma SameGrid(base: real, n: int, offset: real, interval: real)
    ensures OnGrid(GridPoint(base, interval, n), offset, interval) <==> OnGrid(base, offset, interval)
  {
    var at := GridPoint(base, interval, n);
    if OnGrid(at, offset, interval) {
      var k: int :| at == GridPoint(offset, interval, k);
      assert base == GridPoint(offset, interval, k - n);
    }
    if OnGrid(base, offset, interval) {
      var k: int :| base == GridPoint(offset, interval, k);
      assert at == GridPoint(offset, interval, k + n);
    }
  }

  /** A time on the grid and at most one interval after now is the first one on the grid after now. */
  lemma NextOnGrid(at: real, offset: real, interval: real, now: real, k: int)
    requires interval > 0.0 && now < at <= now + interval && OnGrid(at, offset, interval)
    requires GridPoint(offset, interval, k) > now
    ensures at <= GridPoint(offset, interval, k)
  {
    var m: int :| at == GridPoint(offset, interval, m);
    if k < m {
      assert k as real <= m as real - 1.0;
      if k as real < m as real - 1.0 { ScaledOrder(interval, k as real, m as real - 1.0); }
      assert interval * (m as real - 1.0) == interval * m as real - interval;
    } else {
      ScaledOrder(interval, m as real, k as real);
    }
  }

  /**
   What the documentation promises of periodics with an interval, that they are due at the next
   time offset + N * interval, holds if and only if the search starts on that grid; so it does for
   every interval that is not below MIN_INTERVAL.
   */
  lemma DueOnGrid(at: real, offset: real, interval: real, now: real)
    requires interval > 0.0 && IsNext(at, offset, interval, now)
    ensures (OnGrid(at, offset, interval) && forall k: int :: GridPoint(offset, interval, k) > now ==>
               at <= GridPoint(offset, interval, k))
            <==> OnGrid(Base(offset, interval, now), offset, interval)
    ensures interval >= MIN_INTERVAL ==> OnGrid(Base(offset, interval, now), offset, interval)
  {
    if OnGrid(at, offset, interval) {
      forall k: int | GridPoint(offset, interval, k) > now
        ensures at <= GridPoint(offset, interval, k)
      {
        NextOnGrid(at, offset, interval, now, k);
      }
    }
    if interval >= MIN_INTERVAL {
      assert Base(offset, interval, now) == GridPoint(offset, interval, ((now - offset) / interval).Floor);
    }
  }

  /** With an interval of 0.0001 a periodic can become due between the times it should be due at. */
  lemma FineIntervalMissesGrid(at: real)
    requires IsNext(at, 0.0, 0.0001, 0.00013)
    ensures !OnGrid(at, 0.0, 0.0001)
  {
    var base := Base(0.0, 0.0001, 0.00013);
    assert (0.00013 / MIN_INTERVAL).Floor == 1;
    assert base == MIN_INTERVAL;
    forall k: int ensures base != GridPoint(0.0, 0.0001, k) {
      assert k as real * 0.0001 <= 0.0001 || k as real * 0.0001 >= 0.0002;
    }
  }
}
