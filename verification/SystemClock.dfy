/**
  The system clock: 1 ms time kept from ticks of TIC_NUME / TIC_DENO ms, without drift.  Times here
  are unbounded; TimeEventHeap shows that the 32-bit variables of the kernel agree with them.
 */
module SystemClock {
  import opened Types

  /** current_time, min_time, next_time, next_subtime; and, as history, the number of ticks supplied
      and the number of those whose processing is complete. */
  datatype Clock = Clock(cur: int, min: int, nxt: int, sub: nat, ticks: nat, ended: nat)

  function InitClock(g: Config): Clock
    requires ValidConfig(g)
  {
    Clock(0, 0, g.ticNume / g.ticDeno, g.ticNume % g.ticDeno, 0, 0)
  }

  /** First half of signal_time: current_time, next_time and next_subtime move, min_time does not. */
  function Advance(g: Config, k: Clock): Clock
    requires ValidConfig(g)
  {
    var s := k.sub + g.ticNume % g.ticDeno;
    var n := k.nxt + g.ticNume / g.ticDeno;
    if s >= g.ticDeno then Clock(k.nxt, k.min, n + 1, s - g.ticDeno, k.ticks + 1, k.ended)
    else Clock(k.nxt, k.min, n, s, k.ticks + 1, k.ended)
  }

  /** base_time: the time of the next tick, rounded up. */
  function Base(k: Clock): int { k.nxt + if k.sub > 0 then 1 else 0 }

  /** x is the system time at the n-th tick: n * TIC_NUME / TIC_DENO rounded down. */
  ghost predicate TimeOfTick(g: Config, n: int, x: int) {
    g.ticDeno * x <= n * g.ticNume < g.ticDeno * (x + 1)
  }

  /** draining: between the two ends of signal_time, when min_time still lags a tick behind. */
  ghost predicate ClockInv(g: Config, k: Clock, draining: bool) {
    && g.ticDeno * k.nxt + k.sub == (k.ticks + 1) * g.ticNume
    && k.sub < g.ticDeno
    && TimeOfTick(g, k.ticks, k.cur)
    && (if draining then k.ticks == k.ended + 1 && TimeOfTick(g, k.ticks - 1, k.min)
        else k.ticks == k.ended && k.min == k.cur)
  }

  lemma DivModSplit(n: nat, d: nat)
    requires d > 0
    ensures n == d * (n / d) + n % d && 0 <= n % d < d && 0 <= n / d
  {
  }

  lemma InitClockInv(g: Config)
    requires ValidConfig(g)
    ensures ClockInv(g, InitClock(g), false)
  {
    DivModSplit(g.ticNume, g.ticDeno);
  }

  /** The tick keeps the exact relation between ticks and time, whatever the fraction. */
  lemma AdvanceInv(g: Config, k: Clock)
    requires ValidConfig(g) && ClockInv(g, k, false)
    ensures ClockInv(g, Advance(g, k), true)
  {
    DivModSplit(g.ticNume, g.ticDeno);
    var d, n, k' := g.ticDeno, g.ticNume, Advance(g, k);
    assert (k.ticks + 2) * n == (k.ticks + 1) * n + n;
    assert d * (k.nxt + n / d) == d * k.nxt + d * (n / d);
    assert d * (k.nxt + n / d + 1) == d * k.nxt + d * (n / d) + d;
    assert d * (k.nxt + 1) == d * k.nxt + d;
  }

  lemma MulLess(d: int, x: int, y: int)
    requires d > 0 && d * x < d * y
    ensures x < y
  {
  }

  lemma TimesApart(g: Config, n: int, x: int, y: int)
    requires ValidConfig(g) && TimeOfTick(g, n, x) && TimeOfTick(g, n + 1, y)
    ensures x <= y <= x + g.ticNume / g.ticDeno + 1
  {
    var d, m := g.ticDeno, g.ticNume;
    DivModSplit(m, d);
    assert (n + 1) * m == n * m + m;
    assert d * (x + m / d + 2) == d * (x + 1) + d * (m / d) + d;
    MulLess(d, y, x + m / d + 2);
    assert d * x < d * (y + 1);
    MulLess(d, x, y + 1);
  }

  /** The order of the clock's times, and how far they are apart: at most two ticks. */
  lemma ClockBounds(g: Config, k: Clock, draining: bool)
    requires ValidConfig(g) && ClockInv(g, k, draining)
    ensures k.min <= k.cur <= k.nxt <= k.min + 2 * (g.ticNume / g.ticDeno + 1)
    ensures k.cur < Base(k) <= k.nxt + 1
    ensures 0 <= k.min
  {
    var d, m := g.ticDeno, g.ticNume;
    assert d * (k.nxt + 1) == d * k.nxt + d;
    assert TimeOfTick(g, k.ticks + 1, k.nxt);
    TimesApart(g, k.ticks, k.cur, k.nxt);
    if draining { TimesApart(g, k.ticks - 1, k.min, k.cur); }
    if k.nxt == k.cur { SubPositive(g, k); }
    TimeNonNegative(g, if draining then k.ticks - 1 else k.ticks, k.min);
  }

  lemma SubPositive(g: Config, k: Clock)
    requires ValidConfig(g) && g.ticDeno * k.nxt + k.sub == (k.ticks + 1) * g.ticNume
    requires TimeOfTick(g, k.ticks, k.cur) && k.nxt == k.cur
    ensures k.sub > 0
  {
    assert (k.ticks + 1) * g.ticNume == k.ticks * g.ticNume + g.ticNume;
  }

  lemma TimeNonNegative(g: Config, n: nat, x: int)
    requires ValidConfig(g) && TimeOfTick(g, n, x)
    ensures 0 <= x
  {
    assert 0 <= n * g.ticNume;
    MulLess(g.ticDeno, 0, x + 1);
  }

  /** base_time is the end of the current tick interval, rounded up to a millisecond. */
  lemma BaseRoundsUp(g: Config, k: Clock, draining: bool)
    requires ValidConfig(g) && ClockInv(g, k, draining)
    ensures g.ticDeno * (Base(k) - 1) < (k.ticks + 1) * g.ticNume <= g.ticDeno * Base(k)
  {
    var d := g.ticDeno;
    assert d * (k.nxt + 1) == d * k.nxt + d;
    assert d * (k.nxt - 1) == d * k.nxt - d;
  }

  /** A request for rel ms, made at true time x (in units of 1/TIC_DENO ms) after tick number tick0
      and before the next one, is registered at time base + rel.  If it fires at tick n, the first
      tick whose time reaches it, then more than rel ms and less than rel ms, two ticks and 1 ms of
      true time have passed. */
  lemma TimeoutBounds(g: Config, tick0: nat, rel: nat, time: int, n: int, cur: int, prev: int, x: real)
    requires ValidConfig(g)
    requires g.ticDeno * (time - rel - 1) < (tick0 + 1) * g.ticNume <= g.ticDeno * (time - rel)
    requires (tick0 * g.ticNume) as real <= x < ((tick0 + 1) * g.ticNume) as real
    requires TimeOfTick(g, n, cur) && TimeOfTick(g, n - 1, prev)
    requires prev < time <= cur
    ensures (rel * g.ticDeno) as real < (n * g.ticNume) as real - x
            < (rel * g.ticDeno + 2 * g.ticNume + g.ticDeno) as real
  {
    var d, m := g.ticDeno, g.ticNume;
    MulOrder(d, time, cur);
    MulOrder(d, prev + 1, time);
    var dt, dr, nm, km := d * time, rel * d, n * m, tick0 * m;
    assert d * (time - rel) == dt - dr;
    assert d * (time - rel - 1) == dt - dr - d;
    assert (n - 1) * m == nm - m;
    assert (tick0 + 1) * m == km + m;
    assert dt <= nm && nm - m < dt && dt - dr - d < km + m <= dt - dr;
    assert (km as real) <= x < (km + m) as real;
  }

  /** A request that has not been reached at tick n has not waited much longer than rel ms either. */
  lemma NotLateBound(g: Config, tick0: nat, rel: nat, time: int, n: int, cur: int, x: real)
    requires ValidConfig(g)
    requires g.ticDeno * (time - rel - 1) < (tick0 + 1) * g.ticNume
    requires (tick0 * g.ticNume) as real <= x
    requires TimeOfTick(g, n, cur) && cur < time
    ensures (n * g.ticNume) as real - x < (rel * g.ticDeno + g.ticNume + g.ticDeno) as real
  {
    var d, m := g.ticDeno, g.ticNume;
    MulOrder(d, cur + 1, time);
    var dt, dr, nm, km := d * time, rel * d, n * m, tick0 * m;
    assert d * (time - rel - 1) == dt - dr - d;
    assert (tick0 + 1) * m == km + m;
    assert nm < dt && dt - dr - d < km + m;
    assert (km as real) <= x;
  }

  lemma MulOrder(d: nat, x: int, y: int)
    requires x <= y
    ensures d * x <= d * y
  {
  }
}
