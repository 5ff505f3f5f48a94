// The ten-minute clock: what any number of clock interrupts does to the time of day
// and to the main-loop wake-up.

module Clock {
  import opened Bytes
  import opened Radios

  const PARKED := 255 * 60000

  // Time of day in 10 ms units.
  function DayTime(r: Radio): nat
  {
    r.tens * TEN_MINUTES + r.ms
  }

  function Ticks(r: Radio, n: nat): Radio
  {
    if n == 0 then r else Tick(Ticks(r, n - 1))
  }

  predicate InRange(r: Radio) { r.ms < TEN_MINUTES }

  // From a tick count below 60000 the 16-bit addition cannot wrap, and the bound is kept.
  lemma TickStaysInRange(r: Radio)
    requires InRange(r)
    ensures InRange(Tick(r)) && ToWord(r.ms + r.period) == r.ms + r.period
    ensures Tick(r).period == r.period
  {
  }

  predicate ParkedAtZero(r: Radio) { r.tens == UNKNOWN_TIME ==> r.ms == 0 }

  lemma TickAdvances(r: Radio)
    requires InRange(r) && r.period == 1 && ParkedAtZero(r)
    ensures var t := Tick(r);
            && InRange(t) && t.period == 1 && ParkedAtZero(t)
            && DayTime(t) == if DayTime(r) < PARKED then DayTime(r) + 1 else PARKED
  {
    assert Tick(r).tens == TickTime(r).tens && Tick(r).ms == TickTime(r).ms;
  }

  /** At one unit per interrupt the time of day advances by exactly one per tick until
      it parks at 255 tens of minutes, where it stays. */
  lemma {:induction false} TimeAdvancesExactly(r: Radio, n: nat)
    requires InRange(r) && r.period == 1 && ParkedAtZero(r)
    ensures var t := Ticks(r, n);
            && InRange(t) && t.period == 1 && ParkedAtZero(t)
            && DayTime(t) == if DayTime(r) + n < PARKED then DayTime(r) + n else PARKED
  {
    if n > 0 {
      hide Tick;
      TimeAdvancesExactly(r, n - 1);
      TickAdvances(Ticks(r, n - 1));
    }
  }

  // One tick: all of the period is counted, less at most p - 1 units at a rollover.
  lemma TickDrift(r: Radio)
    requires InRange(r) && r.period > 0 && r.tens != UNKNOWN_TIME
    ensures var t := Tick(r);
            && InRange(t) && t.period == r.period
            && (if t.tens == r.tens then DayTime(t) == DayTime(r) + r.period
                else t.tens == r.tens + 1 && DayTime(r) + 1 <= DayTime(t) <= DayTime(r) + r.period)
  {
  }

  /** At p units per interrupt each ten-minute rollover loses at most p - 1 units, and
      nothing else is lost or gained. */
  lemma {:induction false} DriftBound(r: Radio, n: nat, p: int)
    requires InRange(r) && p == r.period && p > 0 && Ticks(r, n).tens != UNKNOWN_TIME
    ensures var t := Ticks(r, n);
            var rollovers := t.tens - r.tens;
            && InRange(t) && t.period == p && rollovers >= 0
            && DayTime(r) + n * p - rollovers * (p - 1) <= DayTime(t) <= DayTime(r) + n * p
  {
    if n > 0 {
      var u := Ticks(r, n - 1);
      if u.tens == UNKNOWN_TIME {
        assert false;
      }
      DriftBound(r, n - 1, p);
      TickDrift(u);
      assert Ticks(r, n) == Tick(u);
      hide Ticks, Tick, DayTime;
      assert n * p == (n - 1) * p + p;
      assert (u.tens + 1 - r.tens) * (p - 1) == (u.tens - r.tens) * (p - 1) + (p - 1);
    }
  }

  // A parked clock stays parked, ticks and all.
  lemma {:induction false} ParkedStays(r: Radio, n: nat)
    requires r.tens == UNKNOWN_TIME
    ensures Ticks(r, n).tens == UNKNOWN_TIME && Ticks(r, n).ms == r.ms
  {
    if n > 0 {
      ParkedStays(r, n - 1);
    }
  }

  lemma TickCounts(r: Radio)
    requires 0 < r.mainTicks
    ensures var t := Tick(r);
            && t.tickCount == r.tickCount
            && t.threadOk == (r.threadOk || r.mainTicks == 1)
            && t.mainTicks == if r.mainTicks == 1 then r.tickCount else r.mainTicks - 1
  {
    hide ToWord, ToByte;
  }

  /** The main loop is woken by exactly the m-th tick when m are pending, and the
      countdown then restarts from the configured delay. */
  lemma {:induction false} WakesOnTime(r: Radio, n: nat)
    requires 0 < r.mainTicks && n <= r.mainTicks
    ensures var t := Ticks(r, n);
            && t.tickCount == r.tickCount
            && t.threadOk == (r.threadOk || n == r.mainTicks)
            && t.mainTicks == if n == r.mainTicks then r.tickCount else r.mainTicks - n
  {
    if n > 0 {
      hide Tick;
      WakesOnTime(r, n - 1);
      TickCounts(Ticks(r, n - 1));
    }
  }
}
