// The seconds counter of the clock interrupt (lib/clock.c): which interrupts raise the
// once-a-second flag.

module Seconds {
  import opened Bytes

  // The counter after one interrupt, and whether that interrupt raises the flag.
  function Counted(count: word, period: byte): word
  {
    var sum := ToWord(count + period);
    if sum >= 100 then sum - 100 else sum
  }

  predicate Raises(count: word, period: byte) { ToWord(count + period) >= 100 }

  function CountAfter(count: word, period: byte, n: nat): word
  {
    if n == 0 then count else Counted(CountAfter(count, period, n - 1), period)
  }

  // How many of n interrupts raise the flag.
  function Raised(count: word, period: byte, n: nat): nat
  {
    if n == 0 then 0
    else Raised(count, period, n - 1) + if Raises(CountAfter(count, period, n - 1), period) then 1 else 0
  }

  /** Up to one second per interrupt no time is lost: the flag goes up once for every
      100 units counted, and what is left over stays in the counter. */
  lemma {:induction false} SecondsAreExact(count: word, period: byte, n: nat)
    requires count < 100 && period <= 100
    ensures CountAfter(count, period, n) < 100
    ensures 100 * Raised(count, period, n) + CountAfter(count, period, n) == count + n * period
  {
    if n > 0 {
      SecondsAreExact(count, period, n - 1);
      assert n * period == (n - 1) * period + period;
    }
  }

  /** Above that every interrupt raises the flag, but only once: seconds are lost to the
      counter, until it overflows. */
  lemma {:induction false} LongPeriodsFallBehind(count: word, period: byte, n: nat)
    requires period > 100 && count + n * (period - 100) + 100 < 0x1_0000
    ensures Raised(count, period, n) == n && CountAfter(count, period, n) == count + n * (period - 100)
  {
    if n > 0 {
      assert n * (period - 100) == (n - 1) * (period - 100) + (period - 100);
      LongPeriodsFallBehind(count, period, n - 1);
    }
  }

  class SecondCounter {
    var timerCount: word
    var elapsedSecond: bool

    method CountTick(period: byte)
      modifies this
      ensures timerCount == Counted(old(timerCount), period)
      ensures elapsedSecond == (old(elapsedSecond) || Raises(old(timerCount), period))
    {
      timerCount := ToWord(timerCount + period);
      if timerCount >= 100 {
        timerCount := timerCount - 100;
        elapsedSecond := true;
      }
    }

    // Reads the flag and takes it down.
    method ElapsedSecond() returns (elapsed: bool)
      modifies `elapsedSecond
      ensures elapsed == old(elapsedSecond) && !elapsedSecond
    {
      elapsed := elapsedSecond;
      elapsedSecond := false;
    }
  }
}
