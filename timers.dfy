/** The two one-second interval rules the challenge components share: the
    pre-recording countdown (3, 2, 1, then start) and the game/recording timer
    (counts down to zero, then the game or recording ends). Each callback run is
    one step; a cleared interval takes no further steps. */
module Timers {
  import opened Common

  /** One tick of a countdown interval: the next countdown value, and whether
      this tick clears the interval and starts the game/recording. A missing
      value or a value of at most one fires; anything else decrements. */
  datatype CountdownStep = CountdownStep(next: Option<int>, fire: bool)

  function CountdownTick(prev: Option<int>): (s: CountdownStep)
    ensures s.fire <==> s.next.None?
    ensures s.fire <==> (prev.None? || prev.value <= 1)
    ensures !s.fire ==> s.next.value == prev.value - 1 >= 1
  {
    if prev.None? || prev.value <= 1 then CountdownStep(None, true)
    else CountdownStep(Some(prev.value - 1), false)
  }

  /** The countdown after `k` ticks of an interval that is cleared when it fires. */
  function CountdownAfter(start: Option<int>, k: nat): Option<int>
  {
    if k == 0 then start
    else
      var prev := CountdownAfter(start, k - 1);
      if prev.None? then None else CountdownTick(prev).next
  }

  /** A countdown started at `n` shows n, n-1, ..., 1 and fires on exactly its
      `n`-th tick: never earlier, and (the interval being cleared) never again. */
  lemma {:induction false} CountdownFiresOnTick(n: int, k: nat)
    requires n >= 1 && k < n
    ensures CountdownAfter(Some(n), k) == Some(n - k)
    ensures CountdownTick(CountdownAfter(Some(n), k)).fire <==> k == n - 1
  {
    if k > 0 {
      CountdownFiresOnTick(n, k - 1);
    }
  }

  /** One tick of the game timer: `newTime = prev - 1`, clamped at zero; the
      tick that reaches zero clears the interval and ends the game. The three
      source formulations (`newTime <= 0 ? 0`, `prev <= 1 ? 0`) agree. */
  datatype TimerStep = TimerStep(next: int, expired: bool)

  function TimerTick(prev: int): (s: TimerStep)
    ensures s.next >= 0
    ensures s.expired <==> s.next == 0
    ensures s.expired <==> prev <= 1
    ensures !s.expired ==> s.next == prev - 1
  {
    var newTime := prev - 1;
    if newTime <= 0 then TimerStep(0, true) else TimerStep(newTime, false)
  }

  /** The remaining time after `k` ticks of a timer cleared once it expires. */
  function TimeAfter(start: int, k: nat): int
  {
    if k == 0 then start
    else
      var prev := TimeAfter(start, k - 1);
      if prev <= 0 then prev else TimerTick(prev).next
  }

  /** A timer started at `t` seconds shows t, t-1, ..., 1 and expires on
      exactly its `t`-th tick, after which it stays at zero. */
  lemma {:induction false} TimerExpiresOnTick(t: int, k: nat)
    requires t >= 1 && k < t
    ensures TimeAfter(t, k) == t - k
    ensures TimerTick(TimeAfter(t, k)).expired <==> k == t - 1
  {
    if k > 0 {
      TimerExpiresOnTick(t, k - 1);
    }
  }

  lemma {:induction false} TimerStaysExpired(t: int, k: nat)
    requires t >= 1 && k >= t
    ensures TimeAfter(t, k) == 0
  {
    if k == t {
      TimerExpiresOnTick(t, t - 1);
    } else {
      TimerStaysExpired(t, k - 1);
    }
  }
}
