/**
 * The bounded "start, pump callbacks, test the done flag, sleep, stop at the deadline" loop
 * that every asynchronous command handler repeats. Time is a tick counter (one tick is one
 * millisecond of the source's `Instant`); the vendor callback is an oracle that fires at a
 * given tick, carrying its payload, or never.
 */
module Polling {

  /** When, if ever, the operation's callback runs, and what it hands over. */
  datatype Callback<T> = Never | FiresAt(tick: nat, payload: T)

  /** The first pump at or after tick `t`: pumps happen at 0, interval, 2*interval, ... */
  function PumpTick(t: nat, interval: nat): nat
    requires interval > 0
  {
    ((t + interval - 1) / interval) * interval
  }

  /** The loop sees the callback: it has fired by some pump that runs before the deadline. */
  predicate Completes<T>(cb: Callback<T>, deadline: nat, interval: nat)
    requires interval > 0
  {
    cb.FiresAt? && PumpTick(cb.tick, interval) < deadline
  }

  lemma MulLe(a: int, b: int, c: nat)
    requires a <= b
    ensures a * c <= b * c
  {
    var d := b - a;
    assert b * c == a * c + d * c;
  }

  lemma DivBetween(x: nat, d: nat, k: nat)
    requires d > 0 && k * d <= x < k * d + d
    ensures x / d == k
  {
    var q := x / d;
    assert x == q * d + x % d;
    if q < k {
      MulLe(q + 1, k, d);
      assert false;
    } else if q > k {
      MulLe(k + 1, q, d);
      assert false;
    }
  }

  /** The only multiple of the interval in [t, t + interval) is the pump tick of t. */
  lemma MultipleInWindow(t: nat, d: nat, k: nat)
    requires d > 0 && t <= k * d < t + d
    ensures PumpTick(t, d) == k * d
  {
    DivBetween(t + d - 1, d, k);
  }

  /** A later multiple of the interval is at least one interval later. */
  lemma NextMultiple(a: nat, b: nat, d: nat)
    requires d > 0 && a * d > b * d
    ensures a * d >= b * d + d
  {
    if a <= b {
      MulLe(a, b, d);
    } else {
      MulLe(b + 1, a, d);
    }
  }

  /** The pump tick of t is the first multiple of the interval that is not before t. */
  lemma PumpTickBounds(t: nat, d: nat)
    requires d > 0
    ensures t <= PumpTick(t, d) < t + d
    ensures PumpTick(t, d) == ((t + d - 1) / d) * d
  {
    var q := (t + d - 1) / d;
    assert t + d - 1 == q * d + (t + d - 1) % d;
  }

  /**
   * The polling loop: `while elapsed < deadline { run_callbacks(); if done { break } sleep(interval) }`.
   * It reports whether the done flag was seen and how many ticks had passed when the loop ended.
   */
  method PumpUntilDone<T>(cb: Callback<T>, deadline: nat, interval: nat) returns (done: bool, elapsed: nat)
    requires interval > 0
    ensures done <==> Completes(cb, deadline, interval)
    ensures done ==> elapsed == PumpTick(cb.tick, interval) && elapsed < deadline
    ensures !done ==> elapsed == PumpTick(deadline, interval)
  {
    elapsed, done := 0, false;
    ghost var k: nat := 0;
    while elapsed < deadline
      invariant elapsed == k * interval
      invariant k > 0 ==> elapsed - interval < deadline
      invariant cb.FiresAt? ==> elapsed <= PumpTick(cb.tick, interval)
      invariant cb.FiresAt? && k > 0 ==> elapsed - interval < cb.tick
      decreases deadline - elapsed
    {
      if cb.FiresAt? && cb.tick <= elapsed {
        PumpTickBounds(cb.tick, interval);
        MultipleInWindow(cb.tick, interval, k);
        done := true;
        break;
      }
      if cb.FiresAt? {
        PumpTickBounds(cb.tick, interval);
        NextMultiple((cb.tick + interval - 1) / interval, k, interval);
      }
      elapsed, k := elapsed + interval, k + 1;
    }
    if !done {
      PumpTickBounds(deadline, interval);
      MultipleInWindow(deadline, interval, k);
    }
  }

  /** A flag that a callback on another thread sets: it is up at every read from its tick on. */
  predicate FiredBy<T>(cb: Callback<T>, t: nat)
  {
    cb.FiresAt? && cb.tick <= t
  }

  /**
   * The wait when callbacks run on a background thread:
   * `while elapsed < deadline { if done { break } sleep(interval) }`, then one more read of the
   * flag. The flag counts if it was up by the read after the last sleep.
   */
  method WaitForFlag<T>(cb: Callback<T>, deadline: nat, interval: nat) returns (done: bool)
    requires interval > 0
    ensures done <==> FiredBy(cb, PumpTick(deadline, interval))
  {
    PumpTickBounds(deadline, interval);
    var elapsed: nat := 0;
    ghost var k: nat := 0;
    while elapsed < deadline
      invariant elapsed == k * interval
      invariant k > 0 ==> elapsed - interval < deadline
      decreases deadline - elapsed
    {
      if FiredBy(cb, elapsed) {
        return true;
      }
      elapsed, k := elapsed + interval, k + 1;
    }
    MultipleInWindow(deadline, interval, k);
    done := FiredBy(cb, elapsed);
  }

  /**
   * Timeout bound: a loop that gives up does so no sooner than the deadline and no later
   * than one interval after it.
   */
  lemma TimeoutWithinOneInterval(deadline: nat, interval: nat)
    requires interval > 0
    ensures deadline <= PumpTick(deadline, interval) < deadline + interval
  {
    PumpTickBounds(deadline, interval);
  }

  /** A callback that fires at or after the deadline is discarded: the loop reports a timeout. */
  lemma {:induction false} LateCallbackIgnored<T>(tick: nat, payload: T, deadline: nat, interval: nat)
    requires interval > 0 && tick >= deadline
    ensures !Completes(FiresAt(tick, payload), deadline, interval)
  {
    PumpTickBounds(tick, interval);
  }

  /** A callback that has fired by the start of the loop is seen at once. */
  lemma EarlyCallbackSeen<T>(payload: T, deadline: nat, interval: nat)
    requires interval > 0 && deadline > 0
    ensures Completes(FiresAt(0, payload), deadline, interval)
  {
    assert PumpTick(0, interval) == 0 by {
      MultipleInWindow(0, interval, 0);
    }
  }
}
