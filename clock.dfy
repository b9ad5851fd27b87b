/** The clock widget (skadi/plugins/components/clock.tsx): every tick shows
    the current time and arms one timer for the next whole second. Time is
    an explicit clock in milliseconds since the epoch. */
module ClockWidget {
  import opened Wrappers

  const SECOND_MS: int := 1000

  /** JavaScript's integer quotient `Math.trunc(a / b)` for `b > 0`: the
      exact quotient rounded toward zero. */
  function TruncDiv(a: int, b: int): int
    requires b > 0
  {
    if a >= 0 then a / b else -((-a) / b)
  }

  /** JavaScript's `a % b` for `b > 0`: what is left of `a` once the
      truncated quotient's multiple of `b` is taken away, so it has the sign
      of `a` and is smaller than `b` in magnitude. */
  function JsRem(a: int, b: int): (r: int)
    requires b > 0
    ensures a == TruncDiv(a, b) * b + r
    ensures a >= 0 ==> 0 <= r < b
    ensures a < 0 ==> -b < r <= 0
  {
    if a >= 0 then a % b
    else
      var m := -a;
      assert m == (m / b) * b + m % b;
      -(m % b)
  }

  /** `msUntilNextSecond`. The timer is always due at a whole second, a
      full second away when `now` is one already. From a non-negative time
      it is the next whole second; before the epoch a time that is not a
      whole second overshoots the next one. */
  function Delay(now: int): (d: int)
    ensures (now + d) % SECOND_MS == 0
    ensures now >= 0 ==> 1 <= d <= SECOND_MS && now + d == (now / SECOND_MS + 1) * SECOND_MS
    ensures now % SECOND_MS == 0 ==> d == SECOND_MS
    ensures now < 0 && now % SECOND_MS != 0 ==> SECOND_MS < d < 2 * SECOND_MS
  {
    DelayArithmetic(now);
    SECOND_MS - JsRem(now, SECOND_MS)
  }

  /** The arithmetic behind `Delay`, on Euclidean quotient and remainder. */
  lemma DelayArithmetic(now: int)
    ensures var d := SECOND_MS - JsRem(now, SECOND_MS);
      (now + d) % SECOND_MS == 0 &&
      (now >= 0 ==> 1 <= d <= SECOND_MS && now + d == (now / SECOND_MS + 1) * SECOND_MS) &&
      (now % SECOND_MS == 0 ==> d == SECOND_MS) &&
      (now < 0 && now % SECOND_MS != 0 ==> SECOND_MS < d < 2 * SECOND_MS)
  {
    var d := SECOND_MS - JsRem(now, SECOND_MS);
    if now >= 0 {
      var q, r := now / 1000, now % 1000;
      assert now == q * 1000 + r && 0 <= r < 1000;
      assert d == 1000 - r;
      assert now + d == (q + 1) * 1000;
    } else {
      var m := -now;
      var q, r := m / 1000, m % 1000;
      assert m == q * 1000 + r && 0 <= r < 1000;
      assert d == 1000 + r;
      assert now + d == (1 - q) * 1000;
      assert now == (-q - 1) * 1000 + (1000 - r) || r == 0;
      if r == 0 {
        assert now == -q * 1000;
      }
    }
  }

  /** A second before the epoch and a half: the timer skips the boundary at
      -1000 and is due at 0. */
  lemma DelayBeforeEpoch()
    ensures Delay(-1500) == 1500
  {
  }

  /** When the ticks happen if each fires `lateness[k]` ms after it was due,
      starting with the tick on mount at `start`. */
  function FireTimes(start: int, lateness: seq<nat>): (r: seq<int>)
    ensures |r| == |lateness| + 1 && r[0] == start
  {
    if lateness == [] then [start]
    else
      var ts := FireTimes(start, lateness[..|lateness| - 1]);
      var last := ts[|ts| - 1];
      ts + [last + Delay(last) + lateness[|lateness| - 1]]
  }

  /** Lateness does not add up: as long as every tick comes less than a
      second late, tick `k` falls within second `k` after the start, so
      every second is shown exactly once. */
  lemma {:induction false} NoDrift(start: nat, lateness: seq<nat>)
    requires forall k :: 0 <= k < |lateness| ==> lateness[k] < SECOND_MS
    ensures forall k :: 0 <= k < |FireTimes(start, lateness)| ==>
      FireTimes(start, lateness)[k] / SECOND_MS == start / SECOND_MS + k
  {
    if lateness != [] {
      var init := lateness[..|lateness| - 1];
      NoDrift(start, init);
      var ts := FireTimes(start, init);
      var last := ts[|ts| - 1];
      var q := last / SECOND_MS;
      var l := lateness[|lateness| - 1];
      assert last >= 0 by {
        assert last / SECOND_MS == start / SECOND_MS + |ts| - 1;
      }
      assert last + Delay(last) + l == (q + 1) * SECOND_MS + l;
      assert ((q + 1) * SECOND_MS + l) / SECOND_MS == q + 1;
      var all := FireTimes(start, lateness);
      assert all[..|ts|] == ts;
      forall k | 0 <= k < |all|
        ensures all[k] / SECOND_MS == start / SECOND_MS + k
      {
        if k < |ts| {
          assert all[k] == ts[k];
        }
      }
    }
  }

  class Clock {
    /** The `time` state cell. */
    var time: int
    /** `timeoutID`: the due time of the armed timer, if any. */
    var timer: Option<int>

    /** Mounting runs the first tick at once. */
    constructor (now: int)
      ensures time == now && timer == Some(now + Delay(now))
    {
      time := now;
      timer := Some(now + Delay(now));
    }

    /** `updateTime`: show `now` and arm exactly one timer for the next
        second. */
    method UpdateTime(now: int)
      modifies this
      ensures time == now
      ensures timer == Some(now + Delay(now))
    {
      time := now;
      var msUntilNextSecond := SECOND_MS - JsRem(now, SECOND_MS);
      timer := Some(now + msUntilNextSecond);
    }

    /** The effect's cleanup cancels the armed timer. */
    method Cleanup()
      modifies this
      ensures timer == None && time == old(time)
    {
      timer := None;
    }
  }
}
