/** The reconnect loop of internal/tunnel/client.go in int64 nanoseconds. */
module Backoff {
  import opened Bytes

  /** The part of a validated client configuration that the loop reads. */
  datatype Reconnect = Reconnect(initial: Int64, max: Int64, jitter: bool) {
    ghost predicate Valid() {
      0 < initial <= max
    }
  }

  /** x doubled k times. */
  function Doubled(x: int, k: nat): (r: int)
  {
    if k == 0 then x else 2 * Doubled(x, k - 1)
  }

  lemma {:induction false} DoubledIsPower(x: int, k: nat)
    ensures Doubled(x, k) == x * Pow2(k)
  {
    if k > 0 {
      DoubledIsPower(x, k - 1);
      assert x * (2 * Pow2(k - 1)) == 2 * (x * Pow2(k - 1));
    }
  }

  lemma WrapInRange(x: int)
    requires -TWO_63 <= x < TWO_63
    ensures Wrap64(x) == x
  {}

  lemma WrapAbove(x: int)
    requires TWO_63 <= x < TWO_64
    ensures Wrap64(x) == x - TWO_64
  {}

  /** Doubling wraps around before it is compared with the maximum. */
  function NextBase(base: Int64, max: Int64): (r: Int64)
  {
    var doubled := Wrap64(base * 2);
    if doubled > max then max else doubled
  }

  /** The loop variable before retry k, counting from 0. */
  function Base(c: Reconnect, k: nat): (r: Int64)
  {
    if k == 0 then c.initial else NextBase(Base(c, k - 1), c.max)
  }

  /** The documented schedule. */
  ghost function Schedule(c: Reconnect, k: nat): (r: int)
  {
    if Doubled(c.initial, k) < c.max then Doubled(c.initial, k) else c.max
  }

  lemma {:induction false} BaseFollowsSchedule(c: Reconnect, k: nat)
    requires c.Valid() && c.max < TWO_62
    ensures Base(c, k) == Schedule(c, k) && 0 < Base(c, k) <= c.max
  {
    if k > 0 {
      BaseFollowsSchedule(c, k - 1);
      var b := Base(c, k - 1);
      WrapInRange(b * 2);
    }
  }

  lemma Pow2At62()
    ensures Pow2(62) == TWO_62
  {
    assert Pow2(8) == 256;
    assert Pow2(16) == 65536 by { assert Pow2(12) == 4096; }
    assert Pow2(24) == 16777216 by { assert Pow2(20) == 1048576; }
    assert Pow2(32) == TWO_32 by { assert Pow2(28) == 268435456; }
    assert Pow2(40) == 256 * TWO_32 by { assert Pow2(36) == 16 * TWO_32; }
    assert Pow2(48) == 65536 * TWO_32 by { assert Pow2(44) == 4096 * TWO_32; }
    assert Pow2(56) == 16777216 * TWO_32 by { assert Pow2(52) == 1048576 * TWO_32; }
    assert Pow2(60) == 268435456 * TWO_32;
  }

  /** With a maximum of 2^62 or more the variable goes negative one step after reaching it. */
  lemma LargeMaximumOverflows(c: Reconnect)
    requires c.Valid() && c.max >= TWO_62
    ensures Base(c, 62) == Schedule(c, 62) ==> Base(c, 63) < 0 < Schedule(c, 63)
  {
    Pow2At62();
    DoubledIsPower(c.initial, 62);
    assert c.initial * TWO_62 >= TWO_62;
    var b := Base(c, 62);
    if b == Schedule(c, 62) {
      assert TWO_62 <= b <= c.max;
      WrapAbove(b * 2);
      assert Base(c, 63) == NextBase(b, c.max);
      assert Doubled(c.initial, 63) == 2 * Doubled(c.initial, 62);
    }
  }

  /** The loop keeps the documented schedule for ever exactly when the maximum is below 2^62 ns. */
  lemma ScheduleKeptIff(c: Reconnect)
    requires c.Valid()
    ensures (forall k: nat :: Base(c, k) == Schedule(c, k)) <==> c.max < TWO_62
  {
    if c.max < TWO_62 {
      forall k: nat ensures Base(c, k) == Schedule(c, k) {
        BaseFollowsSchedule(c, k);
      }
    } else {
      LargeMaximumOverflows(c);
      assert Base(c, 62) != Schedule(c, 62) || Base(c, 63) != Schedule(c, 63);
    }
  }

  lemma BaseNeverFalls(c: Reconnect, k: nat)
    requires c.Valid() && c.max < TWO_62
    ensures Base(c, k) <= Base(c, k + 1) <= c.max
  {
    BaseFollowsSchedule(c, k);
    BaseFollowsSchedule(c, k + 1);
  }

  /** jitterDelay with rand.Int64N(base) drawn outside. */
  function JitterDelay(base: Int64, jitter: bool, draw: Int64): (r: Int64)
  {
    if !jitter || base <= 0 then base
    else
      var half := base / 2;
      if half <= 0 then base else Wrap64(half + draw)
  }

  /** The delay lies in the half-open window of width base that starts at its half. */
  ghost predicate InWindow(base: Int64, jitter: bool, delay: Int64)
  {
    if jitter && base > 1 then base / 2 <= delay < base / 2 + base else delay == base
  }

  /** Every draw lands in the window exactly when the window ends inside int64. */
  lemma JitterWindow(base: Int64, jitter: bool)
    requires base > 0
    ensures (forall draw: Int64 :: 0 <= draw < base ==> InWindow(base, jitter, JitterDelay(base, jitter, draw)))
            <==> (jitter ==> base / 2 + base <= TWO_63)
  {
    if jitter && base / 2 + base > TWO_63 {
      var draw: Int64 := base - 1;
      var sum := base / 2 + draw;
      WrapAbove(sum);
      assert !InWindow(base, jitter, JitterDelay(base, jitter, draw));
    } else {
      forall draw: Int64 | 0 <= draw < base
        ensures InWindow(base, jitter, JitterDelay(base, jitter, draw))
      {
        if jitter && base > 1 {
          WrapInRange(base / 2 + draw);
        }
      }
    }
  }

  /** The random part is used in full: every delay of the window comes from one draw, and only one. */
  lemma JitterReaches(base: Int64, delay: Int64)
    requires base > 1 && base / 2 + base <= TWO_63 && base / 2 <= delay < base / 2 + base
    ensures forall draw: Int64 :: 0 <= draw < base ==> (JitterDelay(base, true, draw) == delay <==> draw == delay - base / 2)
  {
    forall draw: Int64 | 0 <= draw < base
      ensures JitterDelay(base, true, draw) == delay <==> draw == delay - base / 2
    {
      WrapInRange(base / 2 + draw);
    }
  }

  /** How one attempt went: connectAndServe failed or ended for good; the draw for the jitter;
    * whether the sleep ran to its end. */
  datatype Attempt = Attempt(failed: bool, draw: Int64, slept: bool)

  ghost predicate GoesOn(a: Attempt)
  {
    a.failed && a.slept
  }

  /** The sleeps asked for in the first n attempts. */
  ghost function Sleeps(c: Reconnect, attempts: seq<Attempt>, n: nat): (r: seq<Int64>)
    requires n <= |attempts|
    ensures |r| == n
  {
    if n == 0 then []
    else Sleeps(c, attempts, n - 1) + [JitterDelay(Base(c, n - 1), c.jitter, attempts[n - 1].draw)]
  }

  /** Client.Run over a finite list of attempts; `delays` are the sleeps it asks for. It stops at
    * the first attempt that ends for good or whose sleep is cut short. */
  method Run(c: Reconnect, attempts: seq<Attempt>) returns (delays: seq<Int64>)
    requires c.Valid()
    ensures |delays| <= |attempts| && delays == Sleeps(c, attempts, |delays|)
    ensures forall k :: 0 <= k < |delays| ==> attempts[k].failed && (k < |delays| - 1 ==> GoesOn(attempts[k]))
    ensures |delays| < |attempts| ==>
              !attempts[|delays|].failed || (|delays| > 0 && !GoesOn(attempts[|delays| - 1]))
  {
    var backoff := c.initial;
    delays := [];
    for i := 0 to |attempts|
      invariant |delays| == i && backoff == Base(c, i) && delays == Sleeps(c, attempts, i)
      invariant forall k :: 0 <= k < i ==> GoesOn(attempts[k])
    {
      if !attempts[i].failed {
        return;
      }
      delays := delays + [JitterDelay(backoff, c.jitter, attempts[i].draw)];
      if !attempts[i].slept {
        return;
      }
      backoff := Wrap64(backoff * 2);
      if backoff > c.max {
        backoff := c.max;
      }
      assert backoff == NextBase(Base(c, i), c.max);
    }
  }

  lemma {:induction false} SleepsAt(c: Reconnect, attempts: seq<Attempt>, n: nat, k: nat)
    requires k < n <= |attempts|
    ensures Sleeps(c, attempts, n)[k] == JitterDelay(Base(c, k), c.jitter, attempts[k].draw)
  {
    if k < n - 1 {
      SleepsAt(c, attempts, n - 1, k);
    }
  }

  /** Every sleep of a run lies in the window of the documented schedule. */
  lemma SleepsFollowSchedule(c: Reconnect, attempts: seq<Attempt>, n: nat, k: nat)
    requires c.Valid() && c.max < TWO_62
    requires k < n <= |attempts| && 0 <= attempts[k].draw < Base(c, k)
    ensures InWindow(Base(c, k), c.jitter, Sleeps(c, attempts, n)[k]) && Base(c, k) == Schedule(c, k)
  {
    SleepsAt(c, attempts, n, k);
    BaseFollowsSchedule(c, k);
    JitterWindow(Base(c, k), c.jitter);
  }
}
