/** The clock check of internal/auth/auth.go over Go's saturating, wrapping time arithmetic. */
module ClockSkew {
  import opened Bytes

  const SECOND: int := 1_000_000_000
  const MAX_SKEW: int := 60 * SECOND
  const MIN_DURATION: Int64 := -TWO_63
  const MAX_DURATION: Int64 := TWO_63 - 1

  /** Seconds from the first year to the Unix epoch. */
  const UNIX_TO_INTERNAL: int := 62135596800

  type Nanos = x: int | 0 <= x < SECOND

  /** time.Time without a monotonic reading: seconds since the first year and nanoseconds. */
  datatype Time = Time(sec: Int64, nsec: Nanos) {
    function Instant(): (ns: int) {
      sec * SECOND + nsec
    }
  }

  /** time.Unix(sec, 0): the shift to the first year wraps around. */
  function Unix(sec: Int64): (t: Time)
  {
    Time(Wrap64(sec + UNIX_TO_INTERNAL), 0)
  }

  /** Time.Sub: computes in int64, and on a mismatch answers with the extreme duration. */
  function Sub(t: Time, u: Time): (d: Int64)
  {
    var d := Wrap64(t.Instant() - u.Instant());
    if u.Instant() + d == t.Instant() then d
    else if t.Instant() < u.Instant() then MIN_DURATION
    else MAX_DURATION
  }

  lemma SubSaturates(t: Time, u: Time)
    ensures var diff := t.Instant() - u.Instant();
            Sub(t, u) == if diff < MIN_DURATION then MIN_DURATION
                         else if diff > MAX_DURATION then MAX_DURATION else diff
  {
    var diff := t.Instant() - u.Instant();
    if MIN_DURATION <= diff <= MAX_DURATION {
      assert (diff + TWO_63) % TWO_64 == diff + TWO_63;
    }
  }

  /** Server clock minus client clock, in nanoseconds, without any bound. */
  ghost function Difference(serverNow: Time, clientTime: Int64): (d: int)
  {
    serverNow.Instant() - Unix(clientTime).Instant()
  }

  ghost predicate WithinWindow(serverNow: Time, clientTime: Int64)
  {
    -MAX_SKEW <= Difference(serverNow, clientTime) <= MAX_SKEW
  }

  /** The client clock is so far ahead that the difference is the least duration, which is
    * its own negation. */
  ghost predicate BeyondRange(serverNow: Time, clientTime: Int64)
  {
    Difference(serverNow, clientTime) <= MIN_DURATION
  }

  predicate SkewOk(serverNow: Time, clientTime: Int64)
  {
    var delta := Sub(serverNow, Unix(clientTime));
    (if delta < 0 then Wrap64(0 - delta) else delta) <= MAX_SKEW
  }

  /** CheckClockSkew. */
  method CheckClockSkew(serverNow: Time, clientTime: Int64) returns (ok: bool)
    ensures ok == SkewOk(serverNow, clientTime)
    ensures ok <==> WithinWindow(serverNow, clientTime) || BeyondRange(serverNow, clientTime)
  {
    SkewAccepts(serverNow, clientTime);
    var delta := Sub(serverNow, Unix(clientTime));
    if delta < 0 {
      delta := Wrap64(0 - delta);
    }
    ok := delta <= MAX_SKEW;
  }

  /** What the check accepts, for every pair of clocks. */
  lemma SkewAccepts(serverNow: Time, clientTime: Int64)
    ensures SkewOk(serverNow, clientTime) <==>
            WithinWindow(serverNow, clientTime) || BeyondRange(serverNow, clientTime)
  {
    SubSaturates(serverNow, Unix(clientTime));
    var delta: int := Sub(serverNow, Unix(clientTime));
    if delta == MIN_DURATION {
      assert Wrap64(0 - delta) == MIN_DURATION;
    } else if delta < 0 {
      assert Wrap64(0 - delta) == -delta;
    }
  }

  /** The same in numbers, for a server clock n nanoseconds after Unix second u and a client that says
    * it is Unix second c, wherever the shift of c to the first year does not wrap around. */
  lemma SkewInSeconds(u: int, n: Nanos, c: Int64)
    requires -0x8000_0000_0000_0000 <= u + 62135596800 < 0x8000_0000_0000_0000
    requires c + 62135596800 < 0x8000_0000_0000_0000
    ensures var ahead := (u - c) * 1_000_000_000 + n;
            SkewOk(Time(u + 62135596800, n), c) <==>
            -60_000_000_000 <= ahead <= 60_000_000_000 || ahead <= -9_223_372_036_854_775_808
  {
    SkewAccepts(Time(u + 62135596800, n), c);
    assert Wrap64(c + UNIX_TO_INTERNAL) == c + 62135596800;
  }

  /** The check is the 60-second window exactly when the difference has not left the range below. */
  lemma SkewIsWindow(serverNow: Time, clientTime: Int64)
    ensures (SkewOk(serverNow, clientTime) <==> WithinWindow(serverNow, clientTime))
            <==> !BeyondRange(serverNow, clientTime)
  {
    SkewAccepts(serverNow, clientTime);
  }

  /** A client clock some 292 years ahead of a server clock in 2025 passes. */
  lemma FarAheadPasses()
    ensures var now := Unix(1_750_000_000);
            SkewOk(now, 1_750_000_000 + 9_223_372_037) && !WithinWindow(now, 1_750_000_000 + 9_223_372_037)
  {
    SkewAccepts(Unix(1_750_000_000), 1_750_000_000 + 9_223_372_037);
  }
}
