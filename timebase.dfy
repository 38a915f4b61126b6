/** Conversions between sample counts, seconds and milliseconds.

    Seconds are exact reals here; the engine's `int(...)` casts truncate
    toward zero, which `Trunc` models (it coincides with `Floor` on
    non-negative values). */
module Timebase {

  /** Python's `int(x)` on a float: truncation toward zero. */
  function Trunc(x: real): (r: int)
    ensures 0.0 <= x ==> r as real <= x < r as real + 1.0
    ensures x < 0.0 ==> r as real - 1.0 < x <= r as real
  {
    if x >= 0.0 then x.Floor else -((-x).Floor)
  }

  /** Duration in seconds of `n` samples at `rate` samples per second. */
  function Secs(n: int, rate: int): real
    requires rate > 0
  {
    n as real / rate as real
  }

  /** `AudioStorage.seconds_to_millis`: `int(seconds * 1000)`. */
  function SecondsToMillis(seconds: real): (r: int)
    ensures 0.0 <= seconds ==> r as real <= seconds * 1000.0 < r as real + 1.0
    ensures seconds < 0.0 ==> r as real - 1.0 < seconds * 1000.0 <= r as real
  {
    Trunc(seconds * 1000.0)
  }

  /** `AudioStorage.millis_to_seconds`: `millis / 1000.0`. */
  function MillisToSeconds(millis: int): (r: real)
    ensures r * 1000.0 == millis as real
    ensures 0 <= millis <==> 0.0 <= r
  {
    millis as real / 1000.0
  }

  function Min(a: int, b: int): int { if a <= b then a else b }
  function Max(a: int, b: int): int { if a <= b then b else a }

  /** `x` clamped into `[lo, hi]` (lower bound applied last, as in `max(lo, min(x, hi))`). */
  function Clamp(x: int, lo: int, hi: int): int { Max(lo, Min(x, hi)) }

  /** Converting milliseconds to seconds and back loses nothing. */
  lemma MillisRoundTrip(millis: int)
    ensures SecondsToMillis(MillisToSeconds(millis)) == millis
  {
    assert MillisToSeconds(millis) * 1000.0 == millis as real;
  }

  /** Converting non-negative seconds to milliseconds and back rounds down
      by less than one millisecond. */
  lemma SecondsRoundTrip(seconds: real)
    requires 0.0 <= seconds
    ensures MillisToSeconds(SecondsToMillis(seconds)) <= seconds
    ensures seconds < MillisToSeconds(SecondsToMillis(seconds)) + 0.001
  {
    var m := SecondsToMillis(seconds);
    assert m as real <= seconds * 1000.0 < m as real + 1.0;
  }

  /** A sample count turned into seconds and scaled back by the rate is exact. */
  lemma SecsTimesRate(n: int, rate: int)
    requires rate > 0
    ensures Secs(n, rate) * rate as real == n as real
  {
  }

  /** Seconds of consecutive runs add up. */
  lemma SecsAdd(m: int, n: int, rate: int)
    requires rate > 0
    ensures Secs(m, rate) + Secs(n, rate) == Secs(m + n, rate)
  {
  }

  /** Multiplying by a positive factor keeps a strict order. */
  lemma MulStrict(x: real, y: real, k: real)
    requires x < y && 0.0 < k
    ensures x * k < y * k
  {
  }

  /** Multiplying by a positive factor keeps a weak order. */
  lemma MulWeak(x: real, y: real, k: real)
    requires x <= y && 0.0 < k
    ensures x * k <= y * k
  {
  }

  /** Index on the whole timeline of the sample playing at time `t`. */
  function IndexAt(t: real, rate: int): int {
    (t * rate as real).Floor
  }

  /** `int((t - origin) * sample_rate)`: the sample index of time `t`
      counted from a chunk that starts at `origin`. */
  function SampleIndex(t: real, origin: real, rate: int): int {
    Trunc((t - origin) * rate as real)
  }

  /** The time of sample `n` has timeline index `n`. */
  lemma IndexOfSecs(n: int, rate: int)
    requires rate > 0
    ensures IndexAt(Secs(n, rate), rate) == n
  {
    SecsTimesRate(n, rate);
  }

  /** A time at or after a chunk start (the time of sample `offset`) has a
      chunk-local index equal to its timeline index minus `offset`. */
  lemma IndexFrom(t: real, offset: int, rate: int)
    requires rate > 0 && Secs(offset, rate) <= t
    ensures SampleIndex(t, Secs(offset, rate), rate) == IndexAt(t, rate) - offset
  {
    var r, st := rate as real, Secs(offset, rate);
    SecsTimesRate(offset, rate);
    MulWeak(st, t, r);
    assert (t - st) * r == t * r - offset as real;
    FloorShift(t * r, offset);
  }

  /** A time at or before the time of sample `offset` has an index at most `offset`. */
  lemma IndexAtMost(t: real, offset: int, rate: int)
    requires rate > 0 && t <= Secs(offset, rate)
    ensures IndexAt(t, rate) <= offset
  {
    SecsTimesRate(offset, rate);
    MulWeak(t, Secs(offset, rate), rate as real);
  }

  /** A time at or after the time of sample `offset` has an index at least `offset`. */
  lemma IndexAtLeast(t: real, offset: int, rate: int)
    requires rate > 0 && Secs(offset, rate) <= t
    ensures offset <= IndexAt(t, rate)
  {
    SecsTimesRate(offset, rate);
    MulWeak(Secs(offset, rate), t, rate as real);
  }

  /** Indices grow with time. */
  lemma IndexMono(t: real, u: real, rate: int)
    requires rate > 0 && t <= u
    ensures IndexAt(t, rate) <= IndexAt(u, rate)
  {
    MulWeak(t, u, rate as real);
    FloorMono(t * rate as real, u * rate as real);
  }

  /** The first sample index `get_audio_from_time` computes (start moved up
      to the chunk start, truncated, clamped to the chunk) is the timeline
      index of `start` counted from the chunk's first sample `offset`,
      clamped to the chunk. */
  lemma StartIndex(offset: int, n: nat, rate: int, start: real)
    requires rate > 0
    ensures var st := Secs(offset, rate);
            Clamp(SampleIndex(if start > st then start else st, st, rate), 0, n)
              == Clamp(IndexAt(start, rate) - offset, 0, n)
  {
    var st := Secs(offset, rate);
    if start > st {
      IndexFrom(start, offset, rate);
    } else {
      IndexAtMost(start, offset, rate);
      assert (st - st) * rate as real == 0.0;
    }
  }

  /** The same for the end index of a request that does not end before the
      chunk starts; the chunk holds `n` samples and ends at the time of
      sample `offset + n`. */
  lemma EndIndex(offset: int, n: nat, rate: int, end: real, lo: int)
    requires rate > 0 && Secs(offset, rate) <= end
    ensures var st, et := Secs(offset, rate), Secs(offset + n, rate);
            Clamp(SampleIndex(if end < et then end else et, st, rate), lo, n)
              == Clamp(IndexAt(end, rate) - offset, lo, n)
  {
    var et := Secs(offset + n, rate);
    if end < et {
      IndexFrom(end, offset, rate);
    } else {
      SecsAdd(offset, n, rate);
      IndexFrom(et, offset, rate);
      IndexOfSecs(offset + n, rate);
      IndexAtLeast(end, offset + n, rate);
    }
  }

  /** Floor is monotone. */
  lemma FloorMono(x: real, y: real)
    requires x <= y
    ensures x.Floor <= y.Floor
  {
  }

  /** Floor commutes with shifting by an integer. */
  lemma FloorShift(x: real, k: int)
    ensures (x - k as real).Floor == x.Floor - k
  {
  }

  /** Seconds of a non-negative count scaled to milliseconds and truncated is
      the count times 1000, divided by the rate and rounded down. */
  lemma SecsToMillisIsDivision(n: nat, rate: int)
    requires rate > 0
    ensures SecondsToMillis(Secs(n, rate)) == (n * 1000) / rate
  {
    var q, rem := (n * 1000) / rate, (n * 1000) % rate;
    assert n * 1000 == q * rate + rem;
    var x := Secs(n, rate) * 1000.0;
    assert x * rate as real == (n * 1000) as real;
    assert (q * rate) as real == q as real * rate as real;
    assert x * rate as real == q as real * rate as real + rem as real;
    assert q as real <= x by {
      if x < q as real {
        MulStrict(x, q as real, rate as real);
      }
    }
    assert x < q as real + 1.0 by {
      if x >= q as real + 1.0 {
        MulWeak(q as real + 1.0, x, rate as real);
      }
    }
    assert x.Floor == q;
  }
}
