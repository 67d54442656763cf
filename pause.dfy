// The engine's pause configuration and its jittered delay.
//
// `Init` derives `pause[0]` (the shortest delay between two dispatch
// iterations) and `pause[1]` (the width of the random range added to it)
// from the configured pause time; `sleep` then waits
// `pause[0] + rand.Int63n(pause[1])` milliseconds. All three values are Go
// `int64`s, so the arithmetic is modelled on mathematical integers with the
// int64 range and Go's truncating division written out.

module Pause {

  const MaxInt64: int := 0x7fff_ffff_ffff_ffff
  const MinInt64: int := -0x8000_0000_0000_0000
  const TwoTo64: int := 0x1_0000_0000_0000_0000

  predicate IsInt64(x: int) {
    MinInt64 <= x <= MaxInt64
  }

  /** Two's-complement wrap-around of an integer into the int64 range, as
      Go's int64 `+` and `*` do on overflow. */
  function Wrap64(x: int): (r: int)
    ensures IsInt64(r)
    ensures (x - r) % TwoTo64 == 0
    ensures IsInt64(x) ==> r == x
  {
    (x - MinInt64) % TwoTo64 + MinInt64
  }

  /** Go's `p / 2` on int64: division truncating toward zero. */
  function Half(p: int): (b: int)
    ensures p >= 0 ==> 0 <= p - 2 * b <= 1
    ensures p < 0 ==> -1 <= p - 2 * b <= 0
    ensures IsInt64(p) ==> IsInt64(b)
  {
    if p >= 0 then p / 2 else -((-p) / 2)
  }

  /** The spread exactly as `Init` computes it: `pause[0] * 3` in int64
      arithmetic when the base is positive, and 1 otherwise. */
  function SpreadAsWritten(base: int): (s: int)
    requires IsInt64(base)
    ensures IsInt64(s)
    ensures base <= 0 ==> s == 1
    ensures 0 < base && 3 * base <= MaxInt64 ==> s == 3 * base
  {
    if base > 0 then Wrap64(base * 3) else 1
  }

  /** The sleep time exactly as `sleep` computes it, in int64 arithmetic. */
  function SleepTimeAsWritten(base: int, r: int): (t: int)
    ensures IsInt64(t)
    ensures IsInt64(base + r) ==> t == base + r
  {
    Wrap64(base + r)
  }

  /** The largest pause time makes the as-written spread negative, so the
      `rand.Int63n(pause[1])` of every later `sleep` panics. */
  lemma SpreadOverflowsAtLargestPause()
    ensures Half(MaxInt64) == 0x3fff_ffff_ffff_ffff
    ensures SpreadAsWritten(Half(MaxInt64)) == -0x4000_0000_0000_0003
  {
  }

  /** A pause time whose as-written spread is still positive, but for which
      the largest draw makes the as-written sleep time wrap to a negative
      number of milliseconds. */
  lemma SleepTimeWrapsBelowZero()
    ensures Half(0x4000_0000_0000_0002) == 0x2000_0000_0000_0001
    ensures SpreadAsWritten(0x2000_0000_0000_0001) == 0x6000_0000_0000_0003
    ensures SleepTimeAsWritten(0x2000_0000_0000_0001, 0x6000_0000_0000_0002) < 0
  {
  }

  /** The spread the engine uses: three times the base where that keeps every
      sleep time inside int64, saturated otherwise, and 1 for a base that is
      not positive, so that the random draw always has a non-empty range. */
  function Spread(base: int): (s: int)
    requires IsInt64(base)
    ensures 1 <= s <= MaxInt64
    ensures base + s - 1 <= MaxInt64
    ensures base <= 0 ==> s == 1
    ensures 0 < base ==> s <= 3 * base
    ensures 0 < base && 4 * base <= MaxInt64 + 1 ==> s == 3 * base
  {
    if base <= 0 then 1
    else if 4 * base <= MaxInt64 + 1 then 3 * base
    else MaxInt64 - base + 1
  }

  /** Wherever the source's own arithmetic does not overflow, the spread the
      engine uses is the one the source computes. */
  lemma SpreadAgreesWithSource(base: int)
    requires IsInt64(base)
    requires base <= 0 || 4 * base <= MaxInt64 + 1
    ensures Spread(base) == SpreadAsWritten(base)
    ensures base > 0 ==> Spread(base) == 3 * base
  {
  }

  /** One jittered delay, for a draw `r` from `[0, spread)`, as
      `rand.Int63n(spread)` returns. */
  function SleepTime(base: int, spread: int, r: int): (t: int)
    requires 0 <= r < spread
    ensures base <= t < base + spread
  {
    base + r
  }

  /** For every configured pause time, the derived spread is a valid argument
      of `rand.Int63n`, and every delay it yields lies in
      `[base, base + spread)` and fits int64, where it equals the source's own
      sleep time. */
  lemma SleepTimeBounded(p: int, r: int)
    requires IsInt64(p)
    requires 0 <= r < Spread(Half(p))
    ensures Spread(Half(p)) >= 1
    ensures Half(p) <= SleepTime(Half(p), Spread(Half(p)), r) < Half(p) + Spread(Half(p))
    ensures IsInt64(SleepTime(Half(p), Spread(Half(p)), r))
    ensures SleepTime(Half(p), Spread(Half(p)), r) == SleepTimeAsWritten(Half(p), r)
  {
  }

  /** The two configurations worked out by hand: no pause at all, and one
      second. */
  lemma PauseExamples()
    ensures Half(0) == 0 && Spread(Half(0)) == 1
    ensures Half(1000) == 500 && Spread(Half(1000)) == 1500
    ensures Half(-3) == -1 && Spread(Half(-3)) == 1
  {
  }
}
