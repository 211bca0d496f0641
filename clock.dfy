/**
  The two microsecond clocks of the harness.

  test_blocking_event_query.c reads a `struct timespec` (seconds and
  nanoseconds) and ze_trace_replica.c a `struct timeval` (seconds and
  microseconds); both fold the reading into one `long` count of microseconds.
  The readings themselves come from the operating system and are parameters
  here; the conversions are modelled with C's truncating division written out.
*/
module Clock {

  const MicrosPerSecond: int := 1000000
  const NanosPerMicro: int := 1000
  const NanosPerSecond: int := 1000000000
  /** 2^63: the first value a 64-bit `long` cannot hold. */
  const LongLimit: int := 0x8000_0000_0000_0000

  /** A `struct timespec` as clock_gettime fills it. */
  datatype Timespec = Timespec(sec: int, nsec: int)

  /** A `struct timeval` as gettimeofday fills it. */
  datatype Timeval = Timeval(sec: int, usec: int)

  /** The normalised readings the system calls return. */
  predicate ValidTimespec(ts: Timespec)
  {
    0 <= ts.nsec < NanosPerSecond
  }

  predicate ValidTimeval(tv: Timeval)
  {
    0 <= tv.usec < MicrosPerSecond
  }

  /** C's `/` on integers: the quotient truncated toward zero, so the remainder has the dividend's sign. */
  function TruncDiv(a: int, b: int): (q: int)
    requires b > 0
    ensures 0 <= a ==> 0 <= a - q * b < b
    ensures a < 0 ==> -b < a - q * b <= 0
  {
    if a >= 0 then a / b else -((-a) / b)
  }

  /** `get_time_microseconds`: seconds times 10^6 plus the nanoseconds truncated to whole microseconds. */
  function MicrosFromTimespec(ts: Timespec): (us: int)
    ensures ValidTimespec(ts) ==> us / MicrosPerSecond == ts.sec && us % MicrosPerSecond == ts.nsec / NanosPerMicro
  {
    ts.sec * MicrosPerSecond + TruncDiv(ts.nsec, NanosPerMicro)
  }

  /** `get_time_us`: seconds times 10^6 plus the microseconds. */
  function MicrosFromTimeval(tv: Timeval): (us: int)
    ensures ValidTimeval(tv) ==> us / MicrosPerSecond == tv.sec && us % MicrosPerSecond == tv.usec
  {
    tv.sec * MicrosPerSecond + tv.usec
  }

  /** Splitting a microsecond count back into a normalised `struct timeval`. */
  function TimevalFromMicros(us: int): (tv: Timeval)
    ensures ValidTimeval(tv)
  {
    Timeval(us / MicrosPerSecond, us % MicrosPerSecond)
  }

  /** The normalised reading `d` microseconds after `tv`. */
  function AddMicros(tv: Timeval, d: int): (r: Timeval)
    ensures ValidTimeval(r)
    ensures MicrosFromTimeval(r) == MicrosFromTimeval(tv) + d
  {
    TimevalFromMicros(MicrosFromTimeval(tv) + d)
  }

  /** `struct timeval` readings compare lexicographically. */
  predicate TimevalBefore(a: Timeval, b: Timeval)
  {
    a.sec < b.sec || (a.sec == b.sec && a.usec < b.usec)
  }

  predicate TimespecAtMost(a: Timespec, b: Timespec)
  {
    a.sec < b.sec || (a.sec == b.sec && a.nsec <= b.nsec)
  }

  /** The `struct timeval` conversion and its split are inverse to each other. */
  lemma {:induction false} TimevalRoundTrip(tv: Timeval, us: int)
    ensures ValidTimeval(tv) ==> TimevalFromMicros(MicrosFromTimeval(tv)) == tv
    ensures MicrosFromTimeval(TimevalFromMicros(us)) == us
  {
  }

  lemma {:induction false} ScaledSecondsApart(s1: int, s2: int, r1: int, r2: int)
    requires s1 < s2 && 0 <= r1 < MicrosPerSecond && 0 <= r2
    ensures s1 * MicrosPerSecond + r1 < s2 * MicrosPerSecond + r2
  {
    assert s2 * MicrosPerSecond - s1 * MicrosPerSecond == (s2 - s1) * MicrosPerSecond;
  }

  /** `get_time_us` is strictly increasing: a later normalised reading gives a larger count. */
  lemma {:induction false} TimevalStrictlyIncreasing(a: Timeval, b: Timeval)
    requires ValidTimeval(a) && ValidTimeval(b)
    ensures TimevalBefore(a, b) <==> MicrosFromTimeval(a) < MicrosFromTimeval(b)
  {
    if a.sec < b.sec {
      ScaledSecondsApart(a.sec, b.sec, a.usec, b.usec);
    } else if b.sec < a.sec {
      ScaledSecondsApart(b.sec, a.sec, b.usec, a.usec);
    }
  }

  /** `b` is more than `d` microseconds after `a` exactly when it comes after `a` moved on by `d`. */
  lemma {:induction false} LaterByMoreThan(a: Timeval, b: Timeval, d: int)
    requires ValidTimeval(a) && ValidTimeval(b)
    ensures MicrosFromTimeval(b) - MicrosFromTimeval(a) > d <==> TimevalBefore(AddMicros(a, d), b)
  {
    var m := AddMicros(a, d);
    TimevalStrictlyIncreasing(m, b);
  }

  /** The nanosecond clock is the microsecond clock of its reading truncated to whole microseconds. */
  lemma {:induction false} TimespecAsTimeval(ts: Timespec)
    requires ValidTimespec(ts)
    ensures ValidTimeval(Timeval(ts.sec, ts.nsec / NanosPerMicro))
    ensures MicrosFromTimespec(ts) == MicrosFromTimeval(Timeval(ts.sec, ts.nsec / NanosPerMicro))
  {
  }

  /**
    `get_time_microseconds` never goes backwards, and it moves forward
    exactly when the seconds or the whole microseconds of the reading do.
  */
  lemma {:induction false} TimespecMonotone(a: Timespec, b: Timespec)
    requires ValidTimespec(a) && ValidTimespec(b)
    ensures TimespecAtMost(a, b) ==> MicrosFromTimespec(a) <= MicrosFromTimespec(b)
    ensures MicrosFromTimespec(a) < MicrosFromTimespec(b)
            <==> TimevalBefore(Timeval(a.sec, a.nsec / NanosPerMicro), Timeval(b.sec, b.nsec / NanosPerMicro))
  {
    var ta, tb := Timeval(a.sec, a.nsec / NanosPerMicro), Timeval(b.sec, b.nsec / NanosPerMicro);
    TimespecAsTimeval(a);
    TimespecAsTimeval(b);
    TimevalStrictlyIncreasing(ta, tb);
    TimevalStrictlyIncreasing(tb, ta);
    if TimespecAtMost(a, b) && a.sec == b.sec {
      assert a.nsec / NanosPerMicro <= b.nsec / NanosPerMicro;
    }
  }

  /** Unlike the microsecond clock, the nanosecond one is not strictly increasing: readings within one microsecond collide. */
  lemma {:induction false} TimespecNotInjective()
    ensures TimespecAtMost(Timespec(0, 0), Timespec(0, 999)) && Timespec(0, 0) != Timespec(0, 999)
    ensures MicrosFromTimespec(Timespec(0, 0)) == MicrosFromTimespec(Timespec(0, 999))
  {
  }

  /** For any reading up to about 292 000 years after the epoch both conversions fit a 64-bit `long`. */
  lemma {:induction false} ConversionsFitLong(ts: Timespec, tv: Timeval)
    requires ValidTimespec(ts) && 0 <= ts.sec < LongLimit / MicrosPerSecond
    requires ValidTimeval(tv) && 0 <= tv.sec < LongLimit / MicrosPerSecond
    ensures 0 <= MicrosFromTimespec(ts) < LongLimit
    ensures 0 <= MicrosFromTimeval(tv) < LongLimit
  {
    ScaledSecondsApart(ts.sec, LongLimit / MicrosPerSecond, ts.nsec / NanosPerMicro, 0);
    ScaledSecondsApart(tv.sec, LongLimit / MicrosPerSecond, tv.usec, 0);
  }
}
