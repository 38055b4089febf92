/**
  Times of day and the seconds arithmetic the statistics helpers do on them:
  `seconds_since_midnight`, `interval`, and the hour/minute/second split that
  `time.gmtime` performs on a number of seconds.
*/
module Clock {

  /** An hour/minute/second triple. Times parsed with `%H:%M:%S` never carry microseconds. */
  datatype Time = Time(hour: int, minute: int, second: int)

  predicate ValidTime(t: Time) {
    0 <= t.hour < 24 && 0 <= t.minute < 60 && 0 <= t.second < 60
  }

  /** A `datetime.time` value: every field in its range. */
  type TimeOfDay = t: Time | ValidTime(t) witness Time(0, 0, 0)

  const Midnight: TimeOfDay := Time(0, 0, 0)

  const SecondsPerDay: int := 86400

  /** `datetime.time` ordering: lexicographic on (hour, minute, second). */
  predicate Before(a: TimeOfDay, b: TimeOfDay) {
    a.hour < b.hour
    || (a.hour == b.hour && a.minute < b.minute)
    || (a.hour == b.hour && a.minute == b.minute && a.second < b.second)
  }

  /** Number of seconds from midnight to `t`; always within one day. */
  function SecondsSinceMidnight(t: TimeOfDay): (s: int)
    ensures 0 <= s < SecondsPerDay
  {
    t.hour * 3600 + t.minute * 60 + t.second
  }

  /**
    The hour, minute and second fields of `time.gmtime(secs)`: the whole days are
    dropped (Euclidean remainder, so negative epochs fall on the previous day)
    and the rest is split by 3600 and 60.
  */
  function GmTime(secs: int): (t: TimeOfDay)
    ensures SecondsSinceMidnight(t) == secs % SecondsPerDay
  {
    var r := secs % SecondsPerDay;
    Time(r / 3600, r % 3600 / 60, r % 60)
  }

  /** Splitting the seconds of a time of day gives the time back. */
  lemma GmTimeOfSeconds(t: TimeOfDay)
    ensures GmTime(SecondsSinceMidnight(t)) == t
  {
    var s := SecondsSinceMidnight(t);
    var rest := t.minute * 60 + t.second;
    assert s % SecondsPerDay == s;
    SplitSeconds(t.hour, rest, 3600);
    SplitSeconds(t.minute, t.second, 60);
    SplitSeconds(t.hour * 60 + t.minute, t.second, 60);
  }

  /** Division by a positive constant undoes `q * d + r` for a remainder `r` below `d`. */
  lemma SplitSeconds(q: int, r: int, d: int)
    requires d == 60 || d == 3600
    requires 0 <= r < d
    ensures (q * d + r) / d == q && (q * d + r) % d == r
  {
    if d == 60 {
      assert (q * 60 + r) / 60 == q;
    } else {
      assert (q * 3600 + r) / 3600 == q;
    }
  }

  /** Within one day the two conversions are inverse to each other. */
  lemma SecondsOfGmTime(secs: int)
    requires 0 <= secs < SecondsPerDay
    ensures SecondsSinceMidnight(GmTime(secs)) == secs
  {
  }

  /** Distinct times of day are distinct numbers of seconds. */
  lemma SecondsInjective(a: TimeOfDay, b: TimeOfDay)
    ensures SecondsSinceMidnight(a) == SecondsSinceMidnight(b) <==> a == b
  {
    if SecondsSinceMidnight(a) == SecondsSinceMidnight(b) {
      GmTimeOfSeconds(a);
      GmTimeOfSeconds(b);
    }
  }

  /** Counting seconds preserves the order of `datetime.time`, in both directions. */
  lemma SecondsMonotonic(a: TimeOfDay, b: TimeOfDay)
    ensures Before(a, b) <==> SecondsSinceMidnight(a) < SecondsSinceMidnight(b)
  {
    var ra := a.minute * 60 + a.second;
    var rb := b.minute * 60 + b.second;
    assert 0 <= ra < 3600 && 0 <= rb < 3600;
    if a.hour < b.hour {
      assert a.hour * 3600 + 3600 <= b.hour * 3600;
    } else if a.hour > b.hour {
      assert b.hour * 3600 + 3600 <= a.hour * 3600;
    }
  }

  /**
    Signed number of seconds from `start` to `end`. No wrap-around is applied:
    an end before the start gives a negative interval.
  */
  function Interval(start: TimeOfDay, end: TimeOfDay): (d: int)
    ensures -SecondsPerDay < d < SecondsPerDay
    ensures d < 0 <==> Before(end, start)
    ensures d > 0 <==> Before(start, end)
    ensures d == 0 <==> start == end
  {
    SecondsMonotonic(start, end);
    SecondsMonotonic(end, start);
    SecondsInjective(start, end);
    SecondsSinceMidnight(end) - SecondsSinceMidnight(start)
  }

  /** Swapping the ends negates the interval. */
  lemma IntervalAntisymmetric(a: TimeOfDay, b: TimeOfDay)
    ensures Interval(a, b) == -Interval(b, a)
  {
  }

  /** Consecutive intervals add up. */
  lemma IntervalAdditive(a: TimeOfDay, b: TimeOfDay, c: TimeOfDay)
    ensures Interval(a, b) + Interval(b, c) == Interval(a, c)
  {
  }

  /** The values the utility tests check. */
  lemma ClockExamples()
    ensures SecondsSinceMidnight(Time(22, 33, 11)) == 81191
    ensures Interval(Time(11, 22, 33), Time(8, 11, 31)) == -11462
    ensures Interval(Time(9, 39, 5), Time(17, 59, 52)) == 30047
    ensures GmTime(34745) == Time(9, 39, 5)
  {
  }
}
