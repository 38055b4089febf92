/**
  The `memorize(period)` decorator as a sequential state machine over the
  cached value and its expiry stamp (the `CACHE` and `TIMESTAMPS` entries of
  the wrapped function's name). The clock reading `now` is a parameter, and
  the wrapped function is a loader that either returns a value or raises.
*/
module Memo {
  import opened Results

  /** The `CACHE[key]` and `TIMESTAMPS[key]` entries; `None` while the key is absent. */
  datatype Cache<V> = Cache(value: Option<V>, expiry: Option<real>)

  /** The state of a process that has not called the wrapped function yet. */
  function Initial<V>(): Cache<V> {
    Cache(None, None)
  }

  /** What one call of the wrapped function returned. */
  datatype Fetch<V, E> =
    | Hit(value: V)         // served from the cache
    | Loaded(value: V)      // the loader ran and its value was stored
    | LoadFailed(error: E)  // the loader raised; the exception propagates
    | MissingEntry          // a live stamp without a value: `CACHE[key]` raises KeyError

  datatype Call<V, E> = Call(cache: Cache<V>, fetch: Fetch<V, E>)

  /** `TIMESTAMPS.get(key, now) > now`: an absent stamp counts as `now`, so it is never fresh. */
  predicate Fresh<V>(c: Cache<V>, now: real) {
    (if c.expiry.Some? then c.expiry.value else now) > now
  }

  /**
    One call of the decorated function at time `now`. A fresh stamp serves the
    cached value without calling the loader; otherwise the loader runs once and,
    if it returns, its value is stored with the stamp `now + period`. If it
    raises, nothing is stored. The second freshness test under the lock gives
    the same answer as the first when calls are sequential.
  */
  function Get<V, E>(c: Cache<V>, now: real, period: real, load: () -> Result<V, E>): (r: Call<V, E>)
    ensures Fresh(c, now) ==> r.cache == c
    ensures Fresh(c, now) && c.value.Some? ==> r.fetch == Hit(c.value.value)
    ensures Fresh(c, now) && c.value.None? ==> r == Call(c, MissingEntry)
    ensures !Fresh(c, now) ==> match load()
      case Success(v) => r == Call(Cache(Some(v), Some(now + period)), Loaded(v))
      case Failure(e) => r == Call(c, LoadFailed(e))
    ensures r.fetch.Loaded? || r.fetch.LoadFailed? <==> !Fresh(c, now)
  {
    if Fresh(c, now) then
      match c.value
      case Some(v) => Call(c, Hit(v))
      case None => Call(c, MissingEntry)
    else
      match load()
      case Success(v) => Call(Cache(Some(v), Some(now + period)), Loaded(v))
      case Failure(e) => Call(c, LoadFailed(e))
  }

  /** The value a call hands back to its caller, or the exception it raises. */
  function Returned<V, E>(f: Fetch<V, E>): Option<V> {
    match f
    case Hit(v) => Some(v)
    case Loaded(v) => Some(v)
    case _ => None
  }

  /** Test hook: `TIMESTAMPS[key] = t`. */
  function SetExpiry<V>(c: Cache<V>, t: real): Cache<V> {
    c.(expiry := Some(t))
  }

  /** Test hook: `CACHE = {key: v}`. */
  function SetValue<V>(c: Cache<V>, v: V): Cache<V> {
    c.(value := Some(v))
  }

  /**
    A state from which no call raises KeyError when clocks read non-negative
    times: every stamp that can still be fresh has a value next to it.
  */
  predicate WellFormed<V>(c: Cache<V>) {
    c.value.Some? || c.expiry.None? || c.expiry.value <= 0.0
  }

  /** Calls keep states well formed, and from a well-formed state a call never raises KeyError. */
  lemma GetKeepsWellFormed<V, E>(c: Cache<V>, now: real, period: real, load: () -> Result<V, E>)
    requires WellFormed(c) && now >= 0.0
    ensures WellFormed(Get(c, now, period, load).cache)
    ensures !Get(c, now, period, load).fetch.MissingEntry?
  {
  }

  /** The test hooks used by the test suite keep states well formed. */
  lemma HooksKeepWellFormed<V>(c: Cache<V>, v: V)
    requires WellFormed(c)
    ensures WellFormed(SetExpiry(c, 0.0))
    ensures WellFormed(SetValue(c, v))
  {
  }

  /** After a successful load at `now`, every call before `now + period` is served from the cache, untouched. */
  lemma ServedUntilExpiry<V, E>(c: Cache<V>, now: real, t: real, period: real, load: () -> Result<V, E>)
    requires !Fresh(c, now) && load().Success?
    requires t < now + period
    ensures var c1 := Get(c, now, period, load).cache;
      Get(c1, t, period, load) == Call(c1, Hit(load().value))
  {
  }

  /** Once the stamp is at or before the clock, the next call runs the loader. */
  lemma ExpiredReloads<V, E>(c: Cache<V>, now: real, period: real, load: () -> Result<V, E>)
    requires c.expiry.Some? && c.expiry.value <= now
    ensures Get(c, now, period, load).fetch.Loaded? || Get(c, now, period, load).fetch.LoadFailed?
  {
  }

  /** A failed load leaves both the value and the stamp as they were. */
  lemma FailedLoadChangesNothing<V, E>(c: Cache<V>, now: real, period: real, load: () -> Result<V, E>)
    requires !Fresh(c, now) && load().Failure?
    ensures Get(c, now, period, load).cache == c
    ensures Returned(Get(c, now, period, load).fetch).None?
  {
  }

  /**
    A run of calls at the given clock readings, in order: the final state and
    the outcome of every call.
  */
  function Run<V, E>(c: Cache<V>, times: seq<real>, period: real, load: () -> Result<V, E>): (r: (Cache<V>, seq<Fetch<V, E>>))
    ensures |r.1| == |times|
    decreases |times|
  {
    if |times| == 0 then (c, [])
    else
      var first := Get(c, times[0], period, load);
      var rest := Run(first.cache, times[1..], period, load);
      (rest.0, [first.fetch] + rest.1)
  }

  /** Number of calls in a run that ran the loader. */
  function Loads<V, E>(fs: seq<Fetch<V, E>>): nat {
    if |fs| == 0 then 0 else (if fs[0].Loaded? || fs[0].LoadFailed? then 1 else 0) + Loads(fs[1..])
  }

  /** Calls of a run that all fall before the stamp are all served from the cache. */
  lemma {:induction false} RunWhileFresh<V, E>(v: V, stamp: real, times: seq<real>, period: real, load: () -> Result<V, E>)
    requires forall i :: 0 <= i < |times| ==> times[i] < stamp
    ensures Run(Cache(Some(v), Some(stamp)), times, period, load).0 == Cache(Some(v), Some(stamp))
    ensures forall i :: 0 <= i < |times| ==> Run(Cache(Some(v), Some(stamp)), times, period, load).1[i] == Hit(v)
    ensures Loads(Run(Cache(Some(v), Some(stamp)), times, period, load).1) == 0
    decreases |times|
  {
    if |times| > 0 {
      var c := Cache(Some(v), Some(stamp));
      RunWhileFresh(v, stamp, times[1..], period, load);
      var rest := Run(c, times[1..], period, load).1;
      assert Run(c, times, period, load).1 == [Hit(v)] + rest;
      forall i | 0 < i < |times|
        ensures Run(c, times, period, load).1[i] == Hit(v)
      {
        assert times[1..][i - 1] == times[i];
      }
    }
  }

  /**
    A burst of calls on a stale cache, all within one period of the first,
    runs the loader exactly once; every later call returns the loaded value.
  */
  lemma SingleLoadPerPeriod<V, E>(c: Cache<V>, times: seq<real>, period: real, load: () -> Result<V, E>)
    requires |times| > 0 && !Fresh(c, times[0]) && load().Success?
    requires forall i :: 0 <= i < |times| ==> times[i] < times[0] + period
    ensures Loads(Run(c, times, period, load).1) == 1
    ensures Run(c, times, period, load).1[0] == Loaded(load().value)
    ensures forall i :: 0 < i < |times| ==> Run(c, times, period, load).1[i] == Hit(load().value)
  {
    var v := load().value;
    var stamp := times[0] + period;
    forall i | 0 <= i < |times[1..]|
      ensures times[1..][i] < stamp
    {
      assert times[1..][i] == times[i + 1];
    }
    RunWhileFresh(v, stamp, times[1..], period, load);
    var rest := Run(Cache(Some(v), Some(stamp)), times[1..], period, load).1;
    assert Run(c, times, period, load).1 == [Loaded(v)] + rest;
    forall i | 0 < i < |times|
      ensures Run(c, times, period, load).1[i] == Hit(v)
    {
      assert rest[i - 1] == Hit(v);
    }
  }

  /**
    The caching test: a load after the stamp is reset to 0, a replaced cache
    entry served while the stamp is live, and a reload once the stamp is reset
    again.
  */
  lemma ResetForcesReload<V, E>(v: V, other: V, t0: real, t1: real, t2: real, period: real, load: () -> Result<V, E>)
    requires load() == Success(v)
    requires 0.0 <= t0 && t1 < t0 + period && 0.0 <= t2
    ensures var c0 := SetExpiry(Initial<V>(), 0.0);
      var first := Get(c0, t0, period, load);
      var second := Get(SetValue(first.cache, other), t1, period, load);
      var third := Get(SetExpiry(second.cache, 0.0), t2, period, load);
      && first.fetch == Loaded(v)
      && second.fetch == Hit(other)
      && third.fetch == Loaded(v)
  {
  }
}
