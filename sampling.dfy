/** The sampling decision of a device and its cache in the shared preferences. */
module Sampling {
  import opened Wrappers
  import opened Preferences

  /** Java's `%` on integers: it truncates toward zero, so the remainder takes the dividend's sign. */
  function JavaRemainder(a: int, b: int): (r: int)
    requires b != 0
    ensures a >= 0 ==> 0 <= r < (if b > 0 then b else -b)
    ensures a < 0 ==> -(if b > 0 then b else -b) < r <= 0
    ensures (a - r) % (if b > 0 then b else -b) == 0
  {
    var m := if b > 0 then b else -b;
    if a >= 0 then
      assert a - a % m == (a / m) * m;
      MultipleRemainder(a / m, m);
      a % m
    else
      var x := -a;
      assert a - -(x % m) == (-(x / m)) * m;
      MultipleRemainder(-(x / m), m);
      -(x % m)
  }

  /** A positive multiple of a positive number is at least that number. */
  lemma MultipleAtLeast(d: int, b: int)
    requires d >= 1 && b > 0
    ensures d * b >= b
  {
    assert d * b == b + (d - 1) * b;
  }

  /** A multiple of `b` leaves no remainder. */
  lemma MultipleRemainder(k: int, b: int)
    requires b > 0
    ensures (k * b) % b == 0
  {
    var x := k * b;
    var q, r := x / b, x % b;
    assert x == q * b + r && 0 <= r < b;
    var d := k - q;
    assert d * b == r;
    if d >= 1 {
      MultipleAtLeast(d, b);
      assert false;
    } else if d <= -1 {
      MultipleAtLeast(-d, b);
      assert false;
    }
  }

  /** The Java remainder is zero exactly when the mathematical (Euclidean) one is. */
  lemma JavaRemainderZero(a: int, b: int)
    requires b > 1
    ensures JavaRemainder(a, b) == 0 <==> a % b == 0
  {
    if a < 0 {
      var x := -a;
      if x % b == 0 {
        assert x == (x / b) * b;
        assert a == (-(x / b)) * b;
        MultipleRemainder(-(x / b), b);
      }
      if a % b == 0 {
        assert a == (a / b) * b;
        assert x == (-(a / b)) * b;
        MultipleRemainder(-(a / b), b);
      }
    }
  }

  /**
   * `isSampling` for an ever-id and a configured sampling rate: true means the device is
   * excluded from tracking. Only a rate above 1 excludes anyone.
   */
  function IsSampledOut(everId: int, rate: int): (excluded: bool)
    ensures excluded <==> rate > 1 && everId % rate != 0
  {
    if rate > 1 then
      JavaRemainderZero(everId, rate);
      JavaRemainder(everId, rate) != 0
    else false
  }

  /** The sampling flag and the preferences after `initSampling`. */
  datatype SamplingState = SamplingState(isSampling: bool, preferences: SharedPreferences)

  /**
   * `initSampling`: a decision cached for the configured rate is reused; otherwise the
   * decision is computed afresh and stored together with the rate it was computed for.
   */
  function CachedSampling(prefs: SharedPreferences, rate: int, everId: int): (s: SamplingState)
    ensures prefs.isSampling.Some? && prefs.sampling.GetOr(-1) == rate ==> s == SamplingState(prefs.isSampling.value, prefs)
    ensures !(prefs.isSampling.Some? && prefs.sampling.GetOr(-1) == rate) ==>
      && s.isSampling == IsSampledOut(everId, rate)
      && s.preferences == prefs.(isSampling := Some(s.isSampling), sampling := Some(rate))
  {
    if prefs.isSampling.Some? && prefs.sampling.GetOr(-1) == rate then
      SamplingState(prefs.isSampling.value, prefs)
    else
      var decision := IsSampledOut(everId, rate);
      SamplingState(decision, prefs.(isSampling := Some(decision), sampling := Some(rate)))
  }

  /** Running `initSampling` a second time with the same rate changes nothing, whatever the ever-id. */
  lemma CachedSamplingStable(prefs: SharedPreferences, rate: int, everId: int, laterEverId: int)
    ensures var s := CachedSampling(prefs, rate, everId);
      CachedSampling(s.preferences, rate, laterEverId) == s
  {
  }

  /** The decision depends only on the ever-id and the rate the first time it is made. */
  lemma FreshDecision(rate: int, everId: int)
    ensures CachedSampling(NoPreferences, rate, everId).isSampling == IsSampledOut(everId, rate)
    ensures CachedSampling(NoPreferences, rate, everId).preferences.sampling == Some(rate)
  {
  }
}
