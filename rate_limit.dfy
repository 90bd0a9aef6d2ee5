/** The in-memory fallback of lib/rate-limit.ts: a per-identifier cooldown
    kept in a map from identifier to the time of its last admitted request. */
module RateLimit {
  import opened Base

  const DEFAULT_INTERVAL_MS: int := 30000

  /** `options?.interval || 30000`: an absent or zero interval falls back to the default. */
  function EffectiveInterval(option: Option<int>): (i: int)
    ensures option.None? || option.value == 0 ==> i == DEFAULT_INTERVAL_MS
    ensures option.Some? && option.value != 0 ==> i == option.value
  {
    if option.Some? && option.value != 0 then option.value else DEFAULT_INTERVAL_MS
  }

  /** A request is refused exactly when a truthy timestamp is stored for the
      identifier and less than `interval` has passed since it. */
  predicate Admits(cache: map<string, int>, identifier: string, interval: int, now: int)
  {
    !(identifier in cache && cache[identifier] != 0 && now - cache[identifier] < interval)
  }

  class RateLimiter {
    var memoryCache: map<string, int>

    constructor ()
      ensures memoryCache == map[]
    {
      memoryCache := map[];
    }

    /** `rateLimit(identifier, {interval})` at time `now`; returns `success`. */
    method Limit(identifier: string, interval: Option<int>, now: int) returns (success: bool)
      modifies this
      ensures success == Admits(old(memoryCache), identifier, EffectiveInterval(interval), now)
      ensures success ==> memoryCache == old(memoryCache)[identifier := now]
      ensures !success ==> memoryCache == old(memoryCache)
    {
      var effective := if interval.Some? && interval.value != 0 then interval.value else 30000;
      if identifier in memoryCache {
        var lastRequest := memoryCache[identifier];
        if lastRequest != 0 && now - lastRequest < effective {
          return false;
        }
      }
      memoryCache := memoryCache[identifier := now];
      success := true;
    }

    /** The cleanup scheduled after an admitted request, run as an explicit event. */
    method Expire(identifier: string)
      modifies this
      ensures memoryCache == old(memoryCache) - {identifier}
    {
      memoryCache := memoryCache - {identifier};
    }
  }

  /** After an admitted request at `t`, the same identifier is admitted again from `t + interval` on. */
  lemma AdmittedAfterInterval(cache: map<string, int>, identifier: string, interval: int, t: int, later: int)
    requires later >= t + interval
    ensures Admits(cache[identifier := t], identifier, interval, later)
  {
  }

  /** Recording one identifier does not change the verdict for any other. */
  lemma OtherIdentifiersUnaffected(cache: map<string, int>, identifier: string, other: string, t: int, interval: int, now: int)
    requires other != identifier
    ensures Admits(cache[identifier := t], other, interval, now) == Admits(cache, other, interval, now)
  {
  }

  /** Right after a request at `t` with a positive interval, the same identifier is refused. */
  lemma RefusedWithinInterval(cache: map<string, int>, identifier: string, interval: int, t: int, now: int)
    requires t != 0 && t <= now < t + interval
    ensures !Admits(cache[identifier := t], identifier, interval, now)
  {
  }

  /** Once the entry has been cleaned up, the next request is admitted. */
  lemma AdmittedAfterExpiry(cache: map<string, int>, identifier: string, interval: int, now: int)
    ensures Admits(cache - {identifier}, identifier, interval, now)
  {
  }
}
