/**
 * The weather app's periodic jobs: deleting expired cache rows and old API
 * log rows, and refreshing the weather of every zip code an active call
 * announces.
 */
module WeatherTasks {
  import opened Wrappers
  import opened Calendar
  import opened Collections
  import opened AccountsModels
  import opened WeatherModels
  import opened WeatherServices
  import opened WakeUpModels

  // ---- cleanup ----

  /** `expires_at__lt=now`: the rows `cleanup_expired_weather_cache` deletes. */
  function ExpiredBy(now: Instant): CacheEntry -> bool {
    (e: CacheEntry) => e.expiresAt < now
  }

  function UnexpiredBy(now: Instant): CacheEntry -> bool {
    (e: CacheEntry) => !(e.expiresAt < now)
  }

  /** `cleanup_expired_weather_cache`: delete exactly the rows that expired before `now`, and count them. */
  method CleanupExpiredWeatherCache(weather: WeatherService, now: Instant) returns (deletedCount: nat)
    requires weather.Valid()
    modifies weather
    ensures weather.Valid()
    ensures weather.cache == Filter(old(weather.cache), UnexpiredBy(now)) && weather.apiLogs == old(weather.apiLogs)
    ensures deletedCount == |Filter(old(weather.cache), ExpiredBy(now))|
  {
    var kept := Filter(weather.cache, UnexpiredBy(now));
    FilterKeepsOnePerZip(weather.cache, UnexpiredBy(now));
    FilterCountsComplement(weather.cache, UnexpiredBy(now), ExpiredBy(now));
    deletedCount := |weather.cache| - |kept|;
    weather.cache := kept;
  }

  /**
   * The cleanup never changes what a lookup at `now` or later finds: the
   * rows it deletes had already stopped being served.
   */
  lemma {:induction false} CleanupKeepsLookups(cache: seq<CacheEntry>, zip: string, now: Instant, later: Instant)
    requires now <= later
    ensures CachedWeather(Filter(cache, UnexpiredBy(now)), zip, later) == CachedWeather(cache, zip, later)
    decreases |cache|
  {
    if cache != [] {
      var n := |cache| - 1;
      var prefix, last := cache[..n], cache[n];
      assert cache == prefix + [last];
      FilterAppend(prefix, [last], UnexpiredBy(now));
      CleanupKeepsLookups(prefix, zip, now, later);
      var kept := Filter(prefix, UnexpiredBy(now));
      if UnexpiredBy(now)(last) {
        assert Filter([last], UnexpiredBy(now)) == [last];
        assert (kept + [last])[..|kept|] == kept;
      } else {
        assert Filter([last], UnexpiredBy(now)) == [];
        assert kept + [] == kept;
      }
    }
  }

  /** `created_at__lt=cutoff`: the API log rows `cleanup_old_weather_api_logs` deletes. */
  function LoggedBefore(cutoff: Instant): ApiLog -> bool {
    (l: ApiLog) => l.createdAt < cutoff
  }

  function LoggedSince(cutoff: Instant): ApiLog -> bool {
    (l: ApiLog) => !(l.createdAt < cutoff)
  }

  /** `cleanup_old_weather_api_logs`: delete exactly the log rows written more than 30 days ago, and count them. */
  method CleanupOldWeatherApiLogs(weather: WeatherService, now: Instant) returns (deletedCount: nat)
    requires weather.Valid()
    modifies weather
    ensures weather.Valid()
    ensures weather.apiLogs == Filter(old(weather.apiLogs), LoggedSince(now - Days(30)))
    ensures weather.cache == old(weather.cache)
    ensures deletedCount == |Filter(old(weather.apiLogs), LoggedBefore(now - Days(30)))|
  {
    var cutoff := now - Days(30);
    var kept := Filter(weather.apiLogs, LoggedSince(cutoff));
    FilterCountsComplement(weather.apiLogs, LoggedSince(cutoff), LoggedBefore(cutoff));
    deletedCount := |weather.apiLogs| - |kept|;
    weather.apiLogs := kept;
  }

  /** A log row survives the cleanup exactly when it is at most 30 days old. */
  lemma ApiLogCleanupKeeps(logs: seq<ApiLog>, now: Instant, l: ApiLog)
    ensures l in Filter(logs, LoggedSince(now - Days(30))) <==> l in logs && l.createdAt >= now - Days(30)
  {
  }

  // ---- prefetch ----

  /** The zip code a call announces: its own, else its owner's. */
  function CallZip(calls: map<nat, WakeUpCall>, users: map<nat, User>, id: nat): string
    requires id in calls && calls[id].userId in users
  {
    GetWeatherZipCode(calls[id], users[calls[id].userId].zipCode)
  }

  /** The zip codes of the active, weather-enabled calls among `ids`, blanks left out. */
  function PrefetchZips(calls: map<nat, WakeUpCall>, users: map<nat, User>, ids: set<nat>): set<string>
    requires forall id :: id in calls ==> calls[id].userId in users
  {
    set id | id in ids && id in calls && calls[id].status == Active && calls[id].includeWeather
               && CallZip(calls, users, id) != "" :: CallZip(calls, users, id)
  }

  /**
   * The first loop of `prefetch_weather_for_active_calls`: for each active,
   * weather-enabled call, its own zip if set, else its owner's if set.
   */
  method UniqueZipCodes(calls: map<nat, WakeUpCall>, users: map<nat, User>) returns (zips: set<string>)
    requires forall id :: id in calls ==> calls[id].userId in users
    ensures zips == PrefetchZips(calls, users, calls.Keys)
    ensures "" !in zips
  {
    zips := {};
    var remaining := calls.Keys;
    while remaining != {}
      invariant remaining <= calls.Keys
      invariant zips == PrefetchZips(calls, users, calls.Keys - remaining)
      decreases |remaining|
    {
      var id :| id in remaining;
      var c := calls[id];
      if c.status == Active && c.includeWeather {
        var userZip := users[c.userId].zipCode;
        if c.weatherZipCode != "" {
          zips := zips + {c.weatherZipCode};
        } else if userZip != "" {
          zips := zips + {userZip};
        }
      }
      remaining := remaining - {id};
    }
  }

  /** A zip code is prefetched exactly when some active, weather-enabled call announces it. */
  lemma PrefetchZipsMembers(calls: map<nat, WakeUpCall>, users: map<nat, User>, z: string)
    requires forall id :: id in calls ==> calls[id].userId in users
    ensures z in PrefetchZips(calls, users, calls.Keys) <==>
      z != "" && exists id :: id in calls && calls[id].status == Active && calls[id].includeWeather
                             && CallZip(calls, users, id) == z
  {
  }

  /** A forced fetch that writes the cache. */
  predicate Refreshes(key: bool, outcome: FetchOutcome) {
    key && outcome.Response? && outcome.statusCode == 200
  }

  /** The zips among `done` whose forced fetch returned weather. */
  function Succeeded(done: set<string>, key: bool, outcomes: string -> FetchOutcome): set<string> {
    set z | z in done && FetchSucceeds(key, outcomes(z))
  }

  /** A zip among `done` whose forced fetch wrote the cache. */
  predicate FreshIn(done: set<string>, key: bool, outcomes: string -> FetchOutcome, z: string) {
    z in done && Refreshes(key, outcomes(z))
  }

  /**
   * The prefetch's account after the zips in `done`: the count of those that
   * returned weather, one log row each (when the key is set) appended to
   * the old ones, and the cache: each zip that got a 200 has exactly its
   * fresh row (its stale rows are gone), every other zip keeps its rows,
   * and no other row appears.
   */
  ghost predicate PrefetchSoFar(st0: WeatherState, st: WeatherState, key: bool, done: set<string>, count: nat,
                                now: Instant, outcomes: string -> FetchOutcome)
  {
    && count == |Succeeded(done, key, outcomes)|
    && |st.apiLogs| == |st0.apiLogs| + (if key then |done| else 0) && st.apiLogs[..|st0.apiLogs|] == st0.apiLogs
    && CacheSoFar(st0.cache, st.cache, key, done, now, outcomes)
  }

  /** The cache part of `PrefetchSoFar`. */
  ghost predicate CacheSoFar(cache0: seq<CacheEntry>, cache: seq<CacheEntry>, key: bool, done: set<string>,
                             now: Instant, outcomes: string -> FetchOutcome)
  {
    && (forall z :: FreshIn(done, key, outcomes, z) ==>
          CacheEntry(z, outcomes(z).body, now, now + CacheDuration) in cache)
    && (forall e :: e in cache0 && !FreshIn(done, key, outcomes, e.zipCode) ==> e in cache)
    && (forall e :: e in cache ==>
          if FreshIn(done, key, outcomes, e.zipCode)
          then e == CacheEntry(e.zipCode, outcomes(e.zipCode).body, now, now + CacheDuration)
          else e in cache0)
  }

  /** A zip whose fetch wrote the cache replaces its rows by its fresh one. */
  lemma CacheStepRefresh(cache0: seq<CacheEntry>, cache: seq<CacheEntry>, key: bool, done: set<string>, z: string,
                         now: Instant, outcomes: string -> FetchOutcome)
    requires CacheSoFar(cache0, cache, key, done, now, outcomes)
    requires z !in done && Refreshes(key, outcomes(z))
    ensures CacheSoFar(cache0, Refreshed(cache, z, outcomes(z).body, now), key, done + {z}, now, outcomes)
  {
    var done' := done + {z};
    var cache' := Refreshed(cache, z, outcomes(z).body, now);
    var newRow := CacheEntry(z, outcomes(z).body, now, now + CacheDuration);
    var tail := cache'[..|cache'| - 1];
    assert cache' == tail + [newRow];
    forall y | FreshIn(done', key, outcomes, y)
      ensures CacheEntry(y, outcomes(y).body, now, now + CacheDuration) in cache'
    {
      if y != z {
        assert CacheEntry(y, outcomes(y).body, now, now + CacheDuration) in tail;
      }
    }
    forall e | e in cache0 && !FreshIn(done', key, outcomes, e.zipCode)
      ensures e in cache'
    {
      assert e in tail;
    }
    forall e | e in cache'
      ensures if FreshIn(done', key, outcomes, e.zipCode)
        then e == CacheEntry(e.zipCode, outcomes(e.zipCode).body, now, now + CacheDuration)
        else e in cache0
    {
      if e !in tail {
        assert e == newRow;
      } else {
        assert e in cache && e.zipCode != z;
      }
    }
  }

  /** A zip whose fetch did not write the cache leaves the account of the cache as it was. */
  lemma CacheStepKeep(cache0: seq<CacheEntry>, cache: seq<CacheEntry>, key: bool, done: set<string>, z: string,
                      now: Instant, outcomes: string -> FetchOutcome)
    requires CacheSoFar(cache0, cache, key, done, now, outcomes)
    requires !Refreshes(key, outcomes(z))
    ensures CacheSoFar(cache0, cache, key, done + {z}, now, outcomes)
  {
    assert forall y :: FreshIn(done + {z}, key, outcomes, y) == FreshIn(done, key, outcomes, y);
  }

  /** A forced lookup of a non-blank zip returns weather exactly when the fetch succeeds. */
  lemma ForcedLookup(st: WeatherState, key: bool, z: string, now: Instant, outcome: FetchOutcome)
    requires z != ""
    ensures var (r, st') := Lookup(st, key, z, true, now, outcome);
      && (HasWeather(r) <==> FetchSucceeds(key, outcome))
      && (key ==> |st'.apiLogs| == |st.apiLogs| + 1 && st'.apiLogs[..|st.apiLogs|] == st.apiLogs)
      && (!key ==> st' == st)
      && (Refreshes(key, outcome) ==> st'.cache == Refreshed(st.cache, z, outcome.body, now))
      && (!Refreshes(key, outcome) ==> st'.cache == st.cache)
  {
    FetchLogsOnce(st, key, z, now, outcome);
  }

  /** One more zip fetched: the count, the log and the cache as `PrefetchSoFar` states them. */
  lemma PrefetchStep(st0: WeatherState, st: WeatherState, st': WeatherState, key: bool, done: set<string>,
                     count: nat, z: string, r: Option<WeatherData>, now: Instant, outcomes: string -> FetchOutcome)
    requires PrefetchSoFar(st0, st, key, done, count, now, outcomes)
    requires z != "" && z !in done && (r, st') == Lookup(st, key, z, true, now, outcomes(z))
    ensures PrefetchSoFar(st0, st', key, done + {z}, if HasWeather(r) then count + 1 else count, now, outcomes)
  {
    ForcedLookup(st, key, z, now, outcomes(z));
    var done' := done + {z};
    if FetchSucceeds(key, outcomes(z)) {
      assert Succeeded(done', key, outcomes) == Succeeded(done, key, outcomes) + {z};
    } else {
      assert Succeeded(done', key, outcomes) == Succeeded(done, key, outcomes);
    }
    if key {
      assert st'.apiLogs[..|st0.apiLogs|] == st'.apiLogs[..|st.apiLogs|][..|st0.apiLogs|];
    }
    if Refreshes(key, outcomes(z)) {
      CacheStepRefresh(st0.cache, st.cache, key, done, z, now, outcomes);
    } else {
      CacheStepKeep(st0.cache, st.cache, key, done, z, now, outcomes);
    }
  }

  /** One turn of the fetching loop. */
  method PrefetchOne(weather: WeatherService, ghost st0: WeatherState, ghost done: set<string>, count: nat,
                     z: string, now: Instant, outcomes: string -> FetchOutcome)
    returns (count': nat)
    requires weather.Valid() && z != "" && z !in done
    requires PrefetchSoFar(st0, weather.State(), weather.apiKeyConfigured, done, count, now, outcomes)
    modifies weather
    ensures weather.Valid()
    ensures PrefetchSoFar(st0, weather.State(), weather.apiKeyConfigured, done + {z}, count', now, outcomes)
  {
    ghost var st := weather.State();
    var data := weather.GetWeather(z, true, now, outcomes(z));
    PrefetchStep(st0, st, weather.State(), weather.apiKeyConfigured, done, count, z, data, now, outcomes);
    count' := if HasWeather(data) then count + 1 else count;
  }

  /**
   * The second loop of `prefetch_weather_for_active_calls`: a forced lookup
   * of each zip, counting those that returned weather. `outcomes` gives the
   * provider's answer for each zip.
   */
  method FetchEach(weather: WeatherService, zips: set<string>, now: Instant, outcomes: string -> FetchOutcome)
    returns (fetchedCount: nat)
    requires weather.Valid() && "" !in zips
    modifies weather
    ensures weather.Valid()
    ensures PrefetchSoFar(old(weather.State()), weather.State(), weather.apiKeyConfigured, zips, fetchedCount, now,
                          outcomes)
  {
    ghost var st0 := weather.State();
    var remaining := zips;
    ghost var done: set<string> := {};
    fetchedCount := 0;
    assert Succeeded(done, weather.apiKeyConfigured, outcomes) == {};
    while remaining != {}
      invariant weather.Valid()
      invariant remaining <= zips && done == zips - remaining
      invariant PrefetchSoFar(st0, weather.State(), weather.apiKeyConfigured, done, fetchedCount, now, outcomes)
      decreases |remaining|
    {
      var z :| z in remaining;
      fetchedCount := PrefetchOne(weather, st0, done, fetchedCount, z, now, outcomes);
      remaining := remaining - {z};
      done := done + {z};
    }
    assert done == zips;
  }

  /** `prefetch_weather_for_active_calls`: collect the zip codes, then fetch each one. */
  method PrefetchWeatherForActiveCalls(weather: WeatherService, calls: map<nat, WakeUpCall>, users: map<nat, User>,
                                       now: Instant, outcomes: string -> FetchOutcome)
    returns (fetchedCount: nat)
    requires weather.Valid() && forall id :: id in calls ==> calls[id].userId in users
    modifies weather
    ensures weather.Valid()
    ensures PrefetchSoFar(old(weather.State()), weather.State(), weather.apiKeyConfigured,
                          PrefetchZips(calls, users, calls.Keys), fetchedCount, now, outcomes)
  {
    var zips := UniqueZipCodes(calls, users);
    fetchedCount := FetchEach(weather, zips, now, outcomes);
  }
}
