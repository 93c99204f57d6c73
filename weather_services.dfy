/**
 * The weather service: a cache-first lookup of the current weather by zip code,
 * backed by one WeatherAPI.com request whose every outcome is logged.
 *
 * The provider request is not made here: its outcome is a parameter. The
 * WeatherCache table is a sequence in insertion order, so with the clock
 * moving forward its last rows are the newest (`ordering = ['-cached_at']`).
 */
module WeatherServices {
  import opened Wrappers
  import opened Strings
  import opened Calendar
  import opened Collections
  import opened WeatherModels

  /** `cache_duration_hours`. */
  const CacheDuration: int := Hours(1)

  /** What `requests.get` did: a response, or one of the three exception kinds the code catches. */
  datatype FetchOutcome =
    | Response(statusCode: int, body: WeatherData, text: string, elapsedMs: int)
    | Timeout
    | RequestFailure(reason: string)
    | Unexpected(reason: string)

  /** The two tables the service touches. */
  datatype WeatherState = WeatherState(cache: seq<CacheEntry>, apiLogs: seq<ApiLog>)

  /** `expires_at__gt=now`. */
  predicate IsLive(e: CacheEntry, now: Instant) {
    e.expiresAt > now
  }

  /** No zip code has two cache rows: every write deletes the zip's rows before inserting one. */
  ghost predicate OnePerZip(cache: seq<CacheEntry>) {
    forall i, j :: 0 <= i < j < |cache| ==> cache[i].zipCode != cache[j].zipCode
  }

  /** `_get_cached_weather`: the newest live row for the zip, if any. */
  function CachedWeather(cache: seq<CacheEntry>, zip: string, now: Instant): (r: Option<CacheEntry>)
    ensures r.Some? ==> r.value in cache && r.value.zipCode == zip && IsLive(r.value, now)
    ensures r.None? <==> forall e :: e in cache && e.zipCode == zip ==> !IsLive(e, now)
  {
    if cache == [] then None
    else
      var last := cache[|cache| - 1];
      if last.zipCode == zip && IsLive(last, now) then Some(last)
      else
        assert cache == cache[..|cache| - 1] + [last];
        CachedWeather(cache[..|cache| - 1], zip, now)
  }

  /** `_cache_weather_data`: drop the zip's rows, then insert one that expires an hour from now. */
  function Refreshed(cache: seq<CacheEntry>, zip: string, data: WeatherData, now: Instant): (r: seq<CacheEntry>)
    ensures |r| >= 1 && r[|r| - 1] == CacheEntry(zip, data, now, now + CacheDuration)
    ensures forall e :: e in r[..|r| - 1] <==> e in cache && e.zipCode != zip
  {
    Filter(cache, (e: CacheEntry) => e.zipCode != zip) + [CacheEntry(zip, data, now, now + CacheDuration)]
  }

  /** The row `WeatherAPILog.objects.create` writes. */
  function LogRow(zip: string, status: ApiStatus, data: Option<WeatherData>, message: Option<string>,
                  elapsedMs: Option<int>, now: Instant): ApiLog
  {
    ApiLog(zip, status, data, message, elapsedMs, now)
  }

  /** `_fetch_weather_data`: the value it returns and the tables afterwards. */
  function Fetch(st: WeatherState, apiKeyConfigured: bool, zip: string, now: Instant,
                 outcome: FetchOutcome): (Option<WeatherData>, WeatherState)
  {
    if !apiKeyConfigured then (None, st)
    else
      match outcome
      case Response(code, body, text, ms) =>
        if code == 200 then
          (Some(body), WeatherState(Refreshed(st.cache, zip, body, now),
                                    st.apiLogs + [LogRow(zip, ApiSuccess, Some(body), None, Some(ms), now)]))
        else if code == 429 then
          (None, st.(apiLogs := st.apiLogs
                     + [LogRow(zip, ApiRateLimited, None, Some("API rate limit exceeded"), Some(ms), now)]))
        else
          (None, st.(apiLogs := st.apiLogs
                     + [LogRow(zip, ApiError, None, Some("API error " + IntToString(code) + ": " + text),
                               Some(ms), now)]))
      case Timeout =>
        (None, st.(apiLogs := st.apiLogs + [LogRow(zip, ApiError, None, Some("API request timeout"), None, now)]))
      case RequestFailure(reason) =>
        (None, st.(apiLogs := st.apiLogs
                   + [LogRow(zip, ApiError, None, Some("API request error: " + reason), None, now)]))
      case Unexpected(reason) =>
        (None, st.(apiLogs := st.apiLogs
                   + [LogRow(zip, ApiError, None, Some("Unexpected error: " + reason), None, now)]))
  }

  /** `get_weather`: no zip, a live cache row (unless forced), or a provider fetch. */
  function Lookup(st: WeatherState, apiKeyConfigured: bool, zip: string, forceRefresh: bool,
                  now: Instant, outcome: FetchOutcome): (Option<WeatherData>, WeatherState)
  {
    if zip == "" then (None, st)
    else if !forceRefresh && CachedWeather(st.cache, zip, now).Some? then
      (Some(CachedWeather(st.cache, zip, now).value.weatherData), st)
    else Fetch(st, apiKeyConfigured, zip, now, outcome)
  }

  /** Whether a forced lookup yields weather: only a 200 whose body is a non-empty object. */
  predicate FetchSucceeds(apiKeyConfigured: bool, outcome: FetchOutcome) {
    apiKeyConfigured && outcome.Response? && outcome.statusCode == 200 && outcome.body.Payload?
  }

  /** `get_formatted_weather_announcement`, given what `get_weather` returned. */
  function Announcement(d: Option<WeatherData>): string {
    if !HasWeather(d) then CacheUnavailable
    else
      var temp := d.value.currentTempF;
      var condition := d.value.conditionText;
      if IsSetNumber(temp) && condition != "" then
        "Good morning! The current weather is " + condition + " with a temperature of "
          + IntToString(temp.value) + " degrees Fahrenheit."
      else if IsSetNumber(temp) then
        "Good morning! The current temperature is " + IntToString(temp.value) + " degrees Fahrenheit."
      else
        "Good morning! Weather information is " + "currently unavailable."
  }

  // ---- properties of the lookup ----

  /** Without a zip code nothing is read, fetched or logged. */
  lemma NoZipNoEffect(st: WeatherState, key: bool, force: bool, now: Instant, outcome: FetchOutcome)
    ensures Lookup(st, key, "", force, now, outcome) == (None, st)
  {
  }

  /** A live row answers an unforced lookup: its data is returned and no table changes. */
  lemma CacheHitIsSilent(st: WeatherState, key: bool, zip: string, now: Instant, outcome: FetchOutcome, e: CacheEntry)
    requires zip != "" && OnePerZip(st.cache)
    requires e in st.cache && e.zipCode == zip && IsLive(e, now)
    ensures Lookup(st, key, zip, false, now, outcome) == (Some(e.weatherData), st)
  {
    var c := CachedWeather(st.cache, zip, now);
    assert c.Some?;
    var i :| 0 <= i < |st.cache| && st.cache[i] == e;
    var j :| 0 <= j < |st.cache| && st.cache[j] == c.value;
    assert i == j;
  }

  /**
   * A lookup that reaches the provider logs exactly one request when the key
   * is configured and none otherwise; only a 200 touches the cache, and only
   * a 200 returns data.
   */
  lemma FetchLogsOnce(st: WeatherState, key: bool, zip: string, now: Instant, outcome: FetchOutcome)
    ensures var (r, st') := Fetch(st, key, zip, now, outcome);
      && (!key ==> r.None? && st' == st)
      && (key ==> st'.apiLogs[..|st.apiLogs|] == st.apiLogs && |st'.apiLogs| == |st.apiLogs| + 1
                  && st'.apiLogs[|st.apiLogs|].zipCode == zip && st'.apiLogs[|st.apiLogs|].createdAt == now)
      && (r.Some? <==> key && outcome.Response? && outcome.statusCode == 200)
      && (st'.cache != st.cache ==> key && outcome.Response? && outcome.statusCode == 200)
  {
  }

  /** The logged status follows the outcome: success for 200, rate-limited for 429, error otherwise. */
  lemma FetchLogStatus(st: WeatherState, zip: string, now: Instant, outcome: FetchOutcome)
    ensures var st' := Fetch(st, true, zip, now, outcome).1;
      var status := st'.apiLogs[|st'.apiLogs| - 1].status;
      && (status == ApiSuccess <==> outcome.Response? && outcome.statusCode == 200)
      && (status == ApiRateLimited <==> outcome.Response? && outcome.statusCode == 429)
  {
  }

  /** Every lookup keeps the cache at one row per zip code. */
  lemma {:induction false} LookupKeepsOnePerZip(st: WeatherState, key: bool, zip: string, force: bool,
                                                now: Instant, outcome: FetchOutcome)
    requires OnePerZip(st.cache)
    ensures OnePerZip(Lookup(st, key, zip, force, now, outcome).1.cache)
  {
    if zip != "" && (force || CachedWeather(st.cache, zip, now).None?) {
      assert Lookup(st, key, zip, force, now, outcome) == Fetch(st, key, zip, now, outcome);
      if key && outcome.Response? && outcome.statusCode == 200 {
        assert Fetch(st, key, zip, now, outcome).1.cache == Refreshed(st.cache, zip, outcome.body, now);
        RefreshedKeepsOnePerZip(st.cache, zip, outcome.body, now);
      } else {
        assert Fetch(st, key, zip, now, outcome).1.cache == st.cache;
      }
    }
  }

  lemma {:induction false} RefreshedKeepsOnePerZip(cache: seq<CacheEntry>, zip: string, data: WeatherData, now: Instant)
    requires OnePerZip(cache)
    ensures OnePerZip(Refreshed(cache, zip, data, now))
  {
    var kept := Filter(cache, (e: CacheEntry) => e.zipCode != zip);
    FilterKeepsOnePerZip(cache, (e: CacheEntry) => e.zipCode != zip);
    var r := Refreshed(cache, zip, data, now);
    assert r == kept + [CacheEntry(zip, data, now, now + CacheDuration)];
    forall i, j | 0 <= i < j < |r|
      ensures r[i].zipCode != r[j].zipCode
    {
      if j == |r| - 1 {
        assert r[i] in kept;
      }
    }
  }

  /** Deleting rows, whichever ones, keeps the cache at one row per zip code. */
  lemma {:induction false} FilterKeepsOnePerZip(cache: seq<CacheEntry>, keep: CacheEntry -> bool)
    requires OnePerZip(cache)
    ensures OnePerZip(Filter(cache, keep))
  {
    if cache != [] {
      assert OnePerZip(cache[1..]) by {
        forall i, j | 0 <= i < j < |cache[1..]|
          ensures cache[1..][i].zipCode != cache[1..][j].zipCode
        {
          assert cache[1..][i] == cache[i + 1] && cache[1..][j] == cache[j + 1];
        }
      }
      FilterKeepsOnePerZip(cache[1..], keep);
      var rest := Filter(cache[1..], keep);
      if keep(cache[0]) {
        var r := [cache[0]] + rest;
        forall i, j | 0 <= i < j < |r|
          ensures r[i].zipCode != r[j].zipCode
        {
          if i == 0 {
            assert r[j] in rest;
            var k :| 0 <= k < |cache[1..]| && cache[1..][k] == r[j];
            assert cache[k + 1] == r[j];
          } else {
            assert r[i] == rest[i - 1] && r[j] == rest[j - 1];
          }
        }
      }
    }
  }

  /**
   * A successful fetch is served from the cache by every unforced lookup of
   * the same zip within the next hour, with no further request or log.
   */
  lemma {:induction false} FetchThenHit(st: WeatherState, key: bool, zip: string, now: Instant,
                                        outcome: FetchOutcome, later: Instant, outcome2: FetchOutcome)
    requires zip != "" && key && outcome.Response? && outcome.statusCode == 200
    requires now <= later < now + CacheDuration
    ensures var st1 := Lookup(st, key, zip, true, now, outcome).1;
      Lookup(st1, key, zip, false, later, outcome2) == (Some(outcome.body), st1)
  {
    var st1 := Lookup(st, key, zip, true, now, outcome).1;
    var r := st1.cache;
    assert r == Refreshed(st.cache, zip, outcome.body, now);
    assert r == r[..|r| - 1] + [r[|r| - 1]];
  }

  /** A row with `expires_at == now` is neither served (`__gt`) nor expired (`now >`): the boundary is consistent. */
  lemma ExpiryBoundary(e: CacheEntry, now: Instant)
    ensures IsLive(e, now) ==> !IsExpired(e, now)
    ensures e.expiresAt == now ==> !IsLive(e, now) && !IsExpired(e, now)
  {
  }

  /** The announcement is the plain fallback exactly when there is no weather. */
  lemma AnnouncementFallback(d: Option<WeatherData>)
    ensures (Announcement(d) == CacheUnavailable) <==> !HasWeather(d)
  {
    if HasWeather(d) {
      AnnouncementOpensWithG(d);
      assert CacheUnavailable[0] == 'W';
    }
  }

  /** With weather, a set temperature is named in whole degrees Fahrenheit. */
  lemma AnnouncementTemperature(d: Option<WeatherData>)
    requires HasWeather(d) && IsSetNumber(d.value.currentTempF)
    ensures Contains(Announcement(d), IntToString(d.value.currentTempF.value) + " degrees Fahrenheit.")
  {
    var condition := d.value.conditionText;
    var tail := IntToString(d.value.currentTempF.value) + " degrees Fahrenheit.";
    var head := if condition != "" then "Good morning! The current weather is " + condition + " with a temperature of "
                else "Good morning! The current temperature is ";
    assert Announcement(d) == head + tail;
    ContainsSuffix(head, tail);
  }

  /** With weather but no temperature (0 counts as none) the announcement is the greeting-prefixed fallback. */
  lemma AnnouncementWithoutTemperature(d: Option<WeatherData>)
    requires HasWeather(d) && !IsSetNumber(d.value.currentTempF)
    ensures Announcement(d) == "Good morning! Weather information is " + "currently unavailable."
  {
  }

  lemma AnnouncementOpensWithG(d: Option<WeatherData>)
    requires HasWeather(d)
    ensures Announcement(d)[0] == 'G'
  {
    var gm := "Good morning! ";
    assert gm[0] == 'G';
  }

  /** `WeatherService`: the two tables, with the API key fixed at construction. */
  class WeatherService {
    const apiKeyConfigured: bool
    var cache: seq<CacheEntry>
    var apiLogs: seq<ApiLog>

    ghost predicate Valid()
      reads this
    {
      OnePerZip(cache)
    }

    function State(): WeatherState
      reads this
    {
      WeatherState(cache, apiLogs)
    }

    constructor(apiKeyConfigured: bool, cache: seq<CacheEntry>, apiLogs: seq<ApiLog>)
      requires OnePerZip(cache)
      ensures Valid()
      ensures this.apiKeyConfigured == apiKeyConfigured && this.cache == cache && this.apiLogs == apiLogs
    {
      this.apiKeyConfigured := apiKeyConfigured;
      this.cache := cache;
      this.apiLogs := apiLogs;
    }

    /** `_cache_weather_data`. */
    method CacheWeatherData(zip: string, data: WeatherData, now: Instant)
      requires Valid()
      modifies this
      ensures Valid()
      ensures cache == Refreshed(old(cache), zip, data, now) && apiLogs == old(apiLogs)
    {
      RefreshedKeepsOnePerZip(cache, zip, data, now);
      cache := Filter(cache, (e: CacheEntry) => e.zipCode != zip);
      cache := cache + [CacheEntry(zip, data, now, now + CacheDuration)];
    }

    /** `_fetch_weather_data`. */
    method FetchWeatherData(zip: string, now: Instant, outcome: FetchOutcome) returns (r: Option<WeatherData>)
      requires Valid()
      modifies this
      ensures Valid()
      ensures (r, State()) == Fetch(old(State()), apiKeyConfigured, zip, now, outcome)
    {
      if !apiKeyConfigured {
        return None;
      }
      match outcome
      case Response(code, body, text, ms) =>
        if code == 200 {
          apiLogs := apiLogs + [LogRow(zip, ApiSuccess, Some(body), None, Some(ms), now)];
          CacheWeatherData(zip, body, now);
          r := Some(body);
        } else if code == 429 {
          apiLogs := apiLogs + [LogRow(zip, ApiRateLimited, None, Some("API rate limit exceeded"), Some(ms), now)];
          r := None;
        } else {
          apiLogs := apiLogs + [LogRow(zip, ApiError, None, Some("API error " + IntToString(code) + ": " + text),
                                       Some(ms), now)];
          r := None;
        }
      case Timeout =>
        apiLogs := apiLogs + [LogRow(zip, ApiError, None, Some("API request timeout"), None, now)];
        r := None;
      case RequestFailure(reason) =>
        apiLogs := apiLogs + [LogRow(zip, ApiError, None, Some("API request error: " + reason), None, now)];
        r := None;
      case Unexpected(reason) =>
        apiLogs := apiLogs + [LogRow(zip, ApiError, None, Some("Unexpected error: " + reason), None, now)];
        r := None;
    }

    /** `get_weather`. */
    method GetWeather(zip: string, forceRefresh: bool, now: Instant, outcome: FetchOutcome)
      returns (r: Option<WeatherData>)
      requires Valid()
      modifies this
      ensures Valid()
      ensures (r, State()) == Lookup(old(State()), apiKeyConfigured, zip, forceRefresh, now, outcome)
    {
      if zip == "" {
        return None;
      }
      if !forceRefresh {
        var cached := CachedWeather(cache, zip, now);
        if cached.Some? {
          return Some(cached.value.weatherData);
        }
      }
      r := FetchWeatherData(zip, now, outcome);
    }

    /** `get_formatted_weather_announcement`. */
    method GetFormattedWeatherAnnouncement(zip: string, now: Instant, outcome: FetchOutcome)
      returns (s: string)
      requires Valid()
      modifies this
      ensures Valid()
      ensures var (d, st) := Lookup(old(State()), apiKeyConfigured, zip, false, now, outcome);
        s == Announcement(d) && State() == st
    {
      var d := GetWeather(zip, false, now, outcome);
      s := Announcement(d);
    }
  }
}
