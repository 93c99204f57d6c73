/**
 * The weather app's tables: cached weather snapshots and the log of provider
 * requests, and the read-only accessors of a cached snapshot.
 */
module WeatherModels {
  import opened Wrappers
  import opened Strings
  import opened Calendar

  /**
   * A decoded JSON weather payload. `NoKeys` is the empty object `{}`, which
   * Python treats as false. The fields read by the code are the
   * WeatherAPI.com ones (`current.temp_f`, `current.condition.text`) and the
   * older ones read by the cache accessors (`main.temp`, `weather[*].description`);
   * a missing key reads as None, or as "" where the code supplies that default,
   * and a list entry without a description as "".
   */
  datatype WeatherData =
    | NoKeys
    | Payload(currentTempF: Option<int>, conditionText: string,
              mainTemp: Option<int>, descriptions: seq<string>)

  /** Python truthiness of an optional payload: None and `{}` are false. */
  predicate HasWeather(d: Option<WeatherData>) {
    d.Some? && d.value.Payload?
  }

  /** Python truthiness of an optional number: None and 0 are false. */
  predicate IsSetNumber(n: Option<int>) {
    n.Some? && n.value != 0
  }

  /** Python truthiness of an optional string: None and "" are false. */
  predicate IsSetText(s: Option<string>) {
    s.Some? && s.value != ""
  }

  /** A row of WeatherCache. */
  datatype CacheEntry = CacheEntry(zipCode: string, weatherData: WeatherData,
                                   cachedAt: Instant, expiresAt: Instant)

  datatype ApiStatus = ApiSuccess | ApiError | ApiRateLimited

  /** A row of WeatherAPILog. */
  datatype ApiLog = ApiLog(zipCode: string, status: ApiStatus, responseData: Option<WeatherData>,
                           errorMessage: Option<string>, responseTimeMs: Option<int>,
                           createdAt: Instant)

  /** `WeatherCache.is_expired`: strictly past its expiry. */
  predicate IsExpired(e: CacheEntry, now: Instant) {
    now > e.expiresAt
  }

  /** `WeatherCache.get_temperature_fahrenheit`: `main.temp`, or None. */
  function GetTemperatureFahrenheit(e: CacheEntry): (t: Option<int>)
    ensures e.weatherData.Payload? ==> t == e.weatherData.mainTemp
    ensures e.weatherData.NoKeys? ==> t.None?
  {
    match e.weatherData
    case NoKeys => None
    case Payload(_, _, mainTemp, _) => mainTemp
  }

  /** `WeatherCache.get_description`: the first description, title-cased; None when the list is empty. */
  function GetDescription(e: CacheEntry): (d: Option<string>)
    ensures d.Some? <==> e.weatherData.Payload? && e.weatherData.descriptions != []
    ensures d.Some? ==> |d.value| == |e.weatherData.descriptions[0]| && Title(d.value) == d.value
  {
    match e.weatherData
    case NoKeys => None
    case Payload(_, _, _, descriptions) =>
      if descriptions == [] then None
      else
        TitleIdempotent(descriptions[0]);
        Some(Title(descriptions[0]))
  }

  const CacheUnavailable: string := "Weather information is " + "currently unavailable."

  /** `WeatherCache.get_formatted_weather`: one sentence chosen by which of temperature and description are set. */
  function GetFormattedWeather(e: CacheEntry): string {
    var temp := GetTemperatureFahrenheit(e);
    var description := GetDescription(e);
    if IsSetNumber(temp) && IsSetText(description) then
      "The current weather is " + description.value + " with a temperature of "
        + IntToString(temp.value) + " degrees Fahrenheit."
    else if IsSetNumber(temp) then
      "The current temperature is " + IntToString(temp.value) + " degrees Fahrenheit."
    else if IsSetText(description) then
      "The current weather is " + description.value + "."
    else
      CacheUnavailable
  }

  /**
   * The formatted sentence is the fallback exactly when neither temperature
   * nor description is set (a temperature of 0 or an empty description
   * count as unset).
   */
  lemma FormattedWeatherFallback(e: CacheEntry)
    ensures GetFormattedWeather(e) == CacheUnavailable <==>
      !IsSetNumber(GetTemperatureFahrenheit(e)) && !IsSetText(GetDescription(e))
  {
    var r := GetFormattedWeather(e);
    if IsSetNumber(GetTemperatureFahrenheit(e)) || IsSetText(GetDescription(e)) {
      assert r[0] == 'T';
      assert CacheUnavailable[0] == 'W';
    }
  }

  /** A set description opens the sentence. */
  lemma FormattedWeatherDescription(e: CacheEntry)
    requires IsSetText(GetDescription(e))
    ensures "The current weather is " + GetDescription(e).value <= GetFormattedWeather(e)
  {
  }

  /** A set temperature is stated in whole degrees Fahrenheit. */
  lemma FormattedWeatherTemperature(e: CacheEntry)
    requires IsSetNumber(GetTemperatureFahrenheit(e))
    ensures Contains(GetFormattedWeather(e), IntToString(GetTemperatureFahrenheit(e).value) + " degrees Fahrenheit.")
  {
    var description := GetDescription(e);
    var tail := IntToString(GetTemperatureFahrenheit(e).value) + " degrees Fahrenheit.";
    var head := if IsSetText(description) then "The current weather is " + description.value + " with a temperature of "
                else "The current temperature is ";
    assert GetFormattedWeather(e) == head + tail;
    ContainsSuffix(head, tail);
  }
}
