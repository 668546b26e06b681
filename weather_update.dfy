/** The update of the dashboard's weather record from one weather-API
    response: the record's fields are overwritten one by one, and a step that
    raises stops the update, leaving the fields written before it in place. */
module WeatherUpdate {
  import opened Wrappers
  import opened WeatherCodes
  import opened Moon
  import opened Scene
  import opened Forecast

  /** The `current` block of the response. Readings are already rounded. */
  datatype Current = Current(temperature: int, windSpeed: int, weatherCode: Option<int>, isDay: Option<int>)

  /** The `daily` block: one list per quantity; the first entry is today's.
      A missing list and an empty list both make the lookup raise. */
  datatype Daily = Daily(maxTemp: seq<int>, minTemp: seq<int>, uvIndex: seq<int>, rainProb: seq<int>)

  /** The `hourly` block: lists indexed by hour of the day, each possibly missing. */
  datatype Hourly = Hourly(
    temperature: Option<seq<int>>,
    weatherCode: Option<seq<int>>,
    time: Option<seq<string>>,
    apparentTemperature: Option<seq<int>>,
    humidity: Option<seq<int>>)

  /** A decoded response; a block the response lacks is `None`. */
  datatype Response = Response(current: Option<Current>, daily: Option<Daily>, hourly: Option<Hourly>)

  /** The weather code, 0 when the response has none. */
  function CodeOf(c: Current): int { c.weatherCode.GetOr(0) }

  /** The day flag, 1 (day) when the response has none. */
  function DayFlagOf(c: Current): int { c.isDay.GetOr(1) }

  /** A snapshot of the weather record's fields. */
  datatype Weather = Weather(
    tempC: int, windKmh: int, condition: string,
    bgImage: string, theme: string, icon: Icon,
    maxTempC: int, minTempC: int, uvIndex: int, rainProb: int,
    feelsLikeC: int, humidity: int, hourlyForecast: seq<Slot>)

  /** The record after the `current` block has been applied. */
  function WithCurrent(w: Weather, c: Current, phase: real): Weather {
    var t := ThemeFor(CodeOf(c), DayFlagOf(c));
    w.(tempC := c.temperature, windKmh := c.windSpeed,
       condition := Label(CodeToCondition(CodeOf(c))),
       bgImage := Background(t), theme := t.Name(),
       icon := IconFor(CodeOf(c), DayFlagOf(c), phase))
  }

  /** How many of the four daily lists, in the order they are read, have a
      first entry before the first one that does not. */
  function DailyReached(d: Daily): nat {
    if |d.maxTemp| == 0 then 0
    else if |d.minTemp| == 0 then 1
    else if |d.uvIndex| == 0 then 2
    else if |d.rainProb| == 0 then 3
    else 4
  }

  /** The record after the `daily` block: the fields read before the first
      missing entry are updated, the others are kept. */
  function WithDaily(w: Weather, d: Daily): Weather {
    var n := DailyReached(d);
    w.(maxTempC := if n >= 1 then d.maxTemp[0] else w.maxTempC,
       minTempC := if n >= 2 then d.minTemp[0] else w.minTempC,
       uvIndex := if n >= 3 then d.uvIndex[0] else w.uvIndex,
       rainProb := if n >= 4 then d.rainProb[0] else w.rainProb)
  }

  /** The value at `hour` of an optional hourly list, or `previous` when the
      list is missing or too short. */
  function AtHourOr(list: Option<seq<int>>, hour: nat, previous: int): int {
    if list.Some? && hour < |list.value| then list.value[hour] else previous
  }

  /** The indices of the forecast slots for this response and hour. */
  function ForecastIndices(h: Hourly, hour: nat): seq<nat> {
    Selected(hour, Offsets, h.temperature.GetOr([]), h.weatherCode.GetOr([]))
  }

  /** The forecast loop completes: every selected slot has a time stamp. */
  predicate ForecastCompletes(h: Hourly, hour: nat) {
    TimesCover(ForecastIndices(h, hour), h.time.GetOr([]))
  }

  /** The record after the `hourly` block. The forecast is replaced only when
      the loop completes with at least one slot. */
  function WithHourly(w: Weather, h: Hourly, hour: nat): Weather {
    var sel := ForecastIndices(h, hour);
    w.(feelsLikeC := AtHourOr(h.apparentTemperature, hour, w.feelsLikeC),
       humidity := AtHourOr(h.humidity, hour, w.humidity),
       hourlyForecast :=
         if ForecastCompletes(h, hour) && sel != []
         then Slots(sel, h.temperature.GetOr([]), h.weatherCode.GetOr([]), h.time.GetOr([]))
         else w.hourlyForecast)
  }

  /** Whether the whole update runs without raising. */
  predicate UpdateCompletes(api: Option<Response>, hour: nat) {
    && api.Some? && api.value.current.Some?
    && (api.value.daily.Some? ==> DailyReached(api.value.daily.value) == 4)
    && (api.value.hourly.Some? ==> ForecastCompletes(api.value.hourly.value, hour))
  }

  /** The record after the whole update. `api` is `None` when fetching or
      decoding the response failed. */
  function Updated(w: Weather, api: Option<Response>, hour: nat, phase: real): Weather {
    if api.None? || api.value.current.None? then w
    else
      var r := api.value;
      var w1 := WithCurrent(w, r.current.value, phase);
      if r.daily.None? then
        if r.hourly.None? then w1 else WithHourly(w1, r.hourly.value, hour)
      else
        var w2 := WithDaily(w1, r.daily.value);
        if DailyReached(r.daily.value) < 4 || r.hourly.None? then w2
        else WithHourly(w2, r.hourly.value, hour)
  }

  /** The dashboard's weather record, updated in place. */
  class WeatherRecord {
    var tempC: int
    var windKmh: int
    var condition: string
    var bgImage: string
    var theme: string
    var icon: Icon
    var maxTempC: int
    var minTempC: int
    var uvIndex: int
    var rainProb: int
    var feelsLikeC: int
    var humidity: int
    var hourlyForecast: seq<Slot>

    function View(): Weather
      reads this
    {
      Weather(tempC, windKmh, condition, bgImage, theme, icon,
              maxTempC, minTempC, uvIndex, rainProb, feelsLikeC, humidity, hourlyForecast)
    }

    /** A record holding the values read back from the data file. */
    constructor (w: Weather)
      ensures View() == w
    {
      tempC, windKmh, condition := w.tempC, w.windKmh, w.condition;
      bgImage, theme, icon := w.bgImage, w.theme, w.icon;
      maxTempC, minTempC, uvIndex, rainProb := w.maxTempC, w.minTempC, w.uvIndex, w.rainProb;
      feelsLikeC, humidity, hourlyForecast := w.feelsLikeC, w.humidity, w.hourlyForecast;
    }

    /** Writes temperature, wind, condition, background, theme and icon from
        the `current` block. */
    method ApplyCurrent(c: Current, phase: real)
      modifies this
      ensures View() == WithCurrent(old(View()), c, phase)
    {
      ghost var w := WithCurrent(View(), c, phase);
      var code := CodeOf(c);
      var isDay := DayFlagOf(c);
      tempC := c.temperature;
      windKmh := c.windSpeed;
      condition := Label(CodeToCondition(code));
      var bg, t := SelectScene(code, isDay);
      bgImage := bg;
      theme := t.Name();
      if isDay == 0 && code in ClearCodes {
        icon := MoonPhaseIcon(phase);
      } else {
        icon := CodeToIcon(code);
      }
      assert icon == IconFor(code, isDay, phase) == w.icon;
      assert t == ThemeFor(code, isDay) && bg == Background(t);
      assert bgImage == w.bgImage && theme == w.theme && condition == w.condition;
      assert View() == w;
    }

    /** Writes today's maximum, minimum, UV index and rain probability, in
        that order; `ok` is false when a list has no first entry, at which
        point the script raises. */
    method ApplyDaily(d: Daily) returns (ok: bool)
      modifies this
      ensures ok == (DailyReached(d) == 4)
      ensures View() == WithDaily(old(View()), d)
    {
      if |d.maxTemp| == 0 { return false; }
      maxTempC := d.maxTemp[0];
      if |d.minTemp| == 0 { return false; }
      minTempC := d.minTemp[0];
      if |d.uvIndex| == 0 { return false; }
      uvIndex := d.uvIndex[0];
      if |d.rainProb| == 0 { return false; }
      rainProb := d.rainProb[0];
      ok := true;
    }

    /** Writes feels-like and humidity when their lists reach the current
        hour, then the forecast when the loop yields at least one slot; `ok`
        is false when the loop raises. */
    method ApplyHourly(h: Hourly, hour: nat) returns (ok: bool)
      modifies this
      ensures ok == ForecastCompletes(h, hour)
      ensures View() == WithHourly(old(View()), h, hour)
    {
      if h.apparentTemperature.Some? && hour < |h.apparentTemperature.value| {
        feelsLikeC := h.apparentTemperature.value[hour];
      }
      if h.humidity.Some? && hour < |h.humidity.value| {
        humidity := h.humidity.value[hour];
      }
      var forecast;
      forecast, ok := BuildForecast(hour, h.temperature.GetOr([]), h.weatherCode.GetOr([]), h.time.GetOr([]));
      if !ok { return; }
      if forecast != [] {
        hourlyForecast := forecast;
      }
    }

    /** The weather part of the script's update. `ok` is false when a step
        raised; the script then reports the failure and carries on. */
    method Update(api: Option<Response>, hour: nat, phase: real) returns (ok: bool)
      modifies this
      ensures ok == UpdateCompletes(api, hour)
      ensures View() == Updated(old(View()), api, hour, phase)
    {
      if api.None? || api.value.current.None? { return false; }
      var r := api.value;
      ApplyCurrent(r.current.value, phase);
      ok := true;
      if r.daily.Some? {
        ok := ApplyDaily(r.daily.value);
        if !ok { return; }
      }
      if r.hourly.Some? {
        ok := ApplyHourly(r.hourly.value, hour);
      }
    }
  }

  /** A failed fetch or a response without a `current` block changes nothing. */
  lemma FailedFetchKeepsRecord(w: Weather, api: Option<Response>, hour: nat, phase: real)
    requires api.None? || api.value.current.None?
    ensures Updated(w, api, hour, phase) == w
  {
  }

  /** Whenever the `current` block is present, the theme and background come
      from one rule, the night override holds whatever the code, and the icon
      is a moon exactly on a clear or mainly clear night. */
  lemma CurrentBlockDecides(w: Weather, r: Response, hour: nat, phase: real)
    requires r.current.Some?
    ensures var u := Updated(w, Some(r), hour, phase);
            var c := r.current.value;
            && u.condition == Label(CodeToCondition(CodeOf(c)))
            && (exists t: Theme :: u.theme == t.Name() && u.bgImage == Background(t))
            && (DayFlagOf(c) == 0 ==> u.theme == "night" && u.bgImage == "images/weather_night.png")
            && (u.icon.IsMoon() <==> DayFlagOf(c) == 0 && CodeOf(c) in ClearCodes)
  {
  }

  /** Feels-like and humidity keep their previous values unless the hourly
      list exists and reaches the current hour. */
  lemma HourlyFieldsGuarded(w: Weather, h: Hourly, hour: nat)
    ensures var u := WithHourly(w, h, hour);
            && (u.feelsLikeC != w.feelsLikeC ==>
                  h.apparentTemperature.Some? && hour < |h.apparentTemperature.value|)
            && (u.humidity != w.humidity ==> h.humidity.Some? && hour < |h.humidity.value|)
  {
  }

  /** The forecast field changes only to a non-empty list of at most three
      slots, one per selected index, each with its code's table icon. */
  lemma ForecastWrittenWhenNonEmpty(w: Weather, h: Hourly, hour: nat)
    requires WithHourly(w, h, hour).hourlyForecast != w.hourlyForecast
    ensures var f := WithHourly(w, h, hour).hourlyForecast;
            var codes := h.weatherCode.GetOr([]);
            var sel := ForecastIndices(h, hour);
            && 1 <= |f| <= 3 && |f| == |sel|
            && forall i :: 0 <= i < |f| ==> f[i].icon == CodeToIcon(codes[sel[i]])
  {
  }
}
