/** The background image, colour theme and icon chosen from the current
    weather code and the day/night flag. */
module Scene {
  import opened WeatherCodes
  import opened Moon

  datatype Theme = Day | Rainy | Cloudy | Night {
    /** The theme name written to the dashboard. */
    function Name(): string {
      match this
      case Day => "day"
      case Rainy => "rain"
      case Cloudy => "cloudy"
      case Night => "night"
    }
  }

  /** The background image that goes with each theme. */
  function Background(t: Theme): string {
    match t
    case Day => "images/weather_sunny.png"
    case Rainy => "images/weather_rainy.png"
    case Cloudy => "images/weather_cloudy.png"
    case Night => "images/weather_night.png"
  }

  /** Drizzle, rain, showers and thunderstorm codes. */
  const RainCodes: set<int> := {51, 53, 55, 61, 63, 65, 80, 81, 82, 95, 96, 99}

  /** Partly cloudy, overcast and fog codes. */
  const CloudyCodes: set<int> := {2, 3, 45, 48}

  /** The clear and mainly clear codes, shown with a moon at night. */
  const ClearCodes: set<int> := {0, 1}

  /** The theme rule, stated as precedence: night first, then rain, then
      cloud, then the day default. */
  function ThemeFor(code: int, isDay: int): Theme {
    if isDay == 0 then Night
    else if code in RainCodes then Rainy
    else if code in CloudyCodes then Cloudy
    else Day
  }

  /** Selects background and theme the way the script does: start from the
      day default, let rain or cloud override it, then let night override all. */
  method SelectScene(code: int, isDay: int) returns (bgImage: string, theme: Theme)
    ensures theme == ThemeFor(code, isDay)
    ensures bgImage == Background(theme)
  {
    bgImage := "images/weather_sunny.png";
    theme := Day;
    if code in RainCodes {
      bgImage := "images/weather_rainy.png";
      theme := Rainy;
    } else if code in CloudyCodes {
      bgImage := "images/weather_cloudy.png";
      theme := Cloudy;
    }
    if isDay == 0 {
      bgImage := "images/weather_night.png";
      theme := Night;
    }
  }

  /** Night is chosen exactly when the flag is 0, whatever the code; in
      daytime each theme is chosen exactly for its own codes. */
  lemma ThemeCases(code: int, isDay: int)
    ensures ThemeFor(code, isDay) == Night <==> isDay == 0
    ensures isDay != 0 ==> (ThemeFor(code, isDay) == Rainy <==> code in RainCodes)
    ensures isDay != 0 ==> (ThemeFor(code, isDay) == Cloudy <==> code in CloudyCodes)
    ensures isDay != 0 ==> (ThemeFor(code, isDay) == Day <==> code !in RainCodes + CloudyCodes)
  {
  }

  /** No code is both rainy and cloudy, so the order of those two tests
      never decides anything. */
  lemma RainAndCloudDisjoint()
    ensures RainCodes !! CloudyCodes
  {
  }

  /** The icon rule: a moon-phase icon at night when the sky is clear or
      mainly clear, the code's table icon otherwise. */
  function IconFor(code: int, isDay: int, phase: real): (r: Icon)
    ensures r.IsMoon() <==> isDay == 0 && code in ClearCodes
    ensures !r.IsMoon() ==> r == CodeToIcon(code)
  {
    if isDay == 0 && code in ClearCodes then MoonPhaseIcon(phase) else CodeToIcon(code)
  }

  /** On a clear night the icon is the moon of the nearest eighth of the cycle. */
  lemma ClearNightIcon(code: int, phase: real)
    requires code in ClearCodes && 0.0 <= phase < 1.0
    ensures IconFor(code, 0, phase) == MoonCycle[NearestEighth(phase)]
  {
  }

  /** In daytime, a rain-theme code shows a rain or storm icon and a
      cloud-theme code a cloud or fog icon, so icon and background agree. */
  lemma DaytimeIconMatchesTheme(code: int, isDay: int, phase: real)
    requires isDay != 0
    ensures ThemeFor(code, isDay) == Rainy ==>
              IconFor(code, isDay, phase) in {SunRainCloud, RainCloud, StormCloud}
    ensures ThemeFor(code, isDay) == Cloudy ==>
              IconFor(code, isDay, phase) in {SunBehindCloud, Cloud, FogIcon}
  {
  }
}
