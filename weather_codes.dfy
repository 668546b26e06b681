/** The two lookups from a WMO weather code: the display icon and the
    Spanish condition text shown on the dashboard. */
module WeatherCodes {

  /** The emoji the dashboard shows. The source holds them as (mis-encoded)
      UTF-8 strings; here each distinct emoji is one constructor. */
  datatype Icon =
    | Sun             // clear sky
    | SunSmallCloud   // mainly clear; also the default icon
    | SunBehindCloud  // partly cloudy
    | Cloud           // overcast
    | FogIcon         // fog
    | SunRainCloud    // light drizzle, light showers
    | RainCloud       // rain
    | Snowflake       // snow
    | StormCloud      // thunderstorm
    | NewMoon | WaxingCrescent | FirstQuarter | WaxingGibbous
    | FullMoon | WaningGibbous | LastQuarter | WaningCrescent
  {
    predicate IsMoon() {
      this in {NewMoon, WaxingCrescent, FirstQuarter, WaxingGibbous,
               FullMoon, WaningGibbous, LastQuarter, WaningCrescent}
    }
  }

  /** The icon table, keyed by weather code. */
  const IconTable: map<int, Icon> := map[
    0 := Sun, 1 := SunSmallCloud, 2 := SunBehindCloud, 3 := Cloud,
    45 := FogIcon, 48 := FogIcon,
    51 := SunRainCloud, 53 := SunRainCloud, 55 := RainCloud,
    61 := RainCloud, 63 := RainCloud, 65 := RainCloud,
    71 := Snowflake, 73 := Snowflake, 75 := Snowflake,
    80 := SunRainCloud, 81 := RainCloud, 82 := RainCloud,
    95 := StormCloud, 96 := StormCloud, 99 := StormCloud
  ]

  /** The codes the table lists. */
  const ListedCodes: set<int> :=
    {0, 1, 2, 3, 45, 48, 51, 53, 55, 61, 63, 65, 71, 73, 75, 80, 81, 82, 95, 96, 99}

  /** The icon for a code missing from the table. */
  const DefaultIcon: Icon := SunSmallCloud

  /** Table lookup with a default; never a moon icon. */
  function CodeToIcon(code: int): (r: Icon)
    ensures !r.IsMoon()
  {
    if code in IconTable then IconTable[code] else DefaultIcon
  }

  /** The table lists exactly 21 codes, and every other code gets the default icon. */
  lemma IconTableDomain(code: int)
    ensures code in IconTable <==> code in ListedCodes
    ensures code !in ListedCodes ==> CodeToIcon(code) == SunSmallCloud
  {
  }

  /** The condition classes, in threshold order. */
  datatype Condition =
    | ClearSky | PartlyCloudy | Fog | Drizzle | Rain | Snow | Showers | Thunderstorm | Variable

  /** The Spanish text written to the dashboard for each condition. */
  function Label(c: Condition): string {
    match c
    case ClearSky => "Cielo Despejado"
    case PartlyCloudy => "Parcialmente Nublado"
    case Fog => "Niebla"
    case Drizzle => "Llovizna"
    case Rain => "Lluvia"
    case Snow => "Nieve"
    case Showers => "Chubascos"
    case Thunderstorm => "Tormenta"
    case Variable => "Variable"
  }

  /** The set of codes each condition stands for, as an interval of integers
      stated independently of the order of the threshold tests. */
  predicate InBand(c: Condition, code: int) {
    match c
    case ClearSky => code == 0
    case PartlyCloudy => code <= 3 && code != 0
    case Fog => 4 <= code <= 48
    case Drizzle => 49 <= code <= 55
    case Rain => 56 <= code <= 65
    case Snow => 66 <= code <= 75
    case Showers => 76 <= code <= 82
    case Variable => 83 <= code <= 94
    case Thunderstorm => 95 <= code
  }

  /** The ordered threshold tests: the first one that holds decides. */
  function CodeToCondition(code: int): (r: Condition)
    ensures InBand(r, code)
  {
    if code == 0 then ClearSky
    else if code <= 3 then PartlyCloudy
    else if code <= 48 then Fog
    else if code <= 55 then Drizzle
    else if code <= 65 then Rain
    else if code <= 75 then Snow
    else if code <= 82 then Showers
    else if code >= 95 then Thunderstorm
    else Variable
  }

  /** The bands partition the integers, so the classification is the one
      band a code lies in: total and exclusive. */
  lemma ConditionIsUniqueBand(code: int, c: Condition)
    ensures CodeToCondition(code) == c <==> InBand(c, code)
  {
  }
}
