/** The moon-phase icon: a phase in [0, 1) (0 = new moon) falls into one of
    eight buckets of width 1/8, centred on the multiples of 1/8. */
module Moon {
  import opened WeatherCodes

  /** The eight moon icons in phase order, starting at new moon. */
  const MoonCycle: seq<Icon> :=
    [NewMoon, WaxingCrescent, FirstQuarter, WaxingGibbous,
     FullMoon, WaningGibbous, LastQuarter, WaningCrescent]

  /** The ordered threshold tests on the phase; new moon takes both ends. */
  function MoonPhaseIcon(phase: real): (r: Icon)
    ensures r.IsMoon()
  {
    if phase < 0.0625 || phase >= 0.9375 then NewMoon
    else if phase < 0.1875 then WaxingCrescent
    else if phase < 0.3125 then FirstQuarter
    else if phase < 0.4375 then WaxingGibbous
    else if phase < 0.5625 then FullMoon
    else if phase < 0.6875 then WaningGibbous
    else if phase < 0.8125 then LastQuarter
    else WaningCrescent
  }

  /** The nearest multiple of 1/8 to the phase, counted in eighths and taken
      modulo a whole cycle: the reference definition of the bucket. */
  function NearestEighth(phase: real): (k: int)
    ensures 0 <= k < 8
  {
    (phase * 8.0 + 0.5).Floor % 8
  }

  /** For every phase in [0, 1) the threshold table picks the icon of the
      nearest eighth of the cycle. */
  lemma MoonIconIsNearestEighth(phase: real)
    requires 0.0 <= phase < 1.0
    ensures MoonPhaseIcon(phase) == MoonCycle[NearestEighth(phase)]
  {
  }

  /** The new-moon bucket covers both ends of the cycle. */
  lemma NewMoonAtBothEnds(phase: real)
    requires 0.0 <= phase < 1.0
    ensures MoonPhaseIcon(phase) == NewMoon <==> phase < 0.0625 || 0.9375 <= phase
  {
  }
}
