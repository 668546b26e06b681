# smart-frame weather and counter logic, in Dafny

This project models the decision logic of `scripts/update.py`, the script that
refreshes a home dashboard ("smart frame"). The script turns one response of
the Open-Meteo weather API into display fields of the dashboard's weather
record, and works out the names of the next two screenshot files on the frame's
FTP server. The model covers:

- `wrappers.dfy` (`Wrappers`): the `Option` type. It stands for a missing JSON
  key and for a step that failed.
- `weather_codes.dfy` (`WeatherCodes`): the WMO weather code to icon table with
  its default (`code_to_icon`). Also the code to Spanish condition text
  classification (`code_to_condition`), stated as one integer interval per
  condition. Icons are an enumerated type; the source holds them as
  mis-encoded emoji strings.
- `moon.dfy` (`Moon`): the eight-bucket moon-phase icon table of
  `get_moon_phase_icon`, over an exact `real` phase. It is proved equal to
  "the moon of the nearest eighth of the cycle".
- `scene.dfy` (`Scene`): the background/theme rule and the icon rule.
  `SelectScene` assigns the day default, then the rain or cloud override,
  then the night override, as the script does.
- `forecast.dfy` (`Forecast`): the hourly forecast loop over the offsets 3, 6
  and 9. It is a `for` loop proved against a specification of the selected
  indices.
- `weather_update.dfy` (`WeatherUpdate`): the in-place update of the weather
  record (`data['weather']`) as a class. Its fields are written one at a
  time. A missing `current` block raises before anything is written; missing
  `daily` and `hourly` blocks are skipped. When a step raises later (a daily
  list without a first entry, a forecast slot without a time stamp), the
  fields written before that step keep their new values and the others keep
  their old ones. This is what the script's `except Exception` leaves
  behind.
- `counter.dfy` (`Counter`): the screenshot counter of `generate_and_upload`.
  It finds the names in the listing, reads their numbers with Python's `int`
  rules, takes the maximum, or 0 on any failure. It then formats
  `Dashboard_{n:05d}.png`, with Python's sign-aware zero padding for negative
  numbers.

Inputs the script reads from the clock, the network or files are parameters:
- the decoded API response (`None` when the fetch or the decoding failed);
- the current hour;
- the moon phase as a fraction of the synodic month;
- the FTP listing as a list of lines (`None` when `lftp` failed);
- the record's previous values, read back from the data file.

A behaviour of the counter worth knowing: one unparseable numbered name makes
the whole counter fall back to 0. The next name is then `Dashboard_00001.png`,
which can already be on the device. `Counter.BadNameReusesExistingName`
proves this for every listing of `Dashboard_00001.png` plus a name such as
`Dashboard_x.png`.

## Model

| member | source | states |
|---|---|---|
| `WeatherCodes.CodeToIcon` | scripts/update.py:26-27 | the icon for a code is never a moon-phase icon |
| `WeatherCodes.IconTableDomain` | scripts/update.py:16-27 | the table has an entry for exactly the 21 listed codes; every other code gets the default partly-sunny icon |
| `WeatherCodes.CodeToCondition` | scripts/update.py:29-38 | the condition lies in its band: 0 clear; any other code up to 3 (negatives included) partly cloudy; 4-48 fog; 49-55 drizzle; 56-65 rain; 66-75 snow; 76-82 showers; 83-94 variable; 95 and up thunderstorm |
| `WeatherCodes.ConditionIsUniqueBand` | scripts/update.py:29-38 | the classification is c exactly when the code lies in c's band, so every code has exactly one condition |
| `Moon.MoonPhaseIcon` | scripts/update.py:148-155 | every phase is mapped to one of the eight moon icons |
| `Moon.MoonIconIsNearestEighth` | scripts/update.py:146-155 | for a phase in [0,1) the threshold table picks the moon of the nearest multiple of 1/8, taken modulo the cycle |
| `Moon.NewMoonAtBothEnds` | scripts/update.py:148 | in [0,1) the new-moon icon is chosen exactly for [0, 0.0625) and [0.9375, 1) |
| `Scene.SelectScene` | scripts/update.py:110-133 | the theme follows the precedence night, rain, cloudy, day; the background is always the image of that same theme |
| `Scene.ThemeCases` | scripts/update.py:113-130 | night exactly when the day flag is 0, whatever the code; in daytime rain exactly for the rain codes, cloudy exactly for {2,3,45,48}, day for every other code |
| `Scene.RainAndCloudDisjoint` | scripts/update.py:119-123 | no code is both a rain code and a cloudy code |
| `Scene.IconFor` | scripts/update.py:157-160 | the icon is a moon-phase icon exactly when the day flag is 0 and the code is 0 or 1; otherwise it is the code's table icon |
| `Scene.ClearNightIcon` | scripts/update.py:140-160 | on a clear night the icon is the moon of the nearest eighth of the phase |
| `Scene.DaytimeIconMatchesTheme` | scripts/update.py:113-125 | in daytime a rain-theme code shows a rain or storm icon and a cloudy-theme code a cloud or fog icon |
| `Forecast.Selected` | scripts/update.py:184-186 | at most one index per offset, each reached by both the temperature and the code list |
| `Forecast.SelectedFromOffsets` | scripts/update.py:184-185 | every selected index is the current hour plus one of the offsets |
| `Forecast.SelectedComplete` | scripts/update.py:184-186 | every offset whose index both lists reach is selected |
| `Forecast.SelectedOrdered` | scripts/update.py:184-188 | increasing offsets give increasing indices, so slots come in offset order |
| `Forecast.SelectedIsReached` | scripts/update.py:184-186 | the selected indices are the current hour plus each of 3, 6, 9 that both lists reach, in that order |
| `Forecast.BuildForecast` | scripts/update.py:183-192 | the loop completes exactly when every selected index has a time stamp, and then yields the slots of the selected indices in order |
| `Forecast.ForecastSlotsByOffset` | scripts/update.py:183-192 | when the loop completes, the i-th slot is the slot of hour+o for o the i-th offset among 3, 6, 9 that both lists reach: that hour's time stamp, its code's table icon and its temperature |
| `Forecast.WindowShape` | scripts/update.py:183-192 | at most 3 slots, strictly increasing indices, and hour+o is selected for o in 3, 6, 9 exactly when it is below both list lengths |
| `WeatherUpdate.WeatherRecord.constructor` | scripts/update.py:42-43 | the record starts with the values read back from the data file |
| `WeatherUpdate.WeatherRecord.ApplyCurrent` | scripts/update.py:103-160 | temperature, wind, condition, background, theme and icon are written from the current block (code defaults to 0, day flag to 1); nothing else changes |
| `WeatherUpdate.WeatherRecord.ApplyDaily` | scripts/update.py:163-168 | the four daily fields are written in order up to the first list without an entry, which makes the step fail; nothing else changes |
| `WeatherUpdate.WeatherRecord.ApplyHourly` | scripts/update.py:172-194 | feels-like and humidity are written when their list exists and reaches the hour; the forecast is written only when the loop completes with at least one slot; the step fails exactly when the loop raises |
| `WeatherUpdate.WeatherRecord.Update` | scripts/update.py:100-197 | the whole weather update, with the partial state a raised exception leaves behind; reports whether it completed |
| `WeatherUpdate.FailedFetchKeepsRecord` | scripts/update.py:100-103 | a failed fetch or a response without a current block leaves the record unchanged |
| `WeatherUpdate.CurrentBlockDecides` | scripts/update.py:107-160 | with a current block, the condition is the code's condition text; theme and background come from one theme; night forces the night theme and image; the icon is a moon exactly on a clear night |
| `WeatherUpdate.HourlyFieldsGuarded` | scripts/update.py:174-177 | feels-like and humidity change only when their list exists and the current hour is a valid index |
| `WeatherUpdate.ForecastWrittenWhenNonEmpty` | scripts/update.py:193-194 | the forecast field changes only to a list of 1 to 3 slots, each with its code's table icon |
| `Counter.TrimEnd` | scripts/update.py:214 | the result is a prefix of the line that does not end in whitespace, and everything removed is whitespace |
| `Counter.TrailingWord` | scripts/update.py:214 | the last word is the longest whitespace-free suffix |
| `Counter.LastWord` | scripts/update.py:214 | `line.split()[-1]`: a whitespace-free piece of the line followed only by whitespace and preceded by whitespace or the start of the line; empty only for an all-whitespace line |
| `Counter.NamesComplete` | scripts/update.py:214 | `Names` (the `existing` list): the last word of every line containing `Dashboard_` is among the names |
| `Counter.NamesSound` | scripts/update.py:214 | `Names`: every name is the last word of some listed line containing `Dashboard_` |
| `Counter.ParseInt` | scripts/update.py:215 | `int()` on text without whitespace or underscores (all the extraction passes it): it succeeds exactly on a non-empty string of decimal digits with at most one leading sign before at least one digit; a negative result needs a minus sign |
| `Counter.ParseUnsigned` | scripts/update.py:215 | `int()` of a digit string is its decimal value |
| `Counter.ParsePositive` | scripts/update.py:215 | `int()` of a plus sign and a digit string is the decimal value, so `Dashboard_+7.png` counts as 7 |
| `Counter.ParseNegative` | scripts/update.py:215 | `int()` of a minus sign and a digit string is the negated decimal value |
| `Counter.ParseAll` | scripts/update.py:215 | when parsing succeeds, every name with an underscore contributes its number and every number comes from such a name; parsing fails exactly when some such name has no number |
| `Counter.Max` | scripts/update.py:216 | the maximum is an element of the list and at least every element |
| `Counter.LastNumberIsMaxOrZero` | scripts/update.py:214-218 | `LastNumber` (`last_num`): when the names parse, it is the largest number found, or 0 when there is none |
| `Counter.FailureRestartsAtOne` | scripts/update.py:212-224 | `NextFileNames` (`file_1`, `file_2`): when the listing fails or any name does not parse, `last_num` is 0 and the next names are numbers 1 and 2 |
| `Counter.NewNamesAreFresh` | scripts/update.py:213-224 | `NextFileNames`: when the names parse, the two new names carry `last_num`+1 and `last_num`+2 and neither is already in the listing |
| `Counter.Pad5RoundTrip` | scripts/update.py:223-224 | `Pad5` (`f"{n:05d}"`): reading back the zero-padded number with `int()` gives the number, negative numbers included |
| `Counter.Pad5Width` | scripts/update.py:223-224 | for 0 to 99999 the padded number is exactly five digits |
| `Counter.FileNameRoundTrip` | scripts/update.py:214-224 | `FileName` (`Dashboard_{n:05d}.png`): a generated name is picked up by the listing scan as its own last word and its number reads back unchanged |
| `Counter.NameNumber` | scripts/update.py:215 | `NumberOf` (`int(f.split('_')[1].split('.')[0])`): the number of `Dashboard_<p>.png` is `int(p)` whenever p has no underscore and no dot |
| `Counter.UnnumberedName` | scripts/update.py:214-215 | a name like `Dashboard_x.png`, whose text after the underscore starts with neither a sign nor a digit, is listed but has no number |
| `Counter.BadNameReusesExistingName` | scripts/update.py:214-224 | with `Dashboard_00001.png` and any such unnumbered name listed, the next name is `Dashboard_00001.png`, which already exists |

## Left out

- The HTTP fetch with `curl` and the JSON decoding: the decoded response is an input. A failure of either is `None`.
- Reading and writing the data file: the record's previous values are the constructor's argument.
- The `lftp` listing call: the listing is an input, already split into lines. A failed call is `None`.
- `round()` of float readings and `str()` of the result: readings are integers that are already rounded. JSON nulls, which make `round` raise, are not modelled.
- A current block without `temperature_2m` raises before any field is written; the model folds this into the "no current block" case. A current block with `temperature_2m` but without `wind_speed_10m` writes `temp_c` and then raises; the model does not capture this case (its current block always carries both readings).
- The moon phase computation from the wall clock and the float modulo against the synodic month: the phase is a parameter.
- The date, weekday and last-update time written to `maxx_status`, and the `strftime`/`fromisoformat` formatting of forecast times: these are locale and clock behaviour. Forecast slots keep the raw time stamp. A malformed time stamp, which makes `fromisoformat` raise, is not modelled.
- Python's `int()` also accepts non-ASCII Unicode decimal digits. The model reads ASCII digits only.
- `ParseInt`: Python's `int()` also strips surrounding whitespace and accepts single underscores between digits (`"1_000"`). The model returns `None` for both; neither can reach it, because the last word holds no whitespace and the text is cut at the first underscore.
- Logging (`print`) and the screenshot capture (`scripts/capture.js`, headless browser plumbing).
