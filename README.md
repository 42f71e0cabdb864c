# weather_bot in Dafny

A model of the core of a Telegram bot (`weather.py`) that answers a city
name with a weather report built from an OpenWeatherMap response. The model
covers the logic that sits between the network calls:

- **Credential check** (`check_tokens`): the three variables `APIKEY`,
  `TELEGRAM_TOKEN` and `TELEGRAM_CHAT_ID` are checked in order. Every unset
  or empty one clears the result flag and is logged at critical level; the
  loop never stops early. `main` exits when the check fails, before a bot
  exists or a message is sent. Modules `Credentials` and `Bot`.
- **Per-message pipeline** (`get_weather`): a response carrying
  `cod == "404"` raises before anything is read. Otherwise fields are read by
  direct subscripting in a fixed order, and the first absent key (or an
  empty `weather` list) aborts the handler with no reply. On success exactly one
  reply goes to the originating chat. It holds the seven-line template:
  timestamp, city, temperature range and description, temperature, humidity,
  pressure, wind. Modules `Weather` and `Bot`.
- **Wind direction** (`WINDS[int((deg % 360) / 45)]`): module `Compass`.
  The sector index of any integer heading, negative ones included, lies in
  0..7. The duplicate ninth entry of the table is never selected. Each
  45-degree band maps to exactly one label in table order, and the mapping
  has period 360.
- **Pressure** (`ceil(p / 1.333)`): module `Pressure`. Computed exactly as
  the least integer `m` with `1333 * m >= 1000 * p`. It is monotone,
  maps 0 to 0 and maps 1013 hPa to 760 mmHg.
- **Rendering**: `Decimal` gives Python's `str` of an integer, with its
  inverse. `Lines` joins newline-terminated lines and splits them back.

Notes on the code's own behaviour:
- Every field is read with a direct subscript, so any missing key aborts
  the handler. No field has a default.
- No fallback reply is sent. An exception escapes the handler and nothing is sent.
- 1013 hPa gives 760 mmHg, because 1013 / 1.333 ≈ 759.94.

The decoded JSON is the datatype `Weather.Payload`, whose keys are
`Option`s. The clock reading, the environment and the incoming message
text are parameters.

## Model

| member | source | states |
|---|---|---|
| `Compass.Sector` | weather.py:66 | the index of any integer heading is below 8 (so it never reaches the duplicate ninth entry) and names the 45-degree band that holds `deg % 360` |
| `Compass.Direction` | weather.py:66 | the label reported for any heading is one of the eight compass points |
| `Compass.PointsDistinct` | weather.py:20-30 | the first eight labels of the table are pairwise distinct and the ninth repeats the first |
| `Compass.SectorPeriodic` | weather.py:66 | headings differing by a whole number of turns fall in the same sector |
| `Compass.DirectionPeriodic` | weather.py:66 | `deg` and `deg + 360 * k` get the same label, for every integer `k` |
| `Compass.DirectionBand` | weather.py:20-30 | a heading gets the j-th label if and only if `deg % 360` lies in `[45j, 45j + 45)` |
| `Compass.NamedBands` | weather.py:20-30 | `[0,45)` gives Северный, `[90,135)` gives Восточный, `[315,360)` gives Северозападный |
| `Compass.EveryPointReached` | weather.py:20-30 | each of the eight labels is reported for some heading |
| `Pressure.MmHg` | weather.py:64 | the result is the ceiling of `hpa / 1.333`: `1333 * mm >= 1000 * hpa` and `1333 * (mm - 1) < 1000 * hpa` |
| `Pressure.MmHgIsLeast` | weather.py:64 | no integer at least `hpa / 1.333` is below the result |
| `Pressure.MmHgMonotonic` | weather.py:64 | a higher pressure never converts to a lower reading |
| `Pressure.MmHgExamples` | weather.py:64 | 0 hPa gives 0, 1013 hPa gives 760, 1333 hPa gives 1000 |
| `Decimal.NatToString` | weather.py:71-74 | the rendering of a natural number is non-empty, all decimal digits, without a leading zero |
| `Decimal.IntToString` | weather.py:71-74 | the rendering of an integer is non-empty digits with at most a leading minus sign |
| `Decimal.NatRoundTrip` | weather.py:71-74 | reading back the digits of a rendered natural number gives the number |
| `Decimal.IntRoundTrip` | weather.py:71-74 | reading back a rendered integer gives the integer, so distinct values render differently |
| `Lines.SplitJoin` | weather.py:68-76 | splitting newline-terminated lines that hold no line break gives back the lines, in order |
| `Credentials.Missing` | weather.py:37-41 | the names reported are exactly those that are unset or empty, each taken from the list |
| `Credentials.CheckTokens` | weather.py:33-43 | returns true exactly when every token name has a non-empty value; the log lists every failing name in order, without stopping at the first |
| `Credentials.NothingLoggedIffAllPresent` | weather.py:33-43 | nothing is logged exactly when the check passes |
| `Credentials.LoggedInOrder` | weather.py:37-41 | one log entry per missing token, none for present ones, in `TOKEN_NAMES` order |
| `Credentials.EmptyEnvLogsAll` | weather.py:37-41 | with nothing set, all three names are logged |
| `Weather.FirstMissing` | weather.py:58-66 | gives the position of the first failing lookup in evaluation order: every earlier lookup succeeds and that one fails |
| `Weather.ExtractHeading` | weather.py:58-59 | succeeds exactly when `name` and `weather[0].description` are present, and returns them |
| `Weather.ExtractReadings` | weather.py:60-64 | succeeds exactly when all five members of `main` are present; returns them, with the pressure as the ceiling of `p / 1.333` |
| `Weather.ExtractBreeze` | weather.py:65-66 | succeeds exactly when `wind.speed` and `wind.deg` are present; returns the speed and the label of the heading's 45-degree band |
| `Weather.Extract` | weather.py:58-66 | succeeds exactly when every lookup succeeds, and returns the three groups of values read from the payload |
| `Weather.ExtractFailsOnCityOrDescription` | weather.py:58-59 | when `name`, `weather`, its first entry or `description` is the first lookup to fail, extraction raises that lookup's error |
| `Weather.ExtractFailsOnMain` | weather.py:60-64 | when `main` or one of its members is the first lookup to fail, extraction raises that lookup's error |
| `Weather.ExtractFailsOnWind` | weather.py:65-66 | when `wind`, `speed` or `deg` is the first lookup to fail, extraction raises that lookup's error |
| `Weather.LookupsCoverAllKeys` | weather.py:58-66 | the evaluation order lists every subscript of the extraction exactly once |
| `Weather.ExtractFailsAtFirstMissing` | weather.py:58-66 | the search finds no failing lookup exactly when every subscript succeeds. Extraction fails exactly when some lookup fails, and then raises the error of the first lookup to fail (KeyError of its key, IndexError for an empty list) |
| `Weather.ReportLines` | weather.py:68-76 | the report template has exactly seven lines |
| `Weather.ReportLinesLabels` | weather.py:69-75 | line 1 is the timestamp and line 2 the city. The five other lines each start with their fixed label (Погода, Температура, Влажность, Давление, Ветер) and end with their unit, and the description, temperature, direction and speed sit in place |
| `Weather.RenderSplitsIntoSevenLines` | weather.py:68-76 | when no text field holds a line break, the rendered report splits back into its seven template lines, in template order |
| `Weather.GetWeather` | weather.py:55-76 | fails exactly for a 404 payload or one missing a looked-up key; a 404 raises the not-found error naming the city |
| `Weather.GetWeatherReport` | weather.py:58-76 | a successful run returns the template filled from the extracted fields, and, when no text field holds a line break, its lines are those of the template |
| `Bot.HandleText` | weather.py:46-79 | at most one reply, to the originating chat; no reply exactly when an exception escapes, which happens exactly for a 404 or a missing key |
| `Bot.ReplyIsSevenLines` | weather.py:68-79 | a complete non-404 payload gets exactly one reply; when the timestamp and the payload's text members hold no line break, its lines are the seven template lines, starting with the timestamp and the city |
| `Bot.HandleTextRaisesFirstMissing` | weather.py:55-66 | a non-404 payload missing a looked-up key gets no reply, and the exception that escapes is the one of the first failing lookup in evaluation order |
| `Bot.Start` | weather.py:82-92 | halts with the fixed reason and sends nothing exactly when the credential check fails; otherwise the bot uses `TELEGRAM_TOKEN` and greets `TELEGRAM_CHAT_ID` once |

## Left out

- The HTTP request to OpenWeatherMap and JSON decoding (weather.py:49-54) are foreign I/O. The handler receives the decoded payload as a `Payload` value, and the model does not tie that payload to the typed city.
- A payload member that is present with the wrong JSON type (a `weather` that is not a list, a `null`, a string temperature) is outside the typed `Payload`. So are the TypeErrors it would raise.
- Telegram (`Bot`, `Updater`, `MessageHandler`, polling, `send_message`; weather.py:79, 86-92) is network I/O. Sends are recorded as `Message` values. The polling loop and the dispatcher's logging of escaped exceptions are not modelled.
- `load_dotenv`, `os.getenv` and the module globals (weather.py:12-16) are replaced by the `Env` map passed in.
- `datetime.now().strftime(...)` (weather.py:69) is a clock read. The timestamp text is a parameter.
- The text of the critical log lines and the logging sinks are left out. `CheckTokens` keeps only the ghost list of the names it logs.
- `Weather.ExtractReadings`: `temp_min` and `temp_max` are taken as already-rounded integers. Python's `round` on floats (ties to even) is not modelled.
- `Weather.ExtractReadings`: `humidity` is taken as an integer and rendered as one. A float humidity, which Python would print as for example `50.0%`, is not modelled.
- `Weather.ExtractReadings`: `temp` is taken as its already-rendered text. Float-to-string rendering is not modelled.
- `Weather.ExtractBreeze`: `wind.speed` is taken as its already-rendered text. Float-to-string rendering is not modelled.
- `Pressure.MmHg`: does not model IEEE rounding of `p / 1.333`, so it may differ from the float result at exact boundaries. Pressures are integer hPa.
- `Compass.Sector`: headings are integers. For a float heading, IEEE rounding of `%` can give exactly 360.0 for a tiny negative input such as `-1e-20`. Index 8, the duplicate entry, is then reachable; the model does not capture this.
