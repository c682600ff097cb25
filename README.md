# WeatherMe display state, in Dafny

WeatherMe is a small Android app. It fetches the current weather for a city from
OpenWeatherMap and shows it on one screen, `WeatherFragment`. This project models that
fragment's display logic:

- **Icon choice** (`setWeatherIcon`). An OpenWeatherMap condition id, the sunrise and
  sunset instants and the current time pick one glyph. The clear sky (id 800) shows the
  sun from sunrise up to, but not including, sunset, and the clear-night glyph otherwise.
  Every other id is grouped by `id / 100` using Java division, which truncates toward
  zero. Groups 2, 3, 5, 6, 7 and 8 are thunder, drizzle, rain, snow, fog and cloud. Any
  other group gives the empty icon. The caller turns the sunrise and sunset seconds into
  milliseconds with a Java `long` multiplication. The model writes that multiplication
  out, wrap-around included.
- **Unit toggle** (the button's `onClick`). Each click converts the cached temperature
  `temp` to the other scale. It shows the result as `"%.2f ºF"` or `"%.2f ºC"` (with a
  space), relabels the button and flips `isCelsius`.
- **Render and dispatch** (`renderWeather` and the posted runnables of
  `updateWeatherData`). A null fetch result only raises a "place not found" notice. A
  JSON reply is rendered by writing the labels one after another: city, details,
  temperature (which also sets `temp` and `isCelsius`), last update, icon. Every JSON
  lookup can throw. The first lookup that fails ends the `try` block, and the `catch`
  swallows the exception. Labels already written keep their new text, and nothing later
  changes.

Modules:
- `Wrappers` holds `Option`.
- `JavaInt` holds Java `int`/`long`, truncating division and 64-bit wrap-around.
- `WeatherText` holds ASCII upper-casing.
- `WeatherIcon` holds the pure icon decision.
- `WeatherJson` holds the reply with every key optional, the fixed order of the 14
  lookups `renderWeather` performs, and the *abort point*: the position of the first
  lookup that fails.
- `Fragment` holds the `WeatherFragment` class, whose fields are the label texts, the
  button caption, `temp` and `isCelsius`. It also holds the label each render step
  writes, and some client scenarios.

`RenderWeather` is proved against the abort point. Each label is written exactly when
all the lookups before the label's write succeed. Otherwise the label keeps its old
value.

The model follows what the code does, including these easily missed behaviours:
- A reply with `cod == 200` but a missing field is not turned into "no record". It
  reaches `renderWeather` and is rendered up to the missing field, leaving a partly
  updated screen.
- Sunrise and sunset arrive in seconds. They are multiplied by 1000 at the call site
  before being compared with the clock in milliseconds.
- The rendered temperature label is `"%.2f" + "ºC"`, with no space. The toggle's label
  has a space.
- Rendering never resets the toggle button's caption. After a click to Fahrenheit, a
  later render shows Celsius while the button still offers Celsius
  (`Fragment.CaptionStaleAfterRender`).

## Model

| member | source | states |
|---|---|---|
| `JavaInt.TruncDiv` | app/src/main/java/com/example/stephen/weatherme/WeatherFragment.java:173 | Java `int` division by a positive divisor: the remainder lies strictly between minus the divisor and the divisor, and has the sign of the dividend (truncation toward zero) |
| `JavaInt.WrapLong` | app/src/main/java/com/example/stephen/weatherme/WeatherFragment.java:154-156 | a Java `long` result is the unique `long` congruent to the exact value modulo 2^64; it equals the exact value when that fits |
| `JavaInt.SecondsToMillis` | app/src/main/java/com/example/stephen/weatherme/WeatherFragment.java:154-156 | `seconds * 1000` on a `long` is the exact product whenever the product fits in a `long` |
| `WeatherText.Upper` | app/src/main/java/com/example/stephen/weatherme/WeatherFragment.java:134-141 | upper-casing keeps the length, maps each lower-case ASCII letter to its capital, keeps every other character, and leaves no lower-case ASCII letter |
| `WeatherText.UpperIdempotent` | app/src/main/java/com/example/stephen/weatherme/WeatherFragment.java:134-141 | upper-casing twice is the same as once |
| `WeatherIcon.ClearSkyByDaylight` | app/src/main/java/com/example/stephen/weatherme/WeatherFragment.java:175-181 | for id 800 the icon is Sunny exactly when `sunrise <= now < sunset`, and ClearNight exactly otherwise |
| `WeatherIcon.NonClearByRange` | app/src/main/java/com/example/stephen/weatherme/WeatherFragment.java:173-196 | every id other than 800 gets the icon of its hundreds range (200-299 thunder, 300-399 drizzle, 500-599 rain, 600-699 snow, 700-799 fog, 800-899 cloud, anything else, negatives included, none) |
| `WeatherIcon.CloudyRange` | app/src/main/java/com/example/stephen/weatherme/WeatherFragment.java:173-196 | the icon is Cloudy exactly for ids 801 to 899, so 800 is never cloudy |
| `WeatherIcon.UnknownGroupHasNoIcon` | app/src/main/java/com/example/stephen/weatherme/WeatherFragment.java:174-198 | the icon is empty exactly for ids below 200, 400 to 499, and 900 and above |
| `WeatherIcon.TimeMattersOnlyForClearSky` | app/src/main/java/com/example/stephen/weatherme/WeatherFragment.java:175-196 | for any id other than 800 the icon does not depend on sunrise, sunset or the clock |
| `WeatherJson.Position` | app/src/main/java/com/example/stephen/weatherme/WeatherFragment.java:134-156 | every lookup of the reply has one position in the lookup order, and the lookup at that position is itself |
| `WeatherJson.ReadKeyInjective` | app/src/main/java/com/example/stephen/weatherme/WeatherFragment.java:134-156 | no lookup happens at two positions |
| `WeatherJson.FirstAbsentFrom` | app/src/main/java/com/example/stephen/weatherme/WeatherFragment.java:133-160 | the search for the first failing lookup from position `i` stays between `i` and the number of lookups |
| `WeatherJson.FirstAbsentFromIsFirst` | app/src/main/java/com/example/stephen/weatherme/WeatherFragment.java:133-160 | every lookup before the position found succeeds, and the lookup at that position fails |
| `WeatherJson.AbortPointAt` | app/src/main/java/com/example/stephen/weatherme/WeatherFragment.java:133-160 | the abort point is the unique position before which every lookup succeeds and at which one fails (or the end) |
| `WeatherJson.AbortInCityLookups` | app/src/main/java/com/example/stephen/weatherme/WeatherFragment.java:134-136 | the city label's lookups fail at `name`, then `sys`, then `sys.country`, else the search moves to the details lookups |
| `WeatherJson.AbortInDetailsLookups` | app/src/main/java/com/example/stephen/weatherme/WeatherFragment.java:138-143 | the details label's lookups fail at the `weather` array, its element 0, `main`, `description`, `humidity`, then `pressure`, else the search moves to the temperature |
| `WeatherJson.AbortInTemperatureLookups` | app/src/main/java/com/example/stephen/weatherme/WeatherFragment.java:145-152 | then the lookups fail at `main.temp`, then at `dt` |
| `WeatherJson.AbortInIconLookups` | app/src/main/java/com/example/stephen/weatherme/WeatherFragment.java:154-156 | the icon's lookups fail at `weather[0].id`, `sys.sunrise`, then `sys.sunset`; past them rendering is complete |
| `WeatherJson.AbortPointByFields` | app/src/main/java/com/example/stephen/weatherme/WeatherFragment.java:133-160 | the abort point as the field that is missing first, in the source's lookup order |
| `WeatherJson.NonObjectConditionStopsAtFirstCondition` | app/src/main/java/com/example/stephen/weatherme/WeatherFragment.java:134-139 | when element 0 of `weather` is not an object, the render stops at `getJSONObject(0)` (before `main` is read) exactly when the city lookups succeed, and never later |
| `WeatherJson.CompleteIffAllPresent` | app/src/main/java/com/example/stephen/weatherme/WeatherFragment.java:133-160 | rendering runs to the end exactly when every lookup succeeds |
| `Fragment.ClearSkyRenderedByDaylight` | app/src/main/java/com/example/stephen/weatherme/WeatherFragment.java:154-181 | for a rendered clear sky whose `sunrise*1000` and `sunset*1000` both fit in a `long`, the icon is Sunny exactly when `sunrise*1000 <= now < sunset*1000` (both bounds in milliseconds), and ClearNight otherwise |
| `Fragment.WeatherFragment.constructor` | app/src/main/java/com/example/stephen/weatherme/WeatherFragment.java:43-50 | a new fragment has `isCelsius == false` and `temp == 0.0` (Java field defaults), the layout's button caption and empty labels |
| `Fragment.WeatherFragment.OnToggleClick` | app/src/main/java/com/example/stephen/weatherme/WeatherFragment.java:68-80 | from Celsius: `temp := temp*9/5+32`, label `"%.2f ºF"`, caption button_celsius, `isCelsius := false`; from Fahrenheit: `temp := (temp-32)*5/9`, label `"%.2f ºC"`, caption button_fahrenheit, `isCelsius := true`; the flag always flips, the caption then offers the other unit, other labels are unchanged |
| `Fragment.WeatherFragment.SetWeatherIcon` | app/src/main/java/com/example/stephen/weatherme/WeatherFragment.java:172-199 | the icon field is always overwritten with the chosen icon, the empty one included |
| `Fragment.WeatherFragment.RenderWeather` | app/src/main/java/com/example/stephen/weatherme/WeatherFragment.java:132-161 | the exception caught is the first failing lookup (none on a full reply); each label written before it has its new text (city `UPPER(name) + ", " + country`, details, `"%.2f" + "ºC"`, last update, icon), `temp` is the reply's temperature and `isCelsius` holds once the temperature is read; every later label, `temp`, `isCelsius` and the button keep their old values |
| `Fragment.WeatherFragment.OnFetchResult` | app/src/main/java/com/example/stephen/weatherme/WeatherFragment.java:106-119 | a notice is raised exactly when the fetch result is null, and then nothing in the fragment changes; a reply is rendered as `RenderWeather` states |
| `Fragment.ToggleTwice` | app/src/main/java/com/example/stephen/weatherme/WeatherFragment.java:68-80 | two clicks restore the unit flag, and the caption too when it offered the other unit; the city, details, last-update and icon labels are unchanged |
| `Fragment.ToggleFromTwentyCelsius` | app/src/main/java/com/example/stephen/weatherme/WeatherFragment.java:68-73 | 20 ºC toggles to 68 ºF, shown as `"%.2f ºF"` |
| `Fragment.LondonRendersCompletely` | app/src/main/java/com/example/stephen/weatherme/WeatherFragment.java:133-160 | the complete London reply is rendered to the end |
| `Fragment.LondonCityLabel` | app/src/main/java/com/example/stephen/weatherme/WeatherFragment.java:134-136 | the city label for name "london", country "GB" is "LONDON, GB" |
| `Fragment.RenderedLabelLacksToggleSpace` | app/src/main/java/com/example/stephen/weatherme/WeatherFragment.java:77-146 | for every reply with a temperature, the label a render writes is one character shorter than, and different from, the `"%.2f ºC"` label a toggle click writes for the same value |
| `Fragment.LondonIcon` | app/src/main/java/com/example/stephen/weatherme/WeatherFragment.java:154-181 | with sunrise equal to sunset there is no day time, so a clear sky shows ClearNight at any time |
| `Fragment.CaptionStaleAfterRender` | app/src/main/java/com/example/stephen/weatherme/WeatherFragment.java:68-148 | clicking to Fahrenheit and then rendering a reply that reaches the temperature leaves `isCelsius` true while the button still offers Celsius |

## Left out

- `RemoteFetch.java` is not part of this model: the HTTP request, reading the body and `org.json` parsing are I/O over libraries. Its contract, null on any exception or when `cod != 200` and the parsed object otherwise, is the `Option<Reply>` passed to `OnFetchResult`.
- `CityPreference.java` is not part of this model. It passes through to Android `SharedPreferences`, with the default city "Las Vegas, US".
- The threads and `Handler.post` of `updateWeatherData`, the lifecycle methods `onCreate` and `onCreateView`, and `changeCity` are left out. Only the sequential dispatch on one fetch result is modelled, so racing lookups are not.
- `Fragment.WeatherFragment.OnToggleClick`: `temp` is a real number, so the conversions are exact. IEEE `double` rounding of `temp * 9/5 + 32` and `(temp - 32) * 5/9` is not modelled, and no round-trip of the temperature is claimed.
- `String.format("%.2f", …)` and `DateFormat.getDateTimeInstance().format(…)` are locale-dependent library formatting. They are the functions `fixed2` and `dateTime` of the `Formats` value given to the constructor.
- `WeatherText.Upper`: only ASCII letters are upper-cased. What `toUpperCase(Locale.US)` does beyond ASCII (for example `ß` becoming `SS`) is not modelled.
- `org.json` type coercions are not modelled: `getString` of a number, `getInt` of a fractional or out-of-range number, `getDouble` of a string. Each value in `Reply` already has the type its getter returns. A `weather` element that is not an object is `None`, so `getJSONObject(0)` fails on it.
- The text of the icon glyphs and of the button captions comes from Android string resources. It is modelled as the `Icon` and `Caption` enumerations, with `NoIcon` for the empty string.
- The labels' initial texts come from the layout file, which is not part of this model. Labels start empty here.
- `Toast`, `Log`, `Typeface` and asset loading are UI calls. The notice is the `placeNotFound` result. The log line is a fixed text that does not name the failed lookup; the key `RenderWeather` returns is information the model keeps and the source discards.
- A detached fragment (`getActivity()` returning null in `setWeatherIcon` or in the notice) is not modelled.
- The clock `new Date().getTime()` is the parameter `now`.
