/**
 * The display state of `WeatherFragment`: five labels, the unit-toggle
 * button, the cached temperature and its unit flag, and the three handlers
 * that change them (the toggle click, the render of a fetched reply, and
 * the dispatch of a fetch result that may be null).
 */
module Fragment {
  import opened Wrappers
  import opened JavaInt
  import opened WeatherText
  import opened WeatherIcon
  import opened WeatherJson

  /**
   * Library formatting the fragment relies on: `String.format("%.2f", x)` in
   * the default locale, and `DateFormat.getDateTimeInstance().format` of an
   * epoch-millisecond instant.
   */
  datatype Formats = Formats(fixed2: real -> string, dateTime: Int64 -> string)

  /**
   * The text of the toggle button: the one from the layout until the first
   * click, then `R.string.button_celsius` or `R.string.button_fahrenheit`.
   */
  datatype Caption = LayoutCaption | CelsiusCaption | FahrenheitCaption

  /** The degree sign the labels use (U+00BA, masculine ordinal indicator). */
  const DEGREE: string := "\U{00BA}"

  function ToFahrenheit(c: real): real {
    c * (9.0 / 5.0) + 32.0
  }

  function ToCelsius(f: real): real {
    (f - 32.0) * (5.0 / 9.0)
  }

  /** The city label: the upper-cased name, a comma, and the country code as sent. */
  function CityLabel(r: Reply): Option<string> {
    if r.name.Some? && r.sys.Some? && r.sys.value.country.Some? then
      Some(Upper(r.name.value) + ", " + r.sys.value.country.value)
    else
      None
  }

  /** The details label: upper-cased description, then humidity and pressure lines. */
  function DetailsLabel(r: Reply): Option<string> {
    if HasFirstCondition(r) && Details(r).description.Some? && r.main.Some?
       && r.main.value.humidity.Some? && r.main.value.pressure.Some?
    then
      Some(Upper(Details(r).description.value)
           + "\n" + "Humidity: " + r.main.value.humidity.value + "%"
           + "\n" + "Pressure: " + r.main.value.pressure.value + " hPa")
    else
      None
  }

  /** The temperature in the reply, in degrees Celsius (the request asks for metric units). */
  function Temperature(r: Reply): Option<real> {
    if r.main.Some? then r.main.value.temp else None
  }

  /** The temperature label after a render: two decimals and `ºC`, with no space in between. */
  function RenderedTemperatureLabel(r: Reply, fmt: Formats): Option<string> {
    match Temperature(r)
    case Some(t) => Some(fmt.fixed2(t) + DEGREE + "C")
    case None => None
  }

  /** The last-update label: the observation time `dt`, converted to milliseconds. */
  function UpdatedLabel(r: Reply, fmt: Formats): Option<string> {
    match r.dt
    case Some(dt) => Some("Last update: " + fmt.dateTime(SecondsToMillis(dt)))
    case None => None
  }

  /** The icon after a render; sunrise and sunset arrive in seconds and are compared in milliseconds. */
  function RenderedIcon(r: Reply, now: Int64): Option<Icon> {
    if HasFirstCondition(r) && Details(r).id.Some? && r.sys.Some?
       && r.sys.value.sunrise.Some? && r.sys.value.sunset.Some?
    then
      Some(IconFor(Details(r).id.value,
                   SecondsToMillis(r.sys.value.sunrise.value),
                   SecondsToMillis(r.sys.value.sunset.value), now))
    else
      None
  }

  /**
   * For a clear sky the rendered icon is the sun exactly when
   * `sunrise * 1000 <= now < sunset * 1000`, both bounds in milliseconds
   * (for sun times whose millisecond value fits in a `long`).
   */
  lemma ClearSkyRenderedByDaylight(r: Reply, now: Int64)
    requires RenderedIcon(r, now).Some? && Details(r).id == Some(CLEAR_SKY)
    requires -9_223_372_036_854_775 <= r.sys.value.sunrise.value <= 9_223_372_036_854_775
    requires -9_223_372_036_854_775 <= r.sys.value.sunset.value <= 9_223_372_036_854_775
    ensures RenderedIcon(r, now) == Some(Sunny) <==>
              r.sys.value.sunrise.value * 1000 <= now < r.sys.value.sunset.value * 1000
    ensures RenderedIcon(r, now) != Some(Sunny) ==> RenderedIcon(r, now) == Some(ClearNight)
  {
    ClearSkyByDaylight(SecondsToMillis(r.sys.value.sunrise.value),
                       SecondsToMillis(r.sys.value.sunset.value), now);
  }

  class WeatherFragment {
    const fmt: Formats

    var cityField: string
    var updatedField: string
    var detailsField: string
    var currentTemperatureField: string
    var weatherIcon: Icon
    var toggleCaption: Caption

    var isCelsius: bool
    var temp: real

    /** A new fragment: Java's field defaults (`false`, `0.0`); labels empty until written. */
    constructor (fmt: Formats)
      ensures this.fmt == fmt
      ensures cityField == "" && updatedField == "" && detailsField == ""
      ensures currentTemperatureField == "" && weatherIcon == NoIcon
      ensures toggleCaption == LayoutCaption
      ensures !isCelsius && temp == 0.0
    {
      this.fmt := fmt;
      cityField, updatedField, detailsField, currentTemperatureField := "", "", "", "";
      weatherIcon := NoIcon;
      toggleCaption := LayoutCaption;
      isCelsius := false;
      temp := 0.0;
    }

    /** The button offers the unit that is not shown. */
    predicate CaptionOffersOtherUnit()
      reads this
    {
      toggleCaption == if isCelsius then FahrenheitCaption else CelsiusCaption
    }

    /**
     * The unit-toggle click: converts `temp` to the other scale, shows it with
     * two decimals, a space and the unit, relabels the button and flips the flag.
     */
    method OnToggleClick()
      modifies this
      ensures isCelsius == !old(isCelsius)
      ensures old(isCelsius) ==>
                temp == ToFahrenheit(old(temp))
                && currentTemperatureField == fmt.fixed2(temp) + " " + DEGREE + "F"
                && toggleCaption == CelsiusCaption
      ensures !old(isCelsius) ==>
                temp == ToCelsius(old(temp))
                && currentTemperatureField == fmt.fixed2(temp) + " " + DEGREE + "C"
                && toggleCaption == FahrenheitCaption
      ensures CaptionOffersOtherUnit()
      ensures cityField == old(cityField) && updatedField == old(updatedField)
      ensures detailsField == old(detailsField) && weatherIcon == old(weatherIcon)
    {
      if isCelsius {
        temp := ToFahrenheit(temp);
        currentTemperatureField := fmt.fixed2(temp) + " " + DEGREE + "F";
        toggleCaption := CelsiusCaption;
        isCelsius := false;
      } else {
        temp := ToCelsius(temp);
        currentTemperatureField := fmt.fixed2(temp) + " " + DEGREE + "C";
        toggleCaption := FahrenheitCaption;
        isCelsius := true;
      }
    }

    /** `setWeatherIcon`: the icon field is overwritten, with no icon for an unknown group. */
    method SetWeatherIcon(actualId: Int32, sunrise: Int64, sunset: Int64, now: Int64)
      modifies this`weatherIcon
      ensures weatherIcon == IconFor(actualId, sunrise, sunset, now)
    {
      weatherIcon := IconFor(actualId, sunrise, sunset, now);
    }

    /**
     * The state after rendering `r`: each label whose lookups all precede the
     * first failing one holds its new text, every later label, `temp` and
     * `isCelsius` keep their old values, and the button is never touched.
     */
    twostate predicate RenderedFrom(r: Reply, now: Int64)
      reads this
    {
      var n := AbortPoint(r);
      (if CITY_WRITE <= n then Some(cityField) == CityLabel(r)
       else cityField == old(cityField))
      && (if DETAILS_WRITE <= n then Some(detailsField) == DetailsLabel(r)
          else detailsField == old(detailsField))
      && (if TEMPERATURE_WRITE <= n then
            Some(currentTemperatureField) == RenderedTemperatureLabel(r, fmt)
            && Some(temp) == Temperature(r) && isCelsius
          else
            currentTemperatureField == old(currentTemperatureField)
            && temp == old(temp) && isCelsius == old(isCelsius))
      && (if UPDATED_WRITE <= n then Some(updatedField) == UpdatedLabel(r, fmt)
          else updatedField == old(updatedField))
      && (if ICON_WRITE <= n then Some(weatherIcon) == RenderedIcon(r, now)
          else weatherIcon == old(weatherIcon))
      && toggleCaption == old(toggleCaption)
    }

    /**
     * `renderWeather`: writes the labels one after another; the first lookup
     * that fails throws, and the `catch` swallows it, leaving earlier writes
     * in place. `caught` is the lookup that failed, or `None`; the source's log
     * line is a fixed text and does not say which lookup failed.
     */
    method RenderWeather(r: Reply, now: Int64) returns (caught: Option<Key>)
      modifies this
      ensures caught == if AbortPoint(r) < READ_COUNT then Some(ReadKey(AbortPoint(r))) else None
      ensures RenderedFrom(r, now)
    {
      AbortPointByFields(r);
      // Lines 134-136: name, then sys, then sys.country.
      if r.name.None? { return Some(Name); }
      var name := r.name.value;
      if r.sys.None? { return Some(SysObject); }
      var sys := r.sys.value;
      if sys.country.None? { return Some(Country); }
      cityField := Upper(name) + ", " + sys.country.value;

      // Lines 138-143: weather[0], main, then description, humidity, pressure.
      if r.weather.None? { return Some(WeatherArray); }
      if |r.weather.value| == 0 || r.weather.value[0].None? { return Some(FirstCondition); }
      var details := r.weather.value[0].value;
      if r.main.None? { return Some(MainObject); }
      var main := r.main.value;
      if details.description.None? { return Some(Description); }
      if main.humidity.None? { return Some(Humidity); }
      if main.pressure.None? { return Some(Pressure); }
      detailsField := Upper(details.description.value)
                      + "\n" + "Humidity: " + main.humidity.value + "%"
                      + "\n" + "Pressure: " + main.pressure.value + " hPa";

      // Lines 145-148: main.temp, read twice; the second read cannot fail.
      if main.temp.None? { return Some(Temp); }
      currentTemperatureField := fmt.fixed2(main.temp.value) + DEGREE + "C";
      temp := main.temp.value;
      isCelsius := true;

      // Lines 150-152: dt, in seconds.
      if r.dt.None? { return Some(Dt); }
      updatedField := "Last update: " + fmt.dateTime(SecondsToMillis(r.dt.value));

      // Lines 154-156: weather[0].id, sys.sunrise, sys.sunset.
      if details.id.None? { return Some(ConditionId); }
      if sys.sunrise.None? { return Some(Sunrise); }
      if sys.sunset.None? { return Some(Sunset); }
      SetWeatherIcon(details.id.value, SecondsToMillis(sys.sunrise.value),
                     SecondsToMillis(sys.sunset.value), now);
      caught := None;
    }

    /**
     * The posted runnable of `updateWeatherData`: a null fetch result only
     * raises the "place not found" notice; a reply is rendered.
     */
    method OnFetchResult(result: Option<Reply>, now: Int64) returns (placeNotFound: bool)
      modifies this
      ensures placeNotFound <==> result.None?
      ensures result.None? ==> unchanged(this)
      ensures result.Some? ==> RenderedFrom(result.value, now)
    {
      if result.None? {
        placeNotFound := true;
      } else {
        placeNotFound := false;
        var _ := RenderWeather(result.value, now);
      }
    }
  }

  /** Two clicks restore the unit flag and the button caption. */
  method ToggleTwice(f: WeatherFragment)
    modifies f
    ensures f.isCelsius == old(f.isCelsius)
    ensures old(f.CaptionOffersOtherUnit()) ==> f.toggleCaption == old(f.toggleCaption)
    ensures f.cityField == old(f.cityField) && f.updatedField == old(f.updatedField)
    ensures f.detailsField == old(f.detailsField) && f.weatherIcon == old(f.weatherIcon)
  {
    f.OnToggleClick();
    f.OnToggleClick();
  }

  /** 20 degrees Celsius toggles to 68 degrees Fahrenheit, shown with ` ºF`. */
  method ToggleFromTwentyCelsius(f: WeatherFragment)
    requires f.isCelsius && f.temp == 20.0
    modifies f
    ensures !f.isCelsius && f.temp == 68.0
    ensures f.currentTemperatureField == f.fmt.fixed2(68.0) + " " + DEGREE + "F"
  {
    f.OnToggleClick();
  }

  /** A complete reply for London with a clear sky, sunrise and sunset both at 0. */
  function LondonReply(): Reply {
    Reply(
      Some("london"),
      Some(SysBlock(Some("GB"), Some(0), Some(0))),
      Some([Some(Condition(Some(800), Some("clear")))]),
      Some(MainBlock(Some("60"), Some("1012"), Some(15.5))),
      Some(0))
  }

  /** The London reply has every key, so rendering it runs to the end. */
  lemma LondonRendersCompletely()
    ensures AbortPoint(LondonReply()) == READ_COUNT
  {
    AbortPointByFields(LondonReply());
  }

  /** The name is upper-cased but the country code is not. */
  lemma LondonCityLabel()
    ensures CityLabel(LondonReply()) == Some("LONDON, GB")
  {
    assert Upper("london") == "LONDON";
    assert Upper("london") + ", " + "GB" == "LONDON, GB";
  }

  /**
   * For every reply with a temperature, the label a render writes is one
   * character shorter than, and so differs from, the Celsius label a toggle
   * click writes for the same value: the render puts no space before `ºC`.
   */
  lemma RenderedLabelLacksToggleSpace(r: Reply, fmt: Formats)
    requires Temperature(r).Some?
    ensures RenderedTemperatureLabel(r, fmt).Some?
    ensures |RenderedTemperatureLabel(r, fmt).value| + 1
              == |fmt.fixed2(Temperature(r).value) + " " + DEGREE + "C"|
    ensures RenderedTemperatureLabel(r, fmt).value
              != fmt.fixed2(Temperature(r).value) + " " + DEGREE + "C"
  {
  }

  /** Sunrise and sunset both at 0 leave no day time: a clear sky shows the night glyph at any time. */
  lemma LondonIcon(now: Int64)
    ensures RenderedIcon(LondonReply(), now) == Some(ClearNight)
  {
  }

  /**
   * Rendering does not relabel the button: after a click to Fahrenheit, a
   * render that reaches the temperature shows Celsius again while the button
   * still offers Celsius.
   */
  method CaptionStaleAfterRender(f: WeatherFragment, r: Reply, now: Int64)
    requires f.isCelsius
    requires AbortPoint(r) >= TEMPERATURE_WRITE
    modifies f
    ensures f.isCelsius && f.toggleCaption == CelsiusCaption
    ensures !f.CaptionOffersOtherUnit()
  {
    f.OnToggleClick();
    var caught := f.RenderWeather(r, now);
  }
}
