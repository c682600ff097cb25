/**
 * The icon decision of `setWeatherIcon`: an OpenWeatherMap condition id,
 * the sunrise and sunset instants and the current instant (all in
 * milliseconds) select one weather glyph.
 */
module WeatherIcon {
  import opened JavaInt

  /** The glyphs the fragment can show; `NoIcon` stands for the empty text `""`. */
  datatype Icon = Sunny | ClearNight | Thunder | Drizzle | Rainy | Snowy | Foggy | Cloudy | NoIcon

  /** The condition id of a clear sky. */
  const CLEAR_SKY: int := 800

  /** Day time: from sunrise (inclusive) to sunset (exclusive). */
  predicate IsDaytime(sunrise: Int64, sunset: Int64, now: Int64) {
    now >= sunrise && now < sunset
  }

  /** The icon for a condition group, `id / 100` truncated; unknown groups have none. */
  function GroupIcon(group: int): Icon {
    match group
    case 2 => Thunder
    case 3 => Drizzle
    case 7 => Foggy
    case 8 => Cloudy
    case 6 => Snowy
    case 5 => Rainy
    case _ => NoIcon
  }

  /** The icon chosen for condition `actualId` at instant `now`. */
  function IconFor(actualId: Int32, sunrise: Int64, sunset: Int64, now: Int64): Icon {
    var id := TruncDiv(actualId, 100);
    if actualId == CLEAR_SKY then
      if IsDaytime(sunrise, sunset, now) then Sunny else ClearNight
    else
      GroupIcon(id)
  }

  /**
   * A reference table of the condition ids by their decimal ranges, as
   * OpenWeatherMap documents the groups.
   */
  function RangeIcon(actualId: int): Icon {
    if 200 <= actualId <= 299 then Thunder
    else if 300 <= actualId <= 399 then Drizzle
    else if 500 <= actualId <= 599 then Rainy
    else if 600 <= actualId <= 699 then Snowy
    else if 700 <= actualId <= 799 then Foggy
    else if 800 <= actualId <= 899 then Cloudy
    else NoIcon
  }

  /** A clear sky shows the sun exactly in day time and the clear-night glyph otherwise. */
  lemma ClearSkyByDaylight(sunrise: Int64, sunset: Int64, now: Int64)
    ensures IconFor(CLEAR_SKY, sunrise, sunset, now) == Sunny <==> sunrise <= now < sunset
    ensures IconFor(CLEAR_SKY, sunrise, sunset, now) == ClearNight <==> !(sunrise <= now < sunset)
  {
  }

  /** Every condition other than the clear sky is classified by its hundreds range. */
  lemma NonClearByRange(actualId: Int32, sunrise: Int64, sunset: Int64, now: Int64)
    requires actualId != CLEAR_SKY
    ensures IconFor(actualId, sunrise, sunset, now) == RangeIcon(actualId)
  {
  }

  /** Cloudy is exactly the ids 801 to 899; 800 is never cloudy. */
  lemma CloudyRange(actualId: Int32, sunrise: Int64, sunset: Int64, now: Int64)
    ensures IconFor(actualId, sunrise, sunset, now) == Cloudy <==> 801 <= actualId <= 899
  {
    if actualId != CLEAR_SKY {
      NonClearByRange(actualId, sunrise, sunset, now);
    }
  }

  /** Ids outside the known groups (negative, 0-199, 400-499, 900 and above) give no icon. */
  lemma UnknownGroupHasNoIcon(actualId: Int32, sunrise: Int64, sunset: Int64, now: Int64)
    ensures IconFor(actualId, sunrise, sunset, now) == NoIcon <==>
              (actualId < 200 || 400 <= actualId <= 499 || actualId >= 900)
  {
    if actualId != CLEAR_SKY {
      NonClearByRange(actualId, sunrise, sunset, now);
    }
  }

  /** The clock and the sun times matter only for the clear sky. */
  lemma TimeMattersOnlyForClearSky(actualId: Int32, sunrise: Int64, sunset: Int64, now: Int64,
                                   sunrise': Int64, sunset': Int64, now': Int64)
    requires actualId != CLEAR_SKY
    ensures IconFor(actualId, sunrise, sunset, now) == IconFor(actualId, sunrise', sunset', now')
  {
  }
}
