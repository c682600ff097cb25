/**
 * The JSON object `RemoteFetch.getJSON` hands to the fragment, as far as
 * `renderWeather` reads it. Every key may be missing; a missing key makes the
 * corresponding `getString`/`getJSONObject`/`getDouble`/... throw.
 */
module WeatherJson {
  import opened Wrappers
  import opened JavaInt

  /** The `sys` object. */
  datatype SysBlock = SysBlock(country: Option<string>, sunrise: Option<Int64>, sunset: Option<Int64>)

  /** An object of the `weather` array. */
  datatype Condition = Condition(id: Option<Int32>, description: Option<string>)

  /** The `main` object; humidity and pressure are read as strings, temp as a number. */
  datatype MainBlock = MainBlock(humidity: Option<string>, pressure: Option<string>, temp: Option<real>)

  /** The top-level object. */
  datatype Reply = Reply(
    name: Option<string>,
    sys: Option<SysBlock>,
    weather: Option<seq<Option<Condition>>>,  // an element that is not an object is None
    main: Option<MainBlock>,
    dt: Option<Int64>)

  /** Every lookup `renderWeather` performs on the reply. */
  datatype Key =
    | Name | SysObject | Country
    | WeatherArray | FirstCondition | MainObject | Description | Humidity | Pressure
    | Temp | Dt | ConditionId | Sunrise | Sunset

  /** The number of lookups `renderWeather` performs when none fails. */
  const READ_COUNT: nat := 14

  /** The `i`-th lookup of `renderWeather`, counting from 0. */
  function ReadKey(i: nat): Key
    requires i < READ_COUNT
  {
    match i
    case 0 => Name
    case 1 => SysObject
    case 2 => Country
    case 3 => WeatherArray
    case 4 => FirstCondition
    case 5 => MainObject
    case 6 => Description
    case 7 => Humidity
    case 8 => Pressure
    case 9 => Temp
    case 10 => Dt
    case 11 => ConditionId
    case 12 => Sunrise
    case _ => Sunset
  }

  /** When lookup `k` happens: `ReadKey` and `Position` are inverse, so each key is looked up once. */
  function Position(k: Key): (i: nat)
    ensures i < READ_COUNT && ReadKey(i) == k
  {
    match k
    case Name => 0
    case SysObject => 1
    case Country => 2
    case WeatherArray => 3
    case FirstCondition => 4
    case MainObject => 5
    case Description => 6
    case Humidity => 7
    case Pressure => 8
    case Temp => 9
    case Dt => 10
    case ConditionId => 11
    case Sunrise => 12
    case Sunset => 13
  }

  /** No two positions name the same lookup. */
  lemma ReadKeyInjective(i: nat, j: nat)
    requires i < READ_COUNT && j < READ_COUNT && ReadKey(i) == ReadKey(j)
    ensures i == j
  {
  }

  /** How many lookups precede each label write. */
  const CITY_WRITE: nat := 3
  const DETAILS_WRITE: nat := 9
  const TEMPERATURE_WRITE: nat := 10
  const UPDATED_WRITE: nat := 11
  const ICON_WRITE: nat := 14

  /** Whether `weather.getJSONObject(0)` succeeds: the array has an element 0 and it is an object. */
  predicate HasFirstCondition(r: Reply) {
    r.weather.Some? && |r.weather.value| > 0 && r.weather.value[0].Some?
  }

  /** The object `details` that `renderWeather` takes from `weather[0]`. */
  function Details(r: Reply): Condition
    requires HasFirstCondition(r)
  {
    r.weather.value[0].value
  }

  /** Whether lookup `k` succeeds on `r` (its enclosing object present, and the key in it). */
  predicate Present(r: Reply, k: Key) {
    match k
    case Name => r.name.Some?
    case SysObject => r.sys.Some?
    case Country => r.sys.Some? && r.sys.value.country.Some?
    case WeatherArray => r.weather.Some?
    case FirstCondition => HasFirstCondition(r)
    case MainObject => r.main.Some?
    case Description => HasFirstCondition(r) && Details(r).description.Some?
    case Humidity => r.main.Some? && r.main.value.humidity.Some?
    case Pressure => r.main.Some? && r.main.value.pressure.Some?
    case Temp => r.main.Some? && r.main.value.temp.Some?
    case Dt => r.dt.Some?
    case ConditionId => HasFirstCondition(r) && Details(r).id.Some?
    case Sunrise => r.sys.Some? && r.sys.value.sunrise.Some?
    case Sunset => r.sys.Some? && r.sys.value.sunset.Some?
  }

  /**
   * The position in the lookup order, from `i` on, of the first lookup that
   * fails on `r`, or `READ_COUNT` when none does.
   */
  function FirstAbsentFrom(r: Reply, i: nat): (n: nat)
    requires i <= READ_COUNT
    ensures i <= n <= READ_COUNT
    decreases READ_COUNT - i
  {
    if i == READ_COUNT || !Present(r, ReadKey(i)) then i else FirstAbsentFrom(r, i + 1)
  }

  /** Every lookup from `i` up to the one found succeeds, and the one found fails. */
  lemma {:induction false} FirstAbsentFromIsFirst(r: Reply, i: nat)
    requires i <= READ_COUNT
    ensures forall j :: i <= j < FirstAbsentFrom(r, i) ==> Present(r, ReadKey(j))
    ensures FirstAbsentFrom(r, i) < READ_COUNT ==> !Present(r, ReadKey(FirstAbsentFrom(r, i)))
    decreases READ_COUNT - i
  {
    if i < READ_COUNT && Present(r, ReadKey(i)) {
      FirstAbsentFromIsFirst(r, i + 1);
    }
  }

  /** The number of lookups that succeed before the first exception of `renderWeather`. */
  function AbortPoint(r: Reply): nat {
    FirstAbsentFrom(r, 0)
  }

  /** The abort point is the one position before which every lookup succeeds and at which one fails. */
  lemma AbortPointAt(r: Reply, i: nat)
    requires i <= READ_COUNT
    requires forall j :: 0 <= j < i ==> Present(r, ReadKey(j))
    requires i < READ_COUNT ==> !Present(r, ReadKey(i))
    ensures AbortPoint(r) == i
  {
    FirstAbsentFromIsFirst(r, 0);
  }

  /** One step of the search. */
  lemma Step(r: Reply, i: nat, k: Key)
    requires i < READ_COUNT && ReadKey(i) == k
    ensures FirstAbsentFrom(r, i) == if Present(r, k) then FirstAbsentFrom(r, i + 1) else i
  {
  }

  /** Past the last lookup there is nothing left to fail. */
  lemma Finish(r: Reply)
    ensures FirstAbsentFrom(r, READ_COUNT) == READ_COUNT
  {
  }

  /** The lookups of the city label, lines 134-136: name, sys, country. */
  lemma AbortInCityLookups(r: Reply)
    ensures FirstAbsentFrom(r, 0) ==
      if r.name.None? then 0
      else if r.sys.None? then 1
      else if r.sys.value.country.None? then 2
      else FirstAbsentFrom(r, CITY_WRITE)
  {
    Step(r, 0, Name);
    Step(r, 1, SysObject);
    Step(r, 2, Country);
  }

  /** The lookups of the details label, lines 138-143. */
  lemma AbortInDetailsLookups(r: Reply)
    ensures FirstAbsentFrom(r, CITY_WRITE) ==
      if r.weather.None? then 3
      else if |r.weather.value| == 0 || r.weather.value[0].None? then 4
      else if r.main.None? then 5
      else if Details(r).description.None? then 6
      else if r.main.value.humidity.None? then 7
      else if r.main.value.pressure.None? then 8
      else FirstAbsentFrom(r, DETAILS_WRITE)
  {
    Step(r, 3, WeatherArray);
    Step(r, 4, FirstCondition);
    Step(r, 5, MainObject);
    Step(r, 6, Description);
    Step(r, 7, Humidity);
    Step(r, 8, Pressure);
  }

  /** The lookups of the temperature and last-update labels, lines 146 and 151. */
  lemma AbortInTemperatureLookups(r: Reply)
    requires r.main.Some?
    ensures FirstAbsentFrom(r, DETAILS_WRITE) ==
      if r.main.value.temp.None? then 9
      else if r.dt.None? then 10
      else FirstAbsentFrom(r, UPDATED_WRITE)
  {
    Step(r, 9, Temp);
    Step(r, 10, Dt);
  }

  /** The lookups of the icon, lines 154-156: weather[0].id, sunrise, sunset. */
  lemma AbortInIconLookups(r: Reply)
    requires HasFirstCondition(r) && r.sys.Some?
    ensures FirstAbsentFrom(r, UPDATED_WRITE) ==
      if Details(r).id.None? then 11
      else if r.sys.value.sunrise.None? then 12
      else if r.sys.value.sunset.None? then 13
      else ICON_WRITE
  {
    Step(r, 11, ConditionId);
    Step(r, 12, Sunrise);
    Step(r, 13, Sunset);
    Finish(r);
  }

  /**
   * The abort point spelled out lookup by lookup, in the order of
   * WeatherFragment.java lines 134-156.
   */
  lemma AbortPointByFields(r: Reply)
    ensures AbortPoint(r) ==
      if r.name.None? then 0
      else if r.sys.None? then 1
      else if r.sys.value.country.None? then 2
      else if r.weather.None? then 3
      else if |r.weather.value| == 0 || r.weather.value[0].None? then 4
      else if r.main.None? then 5
      else if Details(r).description.None? then 6
      else if r.main.value.humidity.None? then 7
      else if r.main.value.pressure.None? then 8
      else if r.main.value.temp.None? then 9
      else if r.dt.None? then 10
      else if Details(r).id.None? then 11
      else if r.sys.value.sunrise.None? then 12
      else if r.sys.value.sunset.None? then 13
      else 14
  {
    AbortInCityLookups(r);
    AbortInDetailsLookups(r);
    if r.main.Some? {
      AbortInTemperatureLookups(r);
    }
    if HasFirstCondition(r) && r.sys.Some? {
      AbortInIconLookups(r);
    }
  }

  /**
   * An element 0 of `weather` that is not an object makes `getJSONObject(0)`
   * throw: the render stops at that lookup, before `main` is read, exactly
   * when the city lookups and the array lookup succeed.
   */
  lemma NonObjectConditionStopsAtFirstCondition(r: Reply)
    requires r.weather.Some? && |r.weather.value| > 0 && r.weather.value[0].None?
    ensures AbortPoint(r) == Position(FirstCondition) <==>
              r.name.Some? && r.sys.Some? && r.sys.value.country.Some?
    ensures AbortPoint(r) <= Position(FirstCondition)
  {
    AbortInCityLookups(r);
    Step(r, 3, WeatherArray);
    Step(r, 4, FirstCondition);
  }

  /** Rendering runs to the end exactly when every lookup succeeds. */
  lemma {:induction false} CompleteIffAllPresent(r: Reply)
    ensures AbortPoint(r) == READ_COUNT <==> forall k :: Present(r, k)
  {
    var n := AbortPoint(r);
    FirstAbsentFromIsFirst(r, 0);
    if n == READ_COUNT {
      forall k: Key ensures Present(r, k) {
        assert Present(r, ReadKey(Position(k)));
      }
    }
  }
}
