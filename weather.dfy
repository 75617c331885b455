/** The weather card (client/src/components/ui/weather-widget.tsx). Whenever
    the `city` prop is non-empty, an effect schedules a timer. When the timer
    fires, it looks the city up in a fixed table with a `default` row, stores the
    record and clears the `loading` flag. The delay becomes a queue of pending
    timer callbacks, each holding the city it closed over; they fire in the
    order they were scheduled, because every one has the same delay. */
module Weather {
  import opened Common

  datatype WeatherIcon = SunIcon | CloudIcon | CloudRainIcon

  datatype WeatherData = WeatherData(
    temperature: int, condition: string, humidity: nat, wind: nat, icon: WeatherIcon)

  const TokyoWeather := WeatherData(22, "Mostly Sunny", 65, 12, SunIcon)
  const KyotoWeather := WeatherData(20, "Partly Cloudy", 70, 8, CloudIcon)
  const ParisWeather := WeatherData(15, "Light Rain", 80, 15, CloudRainIcon)
  const DefaultWeather := WeatherData(18, "Clear", 60, 10, SunIcon)

  /** `mockWeatherData`, keyed by city name, with its `default` row. */
  const MockWeatherData: map<string, WeatherData> :=
    map["Tokyo" := TokyoWeather, "Kyoto" := KyotoWeather, "Paris" := ParisWeather,
        "default" := DefaultWeather]

  /** `mockWeatherData[city] || mockWeatherData.default` over the table's own
      keys: every row is an object, so the fallback applies exactly when the
      city is not one of them. */
  function WeatherFor(city: string): (r: WeatherData)
    ensures r == TokyoWeather <==> city == "Tokyo"
    ensures r == KyotoWeather <==> city == "Kyoto"
    ensures r == ParisWeather <==> city == "Paris"
    ensures r == DefaultWeather <==> city !in {"Tokyo", "Kyoto", "Paris"}
  {
    if city in MockWeatherData then MockWeatherData[city] else MockWeatherData["default"]
  }

  /** What the widget draws. */
  datatype WeatherView =
    | Skeleton
    | NothingShown
    | CompactWeather(temperature: int, city: string, icon: WeatherIcon)
    | FullWeather(city: string, data: WeatherData)

  /** The render: the pulse skeleton while loading, nothing without a record,
      otherwise the compact or the full card for the stored record. */
  function Render(loading: bool, weather: Option<WeatherData>, city: string, compact: bool): (r: WeatherView)
    ensures loading <==> r == Skeleton
    ensures r == NothingShown <==> !loading && weather.None?
    ensures r.CompactWeather? <==> !loading && weather.Some? && compact
    ensures r.CompactWeather? ==> r.temperature == weather.value.temperature && r.city == city
                                  && r.icon == weather.value.icon
    ensures r.FullWeather? ==> r.data == weather.value && r.city == city && !compact
  {
    if loading then Skeleton
    else if weather.None? then NothingShown
    else if compact then CompactWeather(weather.value.temperature, city, weather.value.icon)
    else FullWeather(city, weather.value)
  }

  class WeatherWidget {
    var city: string
    const compact: bool
    var weather: Option<WeatherData>
    var loading: bool
    /** The cities of the timers scheduled but not yet fired, oldest first. */
    var pending: seq<string>

    /** The widget is loading exactly until a record arrives, and only a
        non-empty city ever schedules a timer. */
    predicate Valid()
      reads this
    {
      (loading <==> weather.None?)
      && forall i :: 0 <= i < |pending| ==> pending[i] != ""
    }

    /** The first render and its effect: loading with no record, and a timer for
        the city unless the city is empty. */
    constructor (cityProp: string, compactProp: Option<bool>)
      ensures Valid()
      ensures city == cityProp && compact == (compactProp.Some? && compactProp.value)
      ensures weather == None && loading
      ensures pending == (if cityProp == "" then [] else [cityProp])
    {
      city := cityProp;
      compact := compactProp.Some? && compactProp.value;
      weather := None;
      loading := true;
      pending := if cityProp == "" then [] else [cityProp];
    }

    /** A new `city` prop re-runs the effect: a timer for a non-empty city,
        nothing for an empty one. The earlier record stays on screen and
        `loading` is not raised again. */
    method SetCity(c: string)
      requires Valid()
      modifies this
      ensures Valid()
      ensures city == c && weather == old(weather) && loading == old(loading)
      ensures pending == old(pending) + (if c == "" then [] else [c])
    {
      city := c;
      if c != "" {
        pending := pending + [c];
      }
    }

    /** The oldest timer fires with the city it closed over. */
    method TimerFires()
      requires Valid() && pending != []
      modifies this
      ensures Valid()
      ensures weather == Some(WeatherFor(old(pending)[0])) && !loading
      ensures pending == old(pending)[1..] && city == old(city)
    {
      weather := Some(WeatherFor(pending[0]));
      loading := false;
      pending := pending[1..];
    }

    function View(): WeatherView
      reads this
    {
      Render(loading, weather, city, compact)
    }
  }

  /** A valid widget never draws nothing: it shows either the skeleton or a
      record. */
  lemma ValidNeverBlank(loading: bool, weather: Option<WeatherData>, city: string, compact: bool)
    requires loading <==> weather.None?
    ensures Render(loading, weather, city, compact) != NothingShown
    ensures !loading ==> Render(loading, weather, city, compact).CompactWeather?
                         || Render(loading, weather, city, compact).FullWeather?
  {
  }

  /** Letting every scheduled timer fire: the record ends up being the one of
      the most recently scheduled city. */
  method FlushTimers(w: WeatherWidget)
    requires w.Valid()
    modifies w
    ensures w.Valid() && w.pending == [] && w.city == old(w.city)
    ensures old(w.pending) == [] ==> w.weather == old(w.weather) && w.loading == old(w.loading)
    ensures old(w.pending) != [] ==>
              w.weather == Some(WeatherFor(old(w.pending)[|old(w.pending)| - 1])) && !w.loading
  {
    ghost var todo := w.pending;
    while w.pending != []
      invariant w.Valid() && w.city == old(w.city)
      invariant |w.pending| <= |todo| && w.pending == todo[|todo| - |w.pending|..]
      invariant |w.pending| == |todo| ==> w.weather == old(w.weather) && w.loading == old(w.loading)
      invariant |w.pending| < |todo| ==> w.weather == Some(WeatherFor(todo[|todo| - |w.pending| - 1]))
      decreases |w.pending|
    {
      w.TimerFires();
    }
  }

  /** A widget mounted with an empty city never leaves the skeleton: no timer
      is ever scheduled. */
  method EmptyCityStaysLoading() returns (view: WeatherView)
    ensures view == Skeleton
  {
    var w := new WeatherWidget("", None);
    assert w.pending == [];
    FlushTimers(w);
    view := w.View();
  }

  /** Mounting on Tokyo shows the skeleton, and once the timer fires, the full
      card with 22°C "Mostly Sunny". */
  method TokyoScenario() returns (before: WeatherView, after: WeatherView)
    ensures before == Skeleton
    ensures after == FullWeather("Tokyo", WeatherData(22, "Mostly Sunny", 65, 12, SunIcon))
  {
    var w := new WeatherWidget("Tokyo", None);
    before := w.View();
    w.TimerFires();
    after := w.View();
  }
}
