/**
 * The weather card: it fetches the weather for a coordinate pair, keeps
 * the last weather it held (or installs a fixed fallback) when a fetch
 * fails, and derives the icon, the condition text, the UV level and the
 * travel advice from the weather record.
 *
 * The backend reply is an input. Figures are `real`s.
 */
module EnhancedWeatherWidget {
  import opened Wrappers
  import opened Text

  datatype WeatherData = WeatherData(
    temperature: real, humidity: real, windSpeed: real, visibility: real, pressure: real,
    condition: string, description: string, rainChance: real, uvIndex: real, cityName: string, feelsLike: real)

  const FALLBACK_WEATHER: WeatherData :=
    WeatherData(22.0, 65.0, 12.0, 10.0, 1013.0, "partly-cloudy", "Partly cloudy", 25.0, 6.0, "Your Location", 24.0)

  datatype Icon = Sun | Cloud | CloudRain | CloudDrizzle | CloudSnow

  /** `getWeatherIcon`: the icon for the lower-cased condition; unknown conditions show the sun. */
  function WeatherIcon(condition: string): (i: Icon)
  {
    match Lower(condition)
    case "clear" => Sun
    case "sunny" => Sun
    case "clouds" => Cloud
    case "cloudy" => Cloud
    case "rain" => CloudRain
    case "rainy" => CloudRain
    case "drizzle" => CloudDrizzle
    case "snow" => CloudSnow
    case _ => Sun
  }

  /** The icon ignores letter case, and each icon other than the sun has its condition words. */
  lemma WeatherIconIgnoresCase(condition: string)
    ensures WeatherIcon(Lower(condition)) == WeatherIcon(condition)
    ensures WeatherIcon(condition) == Cloud <==> Lower(condition) in {"clouds", "cloudy"}
    ensures WeatherIcon(condition) == CloudRain <==> Lower(condition) in {"rain", "rainy"}
    ensures WeatherIcon(condition) == CloudDrizzle <==> Lower(condition) == "drizzle"
    ensures WeatherIcon(condition) == CloudSnow <==> Lower(condition) == "snow"
  {
    LowerIdempotent(condition);
  }

  /** Upper-case letters in the condition do not change the icon. */
  lemma UpperCaseRain()
    ensures WeatherIcon("RAIN") == CloudRain && WeatherIcon("Snow") == CloudSnow
  {
    assert Lower("RAIN") == "rain";
    assert Lower("Snow") == "snow";
  }

  /** `getConditionText`: the description with its first character upper-cased; the condition is not used. */
  function ConditionText(condition: string, description: string): (t: string)
    ensures |t| == |description|
    ensures |t| > 0 ==> t[0] == UpperChar(description[0]) && t[1..] == description[1..]
  {
    if description == [] then [] else [UpperChar(description[0])] + description[1..]
  }

  lemma ConditionTextIgnoresCondition(c1: string, c2: string, description: string)
    ensures ConditionText(c1, description) == ConditionText(c2, description)
  {
  }

  datatype UvLevel = Low | Moderate | High | VeryHigh | Extreme

  /** `getUVLevel`: bands at 2, 5, 7 and 10, each bound inclusive. */
  function UvLevelOf(index: real): (l: UvLevel)
    ensures l == Low <==> index <= 2.0
    ensures l == Moderate <==> 2.0 < index <= 5.0
    ensures l == High <==> 5.0 < index <= 7.0
    ensures l == VeryHigh <==> 7.0 < index <= 10.0
    ensures l == Extreme <==> index > 10.0
  {
    if index <= 2.0 then Low
    else if index <= 5.0 then Moderate
    else if index <= 7.0 then High
    else if index <= 10.0 then VeryHigh
    else Extreme
  }

  /** The badge colour of a level: only the two lowest levels have their own colour. */
  function UvColor(l: UvLevel): (c: string)
    ensures c == "success" <==> l == Low
    ensures c == "warning" <==> l == Moderate
    ensures c == "error" <==> l in {High, VeryHigh, Extreme}
  {
    match l
    case Low => "success"
    case Moderate => "warning"
    case _ => "error"
  }

  function Severity(l: UvLevel): nat {
    match l
    case Low => 0
    case Moderate => 1
    case High => 2
    case VeryHigh => 3
    case Extreme => 4
  }

  /** A higher index never gives a lower level. */
  lemma UvLevelMonotone(i: real, j: real)
    requires i <= j
    ensures Severity(UvLevelOf(i)) <= Severity(UvLevelOf(j))
  {
  }

  const UMBRELLA: string := "Bring an umbrella"
  const SUNSCREEN: string := "Use sunscreen"
  const WINDY: string := "Windy conditions"
  const WARM: string := "Dress warmly"
  const LOW_VISIBILITY: string := "Low visibility - drive carefully"

  /** One tip when its condition holds, none otherwise. */
  function TipIf(b: bool, tip: string): seq<string> {
    if b then [tip] else []
  }

  /** `getTravelAdvice`: the tips whose conditions hold, in a fixed order. */
  function TravelAdvice(w: WeatherData): (advice: seq<string>)
    ensures |advice| <= 5
  {
    TipIf(w.rainChance > 60.0, UMBRELLA) + TipIf(w.uvIndex > 6.0, SUNSCREEN) + TipIf(w.windSpeed > 15.0, WINDY) +
    TipIf(w.temperature < 10.0, WARM) + TipIf(w.visibility < 5.0, LOW_VISIBILITY)
  }

  /** Each tip appears exactly when its condition holds, and the tips keep their order. */
  lemma TravelAdviceExact(w: WeatherData)
    ensures UMBRELLA in TravelAdvice(w) <==> w.rainChance > 60.0
    ensures SUNSCREEN in TravelAdvice(w) <==> w.uvIndex > 6.0
    ensures WINDY in TravelAdvice(w) <==> w.windSpeed > 15.0
    ensures WARM in TravelAdvice(w) <==> w.temperature < 10.0
    ensures LOW_VISIBILITY in TravelAdvice(w) <==> w.visibility < 5.0
    ensures w.rainChance > 60.0 ==> TravelAdvice(w)[0] == UMBRELLA
    ensures w.visibility < 5.0 ==> TravelAdvice(w)[|TravelAdvice(w)| - 1] == LOW_VISIBILITY
  {
    var a := TravelAdvice(w);
    assert UMBRELLA != SUNSCREEN && UMBRELLA != WINDY && UMBRELLA != WARM && UMBRELLA != LOW_VISIBILITY;
    assert SUNSCREEN != WINDY && SUNSCREEN != WARM && SUNSCREEN != LOW_VISIBILITY;
    assert WINDY != WARM && WINDY != LOW_VISIBILITY && WARM != LOW_VISIBILITY;
  }

  /** The fallback record itself advises nothing: its figures are all inside the thresholds. */
  lemma FallbackNeedsNoAdvice()
    ensures TravelAdvice(FALLBACK_WEATHER) == [] && UvLevelOf(FALLBACK_WEATHER.uvIndex) == High
  {
  }

  /** The backend reply: a thrown request (with its message), a status that is not ok, or a body whose `weather` may be missing. */
  datatype WeatherReply = WeatherThrew(message: string) | WeatherNotOk(status: nat) | WeatherBody(weather: Option<WeatherData>)

  /** The error text the failed fetch shows, or `None` when the fetch succeeded. */
  function FetchError(reply: WeatherReply): (e: Option<string>)
    ensures e.None? <==> reply.WeatherBody? && reply.weather.Some?
    ensures e.Some? ==> e.value != ""
  {
    match reply
    case WeatherThrew(message) => Some(if message != "" then message else "Failed to fetch weather data")
    case WeatherNotOk(status) => Some("Backend error: " + NatToString(status))
    case WeatherBody(weather) => if weather.Some? then None else Some("No weather data received")
  }

  class WeatherWidget {
    var weather: Option<WeatherData>
    var loading: bool
    var error: Option<string>

    constructor()
      ensures weather == None && !loading && error == None
    {
      weather := None;
      loading := false;
      error := None;
    }

    /**
     * `fetchWeatherData(latitude, longitude)`: nothing happens for a falsy
     * coordinate (zero included); otherwise the reply's weather replaces
     * the held one, or the error is set and the fallback installed only if
     * no weather was held; loading ends false.
     */
    method FetchWeatherData(latitude: Option<real>, longitude: Option<real>, reply: WeatherReply)
      modifies this
      ensures !Truthy(latitude) || !Truthy(longitude) ==>
                weather == old(weather) && loading == old(loading) && error == old(error)
      ensures Truthy(latitude) && Truthy(longitude) ==> !loading && error == FetchError(reply)
      ensures Truthy(latitude) && Truthy(longitude) && FetchError(reply).None? ==> weather == reply.weather
      ensures Truthy(latitude) && Truthy(longitude) && FetchError(reply).Some? ==>
                weather == (if old(weather).Some? then old(weather) else Some(FALLBACK_WEATHER))
    {
      if !Truthy(latitude) || !Truthy(longitude) {
        return;
      }
      loading := true;
      error := None;
      var failure := FetchError(reply);
      if failure.None? {
        weather := reply.weather;
      } else {
        error := failure;
        if weather.None? {
          weather := Some(FALLBACK_WEATHER);
        }
      }
      loading := false;
    }
  }

  /** After any fetch with truthy coordinates some weather is held: the card never stays empty. */
  method FetchAlwaysShowsWeather(w: WeatherWidget, lat: real, lng: real, reply: WeatherReply)
    requires lat != 0.0 && lng != 0.0
    modifies w
    ensures w.weather.Some? && !w.loading
  {
    w.FetchWeatherData(Some(lat), Some(lng), reply);
  }
}
