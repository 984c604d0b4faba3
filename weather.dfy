/** weatherAPI.getWeather: the current conditions at a coordinate, mapped to the
    app's weather record, or a randomised mock when the request or the payload
    fails. The strings of the icon table are kept exactly as the source file
    spells them (UTF-8 emoji bytes read back as Windows-1252 text). */
module WeatherApi {
  import opened Outcomes
  import opened JsMath

  const ClearIcon: string := "\U{00E2}\U{02DC}\U{20AC}\U{00EF}\U{00B8}"
  const CloudsIcon: string := "\U{00E2}\U{02DC}\U{00EF}\U{00B8}"
  const RainIcon: string := "\U{00F0}\U{0178}\U{0152}\U{00A7}\U{00EF}\U{00B8}"
  const DrizzleIcon: string := "\U{00F0}\U{0178}\U{0152}\U{00A6}\U{00EF}\U{00B8}"
  const ThunderstormIcon: string := "\U{00E2}\U{203A}\U{02C6}\U{00EF}\U{00B8}"
  const SnowIcon: string := "\U{00E2}\U{201E}\U{00EF}\U{00B8}"
  const FogIcon: string := "\U{00F0}\U{0178}\U{0152}\U{00AB}\U{00EF}\U{00B8}"
  const WindIcon: string := "\U{00F0}\U{0178}\U{2019}\U{00A8}"
  const TornadoIcon: string := "\U{00F0}\U{0178}\U{0152}\U{00AA}\U{00EF}\U{00B8}"
  /** The icon of a condition the table does not name. */
  const DefaultIcon: string := "\U{00F0}\U{0178}\U{0152}\U{00A4}\U{00EF}\U{00B8}"

  /** The icon table of getWeatherIcon, keyed by the provider's `main` condition. */
  const IconTable: map<string, string> := map[
    "Clear" := ClearIcon,
    "Clouds" := CloudsIcon,
    "Rain" := RainIcon,
    "Drizzle" := DrizzleIcon,
    "Thunderstorm" := ThunderstormIcon,
    "Snow" := SnowIcon,
    "Mist" := FogIcon,
    "Smoke" := WindIcon,
    "Haze" := FogIcon,
    "Dust" := WindIcon,
    "Fog" := FogIcon,
    "Sand" := WindIcon,
    "Ash" := WindIcon,
    "Squall" := WindIcon,
    "Tornado" := TornadoIcon
  ]

  /** getWeatherIcon: `icons[condition] || default`, where a missing entry reads
      as the empty, falsy value. */
  function WeatherIcon(condition: string): (icon: string)
    ensures |icon| > 0
    ensures condition in IconTable ==> icon == IconTable[condition]
    ensures condition !in IconTable ==> icon == DefaultIcon
  {
    var entry := if condition in IconTable then IconTable[condition] else "";
    if entry != "" then entry else DefaultIcon
  }

  /** The three visibility conditions share one icon, and so do the five
      wind-borne ones. */
  lemma SharedIcons()
    ensures WeatherIcon("Mist") == WeatherIcon("Haze") == WeatherIcon("Fog")
    ensures WeatherIcon("Smoke") == WeatherIcon("Dust") == WeatherIcon("Sand")
         == WeatherIcon("Ash") == WeatherIcon("Squall")
    ensures WeatherIcon("Mist") != WeatherIcon("Smoke")
  {
  }

  /** The fifteen table conditions, and nothing else, get an icon of their own. */
  lemma IconTableConditions(condition: string)
    ensures condition in IconTable <==>
      condition in ["Clear", "Clouds", "Rain", "Drizzle", "Thunderstorm", "Snow", "Mist",
                    "Smoke", "Haze", "Dust", "Fog", "Sand", "Ash", "Squall", "Tornado"]
  {
  }

  /** The weather record returned to the UI. */
  datatype Weather = Weather(
    temperature: int,
    condition: string,
    humidity: int,
    windSpeed: int,
    icon: string,
    feelsLike: int,
    pressure: int,
    visibility: Option<int>)

  /** The fields of the provider's payload that getWeather reads: `main.temp`,
      `main.feels_like`, `main.humidity`, `main.pressure`, `wind.speed` (metres per
      second), `visibility` (absent on some stations) and the `main` name of each
      entry of `weather`. */
  datatype WeatherReport = WeatherReport(
    temp: real,
    feelsLike: real,
    humidity: int,
    pressure: int,
    windSpeed: real,
    visibility: Option<int>,
    conditions: seq<string>)

  /** The six Math.random() values the fallback draws, in evaluation order. */
  datatype Draws = Draws(index: real, temperature: real, humidity: real,
                         windSpeed: real, feelsLike: real, visibility: real)
  {
    predicate InRange()
    {
      0.0 <= index < 1.0 && 0.0 <= temperature < 1.0 && 0.0 <= humidity < 1.0 &&
      0.0 <= windSpeed < 1.0 && 0.0 <= feelsLike < 1.0 && 0.0 <= visibility < 1.0
    }
  }

  const MockConditions: seq<string> := ["Sunny", "Cloudy", "Rainy", "Snowy"]
  const MockIcons: seq<string> := [ClearIcon, CloudsIcon, RainIcon, SnowIcon]

  /** Math.floor(Math.random() * conditions.length). */
  function MockIndex(r: real): (i: nat)
    requires 0.0 <= r < 1.0
    ensures i < |MockConditions| && i < |MockIcons|
    ensures i as real <= r * 4.0 < i as real + 1.0
  {
    (r * 4.0).Floor
  }

  /** The fallback record: every number within the range its formula spans. */
  function MockWeather(d: Draws): (w: Weather)
    requires d.InRange()
    ensures 10 <= w.temperature <= 40 && 10 <= w.feelsLike <= 40
    ensures 0 <= w.humidity <= 100 && 0 <= w.windSpeed <= 20
    ensures w.pressure == 1013
    ensures w.visibility.Some? && 5000 <= w.visibility.value <= 15000
    ensures exists i :: 0 <= i < |MockConditions| && i < |MockIcons| &&
                        w.condition == MockConditions[i] && w.icon == MockIcons[i]
  {
    var i := MockIndex(d.index);
    Weather(
      Round(d.temperature * 30.0 + 10.0),
      MockConditions[i],
      Round(d.humidity * 100.0),
      Round(d.windSpeed * 20.0),
      MockIcons[i],
      Round(d.feelsLike * 30.0 + 10.0),
      1013,
      Some(Round((d.visibility * 10.0 + 5.0) * 1000.0)))
  }

  /** The mock's icons are the table's icons for clear sky, clouds, rain and
      snow, in the order of its four condition names. */
  lemma MockIconsFromTable()
    ensures |MockIcons| == 4
    ensures MockIcons == [WeatherIcon("Clear"), WeatherIcon("Clouds"), WeatherIcon("Rain"), WeatherIcon("Snow")]
  {
  }

  /** The mock's condition names are not provider conditions: looked up in the
      icon table, each would get the default icon. */
  lemma MockConditionsNotInTable(i: nat)
    requires i < |MockConditions|
    ensures MockConditions[i] !in IconTable
    ensures WeatherIcon(MockConditions[i]) == DefaultIcon
  {
  }

  /** Whether the request succeeded and `data.weather[0]` exists: otherwise reading
      it throws and the catch block answers. */
  predicate Usable(response: Fetched<WeatherReport>)
  {
    response.Ok? && |response.payload.conditions| > 0
  }

  /** getWeather(lat, lon). A usable report is mapped with temperatures rounded,
      wind converted from m/s to km/h and rounded, and the icon of its first
      condition; any failure yields the mock built from the draws. */
  function GetWeather(response: Fetched<WeatherReport>, d: Draws): (w: Weather)
    requires d.InRange()
    ensures |w.icon| > 0
    ensures !Usable(response) ==> w == MockWeather(d)
    ensures Usable(response) ==>
      var report := response.payload;
      w.condition == report.conditions[0] && w.icon == WeatherIcon(w.condition) &&
      report.temp - 0.5 < w.temperature as real <= report.temp + 0.5 &&
      report.feelsLike - 0.5 < w.feelsLike as real <= report.feelsLike + 0.5 &&
      report.windSpeed * 3.6 - 0.5 < w.windSpeed as real <= report.windSpeed * 3.6 + 0.5 &&
      w.humidity == report.humidity && w.pressure == report.pressure &&
      w.visibility == report.visibility
  {
    if !Usable(response) then MockWeather(d)
    else
      var report := response.payload;
      Weather(
        Round(report.temp),
        report.conditions[0],
        report.humidity,
        Round(report.windSpeed * 3.6),
        WeatherIcon(report.conditions[0]),
        Round(report.feelsLike),
        report.pressure,
        report.visibility)
  }

  /** A live record's icon always agrees with its condition; a mock record's icon
      agrees with the provider condition its index stands for, never with its own
      condition name. */
  lemma IconMatchesCondition(response: Fetched<WeatherReport>, d: Draws)
    requires d.InRange()
    ensures Usable(response) ==> GetWeather(response, d).icon == WeatherIcon(GetWeather(response, d).condition)
    ensures !Usable(response) ==> GetWeather(response, d).icon != WeatherIcon(GetWeather(response, d).condition)
  {
    if !Usable(response) {
      var w := GetWeather(response, d);
      var i := MockIndex(d.index);
      assert w.condition == MockConditions[i] && w.icon == MockIcons[i];
      MockConditionsNotInTable(i);
      MockIconsFromTable();
    }
  }

  /** A rainy report: 18.4 degrees rounds to 18, 3 m/s is 10.8 km/h and rounds
      to 11, and the condition gets the rain icon. */
  lemma RainyReport(d: Draws)
    requires d.InRange()
    ensures var w := GetWeather(Ok(WeatherReport(18.4, 18.4, 60, 1012, 3.0, Some(9000), ["Rain"])), d);
      w.temperature == 18 && w.condition == "Rain" && w.humidity == 60 && w.windSpeed == 11 &&
      w.icon == RainIcon && w.pressure == 1012 && w.visibility == Some(9000)
  {
  }
}
