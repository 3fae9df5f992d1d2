/**
 * The public site's API service, reduced to its one piece of local logic:
 * turning a WMO weather interpretation code (as used by the Open-Meteo
 * forecast service) into a label. The HTTP wrappers are not modelled.
 */
module ClientApi {
  import opened Models
  import Text

  const UNKNOWN_WEATHER := "Unknown weather"

  /** The constant code-to-label table of `getWeatherDescription`. */
  const WEATHER_MAP: map<int, string> := map[
    0 := "Clear sky",
    1 := "Mainly clear",
    2 := "Partly cloudy",
    3 := "Overcast",
    45 := "Fog",
    48 := "Depositing rime fog",
    51 := "Light drizzle",
    53 := "Moderate drizzle",
    55 := "Dense drizzle",
    61 := "Light rain",
    63 := "Moderate rain",
    65 := "Heavy rain",
    80 := "Light rain showers",
    81 := "Moderate rain showers",
    82 := "Violent rain showers",
    95 := "Thunderstorm"
  ]

  /** The codes the table describes, written out independently of the table. */
  const DESCRIBED_CODES: set<int> := {0, 1, 2, 3, 45, 48, 51, 53, 55, 61, 63, 65, 80, 81, 82, 95}

  /** `weatherMap[code]`: the entry, or `undefined` for a code not in the table. */
  function Lookup(m: map<int, string>, code: int): Option<string>
  {
    if code in m then Some(m[code]) else None
  }

  /** `getWeatherDescription(code)`: the table entry, or the default label. */
  function WeatherDescription(code: int): (r: string)
    ensures r != ""
    ensures r != UNKNOWN_WEATHER <==> code in DESCRIBED_CODES
    ensures code in DESCRIBED_CODES ==> r == WEATHER_MAP[code]
  {
    Text.OrDefault(Lookup(WEATHER_MAP, code), UNKNOWN_WEATHER)
  }

  /** A few entries of the table and a few codes it does not list. */
  lemma WeatherDescriptionExamples()
    ensures WeatherDescription(0) == "Clear sky"
    ensures WeatherDescription(3) == "Overcast"
    ensures WeatherDescription(95) == "Thunderstorm"
    ensures WeatherDescription(4) == UNKNOWN_WEATHER
    ensures WeatherDescription(56) == UNKNOWN_WEATHER
    ensures WeatherDescription(71) == UNKNOWN_WEATHER
    ensures WeatherDescription(96) == UNKNOWN_WEATHER
    ensures WeatherDescription(99) == UNKNOWN_WEATHER
  {
  }
}
