/**
 * The admin console's API service, reduced to its own copy of the
 * weather-code table. The HTTP wrappers are not modelled.
 */
module AdminApi {
  import Text
  import ClientApi

  const UNKNOWN_WEATHER := "Unknown weather"

  /** The admin copy of the code-to-label table, grouped as the source groups it. */
  const WEATHER_MAP: map<int, string> := map[
    0 := "Clear sky", 1 := "Mainly clear", 2 := "Partly cloudy", 3 := "Overcast",
    45 := "Fog", 48 := "Depositing rime fog",
    51 := "Light drizzle", 53 := "Moderate drizzle", 55 := "Dense drizzle",
    61 := "Light rain", 63 := "Moderate rain", 65 := "Heavy rain",
    80 := "Light rain showers", 81 := "Moderate rain showers", 82 := "Violent rain showers",
    95 := "Thunderstorm"
  ]

  /** `getWeatherDescription(code)` of the admin service. */
  function WeatherDescription(code: int): (r: string)
    ensures r != ""
    ensures r != UNKNOWN_WEATHER <==> code in ClientApi.DESCRIBED_CODES
    ensures code in WEATHER_MAP ==> r == WEATHER_MAP[code]
  {
    Text.OrDefault(ClientApi.Lookup(WEATHER_MAP, code), UNKNOWN_WEATHER)
  }

  lemma WeatherDescriptionExamples()
    ensures WeatherDescription(45) == "Fog"
    ensures WeatherDescription(82) == "Violent rain showers"
    ensures WeatherDescription(4) == UNKNOWN_WEATHER
  {
  }

  /** The two front-ends describe every code the same way. */
  lemma AgreesWithClient(code: int)
    ensures WeatherDescription(code) == ClientApi.WeatherDescription(code)
  {
  }
}
