/**
 * The record types the activity scoring engine consumes.
 *
 * `Forecast` is one calendar day's weather summary for a location. Every
 * numeric field except `weatherCode`, an `int`, is a `real`; the fields that
 * the record declares nullable are `Option<real>`, so that "absent" stays
 * distinct from "present and 0".
 */
module Types {

  datatype Option<+T> = None | Some(value: T)

  datatype Forecast = Forecast(
    date: string,
    // Temperature data (degrees Celsius, may be negative)
    temperatureMax: real,
    temperatureMin: real,
    temperatureMean: real,
    // Weather conditions
    weatherCode: int,
    weatherDescription: string,
    // Precipitation breakdown
    precipitationSum: real,
    rainSum: Option<real>,
    showersSum: Option<real>,
    snowfallSum: real,
    // Wind data
    windSpeedMax: real,
    windSpeedMean: real,
    windGustsMax: Option<real>,
    windDirectionDominant: Option<real>,
    // Additional factors
    uvIndexMax: Option<real>,
    sunshineDuration: real
  )
}
