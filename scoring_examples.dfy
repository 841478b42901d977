/**
 * Concrete scores that the engine's test suite pins down, stated on the
 * whole pipeline: a forecast sequence goes through `CalculateActivityScore`
 * and a score is looked up by activity kind, as the tests do.
 */
module ScoringExamples {
  import opened Types
  import opened ActivityRanking
  import ScoringProperties

  /**
   * The tests' base forecast. Fields the tests leave unset are filled with
   * 0, "" or None; no scorer reads them (see the `...ReadsOwnFields` lemmas).
   */
  const MOCK: Forecast := Forecast(
    date := "2024-01-01",
    temperatureMax := 0.0, temperatureMin := 0.0, temperatureMean := 10.0,
    weatherCode := 0, weatherDescription := "",
    precipitationSum := 0.0, rainSum := None, showersSum := None, snowfallSum := 0.0,
    windSpeedMax := 0.0, windSpeedMean := 10.0, windGustsMax := Some(20.0), windDirectionDominant := None,
    uvIndexMax := None, sunshineDuration := 6.0)

  /** The score of `kind` on day `day` of the result for `forecasts`. */
  function Lookup(forecasts: seq<Forecast>, day: nat, kind: Activity): (r: Option<real>)
    requires day < |forecasts|
    ensures r == Some(ScoreOf(kind, forecasts[day]))
  {
    var results := CalculateActivityScore(forecasts);
    ScoringProperties.DayResultUnique(results[day], forecasts[day]);
    ScoringProperties.DayScoreFind(forecasts[day], kind);
    FindScore(results[day].activities, kind)
  }

  lemma SkiingIdealConditions()
    ensures Lookup([MOCK.(snowfallSum := 25.0, temperatureMean := -5.0, windSpeedMean := 10.0)], 0, Skiing)
            == Some(9.0)
  {
    var forecast := MOCK.(snowfallSum := 25.0, temperatureMean := -5.0, windSpeedMean := 10.0);
    assert SkiingTotal(forecast) == 9.0;
  }

  /** The raw total is 0 + 0 - 1; the final clamp lifts it to 0. */
  lemma SkiingPoorConditions()
    ensures Lookup([MOCK.(snowfallSum := 0.0, temperatureMean := 10.0, windSpeedMean := 40.0)], 0, Skiing)
            == Some(0.0)
  {
    var forecast := MOCK.(snowfallSum := 0.0, temperatureMean := 10.0, windSpeedMean := 40.0);
    assert SkiingTotal(forecast) == -1.0;
  }

  lemma OutdoorSunnyAndPleasant()
    ensures Lookup([MOCK.(sunshineDuration := 9.0, temperatureMean := 22.0, precipitationSum := 0.0)], 0,
                   OutdoorSightseeing)
            == Some(9.0)
  {
    var forecast := MOCK.(sunshineDuration := 9.0, temperatureMean := 22.0, precipitationSum := 0.0);
    assert OutdoorTotal(forecast) == 9.0;
  }

  lemma OutdoorRainyAndCold()
    ensures Lookup([MOCK.(sunshineDuration := 1.0, temperatureMean := 5.0, precipitationSum := 15.0)], 0,
                   OutdoorSightseeing)
            == Some(2.0)
  {
    var forecast := MOCK.(sunshineDuration := 1.0, temperatureMean := 5.0, precipitationSum := 15.0);
    assert OutdoorTotal(forecast) == 2.0;
  }

  lemma IndoorHeavyRain()
    ensures Lookup([MOCK.(precipitationSum := 15.0, temperatureMean := 15.0)], 0, IndoorSightseeing)
            == Some(8.0)
  {
    var forecast := MOCK.(precipitationSum := 15.0, temperatureMean := 15.0);
    assert IndoorTotal(forecast) == 8.0;
  }

  lemma IndoorExtremeHeat()
    ensures Lookup([MOCK.(precipitationSum := 0.0, temperatureMean := 35.0)], 0, IndoorSightseeing)
            == Some(7.0)
  {
    var forecast := MOCK.(precipitationSum := 0.0, temperatureMean := 35.0);
    assert IndoorTotal(forecast) == 7.0;
  }

  lemma IndoorPleasantWeather()
    ensures Lookup([MOCK.(precipitationSum := 0.0, temperatureMean := 20.0)], 0, IndoorSightseeing)
            == Some(5.0)
  {
    var forecast := MOCK.(precipitationSum := 0.0, temperatureMean := 20.0);
    assert IndoorTotal(forecast) == 5.0;
  }

  lemma SurfingIdealWindAndTemperature()
    ensures Lookup([MOCK.(windSpeedMean := 10.0, temperatureMean := 20.0, precipitationSum := 0.0)], 0, Surfing)
            == Some(6.0)
  {
    var forecast := MOCK.(windSpeedMean := 10.0, temperatureMean := 20.0, precipitationSum := 0.0);
    assert SurfingTotal(forecast) == 6.0;
  }

  lemma SurfingHighGusts()
    ensures Lookup([MOCK.(windSpeedMean := 10.0, windGustsMax := Some(50.0), temperatureMean := 20.0)], 0, Surfing)
            == Some(4.0)
  {
    var forecast := MOCK.(windSpeedMean := 10.0, windGustsMax := Some(50.0), temperatureMean := 20.0);
    assert SurfingTotal(forecast) == 4.0;
  }

  /** Two days in, two results out, each with its own date and scores. */
  lemma MultipleForecasts()
    ensures var forecasts := [MOCK.(date := "2024-01-01", snowfallSum := 30.0, temperatureMean := -5.0),
                              MOCK.(date := "2024-01-02", sunshineDuration := 10.0, temperatureMean := 22.0)];
            var results := CalculateActivityScore(forecasts);
            && |results| == 2
            && results[0].date == "2024-01-01"
            && results[1].date == "2024-01-02"
            && Lookup(forecasts, 0, Skiing).value > 8.0
            && Lookup(forecasts, 1, OutdoorSightseeing).value > 8.0
  {
    var day1 := MOCK.(date := "2024-01-01", snowfallSum := 30.0, temperatureMean := -5.0);
    var day2 := MOCK.(date := "2024-01-02", sunshineDuration := 10.0, temperatureMean := 22.0);
    assert SkiingTotal(day1) == 9.0;
    assert OutdoorTotal(day2) == 9.0;
  }

  /** A raw indoor total of 5 + 3 + 2 reaches the ceiling; an outdoor 5 - 3 stays at 2. */
  lemma ClampBoundaries()
    ensures var forecasts := [MOCK.(precipitationSum := 20.0, temperatureMean := -10.0),
                              MOCK.(sunshineDuration := 0.0, temperatureMean := 0.0, precipitationSum := 20.0)];
            && Lookup(forecasts, 0, IndoorSightseeing) == Some(MAX_SCORE)
            && Lookup(forecasts, 1, OutdoorSightseeing) == Some(2.0)
  {
    var overMax := MOCK.(precipitationSum := 20.0, temperatureMean := -10.0);
    var underMin := MOCK.(sunshineDuration := 0.0, temperatureMean := 0.0, precipitationSum := 20.0);
    assert IndoorTotal(overMax) == 10.0;
    assert OutdoorTotal(underMin) == 2.0;
  }
}
