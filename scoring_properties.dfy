/**
 * Properties of the activity scoring engine that relate several calls:
 * which fields each scorer reads, how the optional gust value acts, when a
 * scorer reaches its best value, the direction each weather metric pushes a
 * score, and how the per-day results are laid out and looked up.
 */
module ScoringProperties {
  import opened Types
  import opened ActivityRanking

  // ---------------------------------------------------------------------
  // Each scorer reads only its own fields
  // ---------------------------------------------------------------------

  lemma SkiingReadsOwnFields(a: Forecast, b: Forecast)
    requires a.snowfallSum == b.snowfallSum
    requires a.temperatureMean == b.temperatureMean
    requires a.windSpeedMean == b.windSpeedMean
    ensures SkiingScore(a) == SkiingScore(b)
  {
  }

  lemma OutdoorReadsOwnFields(a: Forecast, b: Forecast)
    requires a.sunshineDuration == b.sunshineDuration
    requires a.temperatureMean == b.temperatureMean
    requires a.precipitationSum == b.precipitationSum
    ensures OutdoorScore(a) == OutdoorScore(b)
  {
  }

  lemma IndoorReadsOwnFields(a: Forecast, b: Forecast)
    requires a.precipitationSum == b.precipitationSum
    requires a.temperatureMean == b.temperatureMean
    ensures IndoorScore(a) == IndoorScore(b)
  {
  }

  lemma SurfingReadsOwnFields(a: Forecast, b: Forecast)
    requires a.windSpeedMean == b.windSpeedMean
    requires a.windGustsMax == b.windGustsMax
    requires a.temperatureMean == b.temperatureMean
    requires a.precipitationSum == b.precipitationSum
    ensures SurfingScore(a) == SurfingScore(b)
  {
  }

  // ---------------------------------------------------------------------
  // Surfing: the optional gust value and the calm-wind branch
  // ---------------------------------------------------------------------

  /**
   * A present gust value above 40 costs exactly 2 points of the total; any
   * other present value, like an absent one, costs nothing.
   */
  lemma SurfingGustPenalty(weather: Forecast, gust: real)
    ensures SurfingTotal(weather.(windGustsMax := Some(gust)))
            == SurfingTotal(weather.(windGustsMax := None)) - (if gust > 40.0 then 2.0 else 0.0)
    ensures gust <= 40.0 ==>
              SurfingScore(weather.(windGustsMax := Some(gust))) == SurfingScore(weather.(windGustsMax := None))
  {
  }

  /**
   * A mean wind below 5 misses the [5, 15] band but still falls into the
   * `<= 25` branch: it scores exactly like a wind in (15, 25], and its total
   * is two points below that of a wind inside the band.
   */
  lemma SurfingCalmWindEarnsTwo(weather: Forecast, calm: real, strong: real, banded: real)
    requires calm < 5.0
    requires 15.0 < strong <= 25.0
    requires 5.0 <= banded <= 15.0
    ensures SurfingScore(weather.(windSpeedMean := calm)) == SurfingScore(weather.(windSpeedMean := strong))
    ensures SurfingTotal(weather.(windSpeedMean := calm)) == SurfingTotal(weather.(windSpeedMean := banded)) - 2.0
  {
  }

  // ---------------------------------------------------------------------
  // When each scorer reaches its best value
  // ---------------------------------------------------------------------

  lemma SkiingBest(weather: Forecast)
    ensures SkiingScore(weather) == 9.0 <==>
              weather.snowfallSum > 20.0
              && -15.0 <= weather.temperatureMean <= -2.0
              && weather.windSpeedMean <= 30.0
  {
  }

  lemma OutdoorBest(weather: Forecast)
    ensures OutdoorScore(weather) == 9.0 <==>
              weather.sunshineDuration > 8.0
              && 18.0 <= weather.temperatureMean <= 25.0
              && weather.precipitationSum <= 2.0
  {
  }

  lemma IndoorBest(weather: Forecast)
    ensures IndoorScore(weather) == MAX_SCORE <==>
              weather.precipitationSum > 10.0
              && (weather.temperatureMean < 0.0 || weather.temperatureMean > 30.0)
  {
  }

  lemma SurfingBest(weather: Forecast)
    ensures SurfingScore(weather) == 6.0 <==>
              5.0 <= weather.windSpeedMean <= 15.0
              && (weather.windGustsMax.None? || weather.windGustsMax.value <= 40.0)
              && 18.0 <= weather.temperatureMean <= 25.0
              && weather.precipitationSum <= 5.0
  {
  }

  // ---------------------------------------------------------------------
  // The direction in which a metric moves a score
  // ---------------------------------------------------------------------

  /** More snow never lowers the skiing score. */
  lemma SkiingMonotoneInSnowfall(weather: Forecast, more: real)
    requires weather.snowfallSum <= more
    ensures SkiingScore(weather) <= SkiingScore(weather.(snowfallSum := more))
  {
  }

  /** More rain never lowers the indoor score (bad weather favours indoors). */
  lemma IndoorMonotoneInPrecipitation(weather: Forecast, more: real)
    requires weather.precipitationSum <= more
    ensures IndoorScore(weather) <= IndoorScore(weather.(precipitationSum := more))
  {
  }

  /** More rain never raises the outdoor score; more sunshine never lowers it. */
  lemma OutdoorMonotone(weather: Forecast, more: real)
    ensures weather.precipitationSum <= more ==>
              OutdoorScore(weather.(precipitationSum := more)) <= OutdoorScore(weather)
    ensures weather.sunshineDuration <= more ==>
              OutdoorScore(weather) <= OutdoorScore(weather.(sunshineDuration := more))
  {
  }

  /** More rain never raises the surfing score. */
  lemma SurfingAntitoneInPrecipitation(weather: Forecast, more: real)
    requires weather.precipitationSum <= more
    ensures SurfingScore(weather.(precipitationSum := more)) <= SurfingScore(weather)
  {
  }

  // ---------------------------------------------------------------------
  // Layout of the results
  // ---------------------------------------------------------------------

  /** Looking any activity up in a day's result finds that activity's score. */
  lemma {:induction false} DayScoreFind(forecast: Forecast, kind: Activity)
    ensures FindScore(DayScore(forecast).activities, kind) == Some(ScoreOf(kind, forecast))
  {
    var acts := DayScore(forecast).activities;
    match kind
    case Skiing =>
    case Surfing =>
      assert FindScore(acts, kind) == FindScore(acts[1..], kind);
    case IndoorSightseeing =>
      assert FindScore(acts, kind) == FindScore(acts[1..], kind) == FindScore(acts[2..], kind);
    case OutdoorSightseeing =>
      assert acts[1..][1..] == acts[2..] && acts[2..][1..] == acts[3..];
      assert FindScore(acts, kind) == FindScore(acts[1..], kind) == FindScore(acts[2..], kind)
             == FindScore(acts[3..], kind);
  }

  /** Days are scored independently: scoring a concatenation concatenates the results. */
  lemma CalculateActivityScoreAppend(first: seq<Forecast>, second: seq<Forecast>)
    ensures CalculateActivityScore(first + second)
            == CalculateActivityScore(first) + CalculateActivityScore(second)
  {
    var all := CalculateActivityScore(first + second);
    var joined := CalculateActivityScore(first) + CalculateActivityScore(second);
    forall i | 0 <= i < |all|
      ensures all[i] == joined[i]
    {
      var f := (first + second)[i];
      DayResultUnique(all[i], f);
      DayResultUnique(joined[i], f);
    }
  }

  /** `ScoresDay` pins the day result down completely. */
  lemma DayResultUnique(day: DayScores, forecast: Forecast)
    requires ScoresDay(day, forecast)
    ensures day == DayScore(forecast)
  {
    var expected := DayScore(forecast);
    assert |day.activities| == |expected.activities|;
    forall k | 0 <= k < |day.activities|
      ensures day.activities[k] == expected.activities[k]
    {
    }
  }
}
