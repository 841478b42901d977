/**
 * The activity scoring engine.
 *
 * Each activity has a scorer that starts from a baseline, adds or subtracts
 * a few tier bonuses and penalties (each tier ladder is first-match-wins),
 * and clamps the running total ONCE, at the end, into [0, MAX_SCORE].
 *
 * The specification of a scorer is a sum of term functions, one per ladder
 * (`SkiingTotal` and friends) followed by `Clamp`. The methods `ScoreSkiing`,
 * `ScoreOutdoorSightseeing`, `ScoreIndoorSightseeing` and `ScoreSurfing`
 * follow the source step by step, accumulating into a local `score`, and are
 * proved to compute the specified value. `CalculateActivityScore` maps the
 * per-day scoring over a sequence of forecasts.
 */
module ActivityRanking {
  import opened Types

  /** The activity kinds, in the order every day's result lists them. */
  datatype Activity = Skiing | Surfing | IndoorSightseeing | OutdoorSightseeing

  const ACTIVITY_ORDER: seq<Activity> := [Skiing, Surfing, IndoorSightseeing, OutdoorSightseeing]

  /** One `{ activity, score }` entry of a day's result. */
  datatype ActivityEntry = ActivityEntry(activity: Activity, score: real)

  /** One day's result: the forecast's date and its four activity entries. */
  datatype DayScores = DayScores(date: string, activities: seq<ActivityEntry>)

  /** Upper end of every score; the lower end is 0. */
  const MAX_SCORE: real := 10.0

  // ---------------------------------------------------------------------
  // Clamping (`Math.max(0, Math.min(MAX_SCORE, score))`)
  // ---------------------------------------------------------------------

  function Max(a: real, b: real): (r: real)
    ensures a <= r && b <= r
    ensures r == a || r == b
  {
    if a >= b then a else b
  }

  function Min(a: real, b: real): (r: real)
    ensures r <= a && r <= b
    ensures r == a || r == b
  {
    if a <= b then a else b
  }

  /** The final clamp every scorer applies to its running total. */
  function Clamp(total: real): (r: real)
    ensures 0.0 <= r <= MAX_SCORE
    ensures 0.0 <= total <= MAX_SCORE ==> r == total
    ensures total < 0.0 ==> r == 0.0
    ensures total > MAX_SCORE ==> r == MAX_SCORE
  {
    Max(0.0, Min(MAX_SCORE, total))
  }

  // ---------------------------------------------------------------------
  // Skiing: baseline 0, snowfall tiers, temperature bands, wind penalty
  // ---------------------------------------------------------------------

  function SnowfallPoints(snowfall: real): real
  {
    if snowfall > 20.0 then 6.0
    else if snowfall > 10.0 then 4.0
    else if snowfall > 5.0 then 2.0
    else 0.0
  }

  function SkiingTemperaturePoints(temp: real): real
  {
    if -15.0 <= temp <= -2.0 then 3.0
    else if -20.0 <= temp <= 5.0 then 1.0
    else 0.0
  }

  function SkiingWindPenalty(windMean: real): real
  {
    if windMean > 30.0 then 1.0 else 0.0
  }

  /** The skiing total before the clamp. */
  function SkiingTotal(weather: Forecast): (t: real)
    ensures -1.0 <= t <= 9.0
  {
    SnowfallPoints(weather.snowfallSum)
      + SkiingTemperaturePoints(weather.temperatureMean)
      - SkiingWindPenalty(weather.windSpeedMean)
  }

  /** The skiing score: the total never exceeds 9, so only the floor of the clamp can apply. */
  function SkiingScore(weather: Forecast): (r: real)
    ensures 0.0 <= r <= 9.0
    ensures r == if SkiingTotal(weather) < 0.0 then 0.0 else SkiingTotal(weather)
  {
    Clamp(SkiingTotal(weather))
  }

  method ScoreSkiing(weather: Forecast) returns (score: real)
    ensures score == SkiingScore(weather)
    ensures 0.0 <= score <= MAX_SCORE
  {
    score := 0.0;

    if weather.snowfallSum > 20.0 { score := score + 6.0; }
    else if weather.snowfallSum > 10.0 { score := score + 4.0; }
    else if weather.snowfallSum > 5.0 { score := score + 2.0; }

    var temp := weather.temperatureMean;
    if temp >= -15.0 && temp <= -2.0 { score := score + 3.0; }
    else if temp >= -20.0 && temp <= 5.0 { score := score + 1.0; }

    if weather.windSpeedMean > 30.0 { score := score - 1.0; }

    score := Max(0.0, Min(MAX_SCORE, score));
  }

  // ---------------------------------------------------------------------
  // Outdoor sightseeing: baseline 5, sunshine tiers, comfort bands, rain penalty
  // ---------------------------------------------------------------------

  function SunshinePoints(hours: real): real
  {
    if hours > 8.0 then 2.0
    else if hours > 6.0 then 1.0
    else 0.0
  }

  function OutdoorTemperaturePoints(temp: real): real
  {
    if 18.0 <= temp <= 25.0 then 2.0
    else if 15.0 <= temp <= 28.0 then 1.5
    else if 10.0 <= temp <= 32.0 then 1.0
    else 0.0
  }

  function OutdoorPrecipitationPenalty(precipitation: real): real
  {
    if precipitation > 10.0 then 3.0
    else if precipitation > 2.0 then 1.0
    else 0.0
  }

  /** The outdoor sightseeing total before the clamp. */
  function OutdoorTotal(weather: Forecast): (t: real)
    ensures 2.0 <= t <= 9.0
  {
    5.0
      + SunshinePoints(weather.sunshineDuration)
      + OutdoorTemperaturePoints(weather.temperatureMean)
      - OutdoorPrecipitationPenalty(weather.precipitationSum)
  }

  /** The outdoor sightseeing score: the total already lies in [2, 9], so the clamp never changes it. */
  function OutdoorScore(weather: Forecast): (r: real)
    ensures 2.0 <= r <= 9.0
    ensures r == OutdoorTotal(weather)
  {
    Clamp(OutdoorTotal(weather))
  }

  method ScoreOutdoorSightseeing(weather: Forecast) returns (score: real)
    ensures score == OutdoorScore(weather)
    ensures 0.0 <= score <= MAX_SCORE
  {
    score := 5.0; // baseline

    if weather.sunshineDuration > 8.0 { score := score + 2.0; }
    else if weather.sunshineDuration > 6.0 { score := score + 1.0; }

    var temp := weather.temperatureMean;
    if temp >= 18.0 && temp <= 25.0 { score := score + 2.0; }
    else if temp >= 15.0 && temp <= 28.0 { score := score + 1.5; }
    else if temp >= 10.0 && temp <= 32.0 { score := score + 1.0; }

    if weather.precipitationSum > 10.0 { score := score - 3.0; }
    else if weather.precipitationSum > 2.0 { score := score - 1.0; }

    score := Max(0.0, Min(MAX_SCORE, score));
  }

  // ---------------------------------------------------------------------
  // Indoor sightseeing: baseline 5, bad-weather and extreme-temperature bonuses
  // ---------------------------------------------------------------------

  function IndoorPrecipitationPoints(precipitation: real): real
  {
    if precipitation > 10.0 then 3.0
    else if precipitation > 2.0 then 1.0
    else 0.0
  }

  function IndoorTemperaturePoints(temp: real): real
  {
    if temp < 0.0 || temp > 30.0 then 2.0
    else if temp < 5.0 || temp > 25.0 then 1.0
    else 0.0
  }

  /** The indoor sightseeing total before the clamp: only bonuses on top of 5. */
  function IndoorTotal(weather: Forecast): (t: real)
    ensures 5.0 <= t <= 10.0
  {
    5.0
      + IndoorPrecipitationPoints(weather.precipitationSum)
      + IndoorTemperaturePoints(weather.temperatureMean)
  }

  /** The indoor sightseeing score: the total already lies in [5, 10], so the clamp never changes it. */
  function IndoorScore(weather: Forecast): (r: real)
    ensures 5.0 <= r <= MAX_SCORE
    ensures r == IndoorTotal(weather)
  {
    Clamp(IndoorTotal(weather))
  }

  method ScoreIndoorSightseeing(weather: Forecast) returns (score: real)
    ensures score == IndoorScore(weather)
    ensures 0.0 <= score <= MAX_SCORE
  {
    score := 5.0;

    if weather.precipitationSum > 10.0 { score := score + 3.0; }
    else if weather.precipitationSum > 2.0 { score := score + 1.0; }

    var temp := weather.temperatureMean;
    if temp < 0.0 || temp > 30.0 { score := score + 2.0; }
    else if temp < 5.0 || temp > 25.0 { score := score + 1.0; }

    score := Max(0.0, Min(MAX_SCORE, score));
  }

  // ---------------------------------------------------------------------
  // Surfing: baseline 0, wind band, gust penalty, comfort band, rain penalty
  // ---------------------------------------------------------------------

  function SurfingWindPoints(windMean: real): real
  {
    if 5.0 <= windMean <= 15.0 then 4.0
    else if windMean <= 25.0 then 2.0
    else 0.0
  }

  /**
   * The gust penalty. An absent gust value compares as `null > 40`, which is
   * false, so it draws no penalty.
   */
  function GustPenalty(gusts: Option<real>): real
  {
    match gusts
    case None => 0.0
    case Some(g) => if g > 40.0 then 2.0 else 0.0
  }

  function SurfingTemperaturePoints(temp: real): real
  {
    if 18.0 <= temp <= 25.0 then 2.0
    else if 10.0 <= temp <= 30.0 then 1.0
    else 0.0
  }

  function SurfingPrecipitationPenalty(precipitation: real): real
  {
    if precipitation > 15.0 then 2.0
    else if precipitation > 5.0 then 1.0
    else 0.0
  }

  /** The surfing total before the clamp. */
  function SurfingTotal(weather: Forecast): (t: real)
    ensures -4.0 <= t <= 6.0
  {
    SurfingWindPoints(weather.windSpeedMean)
      - GustPenalty(weather.windGustsMax)
      + SurfingTemperaturePoints(weather.temperatureMean)
      - SurfingPrecipitationPenalty(weather.precipitationSum)
  }

  /** The surfing score: the total never exceeds 6, so only the floor of the clamp can apply. */
  function SurfingScore(weather: Forecast): (r: real)
    ensures 0.0 <= r <= 6.0
    ensures r == if SurfingTotal(weather) < 0.0 then 0.0 else SurfingTotal(weather)
  {
    Clamp(SurfingTotal(weather))
  }

  method ScoreSurfing(weather: Forecast) returns (score: real)
    ensures score == SurfingScore(weather)
    ensures 0.0 <= score <= MAX_SCORE
  {
    score := 0.0;

    if weather.windSpeedMean >= 5.0 && weather.windSpeedMean <= 15.0 { score := score + 4.0; }
    else if weather.windSpeedMean <= 25.0 { score := score + 2.0; }

    if weather.windGustsMax.Some? && weather.windGustsMax.value > 40.0 { score := score - 2.0; }

    var temp := weather.temperatureMean;
    if temp >= 18.0 && temp <= 25.0 { score := score + 2.0; }
    else if temp >= 10.0 && temp <= 30.0 { score := score + 1.0; }

    if weather.precipitationSum > 15.0 { score := score - 2.0; }
    else if weather.precipitationSum > 5.0 { score := score - 1.0; }

    score := Max(0.0, Min(MAX_SCORE, score));
  }

  // ---------------------------------------------------------------------
  // Per-day results and the mapping over a forecast sequence
  // ---------------------------------------------------------------------

  /** The score the engine gives `kind` on a day with this weather. */
  function ScoreOf(kind: Activity, weather: Forecast): (r: real)
    ensures 0.0 <= r <= MAX_SCORE
  {
    match kind
    case Skiing => SkiingScore(weather)
    case Surfing => SurfingScore(weather)
    case IndoorSightseeing => IndoorScore(weather)
    case OutdoorSightseeing => OutdoorScore(weather)
  }

  /**
   * `day` is the result for `forecast`: same date, and one entry per
   * activity, in the fixed order, each carrying that activity's score.
   */
  predicate ScoresDay(day: DayScores, forecast: Forecast)
  {
    && day.date == forecast.date
    && |day.activities| == |ACTIVITY_ORDER|
    && forall k :: 0 <= k < |day.activities| ==>
         day.activities[k] == ActivityEntry(ACTIVITY_ORDER[k], ScoreOf(ACTIVITY_ORDER[k], forecast))
  }

  /** The result record built for one forecast. */
  function DayScore(forecast: Forecast): (day: DayScores)
    ensures ScoresDay(day, forecast)
    ensures forall k :: 0 <= k < |day.activities| ==> 0.0 <= day.activities[k].score <= MAX_SCORE
  {
    DayScores(
      forecast.date,
      [
        ActivityEntry(Skiing, SkiingScore(forecast)),
        ActivityEntry(Surfing, SurfingScore(forecast)),
        ActivityEntry(IndoorSightseeing, IndoorScore(forecast)),
        ActivityEntry(OutdoorSightseeing, OutdoorScore(forecast))
      ])
  }

  /** `calculateActivityScore`: one result per forecast, in input order. */
  function CalculateActivityScore(forecasts: seq<Forecast>): (results: seq<DayScores>)
    ensures |results| == |forecasts|
    ensures forall i :: 0 <= i < |results| ==> ScoresDay(results[i], forecasts[i])
  {
    seq(|forecasts|, i requires 0 <= i < |forecasts| => DayScore(forecasts[i]))
  }

  /**
   * The first entry for `kind` in a day's activities, as the callers look a
   * score up with `activities.find(a => a.activity === kind)?.score`.
   */
  function FindScore(activities: seq<ActivityEntry>, kind: Activity): (r: Option<real>)
    ensures r.None? <==> forall i :: 0 <= i < |activities| ==> activities[i].activity != kind
    ensures r.Some? ==> exists i :: 0 <= i < |activities| && activities[i] == ActivityEntry(kind, r.value)
                                    && forall j :: 0 <= j < i ==> activities[j].activity != kind
  {
    if activities == [] then None
    else if activities[0].activity == kind then Some(activities[0].score)
    else
      var r := FindScore(activities[1..], kind);
      assert r.Some? ==> exists i :: 1 <= i < |activities| && activities[i] == ActivityEntry(kind, r.value)
                                      && forall j :: 0 <= j < i ==> activities[j].activity != kind
        by {
          if r.Some? {
            var i :| 0 <= i < |activities[1..]| && activities[1..][i] == ActivityEntry(kind, r.value)
                     && forall j :: 0 <= j < i ==> activities[1..][j].activity != kind;
            assert activities[i + 1] == ActivityEntry(kind, r.value);
          }
        }
      r
  }
}
