# Activity Atlas: activity scoring engine and city search, in Dafny

This project models the two pieces of logic in the Activity Atlas weather service.

- **The activity scoring engine** (`ActivityScoringService`). `calculateActivityScore` maps a sequence of daily forecasts to one result per day. Each result holds the day's date and four `{ activity, score }` entries, in the order SKIING, SURFING, INDOOR_SIGHTSEEING, OUTDOOR_SIGHTSEEING. Each score comes from a private scorer:
  - it starts from a baseline (0 or 5);
  - it adds and subtracts first-match-wins tier bonuses and penalties;
  - it clamps the total once, at the end, with `max(0, min(MAX_SCORE, total))`, where `MAX_SCORE = 10`.
- **The `searchCity` resolver**. It filters a hard-coded list of five cities. A city is kept when its lower-cased name contains the lower-cased query.

Files:

- `types.dfy` (module `Types`): the `Forecast` record. Its nullable fields are `Option<real>`.
- `activity_ranking.dfy` (module `ActivityRanking`): the scorers and the per-day mapping.
  - Each scorer is specified as a sum of term functions, one per tier ladder, followed by `Clamp`.
  - Each scorer is also a method (`ScoreSkiing`, ...). The method accumulates into a local `score` with the source's if/else ladders, and it is proved to compute the specified value.
- `scoring_properties.dfy` (module `ScoringProperties`): lemmas that relate several calls. They cover which fields each scorer reads, how the gust value acts, when each scorer reaches its best value, and the layout of the results. The monotonicity lemmas cover these pairs: snowfall for skiing, precipitation for indoor, outdoor and surfing, and sunshine for outdoor.
- `scoring_examples.dfy` (module `ScoringExamples`): the scores that the test suite pins down. Each is stated on the whole pipeline: forecasts go into `CalculateActivityScore`, and a score is looked up by activity kind.
- `resolvers.dfy` (module `Resolvers`): ASCII lower-casing, substring containment, the filter and its soundness, completeness and case-insensitivity.

Modelling choices:

- Numbers are `real`. One term is `+1.5`, and every operation is a comparison or an addition of a small constant, so `real` is exact.
- `MAX_SCORE` is a class field that nothing ever assigns. It is modelled as a module constant, and the stateless service object is modelled as a module of functions.
- The `ActivityType` string constants become the datatype `Activity`.
- An absent `windGustsMax` draws no surfing penalty. The source reads it with a non-null assertion, and `null > 40` is false in JavaScript.
- Where the repository's own files disagree, the model follows the code that the scoring engine and the served resolver actually use:
  - `sunshineDuration` is a nullable `Float` in the GraphQL schema (`src/graphql/schema.ts:46`) but a plain `number` in the `Forecast` type (`src/types.ts:27`). The model follows `src/types.ts` and makes it a `real`.
  - `src/services/open-meteo-service.ts:23-37` has an upstream `searchCity`, but the server serves `resolvers.Query` from `src/graphql/resolvers.ts` (`src/index.ts:4,11`). That is the in-memory filter modelled here.
  - The resolver's city literals (`src/graphql/resolvers.ts:5-34`) have no `timezone`, although `src/types.ts:35` and `src/graphql/schema.ts:16` declare one. The model's `City` follows the literals.

## Model

| member | source | states |
|---|---|---|
| ActivityRanking.Clamp | src/services/activity-ranking-service.ts:50 | the clamped score lies in [0, 10]; a total already in range is unchanged; a total below 0 gives 0, and one above 10 gives exactly 10 |
| ActivityRanking.SkiingTotal | src/services/activity-ranking-service.ts:38-48 | the unclamped skiing total (snow tiers, temperature bands, wind penalty) lies in [-1, 9] |
| ActivityRanking.SkiingScore | src/services/activity-ranking-service.ts:37-51 | the skiing score lies in [0, 9]; only the floor of the clamp ever applies, so the score is the total or 0 |
| ActivityRanking.ScoreSkiing | src/services/activity-ranking-service.ts:37-51 | the step-by-step accumulator with the source's ladders returns exactly the specified skiing score, within [0, 10] |
| ActivityRanking.OutdoorTotal | src/services/activity-ranking-service.ts:54-67 | the unclamped outdoor total (baseline 5, sunshine tiers, comfort bands including +1.5, rain penalty) lies in [2, 9] |
| ActivityRanking.OutdoorScore | src/services/activity-ranking-service.ts:53-70 | the outdoor score equals its total, because the clamp never changes a value in [2, 9] |
| ActivityRanking.ScoreOutdoorSightseeing | src/services/activity-ranking-service.ts:53-70 | the step-by-step accumulator returns exactly the specified outdoor score, within [0, 10] |
| ActivityRanking.IndoorTotal | src/services/activity-ranking-service.ts:73-82 | the unclamped indoor total adds only bonuses to the baseline 5, so it lies in [5, 10] |
| ActivityRanking.IndoorScore | src/services/activity-ranking-service.ts:72-85 | the indoor score equals its total and lies in [5, 10] |
| ActivityRanking.ScoreIndoorSightseeing | src/services/activity-ranking-service.ts:72-85 | the step-by-step accumulator returns exactly the specified indoor score, within [0, 10] |
| ActivityRanking.SurfingTotal | src/services/activity-ranking-service.ts:88-104 | the unclamped surfing total (wind band, gust penalty, comfort band, rain penalty) lies in [-4, 6] |
| ActivityRanking.SurfingScore | src/services/activity-ranking-service.ts:87-107 | the surfing score lies in [0, 6]; only the floor of the clamp ever applies |
| ActivityRanking.ScoreSurfing | src/services/activity-ranking-service.ts:87-107 | the step-by-step accumulator, with an absent gust value giving no penalty, returns exactly the specified surfing score, within [0, 10] |
| ActivityRanking.ScoreOf | src/services/activity-ranking-service.ts:16-33 | every activity's score lies in [0, 10] |
| ActivityRanking.DayScore | src/services/activity-ranking-service.ts:14-34 | a day's result carries the forecast's date and exactly four entries, in the order SKIING, SURFING, INDOOR_SIGHTSEEING, OUTDOOR_SIGHTSEEING, each with its own activity's score in [0, 10] |
| ActivityRanking.CalculateActivityScore | src/services/activity-ranking-service.ts:12-35 | one result per forecast, in input order; result i carries forecast i's date and its four scores in the fixed order |
| ActivityRanking.FindScore | src/tests/activity-scoring.test.ts:30-32 | a lookup by activity kind finds nothing exactly when no entry has that kind; otherwise it returns the score of the first entry with that kind |
| ScoringProperties.SkiingReadsOwnFields | src/services/activity-ranking-service.ts:37-51 | two forecasts that agree on snowfall sum, mean temperature and mean wind get the same skiing score |
| ScoringProperties.OutdoorReadsOwnFields | src/services/activity-ranking-service.ts:53-70 | two forecasts that agree on sunshine duration, mean temperature and precipitation get the same outdoor score |
| ScoringProperties.IndoorReadsOwnFields | src/services/activity-ranking-service.ts:72-85 | two forecasts that agree on precipitation and mean temperature get the same indoor score |
| ScoringProperties.SurfingReadsOwnFields | src/services/activity-ranking-service.ts:87-107 | two forecasts that agree on mean wind, gusts, mean temperature and precipitation get the same surfing score |
| ScoringProperties.SurfingGustPenalty | src/services/activity-ranking-service.ts:95 | a gust value above 40 costs exactly 2 points of the surfing total; an absent value, or one of at most 40, costs nothing |
| ScoringProperties.SurfingCalmWindEarnsTwo | src/services/activity-ranking-service.ts:91-92 | a mean wind below 5 falls into the `<= 25` branch: it scores like a wind in (15, 25], and its total is two points below that of any wind in [5, 15] |
| ScoringProperties.SkiingBest | src/services/activity-ranking-service.ts:37-51 | the skiing score is 9 if and only if snowfall exceeds 20, the mean temperature is in [-15, -2] and the mean wind is at most 30 |
| ScoringProperties.OutdoorBest | src/services/activity-ranking-service.ts:53-70 | the outdoor score is 9 if and only if sunshine exceeds 8 hours, the mean temperature is in [18, 25] and precipitation is at most 2 |
| ScoringProperties.IndoorBest | src/services/activity-ranking-service.ts:72-85 | the indoor score reaches 10 if and only if precipitation exceeds 10 and the mean temperature is below 0 or above 30 |
| ScoringProperties.SurfingBest | src/services/activity-ranking-service.ts:87-107 | the surfing score is 6 if and only if the mean wind is in [5, 15], gusts are absent or at most 40, the mean temperature is in [18, 25] and precipitation is at most 5 |
| ScoringProperties.SkiingMonotoneInSnowfall | src/services/activity-ranking-service.ts:40-42 | more snowfall never lowers the skiing score |
| ScoringProperties.IndoorMonotoneInPrecipitation | src/services/activity-ranking-service.ts:75-77 | more precipitation never lowers the indoor score |
| ScoringProperties.OutdoorMonotone | src/services/activity-ranking-service.ts:56-67 | more precipitation never raises the outdoor score; more sunshine never lowers it |
| ScoringProperties.SurfingAntitoneInPrecipitation | src/services/activity-ranking-service.ts:102-104 | more precipitation never raises the surfing score |
| ScoringProperties.DayScoreFind | src/services/activity-ranking-service.ts:16-33 | looking up any activity kind in a day's result finds that activity's own score |
| ScoringProperties.DayResultUnique | src/services/activity-ranking-service.ts:15-33 | the date, the fixed order and the four scores determine a day's result completely |
| ScoringProperties.CalculateActivityScoreAppend | src/services/activity-ranking-service.ts:14 | days are scored independently: scoring a concatenation of forecasts gives the concatenation of the results |
| ScoringExamples.Lookup | src/tests/activity-scoring.test.ts:27-32 | looking up a kind on day i of the pipeline's result gives that kind's score for forecast i |
| ScoringExamples.SkiingIdealConditions | src/tests/activity-scoring.test.ts:21-34 | snowfall 25, mean temperature -5, mean wind 10 gives skiing 9 |
| ScoringExamples.SkiingPoorConditions | src/tests/activity-scoring.test.ts:36-49 | snowfall 0, mean temperature 10, mean wind 40 gives skiing 0, clamped up from -1 |
| ScoringExamples.OutdoorSunnyAndPleasant | src/tests/activity-scoring.test.ts:53-66 | sunshine 9, mean temperature 22, precipitation 0 gives outdoor 9 |
| ScoringExamples.OutdoorRainyAndCold | src/tests/activity-scoring.test.ts:68-81 | sunshine 1, mean temperature 5, precipitation 15 gives outdoor 2 |
| ScoringExamples.IndoorHeavyRain | src/tests/activity-scoring.test.ts:85-97 | precipitation 15, mean temperature 15 gives indoor 8 |
| ScoringExamples.IndoorExtremeHeat | src/tests/activity-scoring.test.ts:99-111 | precipitation 0, mean temperature 35 gives indoor 7 |
| ScoringExamples.IndoorPleasantWeather | src/tests/activity-scoring.test.ts:113-125 | precipitation 0, mean temperature 20 gives indoor 5 |
| ScoringExamples.SurfingIdealWindAndTemperature | src/tests/activity-scoring.test.ts:129-142 | mean wind 10, gusts 20, mean temperature 20, precipitation 0 gives surfing 6 |
| ScoringExamples.SurfingHighGusts | src/tests/activity-scoring.test.ts:144-157 | mean wind 10, gusts 50, mean temperature 20 gives surfing 4 |
| ScoringExamples.MultipleForecasts | src/tests/activity-scoring.test.ts:161-190 | two forecasts give two results carrying their own dates, with day-1 skiing and day-2 outdoor above 8 |
| ScoringExamples.ClampBoundaries | src/tests/activity-scoring.test.ts:203-226 | an indoor total of 5 + 3 + 2 reports exactly 10; an outdoor total of 5 - 3 reports 2 |
| Resolvers.LowerChar | src/graphql/resolvers.ts:37 | a lowered character is never an upper-case letter; upper-case letters move to their lower-case partner and every other character is kept |
| Resolvers.ToLower | src/graphql/resolvers.ts:37 | lower-casing keeps the length, lowers every character in place, and leaves no upper-case letter |
| Resolvers.ToLowerIdempotent | src/graphql/resolvers.ts:37 | lower-casing twice is the same as lower-casing once |
| Resolvers.Includes | src/graphql/resolvers.ts:37 | `includes` holds exactly when the query occurs at some index of the name |
| Resolvers.FilterCities | src/graphql/resolvers.ts:36-38 | the filter keeps an order-preserving subsequence of its input, keeps only matching cities, and keeps every matching city |
| Resolvers.FilterCitiesMultiplicity | src/graphql/resolvers.ts:36-38 | each matching city appears in the result exactly as many times as in the input, and a non-matching one not at all |
| Resolvers.SearchCity | src/graphql/resolvers.ts:3-39 | the result is an order-preserving subsequence of the five cities, of length at most 5, holding exactly the cities whose lower-cased name contains the lower-cased query |
| Resolvers.FilterCitiesCaseInsensitive | src/graphql/resolvers.ts:36-38 | the filter gives the same result for any two queries with the same lower-case form |
| Resolvers.SearchCityCaseInsensitive | src/graphql/resolvers.ts:37 | two queries with the same lower-case form give the same cities |
| Resolvers.SearchCityLowerCasedQuery | src/graphql/resolvers.ts:37 | lower-casing the query beforehand does not change the result |
| Resolvers.FilterCitiesAllMatch | src/graphql/resolvers.ts:36-38 | when every city matches, the filter returns its whole input |
| Resolvers.SearchCityEmptyQuery | src/graphql/resolvers.ts:36-38 | the empty query returns all five cities, in order |

## Left out

- `src/services/open-meteo-service.ts` is not part of this model. It builds URLs, calls the network, checks the HTTP status and decodes JSON.
- `src/index.ts` is not part of this model. It is HTTP server and middleware wiring plus logging.
- `src/graphql/schema.ts` is not part of this model. It is a declarative schema string with no logic.
- JavaScript number semantics are left out: NaN, IEEE rounding, and `undefined` fields in partially built records. Scores are exact `real`s, and every record has all of its fields. The test suite's partial records are completed with fixed values for the fields no scorer reads; the `...ReadsOwnFields` lemmas show that those values do not matter.
- Resolvers.LowerChar: lowers ASCII letters only, because full Unicode `toLowerCase` mappings (including ones that change the length) are outside the model.
- Resolvers.ToLower: ASCII only, for the same reason as `LowerChar`.
- The city records' latitude and longitude are carried as data; nothing computes with them.
