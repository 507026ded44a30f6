# Bus-delay prediction handler, fallback mode

This project models the decision logic of a small web service that predicts
whether a bus run will be late. A `POST /predict` request carries a route, a
weather string, a passenger count, an hour of day, a day of week and a
position. The handler derives time-of-day features from the hour and day.
When no trained classifier is loaded, it scores a delay percentage with fixed
additive rules and labels the run late when the percentage exceeds 50.

- `Features` (features.dfy): the feature derivation. It yields `is_weekend`,
  `is_rush_hour`, `is_night`, `rush_weekend_interaction` and the peak type
  (`morning_peak`, `evening_peak`, `off_peak`). These are pure functions over
  unconstrained integers.
- `Fallback` (fallback.dfy): the fallback scoring. `FallbackScore` is a method
  that builds the percentage step by step in a local variable, as the handler
  does. It is proved equal to the closed-form `RawScore`.
- `Predict` (predict.dfy): the handler in fallback mode. It reads the request
  fields, fails on the first field that is missing or does not convert, and
  builds the success response. Lemmas here cover the whole pipeline.

Facts the proofs establish:

- Rush hour and night never overlap, for any integer hour.
- The rush-hour indicator is 1 exactly when the peak type is not off-peak.
- The raw additive score always lies in [5, 90]. So the clamp to [5, 95]
  never changes it, and no input reaches the upper bound 95.
- The reported percentage is always one of
  5, 15, 20, 25, 30, 35, 40, 45, 50, 55, 60, 65, 70, 75, 80 and 90. Each of
  these occurs for some request; 10 and 85 never occur.

The hour and day are not range-checked by the handler, and the model keeps
that. An hour of 30 gives `is_night = 1`, because app.py:40 tests
`hour >= 22`; a negative hour gives 1 too, because it tests `hour <= 5`. Both
are off-peak (`Features.OutOfRangeHourIsNight`).

The percentage is a float in the handler. Every adjustment is a whole number
added to the base 30.0, so it is modelled exactly as an `int`, and rounding
it to one decimal changes nothing.

## Model

| member | source | states |
|---|---|---|
| `Features.PeakTypeOf` | app.py:44-49 | the peak type is morning exactly for hours 7..9, evening exactly for hours 16..19, off-peak for every other integer |
| `Features.DeriveFeatures` | app.py:38-49 | each indicator is 0 or 1: weekend iff day >= 5, rush hour iff hour in 7..9 or 16..19, night iff hour >= 22 or hour <= 5; the interaction is 0/1 and is 1 iff rush hour and weekend; rush hour is 1 iff the peak type is not off-peak; rush hour and night are never both 1 |
| `Features.OutOfRangeHourIsNight` | app.py:39-40 | an hour outside 0..23 is accepted and classified as night, not rush hour, off-peak |
| `Fallback.RawScore` | app.py:83-94 | the additive score 30 + 25·rush + 20·rainy + 15·crowded − 10·weekend − 15·night lies in [5, 90] for all flag values |
| `Fallback.Clamp` | app.py:96 | `max(lo, min(hi, x))` is at least lo, at most hi when lo <= hi, x itself when within bounds, the nearer bound otherwise |
| `Fallback.Score` | app.py:83-96 | the clamped score equals the unclamped additive score and lies in [5, 95] |
| `Fallback.IsLate` | app.py:100 | the label is 0 or 1, and 1 iff the percentage exceeds 50 |
| `Fallback.FallbackScore` | app.py:83-100 | the step-by-step percentage equals the closed-form additive score of the features (ints tested as truth values), lies in [5, 95]; the label is 0/1 and 1 iff the percentage exceeds 50 |
| `Fallback.ScoreMonotone` | app.py:85-96 | with the other flags equal, rain or crowding never lowers the score and weekend or night never raises it |
| `Predict.FirstBadField` | app.py:29-35 | no field fails iff all seven are present and convert |
| `Predict.FirstBadFieldInReadingOrder` | app.py:29-35 | when a field fails, the one named is the first unreadable field in reading order: it cannot be read and every field read before it can |
| `Predict.FallbackProbability` | app.py:38-96 | the fallback percentage of any request is one of 5, 15, 20, …, 80, 90 |
| `Predict.Predict` | app.py:24-110 | the handler fails iff some field cannot be read, naming the first one; on success it reports the fallback percentage, its late label, the peak-type label and the fallback note |
| `Predict.LateExactlyWhen` | app.py:38-100 | a request is labelled late iff it is in rush hour and not a dry, uncrowded weekend, or outside rush hour rainy, crowded and not at night |
| `Predict.EveryFallbackValueOccurs` | app.py:83-96 | each value 5, 15, 20, …, 80, 90 is the fallback percentage of some request, so both bounds 5 and 90 are reached |
| `Predict.RainyMorningScenario` | app.py:38-101 | hour 8, day 1, rainy, 50 passengers: 90 percent, late, `morning_peak` |
| `Predict.ClearWeekendNightScenario` | app.py:38-101 | hour 23, day 6, clear, 10 passengers: 5 percent, not late, `off_peak` |

## Left out

- The classifier branch (app.py:68-80): loading the serialised model and
  calling its predict and predict_proba are calls into an opaque library, and
  its probability arithmetic is floating point. The handler is modelled with
  no model loaded.
- Building the data frame passed to the classifier (app.py:52-65): it only
  orders the fields for that library.
- Parsing the JSON body and the `int(...)`/`float(...)` conversions
  (app.py:26-35): a request is taken as already decoded, each field either a
  value or a failure. A body that is not a JSON object is not modelled.
  Latitude and longitude are only passed through, so they are `real`s.
- `Predict.Predict`: the failure response names the failing field instead of
  the text of the exception, which is produced by the language runtime.
- The web-framework setup, the routes, the home page template and the
  startup and logging prints (app.py:1-19, app.py:112-115).
