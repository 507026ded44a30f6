/**
 * Rule-based delay scoring, used by the handler when no trained classifier
 * is loaded. A percentage starts at a base value, is adjusted by five
 * conditional whole-number steps and is clamped to [5, 95]; the request is
 * labelled late when the percentage exceeds 50.
 *
 * All adjustments are whole numbers, so the handler's floating-point
 * percentage is modelled exactly as an int and rounding it to one decimal
 * changes nothing.
 */
module Fallback {
  import opened Features

  const BaseScore := 30
  const RushHourBonus := 25
  const RainBonus := 20
  const CrowdBonus := 15
  /** A request is crowded when its passenger count exceeds this. */
  const CrowdThreshold := 40
  const WeekendDiscount := 10
  const NightDiscount := 15
  const MinProbability := 5
  const MaxProbability := 95
  /** A request is late when its percentage exceeds this. */
  const LateThreshold := 50
  /** The only weather value that changes the score (case-sensitive). */
  const Rainy := "rainy"

  function Bonus(b: bool, amount: int): int {
    if b then amount else 0
  }

  /** The closed form of the additive score before clamping. Whatever the
      flags, it lies within [5, 90]. */
  function RawScore(rush: bool, rainy: bool, crowded: bool, weekend: bool, night: bool): (s: int)
    ensures MinProbability <= s <= 90
  {
    BaseScore + Bonus(rush, RushHourBonus) + Bonus(rainy, RainBonus) + Bonus(crowded, CrowdBonus)
      - Bonus(weekend, WeekendDiscount) - Bonus(night, NightDiscount)
  }

  /** `max(lo, min(hi, x))`. */
  function Clamp(lo: int, hi: int, x: int): (r: int)
    ensures lo <= r
    ensures lo <= hi ==> r <= hi
    ensures lo <= x <= hi ==> r == x
    ensures x < lo ==> r == lo
    ensures lo <= hi && hi < x ==> r == hi
  {
    var upper := if x < hi then x else hi;
    if lo < upper then upper else lo
  }

  /** The clamped fallback percentage. The clamp never binds: the result is
      the raw additive score itself. */
  function Score(rush: bool, rainy: bool, crowded: bool, weekend: bool, night: bool): (s: int)
    ensures s == RawScore(rush, rainy, crowded, weekend, night)
    ensures MinProbability <= s <= MaxProbability
  {
    Clamp(MinProbability, MaxProbability, RawScore(rush, rainy, crowded, weekend, night))
  }

  /** The late label of a percentage. */
  function IsLate(prob: int): (late: int)
    ensures late == 0 || late == 1
    ensures late == 1 <==> prob > LateThreshold
  {
    if prob > LateThreshold then 1 else 0
  }

  /** The fallback branch of the handler: the percentage is built up step by
      step in a local variable, clamped, then labelled. Indicator features
      are tested for truth as ints (non-zero is true). */
  method FallbackScore(f: FeatureRecord, weather: string, passengers: int) returns (prob: int, late: int)
    ensures prob == RawScore(f.isRushHour != 0, weather == Rainy, passengers > CrowdThreshold,
                             f.isWeekend != 0, f.isNight != 0)
    ensures MinProbability <= prob <= MaxProbability
    ensures late == 0 || late == 1
    ensures late == 1 <==> prob > LateThreshold
  {
    prob := BaseScore;
    if f.isRushHour != 0 {
      prob := prob + RushHourBonus;
    }
    if weather == Rainy {
      prob := prob + RainBonus;
    }
    if passengers > CrowdThreshold {
      prob := prob + CrowdBonus;
    }
    if f.isWeekend != 0 {
      prob := prob - WeekendDiscount;
    }
    if f.isNight != 0 {
      prob := prob - NightDiscount;
    }
    prob := Clamp(MinProbability, MaxProbability, prob);
    late := if prob > LateThreshold then 1 else 0;
  }

  /** Rain and crowding never lower the score; weekend and night never raise
      it, all other flags being equal. */
  lemma ScoreMonotone(rush: bool, rainy: bool, crowded: bool, weekend: bool, night: bool)
    ensures Score(rush, true, crowded, weekend, night) >= Score(rush, rainy, crowded, weekend, night)
    ensures Score(rush, rainy, true, weekend, night) >= Score(rush, rainy, crowded, weekend, night)
    ensures Score(rush, rainy, crowded, true, night) <= Score(rush, rainy, crowded, weekend, night)
    ensures Score(rush, rainy, crowded, weekend, true) <= Score(rush, rainy, crowded, weekend, night)
  {
  }
}
