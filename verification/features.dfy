/**
 * Feature derivation of the bus-delay prediction handler.
 *
 * From the integer hour of day and day of week of a request the handler
 * derives four 0/1 indicator features and a categorical peak type. No range
 * check is made on either input: every integer is accepted and classified by
 * the same comparisons, so an hour of 30 or -1 counts as night.
 */
module Features {

  /** The categorical time-of-day feature. */
  datatype PeakType = MorningPeak | EveningPeak | OffPeak

  /** The full derived feature record: the two inputs passed through, then the
      derived fields, each indicator an int 0 or 1 as in the handler. */
  datatype FeatureRecord = FeatureRecord(
    hour: int,
    day: int,
    isWeekend: int,
    isRushHour: int,
    isNight: int,
    rushWeekendInteraction: int,
    peakType: PeakType)

  /** The label under which a peak type is sent back to the client. */
  function PeakName(p: PeakType): string {
    match p
    case MorningPeak => "morning_peak"
    case EveningPeak => "evening_peak"
    case OffPeak => "off_peak"
  }

  /** The peak type of an hour: an if/elif/else chain over the two windows. */
  function PeakTypeOf(hour: int): (p: PeakType)
    ensures p == MorningPeak <==> 7 <= hour <= 9
    ensures p == EveningPeak <==> 16 <= hour <= 19
    ensures p == OffPeak <==> !(7 <= hour <= 9) && !(16 <= hour <= 19)
  {
    if 7 <= hour <= 9 then MorningPeak
    else if 16 <= hour <= 19 then EveningPeak
    else OffPeak
  }

  /** Derives the feature record of a request. The rush-hour indicator and the
      peak type are computed independently from the hour; the contract shows
      that they agree and that rush hour and night never overlap. */
  function DeriveFeatures(hour: int, day: int): (f: FeatureRecord)
    ensures f.hour == hour && f.day == day
    ensures 0 <= f.isWeekend <= 1 && (f.isWeekend == 1 <==> day >= 5)
    ensures 0 <= f.isRushHour <= 1 && (f.isRushHour == 1 <==> 7 <= hour <= 9 || 16 <= hour <= 19)
    ensures 0 <= f.isNight <= 1 && (f.isNight == 1 <==> hour >= 22 || hour <= 5)
    ensures 0 <= f.rushWeekendInteraction <= 1
    ensures f.rushWeekendInteraction == 1 <==> f.isRushHour == 1 && f.isWeekend == 1
    ensures f.peakType == PeakTypeOf(hour)
    ensures f.isRushHour == 1 <==> f.peakType != OffPeak
    ensures !(f.isRushHour == 1 && f.isNight == 1)
  {
    var isWeekend := if day >= 5 then 1 else 0;
    var isRushHour := if 7 <= hour <= 9 || 16 <= hour <= 19 then 1 else 0;
    var isNight := if hour >= 22 || hour <= 5 then 1 else 0;
    FeatureRecord(hour, day, isWeekend, isRushHour, isNight,
                  isRushHour * isWeekend, PeakTypeOf(hour))
  }

  /** An hour outside 0..23 is not rejected: it is classified as night and
      off-peak. */
  lemma OutOfRangeHourIsNight(hour: int, day: int)
    requires hour < 0 || hour > 23
    ensures DeriveFeatures(hour, day).isNight == 1
    ensures DeriveFeatures(hour, day).isRushHour == 0
    ensures DeriveFeatures(hour, day).peakType == OffPeak
  {
  }
}
