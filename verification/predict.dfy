/**
 * The prediction handler with no classifier loaded: read the request fields,
 * derive the features, score them with the fallback rules and answer with
 * the label, the percentage, the peak type and a note; any field that is
 * missing or does not convert answers with a failure instead.
 */
module Predict {
  import opened Features
  import opened Fallback

  datatype Option<T> = None | Some(value: T)

  /** A decoded request body. A field is None when its key is absent or when
      converting its value (to an integer, or to a float for the
      coordinates) fails. */
  datatype Request = Request(
    route: Option<string>,
    weather: Option<string>,
    passengers: Option<int>,
    hour: Option<int>,
    day: Option<int>,
    latitude: Option<real>,
    longitude: Option<real>)

  /** The handler's answer. A failure names the field whose read failed. */
  datatype Response =
    | Success(isLate: int, probability: int, peakType: string, note: string)
    | Failure(error: string)

  const FallbackNote := "Using fallback prediction (model not loaded)"

  /** Every percentage the fallback can report. */
  const FallbackValues: set<int> :=
    {5, 15, 20, 25, 30, 35, 40, 45, 50, 55, 60, 65, 70, 75, 80, 90}

  /** The first field, in the order the handler reads them, that cannot be
      read; None when all can. */
  function FirstBadField(req: Request): (name: Option<string>)
    ensures name.None? <==>
      req.route.Some? && req.weather.Some? && req.passengers.Some? && req.hour.Some?
      && req.day.Some? && req.latitude.Some? && req.longitude.Some?
    ensures req.route.None? ==> name == Some("route")
    ensures req.route.Some? && req.weather.None? ==> name == Some("weather")
  {
    if req.route.None? then Some("route")
    else if req.weather.None? then Some("weather")
    else if req.passengers.None? then Some("passengers")
    else if req.hour.None? then Some("hour")
    else if req.day.None? then Some("day")
    else if req.latitude.None? then Some("latitude")
    else if req.longitude.None? then Some("longitude")
    else None
  }

  /** The request fields in the order the handler reads them. */
  const FieldNames: seq<string> :=
    ["route", "weather", "passengers", "hour", "day", "latitude", "longitude"]

  /** Whether each field, in reading order, can be read. */
  function Readable(req: Request): (ok: seq<bool>)
    ensures |ok| == |FieldNames|
  {
    [req.route.Some?, req.weather.Some?, req.passengers.Some?, req.hour.Some?,
     req.day.Some?, req.latitude.Some?, req.longitude.Some?]
  }

  /** The handler stops at the first field it cannot read: the field named by
      FirstBadField cannot be read and every field read before it can. */
  lemma FirstBadFieldInReadingOrder(req: Request)
    ensures FirstBadField(req).Some? ==>
      exists i :: 0 <= i < |FieldNames| && FirstBadField(req) == Some(FieldNames[i])
        && !Readable(req)[i] && forall j :: 0 <= j < i ==> Readable(req)[j]
  {
    var ok := Readable(req);
    if !ok[0] { assert FirstBadField(req) == Some(FieldNames[0]); }
    else if !ok[1] { assert FirstBadField(req) == Some(FieldNames[1]); }
    else if !ok[2] { assert FirstBadField(req) == Some(FieldNames[2]); }
    else if !ok[3] { assert FirstBadField(req) == Some(FieldNames[3]); }
    else if !ok[4] { assert FirstBadField(req) == Some(FieldNames[4]); }
    else if !ok[5] { assert FirstBadField(req) == Some(FieldNames[5]); }
    else if !ok[6] { assert FirstBadField(req) == Some(FieldNames[6]); }
  }

  /** The fallback percentage of a request, from its raw fields. It is always
      one of the sixteen values of FallbackValues: never 10 nor 85, never
      above 90. */
  function FallbackProbability(hour: int, day: int, weather: string, passengers: int): (p: int)
    ensures p in FallbackValues
  {
    var f := DeriveFeatures(hour, day);
    Score(f.isRushHour != 0, weather == Rainy, passengers > CrowdThreshold,
          f.isWeekend != 0, f.isNight != 0)
  }

  /** Handles one prediction request in fallback mode. */
  method Predict(req: Request) returns (resp: Response)
    ensures resp.Failure? <==> FirstBadField(req).Some?
    ensures resp.Failure? ==> Some(resp.error) == FirstBadField(req)
    ensures resp.Success? ==>
      var p := FallbackProbability(req.hour.value, req.day.value, req.weather.value, req.passengers.value);
      && resp.probability == p
      && resp.isLate == IsLate(p)
      && resp.peakType == PeakName(PeakTypeOf(req.hour.value))
      && resp.note == FallbackNote
  {
    if req.route.None? {
      return Failure("route");
    }
    if req.weather.None? {
      return Failure("weather");
    }
    if req.passengers.None? {
      return Failure("passengers");
    }
    if req.hour.None? {
      return Failure("hour");
    }
    if req.day.None? {
      return Failure("day");
    }
    if req.latitude.None? {
      return Failure("latitude");
    }
    if req.longitude.None? {
      return Failure("longitude");
    }
    var weather, passengers := req.weather.value, req.passengers.value;
    var hour, day := req.hour.value, req.day.value;
    var f := DeriveFeatures(hour, day);
    var prob, late := FallbackScore(f, weather, passengers);
    resp := Success(late, prob, PeakName(f.peakType), FallbackNote);
  }

  /** Whether the fallback labels a request late, in terms of its inputs
      alone: in rush hour unless it is a dry, uncrowded weekend; outside rush
      hour only when it is rainy and crowded and not night. */
  lemma LateExactlyWhen(hour: int, day: int, weather: string, passengers: int)
    ensures
      var rush := 7 <= hour <= 9 || 16 <= hour <= 19;
      var night := hour >= 22 || hour <= 5;
      var rainy, crowded, weekend := weather == Rainy, passengers > CrowdThreshold, day >= 5;
      IsLate(FallbackProbability(hour, day, weather, passengers)) == 1 <==>
        (rush && (!weekend || rainy || crowded)) || (!rush && rainy && crowded && !night)
  {
  }

  /** Every value of FallbackValues is reported for some request, so the
      bounds 5 and 90 are both reached and the upper clamp at 95 is dead. */
  lemma EveryFallbackValueOccurs(p: int)
    requires p in FallbackValues
    ensures exists hour: int, day: int, weather: string, passengers: int ::
      FallbackProbability(hour, day, weather, passengers) == p
  {
    // Morning rush hour, daytime off-peak and night, on a weekday and on a
    // weekend, dry or rainy, light or crowded.
    if p == 90 { assert FallbackProbability(8, 1, "rainy", 50) == 90; }
    else if p == 80 { assert FallbackProbability(8, 6, "rainy", 50) == 80; }
    else if p == 75 { assert FallbackProbability(8, 1, "rainy", 10) == 75; }
    else if p == 70 { assert FallbackProbability(8, 1, "clear", 50) == 70; }
    else if p == 65 { assert FallbackProbability(8, 6, "rainy", 10) == 65; }
    else if p == 60 { assert FallbackProbability(8, 6, "clear", 50) == 60; }
    else if p == 55 { assert FallbackProbability(8, 1, "clear", 10) == 55; }
    else if p == 50 { assert FallbackProbability(12, 1, "rainy", 10) == 50; }
    else if p == 45 { assert FallbackProbability(8, 6, "clear", 10) == 45; }
    else if p == 40 { assert FallbackProbability(12, 6, "rainy", 10) == 40; }
    else if p == 35 { assert FallbackProbability(12, 6, "clear", 50) == 35; }
    else if p == 30 { assert FallbackProbability(12, 1, "clear", 10) == 30; }
    else if p == 25 { assert FallbackProbability(23, 6, "rainy", 10) == 25; }
    else if p == 20 { assert FallbackProbability(12, 6, "clear", 10) == 20; }
    else if p == 15 { assert FallbackProbability(23, 1, "clear", 10) == 15; }
    else { assert FallbackProbability(23, 6, "clear", 10) == 5; }
  }

  /** A rainy, crowded weekday morning: 90 percent, late, morning peak. */
  lemma RainyMorningScenario()
    ensures FallbackProbability(8, 1, "rainy", 50) == 90
    ensures IsLate(FallbackProbability(8, 1, "rainy", 50)) == 1
    ensures PeakName(PeakTypeOf(8)) == "morning_peak"
  {
  }

  /** A clear, light weekend night: the floor of 5 percent, not late. */
  lemma ClearWeekendNightScenario()
    ensures FallbackProbability(23, 6, "clear", 10) == 5
    ensures IsLate(FallbackProbability(23, 6, "clear", 10)) == 0
    ensures PeakName(PeakTypeOf(23)) == "off_peak"
  {
  }
}
