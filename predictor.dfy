/** The demand forecaster: a baseline of patients per hour for each
    (weekday, hour) slot, scaled by three fixed factor tables, turned into
    staffing (doctors, nurses, boxes); a bounded list of observed usage and
    the drift between the latest observation and its forecast; and the
    simple training step that replaces the baseline by per-slot means.
    Arithmetic is exact (`real`); the source's binary floats and its
    rounding for display are not modelled. */
module Predictor {
  import opened Wrappers
  import opened Text
  import opened Knowledge

  /** `EnvironmentalFactors`. Each field names a row of its factor table;
      the last case of each type stands for any other string, which the
      table does not list. */
  datatype Factors = Factors(weather: Weather, traffic: Traffic, event: Event)
  datatype Weather = Sunny | Rainy | Storm | OtherWeather
  datatype Traffic = LowTraffic | MediumTraffic | HighTraffic | OtherTraffic
  datatype Event = NoEvent | Concert | Protest | Holiday | OtherEvent

  /** A value of the baseline model: a plain number of patients, or a
      record whose "count" and "severity" may each be absent. */
  datatype Entry = Plain(number: real) | Detailed(count: Option<real>, severity: Option<real>)

  /** `baseline_model`, keyed by slot key. */
  type Baseline = Dict<Entry>

  /** `f"{day_of_week}-{hour}"` */
  function SlotKey(weekday: nat, hour: nat): string {
    NatToString(weekday) + "-" + NatToString(hour)
  }

  // ---------------------------------------------------------------------
  // Factor tables (`MULTIPLIERS`); a value the table does not list counts 1.0

  function WeatherFactor(w: Weather): (m: real)
    ensures 1.0 <= m <= 1.25
  {
    match w
    case Sunny => 1.0
    case Rainy => 1.10
    case Storm => 1.25
    case OtherWeather => 1.0
  }

  function TrafficFactor(t: Traffic): (m: real)
    ensures 1.0 <= m <= 1.15
  {
    match t
    case LowTraffic => 1.0
    case MediumTraffic => 1.05
    case HighTraffic => 1.15
    case OtherTraffic => 1.0
  }

  function EventFactor(e: Event): (m: real)
    ensures 1.0 <= m <= 1.35
  {
    match e
    case NoEvent => 1.0
    case Concert => 1.20
    case Protest => 1.35
    case Holiday => 1.15
    case OtherEvent => 1.0
  }

  // ---------------------------------------------------------------------
  // Arithmetic helpers

  /** `math.ceil` */
  function Ceil(x: real): (n: int)
    ensures x <= n as real < x + 1.0
  {
    var f := x.Floor;
    if f as real == x then f else f + 1
  }

  lemma {:induction false} CeilMonotone(x: real, y: real)
    requires x <= y
    ensures Ceil(x) <= Ceil(y)
  {
  }

  lemma MulMonotone(a: real, x: real, y: real)
    requires 0.0 <= a && x <= y
    ensures a * x <= a * y
  {
  }

  lemma MulAtLeastOne(x: real, y: real)
    requires 1.0 <= x && 1.0 <= y
    ensures 1.0 <= x * y
  {
  }

  // ---------------------------------------------------------------------
  // Forecast

  /** `factors_applied`: the three multipliers and the slot's severity. */
  datatype Applied = Applied(weather: real, traffic: real, event: real, severity: real)

  /** `PredictionResult`; `predicted` is not rounded. */
  datatype Prediction = Prediction(
    predicted: real, doctors: int, nurses: int, boxes: int, confidence: real, applied: Applied)

  const DefaultCount := 10.0
  const DefaultSeverity := 1.0

  /** Patients per hour one doctor can see (`CAPACITY["doctor"]`). */
  const DoctorCapacity := 4.0
  /** Hours a patient stays, and the occupancy buffer on boxes. */
  const StayHours := 3.0
  const BoxBuffer := 1.1

  /** The slot's base demand: 10.0 when the slot is missing; a plain
      number as it is; a record's count, 10.0 when absent. */
  function BaseDemand(baseline: Baseline, key: string): real {
    var entry: Option<Entry> := Lookup(baseline, key);
    match entry
    case None => DefaultCount
    case Some(Plain(n)) => n
    case Some(Detailed(c, _)) => c.GetOr(DefaultCount)
  }

  /** The slot's clinical severity: 1.0 unless the slot holds a record
      with a severity. */
  function Severity(baseline: Baseline, key: string): real {
    var entry: Option<Entry> := Lookup(baseline, key);
    match entry
    case Some(Detailed(_, s)) => s.GetOr(DefaultSeverity)
    case _ => DefaultSeverity
  }

  /** Doctors: the severity-weighted demand over four patients each, rounded up. */
  function Doctors(predicted: real, severity: real): int {
    Ceil(predicted * severity / DoctorCapacity)
  }

  /** Nurses: one and a half per doctor, rounded up, and never fewer than two. */
  function Nurses(doctors: int): int {
    var n := Ceil(doctors as real * 1.5);
    if 2 >= n then 2 else n
  }

  /** Boxes: the demand over a three-hour stay, plus 10%, rounded up. */
  function Boxes(predicted: real): int {
    Ceil(predicted * StayHours * BoxBuffer)
  }

  /** A forecast of `predicted` patients at the given confidence and
      factors, staffed for it. */
  function Staffed(predicted: real, confidence: real, applied: Applied): Prediction {
    var doctors := Doctors(predicted, applied.severity);
    Prediction(predicted, doctors, Nurses(doctors), Boxes(predicted), confidence, applied)
  }

  /** The staffing covers what it is sized for: doctors are the fewest
      that see the severity-weighted demand at four patients each; nurses
      are the fewest that are at least two and at least one and a half per
      doctor; boxes are the fewest that hold the demand over a three-hour
      stay with a 10% buffer. */
  lemma {:induction false} StaffingCovers(predicted: real, confidence: real, applied: Applied)
    ensures var p := Staffed(predicted, confidence, applied);
      var weighted := p.predicted * p.applied.severity;
      weighted <= 4.0 * p.doctors as real < weighted + 4.0
      && p.nurses >= 2 && p.nurses as real >= 1.5 * p.doctors as real
      && p.boxes as real >= 3.3 * p.predicted
    ensures var p := Staffed(predicted, confidence, applied);
      (p.nurses == 2 || (p.nurses as real) < 1.5 * (p.doctors as real) + 1.0)
      && (p.boxes as real) < 3.3 * p.predicted + 1.0
  {
    var weighted := predicted * applied.severity;
    assert weighted / DoctorCapacity * 4.0 == weighted;
  }

  /** The base demand scaled by the product of the multipliers. */
  function Scaled(base: real, multiplier: real): real {
    base * multiplier
  }

  /** The forecast for a slot under the multipliers `w`, `t` and `e`. */
  function Forecast(baseline: Baseline, key: string, w: real, t: real, e: real): (p: Prediction)
    ensures Lookup(baseline, key).None? ==> p.confidence == 0.4 && p.applied.severity == 1.0
    ensures Lookup(baseline, key).Some? ==> p.confidence == 0.85
    ensures p.nurses >= 2 && p.nurses as real >= 1.5 * p.doctors as real
  {
    StaffingCovers(Scaled(BaseDemand(baseline, key), w * t * e),
      if Lookup(baseline, key).Some? then 0.85 else 0.4,
      Applied(w, t, e, Severity(baseline, key)));
    Staffed(Scaled(BaseDemand(baseline, key), w * t * e),
      if Lookup(baseline, key).Some? then 0.85 else 0.4,
      Applied(w, t, e, Severity(baseline, key)))
  }

  /** `predict`, for the weekday and hour of the target time. */
  function Predict(baseline: Baseline, weekday: nat, hour: nat, f: Factors): (p: Prediction)
    ensures 0.0 <= BaseDemand(baseline, SlotKey(weekday, hour)) ==> BaseDemand(baseline, SlotKey(weekday, hour)) <= p.predicted
    ensures Lookup(baseline, SlotKey(weekday, hour)).None? ==> 10.0 <= p.predicted && p.confidence == 0.4
  {
    ForecastDemand(baseline, SlotKey(weekday, hour),
      WeatherFactor(f.weather), TrafficFactor(f.traffic), EventFactor(f.event));
    Forecast(baseline, SlotKey(weekday, hour),
      WeatherFactor(f.weather), TrafficFactor(f.traffic), EventFactor(f.event))
  }

  /** Multipliers of at least 1 never lower a non-negative demand. */
  lemma {:induction false} ScaledAtLeastBase(base: real, w: real, t: real, e: real)
    requires 0.0 <= base && 1.0 <= w && 1.0 <= t && 1.0 <= e
    ensures 1.0 <= w * t * e && base <= Scaled(base, w * t * e)
  {
    MulAtLeastOne(w, t);
    MulAtLeastOne(w * t, e);
    MulMonotone(base, 1.0, w * t * e);
  }

  /** The forecast demand is the slot's base demand times the product of
      the three multipliers, and multipliers of at least 1 never lower
      it. */
  lemma {:induction false} ForecastDemand(baseline: Baseline, key: string, w: real, t: real, e: real)
    requires 1.0 <= w && 1.0 <= t && 1.0 <= e
    ensures var p := Forecast(baseline, key, w, t, e);
      p.predicted == Scaled(BaseDemand(baseline, key), w * t * e) && 1.0 <= w * t * e
      && (0.0 <= BaseDemand(baseline, key) ==> BaseDemand(baseline, key) <= p.predicted)
  {
    var base := BaseDemand(baseline, key);
    assert Forecast(baseline, key, w, t, e).predicted == Scaled(base, w * t * e);
    ScaledAtLeastBase(if 0.0 <= base then base else 0.0, w, t, e);
  }

  /** Where the slot's inputs come from: a missing slot forecasts from
      base 10 at severity 1 and confidence 0.4; a present slot at
      confidence 0.85; a plain number is the base demand itself at
      severity 1; a record gives its count and severity, 10 and 1 when
      absent. */
  lemma {:induction false} ForecastDefaults(baseline: Baseline, key: string, w: real, t: real, e: real)
    ensures var p := Forecast(baseline, key, w, t, e);
      var entry: Option<Entry> := Lookup(baseline, key);
      p.applied == Applied(w, t, e, Severity(baseline, key))
      && (entry.None? ==> p.confidence == 0.4 && BaseDemand(baseline, key) == 10.0 && p.applied.severity == 1.0)
      && (entry.Some? ==> p.confidence == 0.85)
      && (entry.Some? && entry.value.Plain? ==>
            BaseDemand(baseline, key) == entry.value.number && p.applied.severity == 1.0)
      && (entry.Some? && entry.value.Detailed? ==>
            BaseDemand(baseline, key) == entry.value.count.GetOr(10.0)
            && p.applied.severity == entry.value.severity.GetOr(1.0))
  {
  }

  /** More severity never means fewer doctors for the same demand. */
  lemma {:induction false} DoctorsMonotone(predicted: real, s1: real, s2: real)
    requires 0.0 <= predicted && s1 <= s2
    ensures Doctors(predicted, s1) <= Doctors(predicted, s2)
  {
    MulMonotone(predicted, s1, s2);
    CeilMonotone(predicted * s1 / DoctorCapacity, predicted * s2 / DoctorCapacity);
  }

  lemma {:induction false} ForecastSeverity(baseline: Baseline, key: string, w: real, t: real, e: real,
                                            count: real, s1: real, s2: real)
    requires 1.0 <= w && 1.0 <= t && 1.0 <= e
    requires 0.0 <= count && s1 <= s2
    ensures Forecast(Assign(baseline, key, Detailed(Some(count), Some(s1))), key, w, t, e).doctors
      <= Forecast(Assign(baseline, key, Detailed(Some(count), Some(s2))), key, w, t, e).doctors
  {
    var m := w * t * e;
    ScaledAtLeastBase(count, w, t, e);
    var x := Scaled(count, m);
    AssignedSlot(baseline, key, w, t, e, count, s1);
    AssignedSlot(baseline, key, w, t, e, count, s2);
    DoctorsMonotone(x, s1, s2);
  }

  /** A slot just set to a record with a count and a severity forecasts
      from exactly those. */
  lemma {:induction false} AssignedSlot(baseline: Baseline, key: string, w: real, t: real, e: real,
                                        count: real, severity: real)
    ensures Forecast(Assign(baseline, key, Detailed(Some(count), Some(severity))), key, w, t, e)
      == Staffed(Scaled(count, w * t * e), 0.85, Applied(w, t, e, severity))
  {
    var b := Assign(baseline, key, Detailed(Some(count), Some(severity)));
    AssignLookup(baseline, key, Detailed(Some(count), Some(severity)), key);
    assert BaseDemand(b, key) == count && Severity(b, key) == severity;
  }

  /** A higher severity in a slot never lowers the number of doctors. */
  lemma {:induction false} SeverityRaisesDoctors(baseline: Baseline, weekday: nat, hour: nat, f: Factors,
                                                 count: real, s1: real, s2: real)
    requires 0.0 <= count && s1 <= s2
    ensures var key := SlotKey(weekday, hour);
      Predict(Assign(baseline, key, Detailed(Some(count), Some(s1))), weekday, hour, f).doctors
      <= Predict(Assign(baseline, key, Detailed(Some(count), Some(s2))), weekday, hour, f).doctors
  {
    ForecastSeverity(baseline, SlotKey(weekday, hour),
      WeatherFactor(f.weather), TrafficFactor(f.traffic), EventFactor(f.event), count, s1, s2);
  }

  lemma {:induction false} MondayTen()
    ensures SlotKey(0, 10) == "0-10"
  {
    assert NatToString(10) == NatToString(1) + [DigitChar(0)];
  }

  /** Ten patients at severity 2 need five doctors, at severity 1 three. */
  lemma {:induction false} SeverityExample()
    ensures Predict([("0-10", Detailed(Some(10.0), Some(2.0)))], 0, 10, Factors(Sunny, LowTraffic, NoEvent)).doctors == 5
    ensures Predict([("0-10", Detailed(Some(10.0), Some(1.0)))], 0, 10, Factors(Sunny, LowTraffic, NoEvent)).doctors == 3
  {
    MondayTen();
  }

  /** Twenty patients on a stormy day with a protest become 33.75. */
  lemma {:induction false} StormProtestExample()
    ensures Predict([("0-10", Plain(20.0))], 0, 10, Factors(Storm, LowTraffic, Protest)).predicted == 33.75
  {
    MondayTen();
  }

  // ---------------------------------------------------------------------
  // Observed usage and drift

  /** An `actual_usage` entry; `weekday` and `hour` are what
      `datetime.fromisoformat` reads from the timestamp. */
  datatype Usage = Usage(timestamp: string, weekday: nat, hour: nat, count: int)

  const MaxUsage := 100

  /** The usage list after recording `u`: appended at the end, and the
      oldest entry dropped when that makes more than 100. */
  function Recorded(usage: seq<Usage>, u: Usage): (r: seq<Usage>)
    ensures |r| > 0 && r[|r| - 1] == u
    ensures |usage| <= MaxUsage ==> |r| <= MaxUsage
    ensures |r| <= |usage| + 1
  {
    var r := usage + [u];
    if |r| > MaxUsage then r[1..] else r
  }

  /** Recording keeps the newest entry last, never lets a list of at most
      100 entries grow past 100, keeps the others in order, and drops
      exactly the oldest one at the cap. */
  lemma {:induction false} RecordedMeaning(usage: seq<Usage>, u: Usage)
    ensures var r := Recorded(usage, u);
      |r| > 0 && r[|r| - 1] == u
      && (|usage| < MaxUsage ==> r == usage + [u])
      && (|usage| >= MaxUsage ==> r == usage[1..] + [u] && |r| == |usage|)
      && (|usage| <= MaxUsage ==> |r| <= MaxUsage)
  {
    if |usage| >= MaxUsage {
      assert (usage + [u])[1..] == usage[1..] + [u];
    }
  }

  /** `get_drift_report` */
  datatype DriftReport =
    | NoData
    | Active(latestTimestamp: string, actual: real, predicted: real, drift: real, alert: bool)
  {
    /** `drift_percentage` */
    function Percentage(): real {
      if NoData? then 0.0 else drift
    }
  }

  function Abs(x: real): real {
    if x < 0.0 then -x else x
  }

  /** The relative deviation in percent, 0 when nothing was forecast. */
  function Drift(actual: real, predicted: real): real {
    if predicted == 0.0 then 0.0 else (actual - predicted) / predicted * 100.0
  }

  const AlertThreshold := 20.0

  /** The factors the drift check forecasts with. */
  const Calm := Factors(Sunny, LowTraffic, NoEvent)

  function GetDriftReport(baseline: Baseline, usage: seq<Usage>): (r: DriftReport)
    ensures r.NoData? <==> usage == []
    ensures r.Active? ==> r.latestTimestamp == usage[|usage| - 1].timestamp
    ensures r.Active? && 0.0 < r.predicted ==>
      (r.alert <==> r.actual > 1.2 * r.predicted || r.actual < 0.8 * r.predicted)
  {
    if usage == [] then NoData
    else
      var latest := usage[|usage| - 1];
      var predicted := Predict(baseline, latest.weekday, latest.hour, Calm).predicted;
      var actual := latest.count as real;
      var drift := Drift(actual, predicted);
      DriftAlertMeaning(actual, predicted);
      Active(latest.timestamp, actual, predicted, drift, Abs(drift) > AlertThreshold)
  }

  /** `check_drift_alert`: the report's alert, false when it has none. */
  function CheckDriftAlert(baseline: Baseline, usage: seq<Usage>): (alert: bool)
    ensures alert ==> usage != []
    ensures usage != [] ==>
      var latest := usage[|usage| - 1];
      var p := Predict(baseline, latest.weekday, latest.hour, Calm).predicted;
      0.0 < p ==> (alert <==> latest.count as real > 1.2 * p || latest.count as real < 0.8 * p)
  {
    var r := GetDriftReport(baseline, usage);
    r.Active? && r.alert
  }

  lemma MulStrict(q: real, c: real, p: real)
    requires 0.0 < p
    ensures q > c <==> q * p > c * p
  {
    if q > c {
      assert (q - c) * p > 0.0;
    } else {
      assert (c - q) * p >= 0.0;
    }
  }

  /** With a positive forecast the alert is raised exactly when the
      observation lies outside 80%..120% of it; with no forecast there is
      no drift. */
  lemma {:induction false} DriftAlertMeaning(actual: real, predicted: real)
    ensures 0.0 < predicted ==>
      (Abs(Drift(actual, predicted)) > AlertThreshold <==> actual > 1.2 * predicted || actual < 0.8 * predicted)
    ensures predicted == 0.0 ==> Drift(actual, predicted) == 0.0
  {
    if 0.0 < predicted {
      var q := (actual - predicted) / predicted;
      assert q * predicted == actual - predicted;
      assert Drift(actual, predicted) == q * 100.0;
      MulStrict(q, 0.2, predicted);
      MulStrict(-0.2, q, predicted);
    }
  }

  /** The report compares the latest observation with the calm-day
      forecast of its slot; there is no data exactly when nothing was
      observed, and the alert check is false then. */
  lemma {:induction false} DriftReportMeaning(baseline: Baseline, usage: seq<Usage>)
    ensures GetDriftReport(baseline, usage).NoData? <==> usage == []
    ensures usage == [] ==> !CheckDriftAlert(baseline, usage) && GetDriftReport(baseline, usage).Percentage() == 0.0
    ensures usage != [] ==>
      var r := GetDriftReport(baseline, usage);
      var latest := usage[|usage| - 1];
      r.latestTimestamp == latest.timestamp && r.actual == latest.count as real
      && r.predicted == Predict(baseline, latest.weekday, latest.hour, Calm).predicted
      && (CheckDriftAlert(baseline, usage) <==> Abs(r.drift) > AlertThreshold)
      && (0.0 < r.predicted ==> (r.alert <==> r.actual > 1.2 * r.predicted || r.actual < 0.8 * r.predicted))
  {
    if usage != [] {
      var r := GetDriftReport(baseline, usage);
      DriftAlertMeaning(r.actual, r.predicted);
    }
  }

  /** With no baseline for the slot the calm forecast is 10: an
      observation of 50 raises the alert, one of 10 does not. */
  lemma {:induction false} DefaultSlotDrift(baseline: Baseline, usage: seq<Usage>, u: Usage)
    requires Lookup(baseline, SlotKey(u.weekday, u.hour)).None?
    ensures u.count == 50 ==> CheckDriftAlert(baseline, usage + [u])
    ensures u.count == 10 ==> !CheckDriftAlert(baseline, usage + [u])
  {
    assert (usage + [u])[|usage|] == u;
    assert Predict(baseline, u.weekday, u.hour, Calm).predicted == 10.0;
  }

  // ---------------------------------------------------------------------
  // Simple training

  /** One group of the historical rows with the same weekday and hour: the
      `patients_seen` of each row (a group is never empty). */
  datatype Group = Group(weekday: nat, hour: nat, seen: seq<real>)

  function Sum(xs: seq<real>): real
    decreases |xs|
  {
    if xs == [] then 0.0 else Sum(xs[..|xs| - 1]) + xs[|xs| - 1]
  }

  function Mean(xs: seq<real>): real
    requires xs != []
  {
    Sum(xs) / (|xs| as real)
  }

  predicate NonEmptyGroups(groups: seq<Group>) {
    forall i :: 0 <= i < |groups| ==> groups[i].seen != []
  }

  function GroupKeys(groups: seq<Group>): (keys: seq<string>)
    ensures |keys| == |groups|
    ensures forall i :: 0 <= i < |groups| ==> keys[i] == SlotKey(groups[i].weekday, groups[i].hour)
  {
    seq(|groups|, i requires 0 <= i < |groups| => SlotKey(groups[i].weekday, groups[i].hour))
  }

  /** The trained entry of a group: its mean, at severity 1. */
  function GroupEntry(g: Group): Entry
    requires g.seen != []
  {
    Detailed(Some(Mean(g.seen)), Some(1.0))
  }

  function GroupEntries(groups: seq<Group>): (entries: seq<Entry>)
    requires NonEmptyGroups(groups)
    ensures |entries| == |groups|
    ensures forall i :: 0 <= i < |groups| ==> entries[i] == GroupEntry(groups[i])
  {
    seq(|groups|, i requires 0 <= i < |groups| => GroupEntry(groups[i]))
  }

  /** The new baseline: one entry per slot, in group order. */
  function Trained(groups: seq<Group>): (b: Baseline)
    requires NonEmptyGroups(groups)
    ensures forall i :: 0 <= i < |groups| ==> Lookup(b, SlotKey(groups[i].weekday, groups[i].hour)).Some?
    ensures forall k :: Lookup(b, k).Some? ==> Lookup(b, k).value.Detailed? && Lookup(b, k).value.severity == Some(1.0)
  {
    TrainedSlots(groups);
    FromPairs(GroupKeys(groups), GroupEntries(groups))
  }

  /** Every group's slot is filled, and every filled slot holds a record
      at severity 1. */
  lemma {:induction false} TrainedSlots(groups: seq<Group>)
    requires NonEmptyGroups(groups)
    ensures var b := FromPairs(GroupKeys(groups), GroupEntries(groups));
      forall i :: 0 <= i < |groups| ==> Lookup(b, SlotKey(groups[i].weekday, groups[i].hour)).Some?
    ensures var b := FromPairs(GroupKeys(groups), GroupEntries(groups));
      forall k :: Lookup(b, k).Some? ==> Lookup(b, k).value.Detailed? && Lookup(b, k).value.severity == Some(1.0)
  {
    var keys, entries := GroupKeys(groups), GroupEntries(groups);
    var b := FromPairs(keys, entries);
    forall k
      ensures Lookup(b, k).None? <==> k !in keys
      ensures Lookup(b, k).Some? ==> Lookup(b, k).value.Detailed? && Lookup(b, k).value.severity == Some(1.0)
    {
      FromPairsFindsLast(keys, entries, k);
    }
    forall i | 0 <= i < |groups|
      ensures Lookup(b, SlotKey(groups[i].weekday, groups[i].hour)).Some?
    {
      assert keys[i] == SlotKey(groups[i].weekday, groups[i].hour);
    }
  }

  /** Training replaces the baseline wholesale: with distinct slot keys,
      each group's slot holds its mean at severity 1, and a slot no group
      has holds nothing (whatever the old baseline held). */
  lemma {:induction false} TrainedMeaning(groups: seq<Group>, k: string)
    requires NonEmptyGroups(groups)
    requires forall i, j :: 0 <= i < j < |groups| ==>
      SlotKey(groups[i].weekday, groups[i].hour) != SlotKey(groups[j].weekday, groups[j].hour)
    ensures Lookup(Trained(groups), k).None? <==>
      forall i :: 0 <= i < |groups| ==> SlotKey(groups[i].weekday, groups[i].hour) != k
    ensures forall i :: 0 <= i < |groups| && SlotKey(groups[i].weekday, groups[i].hour) == k ==>
      Lookup(Trained(groups), k) == Some(Detailed(Some(Mean(groups[i].seen)), Some(1.0)))
  {
    var keys, entries := GroupKeys(groups), GroupEntries(groups);
    FromPairsFindsLast(keys, entries, k);
    assert k in keys <==> exists i :: 0 <= i < |groups| && SlotKey(groups[i].weekday, groups[i].hour) == k;
    var r := Lookup(Trained(groups), k);
    if r.Some? {
      var i :| 0 <= i < |keys| && keys[i] == k && entries[i] == r.value
        && forall j :: i < j < |keys| ==> keys[j] != k;
      forall j | 0 <= j < |groups| && SlotKey(groups[j].weekday, groups[j].hour) == k
        ensures j == i
      {
      }
    }
  }

  /** After training, a trained slot forecasts from its mean at
      confidence 0.85 and severity 1, whatever the factors. */
  lemma {:induction false} TrainedPrediction(groups: seq<Group>, i: nat, f: Factors)
    requires NonEmptyGroups(groups) && i < |groups|
    requires forall a, b :: 0 <= a < b < |groups| ==>
      SlotKey(groups[a].weekday, groups[a].hour) != SlotKey(groups[b].weekday, groups[b].hour)
    ensures var g := groups[i];
      var p := Predict(Trained(groups), g.weekday, g.hour, f);
      p.confidence == 0.85 && p.applied.severity == 1.0
      && BaseDemand(Trained(groups), SlotKey(g.weekday, g.hour)) == Mean(g.seen)
  {
    var g := groups[i];
    var key := SlotKey(g.weekday, g.hour);
    TrainedMeaning(groups, key);
    ForecastDefaults(Trained(groups), key, WeatherFactor(f.weather), TrafficFactor(f.traffic), EventFactor(f.event));
  }

  // ---------------------------------------------------------------------
  // The predictor object

  /** `ResourcePredictor`: the baseline model and the observed usage are
      its state. */
  class ResourcePredictor {
    var baseline: Baseline
    var usage: seq<Usage>

    /** `loaded` is the model read from disk at construction, or the empty
        model when there is none or it cannot be read. */
    constructor(loaded: Baseline)
      ensures baseline == loaded && usage == []
    {
      baseline := loaded;
      usage := [];
    }

    /** `record_actual_usage` */
    method RecordActualUsage(u: Usage)
      modifies this
      ensures usage == Recorded(old(usage), u)
      ensures baseline == old(baseline)
    {
      usage := usage + [u];
      if |usage| > MaxUsage {
        usage := usage[1..];
      }
    }

    /** The simple mode of `train_from_csv`, from the grouped rows: builds
        the new model slot by slot and then replaces the baseline with it;
        returns the number of entries. */
    method TrainSimple(groups: seq<Group>) returns (entries: nat)
      requires NonEmptyGroups(groups)
      modifies this
      ensures baseline == Trained(groups)
      ensures usage == old(usage)
      ensures entries == |baseline|
    {
      var keys, values := GroupKeys(groups), GroupEntries(groups);
      var model: Baseline := [];
      var i := 0;
      while i < |groups|
        invariant 0 <= i <= |groups|
        invariant model == FromPairs(keys[..i], values[..i])
        invariant usage == old(usage)
      {
        FromPairsPrefix(keys, values, i);
        model := Assign(model, SlotKey(groups[i].weekday, groups[i].hour), GroupEntry(groups[i]));
        i := i + 1;
      }
      assert keys[..|groups|] == keys && values[..|groups|] == values;
      baseline := model;
      entries := |model|;
    }
  }
}
