/** Data model shared by the server and the dashboard: metric kinds, readings,
    behavioural logs, threshold bands, alert levels, assessments and alerts. */
module HealthTypes {

  datatype Option<+T> = None | Some(value: T)

  /** The five physiological metrics the system tracks. */
  datatype MetricType = HEART_RATE | GLUCOSE | SPO2 | SLEEP_HOURS | ACTIVITY_MINUTES

  /** Every metric type, in declaration order. */
  const AllMetrics: seq<MetricType> := [HEART_RATE, GLUCOSE, SPO2, SLEEP_HOURS, ACTIVITY_MINUTES]

  lemma AllMetricsExactlyOnce()
    ensures |AllMetrics| == 5
    ensures forall t: MetricType :: t in AllMetrics
    ensures forall i, j :: 0 <= i < j < |AllMetrics| ==> AllMetrics[i] != AllMetrics[j]
  {
    forall t: MetricType ensures t in AllMetrics {
      match t
      case HEART_RATE => assert AllMetrics[0] == t;
      case GLUCOSE => assert AllMetrics[1] == t;
      case SPO2 => assert AllMetrics[2] == t;
      case SLEEP_HOURS => assert AllMetrics[3] == t;
      case ACTIVITY_MINUTES => assert AllMetrics[4] == t;
    }
  }

  /** One time-stamped physiological reading (milliseconds since the epoch). */
  datatype HealthDataPoint = HealthDataPoint(id: string, timestamp: int, metric: MetricType, value: real, unit: string)

  datatype DietLogType = LOW_CARB | BALANCED | HIGH_CARB | SNACK_LIGHT | SNACK_HEAVY | FASTING
  datatype MoodLogType = HAPPY | CALM | STRESSED | ANXIOUS | SAD | ENERGETIC
  datatype Intensity = LOW | MEDIUM | HIGH

  /** The string value each diet enumerator carries. */
  function DietText(d: DietLogType): string
  {
    match d
    case LOW_CARB => "Low Carb Meal"
    case BALANCED => "Balanced Meal"
    case HIGH_CARB => "High Carb Meal"
    case SNACK_LIGHT => "Light Snack"
    case SNACK_HEAVY => "Heavy Snack"
    case FASTING => "Fasting"
  }

  /** The string value each mood enumerator carries. */
  function MoodText(m: MoodLogType): string
  {
    match m
    case HAPPY => "Happy"
    case CALM => "Calm"
    case STRESSED => "Stressed"
    case ANXIOUS => "Anxious"
    case SAD => "Sad"
    case ENERGETIC => "Energetic"
  }

  /** The discriminant of a behavioural log. */
  datatype LogKind = DIET | MOOD | ACTIVITY

  /** A self-reported behavioural event: a tagged union of three variants that
      share an id, a timestamp and optional notes. */
  datatype BehavioralLog =
    | DietLog(id: string, timestamp: int, notes: Option<string>, dietType: DietLogType, details: Option<string>)
    | MoodLog(id: string, timestamp: int, notes: Option<string>, moodType: MoodLogType)
    | ActivityLog(id: string, timestamp: int, notes: Option<string>, activityType: string,
                  durationMinutes: real, intensity: Option<Intensity>)
  {
    function Kind(): (k: LogKind)
      ensures k == DIET <==> DietLog?
      ensures k == MOOD <==> MoodLog?
      ensures k == ACTIVITY <==> ActivityLog?
    {
      match this
      case DietLog(_, _, _, _, _) => DIET
      case MoodLog(_, _, _, _) => MOOD
      case ActivityLog(_, _, _, _, _, _) => ACTIVITY
    }
  }

  /** A JavaScript optional string is truthy when it is present and non-empty. */
  predicate Present(s: Option<string>)
  {
    s.Some? && s.value != ""
  }

  /** A band with a floor and a ceiling, and a band with a floor only. */
  datatype RangeBand = RangeBand(low: real, high: real)
  datatype FloorBand = FloorBand(low: real)

  /** The user's personalised bands; every entry may be missing. */
  datatype UserThresholds = UserThresholds(
    heartRate: Option<RangeBand>,
    glucose: Option<RangeBand>,
    spo2: Option<RangeBand>,
    sleepHours: Option<FloorBand>,
    activityMinutes: Option<FloorBand>)

  /** The band of one metric as the dashboard sees it: an object with `low`
      and `high`, or an object with `low` only. */
  datatype Band = Range(low: real, high: real) | Floor(low: real)

  function BandOf(th: UserThresholds, t: MetricType): (b: Option<Band>)
    ensures t in {HEART_RATE, GLUCOSE, SPO2} ==> b.None? || b.value.Range?
    ensures t in {SLEEP_HOURS, ACTIVITY_MINUTES} ==> b.None? || b.value.Floor?
  {
    match t
    case HEART_RATE => if th.heartRate.Some? then Some(Range(th.heartRate.value.low, th.heartRate.value.high)) else None
    case GLUCOSE => if th.glucose.Some? then Some(Range(th.glucose.value.low, th.glucose.value.high)) else None
    case SPO2 => if th.spo2.Some? then Some(Range(th.spo2.value.low, th.spo2.value.high)) else None
    case SLEEP_HOURS => if th.sleepHours.Some? then Some(Floor(th.sleepHours.value.low)) else None
    case ACTIVITY_MINUTES => if th.activityMinutes.Some? then Some(Floor(th.activityMinutes.value.low)) else None
  }

  /** The design invariant of a band: low < high wherever both are present. */
  predicate OrderedBands(th: UserThresholds)
  {
    && (th.heartRate.Some? ==> th.heartRate.value.low < th.heartRate.value.high)
    && (th.glucose.Some? ==> th.glucose.value.low < th.glucose.value.high)
    && (th.spo2.Some? ==> th.spo2.value.low < th.spo2.value.high)
  }

  /** The bands a new user is seeded with. */
  function InitialUserThresholds(): (th: UserThresholds)
    ensures OrderedBands(th)
    ensures forall t: MetricType :: BandOf(th, t).Some?
  {
    UserThresholds(
      Some(RangeBand(50.0, 100.0)),
      Some(RangeBand(70.0, 180.0)),
      Some(RangeBand(92.0, 100.0)),
      Some(FloorBand(7.0)),
      Some(FloorBand(30.0)))
  }

  datatype EhrData = EhrData(medications: seq<string>, allergies: seq<string>, diagnoses: seq<string>)

  /** The single monitored user. */
  datatype UserData = UserData(
    id: string,
    name: string,
    age: int,
    ehr: EhrData,
    thresholds: UserThresholds,
    allowAutoEscalation: bool,
    lastThresholdAdjustment: Option<int>)

  /** Alert severity, declared in the source's order. */
  datatype AlertLevel = INFO | MILD | ESCALATION | NONE

  /** The design's total order on severity: NONE < INFO < MILD < ESCALATION. */
  function Severity(l: AlertLevel): (n: nat)
    ensures n <= 3
    ensures l == NONE <==> n == 0
    ensures l == INFO <==> n == 1
    ensures l == MILD <==> n == 2
    ensures l == ESCALATION <==> n == 3
  {
    match l
    case NONE => 0
    case INFO => 1
    case MILD => 2
    case ESCALATION => 3
  }

  /** What the per-reading assessment returns. */
  datatype RiskAssessmentResult = RiskAssessmentResult(
    level: AlertLevel,
    message: string,
    metricType: Option<MetricType>,
    metricValue: Option<real>,
    triggeringData: seq<HealthDataPoint>,
    behavioralContext: seq<BehavioralLog>,
    isInsight: bool,
    timestamp: int)

  datatype UserFeedback = DISMISSED_ACKNOWLEDGED | DISMISSED_EXPECTED | DISMISSED_FALSE_ALARM

  /** An alert as the dashboard keeps it. Absent optional booleans read as false. */
  datatype Alert = Alert(
    id: string,
    timestamp: int,
    userId: string,
    level: AlertLevel,
    metricType: Option<MetricType>,
    metricValue: Option<real>,
    message: string,
    dataTriggering: seq<HealthDataPoint>,
    behavioralContext: seq<BehavioralLog>,
    explanationRequested: bool,
    explanation: Option<string>,
    originalLevel: Option<AlertLevel>,
    isInsight: bool,
    userFeedback: Option<UserFeedback>,
    isDismissed: bool)

  /** Unit of each metric. */
  function MetricUnit(t: MetricType): string
  {
    match t
    case HEART_RATE => "bpm"
    case GLUCOSE => "mg/dL"
    case SPO2 => "%"
    case SLEEP_HOURS => "hrs"
    case ACTIVITY_MINUTES => "mins"
  }

  /** Display name of each metric. */
  function MetricName(t: MetricType): string
  {
    match t
    case HEART_RATE => "Heart Rate"
    case GLUCOSE => "Glucose"
    case SPO2 => "SpO2"
    case SLEEP_HOURS => "Sleep"
    case ACTIVITY_MINUTES => "Activity"
  }

  /** The metric catalogue gives each metric a non-empty unit and a name of
      its own. */
  lemma MetricConfigComplete()
    ensures forall t: MetricType :: MetricUnit(t) != "" && MetricName(t) != ""
    ensures forall s, t: MetricType :: s != t ==> MetricName(s) != MetricName(t)
  {
  }

  /** How the runtime renders a number as text: `${x}` and `x.toFixed(1)`. */
  datatype NumberFormat = NumberFormat(plain: real -> string, fixed1: real -> string)

  /** Milliseconds per hour, minute and day. */
  const HOUR_MS: int := 60 * 60 * 1000
  const MINUTE_MS: int := 60 * 1000
  const DAY_MS: int := 24 * HOUR_MS
}
