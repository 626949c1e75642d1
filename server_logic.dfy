/** Per-reading risk assessment on the server: the threshold evaluator, the
    "no auto-escalation" downgrade and the behavioural-context correlator. */
module ServerHealthLogic {
  import opened HealthTypes
  import Text
  import Lists

  /** Fixed look-back windows of the correlator, in hours. */
  const DIET_LOOKBACK_HOURS: int := 4
  const MOOD_LOOKBACK_HOURS: int := 6

  /** Hard margins beyond the band edge at which a reading escalates. */
  const HEART_RATE_LOW_MARGIN: real := 15.0
  const HEART_RATE_HIGH_MARGIN: real := 25.0
  const GLUCOSE_LOW_MARGIN: real := 20.0
  const GLUCOSE_HIGH_MARGIN: real := 70.0
  const SPO2_LOW_MARGIN: real := 5.0

  /** The note appended to a message whose escalation was downgraded. */
  const DOWNGRADE_NOTE: string := DOWNGRADE_NOTE_LEAD + DOWNGRADE_HEADLINE + DOWNGRADE_NOTE_TAIL
  const DOWNGRADE_NOTE_LEAD: string := " ("
  const DOWNGRADE_HEADLINE: string := "Escalation automatically downgraded"
  const DOWNGRADE_NOTE_TAIL: string := " due to user preference. Please monitor closely.)"

  // ---------------------------------------------------------------------
  // Recent behavioural logs

  /** `log` is of the requested kind and no older than `hours` before `now`. */
  predicate InWindow(log: BehavioralLog, kind: LogKind, hours: int, now: int)
  {
    log.Kind() == kind && log.timestamp >= now - hours * HOUR_MS
  }

  /** The logs of one kind logged at most `hours` ago, in their input order. */
  function RecentLogs(logs: seq<BehavioralLog>, kind: LogKind, hours: int, now: int): (r: seq<BehavioralLog>)
    ensures forall l :: l in r <==> l in logs && InWindow(l, kind, hours, now)
    ensures |r| <= |logs|
  {
    if logs == [] then []
    else
      assert forall l :: l in logs <==> l == logs[0] || l in logs[1..];
      (if InWindow(logs[0], kind, hours, now) then [logs[0]] else []) + RecentLogs(logs[1..], kind, hours, now)
  }

  /** The window test as the callback handed to `filter`. */
  function InWindowOf(kind: LogKind, hours: int, now: int): BehavioralLog -> bool
  {
    (l: BehavioralLog) => InWindow(l, kind, hours, now)
  }

  /** `RecentLogs` is `filter` with the window test: the same logs, in the
      same order. */
  lemma {:induction false} RecentLogsIsFilter(logs: seq<BehavioralLog>, kind: LogKind, hours: int, now: int)
    ensures RecentLogs(logs, kind, hours, now) == Lists.Filter(logs, InWindowOf(kind, hours, now))
  {
    if logs != [] {
      RecentLogsIsFilter(logs[1..], kind, hours, now);
    }
  }

  /** `Array.prototype.find`: the first log satisfying `pred`. */
  function Find(logs: seq<BehavioralLog>, pred: BehavioralLog -> bool): (r: Option<BehavioralLog>)
    ensures r.None? <==> forall i :: 0 <= i < |logs| ==> !pred(logs[i])
    ensures r.Some? ==> exists i :: 0 <= i < |logs| && logs[i] == r.value && pred(r.value)
                                    && forall j :: 0 <= j < i ==> !pred(logs[j])
  {
    if logs == [] then None
    else if pred(logs[0]) then Some(logs[0])
    else
      var r := Find(logs[1..], pred);
      assert forall i :: 0 < i < |logs| ==> logs[i] == logs[1..][i - 1];
      r
  }

  /** A mood log that can explain an abnormal heart rate. */
  predicate IsStressedMood(log: BehavioralLog)
  {
    log.MoodLog? && (log.moodType == STRESSED || log.moodType == ANXIOUS)
  }

  /** A diet log that can explain a high glucose reading. */
  predicate IsCarbHeavyMeal(log: BehavioralLog)
  {
    log.DietLog? && (log.dietType == HIGH_CARB || log.dietType == SNACK_HEAVY)
  }

  /** One step of a lookup among the recent logs: the head is found if it
      qualifies, otherwise the lookup continues in the tail. */
  lemma FindInRecentStep(logs: seq<BehavioralLog>, kind: LogKind, hours: int, now: int, pred: BehavioralLog -> bool)
    requires logs != []
    ensures Find(RecentLogs(logs, kind, hours, now), pred)
            == if InWindow(logs[0], kind, hours, now) && pred(logs[0]) then Some(logs[0])
               else Find(RecentLogs(logs[1..], kind, hours, now), pred)
  {
    var rest := RecentLogs(logs[1..], kind, hours, now);
    if InWindow(logs[0], kind, hours, now) {
      assert RecentLogs(logs, kind, hours, now) == [logs[0]] + rest;
      assert ([logs[0]] + rest)[1..] == rest;
    } else {
      assert RecentLogs(logs, kind, hours, now) == rest;
    }
  }

  /** Looking up a log among the recent ones is looking up, in the whole list,
      the first log that is recent, of the right kind and satisfies `pred`. */
  lemma {:induction false} FindRecentIsFind(logs: seq<BehavioralLog>, kind: LogKind, hours: int, now: int,
                                            pred: BehavioralLog -> bool)
    ensures Find(RecentLogs(logs, kind, hours, now), pred) == Find(logs, l => InWindow(l, kind, hours, now) && pred(l))
  {
    if logs != [] {
      FindRecentIsFind(logs[1..], kind, hours, now, pred);
      FindInRecentStep(logs, kind, hours, now, pred);
    }
  }

  /** The same, spelled out: nothing is found exactly when no log qualifies,
      and what is found is the first qualifying log in list order. */
  lemma FindInRecent(logs: seq<BehavioralLog>, kind: LogKind, hours: int, now: int, pred: BehavioralLog -> bool)
    ensures var r := Find(RecentLogs(logs, kind, hours, now), pred);
      && (r.None? <==> forall i :: 0 <= i < |logs| ==> !(InWindow(logs[i], kind, hours, now) && pred(logs[i])))
      && (r.Some? ==> exists i :: 0 <= i < |logs| && logs[i] == r.value
                        && InWindow(r.value, kind, hours, now) && pred(r.value)
                        && forall j :: 0 <= j < i ==> !(InWindow(logs[j], kind, hours, now) && pred(logs[j])))
  {
    FindRecentIsFind(logs, kind, hours, now, pred);
  }

  /** When the logs arrive newest first, the first match is the most recent one. */
  lemma NewestFirstFindsMostRecent(logs: seq<BehavioralLog>, kind: LogKind, hours: int, now: int,
                                   pred: BehavioralLog -> bool)
    requires forall i, j :: 0 <= i < j < |logs| ==> logs[i].timestamp >= logs[j].timestamp
    ensures var r := Find(RecentLogs(logs, kind, hours, now), pred);
      r.Some? ==> forall l :: l in logs && InWindow(l, kind, hours, now) && pred(l) ==> l.timestamp <= r.value.timestamp
  {
    FindInRecent(logs, kind, hours, now, pred);
    var r := Find(RecentLogs(logs, kind, hours, now), pred);
    if r.Some? {
      var i :| 0 <= i < |logs| && logs[i] == r.value
               && InWindow(r.value, kind, hours, now) && pred(r.value)
               && forall j :: 0 <= j < i ==> !(InWindow(logs[j], kind, hours, now) && pred(logs[j]));
      forall l | l in logs && InWindow(l, kind, hours, now) && pred(l) ensures l.timestamp <= r.value.timestamp {
        var k :| 0 <= k < |logs| && logs[k] == l;
        assert i <= k;
      }
    }
  }

  // ---------------------------------------------------------------------
  // Threshold evaluator

  /** The severity of one reading against the user's band, before the
      escalation policy. */
  function RawLevel(th: UserThresholds, p: HealthDataPoint): AlertLevel
  {
    match p.metric
    case HEART_RATE =>
      if th.heartRate.None? then NONE
      else
        var b := th.heartRate.value;
        if p.value < b.low then (if p.value < b.low - HEART_RATE_LOW_MARGIN then ESCALATION else MILD)
        else if p.value > b.high then (if p.value > b.high + HEART_RATE_HIGH_MARGIN then ESCALATION else MILD)
        else NONE
    case GLUCOSE =>
      if th.glucose.None? then NONE
      else
        var b := th.glucose.value;
        if p.value < b.low then (if p.value < b.low - GLUCOSE_LOW_MARGIN then ESCALATION else MILD)
        else if p.value > b.high then (if p.value > b.high + GLUCOSE_HIGH_MARGIN then ESCALATION else MILD)
        else NONE
    case SPO2 =>
      if th.spo2.Some? && p.value < th.spo2.value.low then
        (if p.value < th.spo2.value.low - SPO2_LOW_MARGIN then ESCALATION else MILD)
      else NONE
    case SLEEP_HOURS =>
      if th.sleepHours.Some? && p.value < th.sleepHours.value.low && p.value > 0.0 then INFO else NONE
    case ACTIVITY_MINUTES => NONE
  }

  /** "low-high" as the messages print a range band. */
  function RangeText(b: RangeBand, fmt: NumberFormat): string
  {
    fmt.plain(b.low) + "-" + fmt.plain(b.high)
  }

  /** The heart-rate message; `side` is "low" or "high". */
  function HeartRateMessage(side: string, p: HealthDataPoint, b: RangeBand, fmt: NumberFormat): string
  {
    var u := MetricUnit(p.metric);
    "Heart rate is " + side + " (" + fmt.plain(p.value) + " " + u + "). Normal: " + RangeText(b, fmt) + " " + u + "."
  }

  /** The glucose message; `side` is "low" or "high", `condition` names the
      suspected condition. */
  function GlucoseMessage(side: string, condition: string, p: HealthDataPoint, b: RangeBand, fmt: NumberFormat): string
  {
    var u := MetricUnit(p.metric);
    "Glucose is " + side + " (" + fmt.plain(p.value) + " " + u + "). Target: " + RangeText(b, fmt) + " " + u
    + ". Potential " + condition + "."
  }

  function Spo2Message(p: HealthDataPoint, b: RangeBand, fmt: NumberFormat): string
  {
    var u := MetricUnit(p.metric);
    "SpO2 is low (" + fmt.plain(p.value) + u + "). Target: >" + fmt.plain(b.low) + u + "."
  }

  function SleepMessage(p: HealthDataPoint, b: FloorBand, fmt: NumberFormat): string
  {
    var u := MetricUnit(p.metric);
    "Recorded sleep (" + fmt.plain(p.value) + " " + u + ") is less than target of " + fmt.plain(b.low) + " " + u
    + ". Consistent sleep is important."
  }

  /** The evaluator's message, before any context sentence or downgrade note. */
  function BaseMessage(th: UserThresholds, p: HealthDataPoint, fmt: NumberFormat): string
  {
    match p.metric
    case HEART_RATE =>
      if th.heartRate.None? then ""
      else
        var b := th.heartRate.value;
        if p.value < b.low then HeartRateMessage("low", p, b, fmt)
        else if p.value > b.high then HeartRateMessage("high", p, b, fmt)
        else ""
    case GLUCOSE =>
      if th.glucose.None? then ""
      else
        var b := th.glucose.value;
        if p.value < b.low then GlucoseMessage("low", "hypoglycemia", p, b, fmt)
        else if p.value > b.high then GlucoseMessage("high", "hyperglycemia", p, b, fmt)
        else ""
    case SPO2 =>
      if th.spo2.Some? && p.value < th.spo2.value.low then Spo2Message(p, th.spo2.value, fmt) else ""
    case SLEEP_HOURS =>
      if th.sleepHours.Some? && p.value < th.sleepHours.value.low && p.value > 0.0
      then SleepMessage(p, th.sleepHours.value, fmt)
      else ""
    case ACTIVITY_MINUTES => ""
  }

  // ---------------------------------------------------------------------
  // Behavioural correlator

  /** The log attached as context, if any: for an abnormal heart rate the first
      stressed or anxious mood of the last 6 hours; for a mildly high glucose
      reading the first high-carb or heavy-snack meal of the last 4 hours. */
  function ContextLog(th: UserThresholds, p: HealthDataPoint, logs: seq<BehavioralLog>, now: int): Option<BehavioralLog>
  {
    match p.metric
    case HEART_RATE =>
      if RawLevel(th, p) != NONE then Find(RecentLogs(logs, MOOD, MOOD_LOOKBACK_HOURS, now), IsStressedMood)
      else None
    case GLUCOSE =>
      if th.glucose.Some? && !(p.value < th.glucose.value.low) && p.value > th.glucose.value.high
         && RawLevel(th, p) == MILD
      then Find(RecentLogs(logs, DIET, DIET_LOOKBACK_HOURS, now), IsCarbHeavyMeal)
      else None
    case _ => None
  }

  /** The fixed parts of the sentences appended for a mood and for a meal. */
  const MOOD_NOTE_LEAD: string := " Recent mood: "
  const MOOD_NOTE_TAIL: string := ". Stress can affect heart rate."
  const DIET_NOTE_LEAD: string := " This may be related to your recent "
  const DIET_NOTE_TAIL: string := ". Monitor and follow your plan."

  /** The sentence appended for an attached log. */
  function ContextNote(log: BehavioralLog): string
  {
    match log
    case MoodLog(_, _, _, mood) => MOOD_NOTE_LEAD + MoodText(mood) + MOOD_NOTE_TAIL
    case DietLog(_, _, _, diet, _) => DIET_NOTE_LEAD + DietText(diet) + DIET_NOTE_TAIL
    case ActivityLog(_, _, _, _, _, _) => ""
  }

  // ---------------------------------------------------------------------
  // Escalation policy

  /** A raw escalation is reported as MILD, with a fixed note, when the user
      does not allow automatic escalation; anything else passes through. */
  function ApplyEscalationPolicy(level: AlertLevel, message: string, allowAutoEscalation: bool): (r: (AlertLevel, string))
    ensures !allowAutoEscalation ==> r.0 != ESCALATION
    ensures level == ESCALATION && !allowAutoEscalation ==> r.0 == MILD && r.1 == message + DOWNGRADE_NOTE
    ensures !(level == ESCALATION && !allowAutoEscalation) ==> r == (level, message)
  {
    if level == ESCALATION && !allowAutoEscalation then (MILD, message + DOWNGRADE_NOTE)
    else (level, message)
  }

  // ---------------------------------------------------------------------
  // The assessment

  /** The assessment of one reading, composed from the evaluator, the
      correlator and the escalation policy. */
  function Assess(user: UserData, p: HealthDataPoint, logs: seq<BehavioralLog>, now: int, fmt: NumberFormat)
    : RiskAssessmentResult
  {
    var th := user.thresholds;
    var raw := RawLevel(th, p);
    var ctx := ContextLog(th, p, logs, now);
    var message := BaseMessage(th, p, fmt) + (if ctx.Some? then ContextNote(ctx.value) else "");
    var (level, finalMessage) := ApplyEscalationPolicy(raw, message, user.allowAutoEscalation);
    RiskAssessmentResult(
      level, finalMessage, Some(p.metric), Some(p.value), [p],
      if ctx.Some? then [ctx.value] else [],
      raw == INFO && p.metric == SLEEP_HOURS,
      p.timestamp)
  }

  /** The contribution of one case of the evaluator's switch: the level, the
      message and the attached context the case leaves behind. */
  predicate CaseResult(th: UserThresholds, p: HealthDataPoint, logs: seq<BehavioralLog>, now: int, fmt: NumberFormat,
                       level: AlertLevel, message: string, context: seq<BehavioralLog>)
  {
    var ctx := ContextLog(th, p, logs, now);
    && level == RawLevel(th, p)
    && message == BaseMessage(th, p, fmt) + (if ctx.Some? then ContextNote(ctx.value) else "")
    && context == (if ctx.Some? then [ctx.value] else [])
  }

  /** The heart-rate case: a low or high reading is MILD, or ESCALATION past
      the hard margin, and picks up the first recent stressed or anxious mood. */
  method EvaluateHeartRate(th: UserThresholds, p: HealthDataPoint, recentMoodLogs: seq<BehavioralLog>,
                           ghost logs: seq<BehavioralLog>, ghost now: int, fmt: NumberFormat)
    returns (level: AlertLevel, message: string, context: seq<BehavioralLog>)
    requires p.metric == HEART_RATE
    requires recentMoodLogs == RecentLogs(logs, MOOD, MOOD_LOOKBACK_HOURS, now)
    ensures CaseResult(th, p, logs, now, fmt, level, message, context)
  {
    level, message, context := NONE, "", [];
    if th.heartRate.Some? {
      var b := th.heartRate.value;
      var baseMessage := "";
      if p.value < b.low {
        level := if p.value < b.low - HEART_RATE_LOW_MARGIN then ESCALATION else MILD;
        baseMessage := HeartRateMessage("low", p, b, fmt);
      } else if p.value > b.high {
        level := if p.value > b.high + HEART_RATE_HIGH_MARGIN then ESCALATION else MILD;
        baseMessage := HeartRateMessage("high", p, b, fmt);
      }
      message := baseMessage;
      if level != NONE {
        var stressedMood := Find(recentMoodLogs, IsStressedMood);
        if stressedMood.Some? {
          message := message + ContextNote(stressedMood.value);
          context := context + [stressedMood.value];
        }
      }
    }
  }

  /** The glucose case: a low or high reading is MILD, or ESCALATION past the
      hard margin; only a MILD high reading picks up the first recent
      high-carb meal or heavy snack. */
  method EvaluateGlucose(th: UserThresholds, p: HealthDataPoint, recentDietLogs: seq<BehavioralLog>,
                         ghost logs: seq<BehavioralLog>, ghost now: int, fmt: NumberFormat)
    returns (level: AlertLevel, message: string, context: seq<BehavioralLog>)
    requires p.metric == GLUCOSE
    requires recentDietLogs == RecentLogs(logs, DIET, DIET_LOOKBACK_HOURS, now)
    ensures CaseResult(th, p, logs, now, fmt, level, message, context)
  {
    level, message, context := NONE, "", [];
    if th.glucose.Some? {
      var b := th.glucose.value;
      var baseMessage := "";
      if p.value < b.low {
        level := if p.value < b.low - GLUCOSE_LOW_MARGIN then ESCALATION else MILD;
        baseMessage := GlucoseMessage("low", "hypoglycemia", p, b, fmt);
      } else if p.value > b.high {
        level := if p.value > b.high + GLUCOSE_HIGH_MARGIN then ESCALATION else MILD;
        baseMessage := GlucoseMessage("high", "hyperglycemia", p, b, fmt);
        var recentHighCarbMeal := Find(recentDietLogs, IsCarbHeavyMeal);
        if recentHighCarbMeal.Some? && level == MILD {
          message := baseMessage + ContextNote(recentHighCarbMeal.value);
          context := context + [recentHighCarbMeal.value];
        } else {
          message := baseMessage;
        }
      }
      if message == "" && baseMessage != "" {
        message := baseMessage;
      }
    }
  }

  /** The SpO2 case: only the floor of the band is consulted. */
  method EvaluateSpo2(th: UserThresholds, p: HealthDataPoint, ghost logs: seq<BehavioralLog>, ghost now: int,
                      fmt: NumberFormat)
    returns (level: AlertLevel, message: string, context: seq<BehavioralLog>)
    requires p.metric == SPO2
    ensures CaseResult(th, p, logs, now, fmt, level, message, context)
  {
    level, message, context := NONE, "", [];
    if th.spo2.Some? && p.value < th.spo2.value.low {
      level := if p.value < th.spo2.value.low - SPO2_LOW_MARGIN then ESCALATION else MILD;
      message := Spo2Message(p, th.spo2.value, fmt);
    }
  }

  /** The sleep case: a positive reading below the target is an INFO. */
  method EvaluateSleep(th: UserThresholds, p: HealthDataPoint, ghost logs: seq<BehavioralLog>, ghost now: int,
                       fmt: NumberFormat)
    returns (level: AlertLevel, message: string, context: seq<BehavioralLog>)
    requires p.metric == SLEEP_HOURS
    ensures CaseResult(th, p, logs, now, fmt, level, message, context)
  {
    level, message, context := NONE, "", [];
    if th.sleepHours.Some? && p.value < th.sleepHours.value.low && p.value > 0.0 {
      level := INFO;
      message := SleepMessage(p, th.sleepHours.value, fmt);
    }
  }

  /** The assessment as the server computes it: a switch over the metric
      followed by the escalation policy. */
  method AssessSingleDataPointRiskOnServer(user: UserData, p: HealthDataPoint, logs: seq<BehavioralLog>,
                                           now: int, fmt: NumberFormat)
    returns (r: RiskAssessmentResult)
    ensures r == Assess(user, p, logs, now, fmt)
  {
    var thresholds := user.thresholds;
    var level, message, context := NONE, "", [];
    var recentDietLogs := RecentLogs(logs, DIET, DIET_LOOKBACK_HOURS, now);
    var recentMoodLogs := RecentLogs(logs, MOOD, MOOD_LOOKBACK_HOURS, now);

    match p.metric {
      case HEART_RATE =>
        level, message, context := EvaluateHeartRate(thresholds, p, recentMoodLogs, logs, now, fmt);
      case GLUCOSE =>
        level, message, context := EvaluateGlucose(thresholds, p, recentDietLogs, logs, now, fmt);
      case SPO2 =>
        level, message, context := EvaluateSpo2(thresholds, p, logs, now, fmt);
      case SLEEP_HOURS =>
        level, message, context := EvaluateSleep(thresholds, p, logs, now, fmt);
      case ACTIVITY_MINUTES =>
        assert CaseResult(thresholds, p, logs, now, fmt, level, message, context);
    }

    var finalLevel := level;
    if level == ESCALATION && !user.allowAutoEscalation {
      finalLevel := MILD;
      message := message + DOWNGRADE_NOTE;
    }

    r := RiskAssessmentResult(
      finalLevel, message, Some(p.metric), Some(p.value), [p], context,
      level == INFO && p.metric == SLEEP_HOURS,
      p.timestamp);
  }

  // ---------------------------------------------------------------------
  // Properties of the assessment

  /** The assessment echoes the reading it was given. */
  lemma AssessEchoesReading(user: UserData, p: HealthDataPoint, logs: seq<BehavioralLog>, now: int, fmt: NumberFormat)
    ensures var r := Assess(user, p, logs, now, fmt);
      && r.metricType == Some(p.metric) && r.metricValue == Some(p.value)
      && r.triggeringData == [p] && r.timestamp == p.timestamp
  {
  }

  /** A range metric (heart rate, glucose) is silent exactly inside its band,
      and escalates exactly past a hard margin on either side. */
  lemma RangeMetricLevels(th: UserThresholds, p: HealthDataPoint)
    requires p.metric == HEART_RATE || p.metric == GLUCOSE
    requires BandOf(th, p.metric).Some?
    requires BandOf(th, p.metric).value.low <= BandOf(th, p.metric).value.high
    ensures var b := BandOf(th, p.metric).value;
      var lowMargin := if p.metric == HEART_RATE then HEART_RATE_LOW_MARGIN else GLUCOSE_LOW_MARGIN;
      var highMargin := if p.metric == HEART_RATE then HEART_RATE_HIGH_MARGIN else GLUCOSE_HIGH_MARGIN;
      && (RawLevel(th, p) == NONE <==> b.low <= p.value <= b.high)
      && (RawLevel(th, p) == ESCALATION <==> p.value < b.low - lowMargin || p.value > b.high + highMargin)
      && (RawLevel(th, p) == MILD <==> (b.low - lowMargin <= p.value < b.low || b.high < p.value <= b.high + highMargin))
      && RawLevel(th, p) != INFO
  {
  }

  /** SpO2 consults only the floor of its band: the ceiling never matters. */
  lemma Spo2IgnoresCeiling(th: UserThresholds, p: HealthDataPoint, high: real)
    requires p.metric == SPO2 && th.spo2.Some?
    ensures var th' := th.(spo2 := Some(RangeBand(th.spo2.value.low, high)));
      && RawLevel(th', p) == RawLevel(th, p)
      && (RawLevel(th, p) == NONE <==> p.value >= th.spo2.value.low)
      && (RawLevel(th, p) == ESCALATION <==> p.value < th.spo2.value.low - SPO2_LOW_MARGIN)
  {
  }

  /** The further a reading lies outside a range band, the more severe it is:
      below the band severity falls as the value rises, above it severity
      rises with the value. */
  lemma RangeMetricMonotone(th: UserThresholds, p: HealthDataPoint, q: HealthDataPoint)
    requires p.metric == q.metric && (p.metric == HEART_RATE || p.metric == GLUCOSE)
    requires BandOf(th, p.metric).Some?
    requires BandOf(th, p.metric).value.low <= BandOf(th, p.metric).value.high
    requires p.value <= q.value
    ensures q.value < BandOf(th, p.metric).value.low ==> Severity(RawLevel(th, p)) >= Severity(RawLevel(th, q))
    ensures p.value > BandOf(th, p.metric).value.high ==> Severity(RawLevel(th, p)) <= Severity(RawLevel(th, q))
  {
  }

  /** Sleep below a positive target is the only insight and the only INFO;
      activity minutes and a missing band never raise anything. */
  lemma InsightAndSilentCases(user: UserData, p: HealthDataPoint, logs: seq<BehavioralLog>, now: int, fmt: NumberFormat)
    ensures var r := Assess(user, p, logs, now, fmt);
      var th := user.thresholds;
      && (r.isInsight <==> p.metric == SLEEP_HOURS && th.sleepHours.Some? && 0.0 < p.value < th.sleepHours.value.low)
      && (r.isInsight <==> r.level == INFO)
      && (p.metric == ACTIVITY_MINUTES || BandOf(th, p.metric).None? ==>
            r.level == NONE && r.message == "" && r.behavioralContext == [])
  {
  }

  /** A message is produced exactly when the raw level is not NONE. */
  lemma MessageIffAlert(user: UserData, p: HealthDataPoint, logs: seq<BehavioralLog>, now: int, fmt: NumberFormat)
    ensures var r := Assess(user, p, logs, now, fmt);
      (r.message == "" <==> RawLevel(user.thresholds, p) == NONE)
  {
    var th := user.thresholds;
    var ctx := ContextLog(th, p, logs, now);
    var base := BaseMessage(th, p, fmt);
    if RawLevel(th, p) != NONE {
      assert |base| > 0;
    } else {
      assert base == "" && ctx.None?;
    }
  }

  /** Without permission to escalate automatically, nothing is reported as an
      escalation; the downgraded result is MILD and carries the note. With
      permission, the raw level is reported unchanged. */
  lemma EscalationPolicyHolds(user: UserData, p: HealthDataPoint, logs: seq<BehavioralLog>, now: int, fmt: NumberFormat)
    ensures var r := Assess(user, p, logs, now, fmt);
      var raw := RawLevel(user.thresholds, p);
      && (r.level == ESCALATION <==> raw == ESCALATION && user.allowAutoEscalation)
      && (raw == ESCALATION && !user.allowAutoEscalation ==> r.level == MILD && Text.Contains(r.message, DOWNGRADE_NOTE))
      && (raw != ESCALATION || user.allowAutoEscalation ==> r.level == raw)
  {
    var r := Assess(user, p, logs, now, fmt);
    var raw := RawLevel(user.thresholds, p);
    if raw == ESCALATION && !user.allowAutoEscalation {
      var th := user.thresholds;
      var ctx := ContextLog(th, p, logs, now);
      var message := BaseMessage(th, p, fmt) + (if ctx.Some? then ContextNote(ctx.value) else "");
      assert r.message == message + DOWNGRADE_NOTE + "";
      Text.ContainsMiddle(message, DOWNGRADE_NOTE, "");
    }
  }

  /** At most one log is attached, it comes from the logs given, and only
      heart-rate and glucose readings carry one. */
  lemma ContextAtMostOne(user: UserData, p: HealthDataPoint, logs: seq<BehavioralLog>, now: int, fmt: NumberFormat)
    ensures var r := Assess(user, p, logs, now, fmt);
      && |r.behavioralContext| <= 1
      && (|r.behavioralContext| == 1 ==> r.behavioralContext[0] in logs)
      && (p.metric !in {HEART_RATE, GLUCOSE} ==> r.behavioralContext == [])
  {
    var ctx := ContextLog(user.thresholds, p, logs, now);
    if ctx.Some? {
      var recent := RecentLogs(logs, if p.metric == HEART_RATE then MOOD else DIET,
                               if p.metric == HEART_RATE then MOOD_LOOKBACK_HOURS else DIET_LOOKBACK_HOURS, now);
      assert ctx.value in recent;
    }
  }

  /** An abnormal heart rate carries a mood exactly when a stressed or
      anxious mood was logged in the last six hours, and the mood it carries
      is one of those. */
  lemma HeartRateContext(user: UserData, p: HealthDataPoint, logs: seq<BehavioralLog>, now: int, fmt: NumberFormat)
    requires p.metric == HEART_RATE
    ensures var r := Assess(user, p, logs, now, fmt);
      && (|r.behavioralContext| == 1 <==>
            RawLevel(user.thresholds, p) != NONE
            && exists l :: l in logs && InWindow(l, MOOD, MOOD_LOOKBACK_HOURS, now) && IsStressedMood(l))
      && (|r.behavioralContext| == 1 ==>
            InWindow(r.behavioralContext[0], MOOD, MOOD_LOOKBACK_HOURS, now) && IsStressedMood(r.behavioralContext[0]))
  {
    FindInRecent(logs, MOOD, MOOD_LOOKBACK_HOURS, now, IsStressedMood);
  }

  /** A glucose reading carries a meal exactly when it is mildly high (not
      past the hard margin) and a high-carb meal or heavy snack was logged in
      the last four hours, and the meal it carries is one of those. */
  lemma GlucoseContext(user: UserData, p: HealthDataPoint, logs: seq<BehavioralLog>, now: int, fmt: NumberFormat)
    requires p.metric == GLUCOSE
    ensures var r := Assess(user, p, logs, now, fmt);
      var th := user.thresholds;
      && (|r.behavioralContext| == 1 <==>
            && RawLevel(th, p) == MILD && !(p.value < th.glucose.value.low) && p.value > th.glucose.value.high
            && exists l :: l in logs && InWindow(l, DIET, DIET_LOOKBACK_HOURS, now) && IsCarbHeavyMeal(l))
      && (|r.behavioralContext| == 1 ==>
            InWindow(r.behavioralContext[0], DIET, DIET_LOOKBACK_HOURS, now) && IsCarbHeavyMeal(r.behavioralContext[0]))
  {
    FindInRecent(logs, DIET, DIET_LOOKBACK_HOURS, now, IsCarbHeavyMeal);
  }
}
