/** Dashboard-side trend logic: the three-day insights, the latest reading of
    each metric and the (currently empty) overall risk assessment with its
    severity sort. */
module ClientHealthLogic {
  import opened HealthTypes
  import Lists

  /** Only readings newer than this many days feed an insight. */
  const INSIGHT_WINDOW_DAYS: int := 3

  /** An insight as the dashboard generates it. */
  datatype ClientInsightResult = ClientInsightResult(
    level: AlertLevel,
    message: string,
    triggeringData: seq<HealthDataPoint>,
    isInsight: bool,
    timestamp: int)

  // ---------------------------------------------------------------------
  // Filters over the reading stream

  /** The sum of the values, as `reduce((sum, dp) => sum + dp.value, 0)`. */
  function Sum(s: seq<HealthDataPoint>): real
  {
    if s == [] then 0.0 else s[0].value + Sum(s[1..])
  }

  /** The earliest timestamp an insight looks at is strictly after this one. */
  function WindowStart(now: int): int
  {
    now - INSIGHT_WINDOW_DAYS * DAY_MS
  }

  predicate InInsightWindow(p: HealthDataPoint, now: int)
  {
    p.timestamp > WindowStart(now)
  }

  /** Positive sleep readings of the window. */
  function SleepData(stream: seq<HealthDataPoint>, now: int): seq<HealthDataPoint>
  {
    Lists.Filter(stream, (p: HealthDataPoint) => p.metric == SLEEP_HOURS && InInsightWindow(p, now) && p.value > 0.0)
  }

  /** Glucose readings of the window. */
  function GlucoseData(stream: seq<HealthDataPoint>, now: int): seq<HealthDataPoint>
  {
    Lists.Filter(stream, (p: HealthDataPoint) => p.metric == GLUCOSE && InInsightWindow(p, now))
  }

  /** Activity readings of the window. */
  function ActivityData(stream: seq<HealthDataPoint>, now: int): seq<HealthDataPoint>
  {
    Lists.Filter(stream, (p: HealthDataPoint) => p.metric == ACTIVITY_MINUTES && InInsightWindow(p, now))
  }

  /** Readings within ten percent of the ceiling: above 0.9·high, at most 1.1·high. */
  function NearCeiling(data: seq<HealthDataPoint>, high: real): seq<HealthDataPoint>
  {
    Lists.Filter(data, (p: HealthDataPoint) => p.value > high * 0.9 && p.value <= high * 1.1)
  }

  /** Readings below the floor. */
  function BelowFloor(data: seq<HealthDataPoint>, low: real): seq<HealthDataPoint>
  {
    Lists.Filter(data, (p: HealthDataPoint) => p.value < low)
  }

  // ---------------------------------------------------------------------
  // Insight messages: fixed fragments around the rendered numbers

  const SLEEP_TEXT_LEAD: string := "Insight: Average sleep over the last "
  const SLEEP_TEXT_NIGHTS: string := " nights ("
  const SLEEP_TEXT_TARGET: string := " hrs) is below your target of "
  const SLEEP_TEXT_TAIL: string := " hrs. Consider reviewing sleep habits."
  const GLUCOSE_TEXT_LEAD: string := "Insight: Glucose readings have frequently been near the upper end of your target range ("
  const GLUCOSE_TEXT_TAIL: string := " mg/dL) recently. Review diet logs or discuss with your provider."
  const ACTIVITY_TEXT_LEAD: string := "Insight: Recorded activity has been below your target of "
  const ACTIVITY_TEXT_ON: string := " mins on "
  const ACTIVITY_TEXT_OF: string := " of the last "
  const ACTIVITY_TEXT_TAIL: string := " days. Regular activity is beneficial."

  function SleepInsightMessage(n: nat, average: real, low: real, fmt: NumberFormat): string
  {
    SLEEP_TEXT_LEAD + fmt.plain(n as real) + SLEEP_TEXT_NIGHTS + fmt.fixed1(average)
    + SLEEP_TEXT_TARGET + fmt.plain(low) + SLEEP_TEXT_TAIL
  }

  function GlucoseInsightMessage(b: RangeBand, fmt: NumberFormat): string
  {
    GLUCOSE_TEXT_LEAD + fmt.plain(b.low) + "-" + fmt.plain(b.high) + GLUCOSE_TEXT_TAIL
  }

  function ActivityInsightMessage(low: real, days: nat, n: nat, fmt: NumberFormat): string
  {
    ACTIVITY_TEXT_LEAD + fmt.plain(low) + ACTIVITY_TEXT_ON + fmt.plain(days as real)
    + ACTIVITY_TEXT_OF + fmt.plain(n as real) + ACTIVITY_TEXT_TAIL
  }

  // ---------------------------------------------------------------------
  // The three insight rules

  /** Chronic short sleep: at least three positive sleep readings whose mean
      is below the target; cites the first three. */
  function SleepInsight(user: UserData, stream: seq<HealthDataPoint>, now: int, fmt: NumberFormat)
    : Option<ClientInsightResult>
  {
    var data := SleepData(stream, now);
    var band := user.thresholds.sleepHours;
    if |data| >= 3 && band.Some? && Sum(data) / (|data| as real) < band.value.low then
      var average := Sum(data) / (|data| as real);
      Some(ClientInsightResult(INFO, SleepInsightMessage(|data|, average, band.value.low, fmt),
                               Lists.Take(data, 3), true, now))
    else None
  }

  /** Glucose hugging the ceiling: more than five readings, more than half of
      them near the ceiling; cites the first three of those. */
  function GlucoseInsight(user: UserData, stream: seq<HealthDataPoint>, now: int, fmt: NumberFormat)
    : Option<ClientInsightResult>
  {
    var data := GlucoseData(stream, now);
    var band := user.thresholds.glucose;
    if |data| > 5 && band.Some? then
      var near := NearCeiling(data, band.value.high);
      if (|near| as real) / (|data| as real) > 0.5 then
        Some(ClientInsightResult(INFO, GlucoseInsightMessage(band.value, fmt), Lists.Take(near, 3), true, now))
      else None
    else None
  }

  /** A low-activity streak: at least three readings, at least two of them
      below the target; cites the first two of those. */
  function ActivityInsight(user: UserData, stream: seq<HealthDataPoint>, now: int, fmt: NumberFormat)
    : Option<ClientInsightResult>
  {
    var data := ActivityData(stream, now);
    var band := user.thresholds.activityMinutes;
    if |data| >= 3 && band.Some? then
      var below := BelowFloor(data, band.value.low);
      if |below| >= 2 then
        Some(ClientInsightResult(INFO, ActivityInsightMessage(band.value.low, |below|, |data|, fmt),
                                 Lists.Take(below, 2), true, now))
      else None
    else None
  }

  function OptionToSeq<T>(o: Option<T>): seq<T>
  {
    if o.Some? then [o.value] else []
  }

  /** `acc.push(o)` when something was found. */
  function PushFound<T>(acc: seq<T>, o: Option<T>): seq<T>
  {
    if o.Some? then acc + [o.value] else acc
  }

  /** Pushing what three rules found, in turn, onto an empty list lists the
      findings in rule order. */
  lemma PushFoundInOrder<T>(a: Option<T>, b: Option<T>, c: Option<T>)
    ensures PushFound(PushFound(PushFound([], a), b), c) == OptionToSeq(a) + OptionToSeq(b) + OptionToSeq(c)
  {
  }

  /** The insights of one run, in the order sleep, glucose, activity. */
  function Insights(user: UserData, stream: seq<HealthDataPoint>, now: int, fmt: NumberFormat)
    : seq<ClientInsightResult>
  {
    OptionToSeq(SleepInsight(user, stream, now, fmt))
    + OptionToSeq(GlucoseInsight(user, stream, now, fmt))
    + OptionToSeq(ActivityInsight(user, stream, now, fmt))
  }

  /** The sleep rule as the dashboard runs it: the mean is computed only once
      there are at least three readings and a target. */
  method CheckSleep(user: UserData, stream: seq<HealthDataPoint>, now: int, fmt: NumberFormat)
    returns (insight: Option<ClientInsightResult>)
    ensures insight == SleepInsight(user, stream, now, fmt)
  {
    insight := None;
    var sleepData := SleepData(stream, now);
    var sleepThreshold := user.thresholds.sleepHours;
    if |sleepData| >= 3 && sleepThreshold.Some? {
      var averageSleep := Sum(sleepData) / (|sleepData| as real);
      if averageSleep < sleepThreshold.value.low {
        insight := Some(ClientInsightResult(INFO,
          SleepInsightMessage(|sleepData|, averageSleep, sleepThreshold.value.low, fmt),
          Lists.Take(sleepData, 3), true, now));
      }
    }
  }

  /** The glucose rule as the dashboard runs it: the near-ceiling readings are
      counted only once there are more than five readings and a band. */
  method CheckGlucose(user: UserData, stream: seq<HealthDataPoint>, now: int, fmt: NumberFormat)
    returns (insight: Option<ClientInsightResult>)
    ensures insight == GlucoseInsight(user, stream, now, fmt)
  {
    insight := None;
    var glucoseData := GlucoseData(stream, now);
    var glucoseThreshold := user.thresholds.glucose;
    if |glucoseData| > 5 && glucoseThreshold.Some? {
      var highGlucoseReadings := NearCeiling(glucoseData, glucoseThreshold.value.high);
      if (|highGlucoseReadings| as real) / (|glucoseData| as real) > 0.5 {
        insight := Some(ClientInsightResult(INFO, GlucoseInsightMessage(glucoseThreshold.value, fmt),
          Lists.Take(highGlucoseReadings, 3), true, now));
      }
    }
  }

  /** The activity rule as the dashboard runs it: the days below target are
      counted only once there are at least three readings and a target. */
  method CheckActivity(user: UserData, stream: seq<HealthDataPoint>, now: int, fmt: NumberFormat)
    returns (insight: Option<ClientInsightResult>)
    ensures insight == ActivityInsight(user, stream, now, fmt)
  {
    insight := None;
    var activityData := ActivityData(stream, now);
    var activityThreshold := user.thresholds.activityMinutes;
    if |activityData| >= 3 && activityThreshold.Some? {
      var daysBelowTarget := |BelowFloor(activityData, activityThreshold.value.low)|;
      if daysBelowTarget >= 2 {
        insight := Some(ClientInsightResult(INFO,
          ActivityInsightMessage(activityThreshold.value.low, daysBelowTarget, |activityData|, fmt),
          Lists.Take(BelowFloor(activityData, activityThreshold.value.low), 2), true, now));
      }
    }
  }

  /** The insights as the dashboard computes them, running the three rules in
      turn and pushing what each finds. The behavioural logs are accepted but
      not consulted. */
  method GenerateInsights(user: UserData, stream: seq<HealthDataPoint>, logs: seq<BehavioralLog>, now: int,
                          fmt: NumberFormat)
    returns (insights: seq<ClientInsightResult>)
    ensures insights == Insights(user, stream, now, fmt)
  {
    insights := [];
    var sleep := CheckSleep(user, stream, now, fmt);
    if sleep.Some? {
      insights := insights + [sleep.value];
    }
    assert insights == PushFound([], sleep);
    var glucose := CheckGlucose(user, stream, now, fmt);
    if glucose.Some? {
      insights := insights + [glucose.value];
    }
    assert insights == PushFound(PushFound([], sleep), glucose);
    var activity := CheckActivity(user, stream, now, fmt);
    if activity.Some? {
      insights := insights + [activity.value];
    }
    assert insights == PushFound(PushFound(PushFound([], sleep), glucose), activity);
    PushFoundInOrder(sleep, glucose, activity);
  }

  // ---------------------------------------------------------------------
  // Properties of the insights

  /** For a positive count, a mean is below (above) a bound exactly when the
      sum is below (above) the bound times the count. */
  lemma MeanVersusBound(sum: real, n: nat, bound: real)
    requires n > 0
    ensures sum / (n as real) < bound <==> sum < bound * (n as real)
    ensures sum / (n as real) > bound <==> sum > bound * (n as real)
  {
    var m := sum / (n as real);
    assert m * (n as real) == sum;
    if m < bound {
      assert m * (n as real) < bound * (n as real);
    } else if m > bound {
      assert m * (n as real) > bound * (n as real);
    }
  }

  /** For a positive total, a ratio above one half means strictly more than
      half. */
  lemma MoreThanHalf(k: nat, n: nat)
    requires n > 0
    ensures (k as real) / (n as real) > 0.5 <==> 2 * k > n
  {
    MeanVersusBound(k as real, n, 0.5);
  }

  /** The sleep insight appears exactly when there are at least three
      positive in-window sleep readings, a sleep target, and the readings sum
      to less than the target times their count; it cites the first three. */
  lemma SleepInsightIff(user: UserData, stream: seq<HealthDataPoint>, now: int, fmt: NumberFormat)
    ensures var data := SleepData(stream, now);
      var band := user.thresholds.sleepHours;
      && (SleepInsight(user, stream, now, fmt).Some? <==>
            |data| >= 3 && band.Some? && Sum(data) < band.value.low * (|data| as real))
      && (SleepInsight(user, stream, now, fmt).Some? ==>
            SleepInsight(user, stream, now, fmt).value.triggeringData == data[..3])
  {
    var data := SleepData(stream, now);
    if |data| > 0 && user.thresholds.sleepHours.Some? {
      MeanVersusBound(Sum(data), |data|, user.thresholds.sleepHours.value.low);
    }
  }

  /** The glucose insight appears exactly when there are more than five
      in-window glucose readings, a glucose band, and strictly more than half
      of the readings are near its ceiling; it cites the first three of those. */
  lemma GlucoseInsightIff(user: UserData, stream: seq<HealthDataPoint>, now: int, fmt: NumberFormat)
    ensures var data := GlucoseData(stream, now);
      var band := user.thresholds.glucose;
      && (GlucoseInsight(user, stream, now, fmt).Some? <==>
            |data| > 5 && band.Some? && 2 * |NearCeiling(data, band.value.high)| > |data|)
      && (GlucoseInsight(user, stream, now, fmt).Some? ==>
            var near := NearCeiling(data, band.value.high);
            |near| > 3 && GlucoseInsight(user, stream, now, fmt).value.triggeringData == near[..3])
  {
    var data := GlucoseData(stream, now);
    var band := user.thresholds.glucose;
    if |data| > 5 && band.Some? {
      MoreThanHalf(|NearCeiling(data, band.value.high)|, |data|);
    }
  }

  /** The activity insight appears exactly when there are at least three
      in-window activity readings, an activity target, and at least two
      readings below it; it cites the first two of those. */
  lemma ActivityInsightIff(user: UserData, stream: seq<HealthDataPoint>, now: int, fmt: NumberFormat)
    ensures var data := ActivityData(stream, now);
      var band := user.thresholds.activityMinutes;
      && (ActivityInsight(user, stream, now, fmt).Some? <==>
            |data| >= 3 && band.Some? && |BelowFloor(data, band.value.low)| >= 2)
      && (ActivityInsight(user, stream, now, fmt).Some? ==>
            ActivityInsight(user, stream, now, fmt).value.triggeringData == BelowFloor(data, band.value.low)[..2])
  {
  }

  /** An INFO insight stamped `now` that cites at least one reading, every
      one of them an in-window reading of the stream of type `t`. */
  predicate CitesOwnMetric(i: ClientInsightResult, stream: seq<HealthDataPoint>, now: int, t: MetricType)
  {
    && i.level == INFO && i.isInsight && i.timestamp == now
    && i.triggeringData != [] && i.triggeringData[0].metric == t
    && forall p :: p in i.triggeringData ==> p in stream && InInsightWindow(p, now) && p.metric == t
  }

  /** A prefix cites only elements of the whole. */
  lemma TakeWithin<T>(s: seq<T>, n: nat)
    ensures forall x :: x in Lists.Take(s, n) ==> x in s
  {
    var r := Lists.Take(s, n);
    forall x | x in r ensures x in s {
      var i :| 0 <= i < |r| && r[i] == x;
      assert s[i] == x;
    }
  }

  lemma SleepInsightCites(user: UserData, stream: seq<HealthDataPoint>, now: int, fmt: NumberFormat)
    ensures var r := SleepInsight(user, stream, now, fmt);
      r.Some? ==> CitesOwnMetric(r.value, stream, now, SLEEP_HOURS)
  {
    var data := SleepData(stream, now);
    TakeWithin(data, 3);
    if |data| > 0 {
      assert Lists.Take(data, 3)[0] in Lists.Take(data, 3);
    }
  }

  lemma GlucoseInsightCites(user: UserData, stream: seq<HealthDataPoint>, now: int, fmt: NumberFormat)
    ensures var r := GlucoseInsight(user, stream, now, fmt);
      r.Some? ==> CitesOwnMetric(r.value, stream, now, GLUCOSE)
  {
    var r := GlucoseInsight(user, stream, now, fmt);
    if r.Some? {
      GlucoseInsightIff(user, stream, now, fmt);
      var data := GlucoseData(stream, now);
      var near := NearCeiling(data, user.thresholds.glucose.value.high);
      TakeWithin(near, 3);
      assert Lists.Take(near, 3)[0] in Lists.Take(near, 3);
    }
  }

  lemma ActivityInsightCites(user: UserData, stream: seq<HealthDataPoint>, now: int, fmt: NumberFormat)
    ensures var r := ActivityInsight(user, stream, now, fmt);
      r.Some? ==> CitesOwnMetric(r.value, stream, now, ACTIVITY_MINUTES)
  {
    var r := ActivityInsight(user, stream, now, fmt);
    if r.Some? {
      var data := ActivityData(stream, now);
      var below := BelowFloor(data, user.thresholds.activityMinutes.value.low);
      TakeWithin(below, 2);
      assert Lists.Take(below, 2)[0] in Lists.Take(below, 2);
    }
  }

  /** Rank of an insight kind in the fixed output order. */
  function InsightRank(t: MetricType): nat
  {
    match t
    case SLEEP_HOURS => 0
    case GLUCOSE => 1
    case _ => 2
  }

  /** The rank of an insight's kind, read off the first reading it cites. */
  function Rank(i: ClientInsightResult): int
  {
    if i.triggeringData != [] then InsightRank(i.triggeringData[0].metric) else -1
  }

  /** What three rules found, listed in rule order: at most three findings,
      each acceptable, ranked strictly increasing when the rules' findings
      carry ranks 0, 1 and 2. */
  lemma RankedFindings<T>(a: Option<T>, b: Option<T>, c: Option<T>, ok: T -> bool, rank: T -> int)
    requires a.Some? ==> ok(a.value) && rank(a.value) == 0
    requires b.Some? ==> ok(b.value) && rank(b.value) == 1
    requires c.Some? ==> ok(c.value) && rank(c.value) == 2
    ensures var r := OptionToSeq(a) + OptionToSeq(b) + OptionToSeq(c);
      && |r| <= 3
      && (forall i :: 0 <= i < |r| ==> ok(r[i]))
      && (forall i, j :: 0 <= i < j < |r| ==> rank(r[i]) < rank(r[j]))
  {
  }

  /** There are at most three insights, each an INFO insight stamped `now`
      that cites in-window readings of a single metric, and they come one per
      kind in the order sleep, glucose, activity. */
  lemma InsightsShape(user: UserData, stream: seq<HealthDataPoint>, now: int, fmt: NumberFormat)
    ensures var r := Insights(user, stream, now, fmt);
      && |r| <= 3
      && (forall i :: 0 <= i < |r| ==>
            r[i].level == INFO && r[i].isInsight && r[i].timestamp == now
            && r[i].triggeringData != [] && CitesOwnMetric(r[i], stream, now, r[i].triggeringData[0].metric)
            && r[i].triggeringData[0].metric in {SLEEP_HOURS, GLUCOSE, ACTIVITY_MINUTES})
      && (forall i, j :: 0 <= i < j < |r| ==> Rank(r[i]) < Rank(r[j]))
  {
    SleepInsightCites(user, stream, now, fmt);
    GlucoseInsightCites(user, stream, now, fmt);
    ActivityInsightCites(user, stream, now, fmt);
    var s := SleepInsight(user, stream, now, fmt);
    var g := GlucoseInsight(user, stream, now, fmt);
    var a := ActivityInsight(user, stream, now, fmt);
    RankedFindings(s, g, a,
      (x: ClientInsightResult) =>
        x.level == INFO && x.isInsight && x.timestamp == now
        && x.triggeringData != [] && CitesOwnMetric(x, stream, now, x.triggeringData[0].metric)
        && x.triggeringData[0].metric in {SLEEP_HOURS, GLUCOSE, ACTIVITY_MINUTES},
      Rank);
  }

  /** Every insight of a run is stamped with the moment of the run. */
  lemma InsightsStampedNow(user: UserData, stream: seq<HealthDataPoint>, now: int, fmt: NumberFormat)
    ensures forall i :: 0 <= i < |Insights(user, stream, now, fmt)| ==> Insights(user, stream, now, fmt)[i].timestamp == now
  {
    InsightsShape(user, stream, now, fmt);
  }

  /** Readings outside the three-day window make no difference: the insights
      of a stream are those of its in-window readings. */
  lemma InsightsUseWindowOnly(user: UserData, stream: seq<HealthDataPoint>, now: int, fmt: NumberFormat)
    ensures Insights(user, Lists.Filter(stream, (p: HealthDataPoint) => InInsightWindow(p, now)), now, fmt) == Insights(user, stream, now, fmt)
  {
    var win := Lists.Filter(stream, (p: HealthDataPoint) => InInsightWindow(p, now));
    Lists.FilterNarrow(stream, (p: HealthDataPoint) => InInsightWindow(p, now),
                 (p: HealthDataPoint) => p.metric == SLEEP_HOURS && InInsightWindow(p, now) && p.value > 0.0);
    Lists.FilterNarrow(stream, (p: HealthDataPoint) => InInsightWindow(p, now), (p: HealthDataPoint) => p.metric == GLUCOSE && InInsightWindow(p, now));
    Lists.FilterNarrow(stream, (p: HealthDataPoint) => InInsightWindow(p, now), (p: HealthDataPoint) => p.metric == ACTIVITY_MINUTES && InInsightWindow(p, now));
    assert SleepData(win, now) == SleepData(stream, now);
    assert GlucoseData(win, now) == GlucoseData(stream, now);
    assert ActivityData(win, now) == ActivityData(stream, now);
  }

  // ---------------------------------------------------------------------
  // Latest reading of each metric

  /** Among the first `n` readings, `stream[i]` is one of type `t` with the
      largest timestamp of its type, and no earlier reading of that type has
      the same timestamp. */
  predicate LatestUpTo(stream: seq<HealthDataPoint>, n: int, t: MetricType, i: int)
  {
    && 0 <= i < n <= |stream| && stream[i].metric == t
    && (forall j :: 0 <= j < n && stream[j].metric == t ==> stream[j].timestamp <= stream[i].timestamp)
    && (forall j :: 0 <= j < i && stream[j].metric == t ==> stream[j].timestamp < stream[i].timestamp)
  }

  /** `stream[i]` is the latest reading of type `t` in the whole stream. */
  predicate LatestAt(stream: seq<HealthDataPoint>, t: MetricType, i: int)
  {
    LatestUpTo(stream, |stream|, t, i)
  }

  /** At most one position is the latest of its type. */
  lemma LatestUnique(stream: seq<HealthDataPoint>, t: MetricType, i: int, j: int)
    requires LatestAt(stream, t, i) && LatestAt(stream, t, j)
    ensures i == j
  {
    if i < j || j < i {
      assert false;
    }
  }

  /** Looking at one more reading: the kept position stays the latest unless
      the new reading is of its type and strictly newer, and then the new one
      is the latest. */
  lemma LatestExtend(stream: seq<HealthDataPoint>, k: int, t: MetricType, i: int)
    requires LatestUpTo(stream, k, t, i) && k < |stream|
    ensures stream[k].metric != t || stream[k].timestamp <= stream[i].timestamp ==> LatestUpTo(stream, k + 1, t, i)
    ensures stream[k].metric == t && stream[k].timestamp > stream[i].timestamp ==> LatestUpTo(stream, k + 1, t, k)
  {
  }

  /** The first reading of a type is the latest of its type so far. */
  lemma LatestFirst(stream: seq<HealthDataPoint>, k: int)
    requires 0 <= k < |stream|
    requires forall j :: 0 <= j < k ==> stream[j].metric != stream[k].metric
    ensures LatestUpTo(stream, k + 1, stream[k].metric, k)
  {
  }

  /** The fold that keeps, per metric, the first reading with the largest
      timestamp: a reading replaces the kept one only when strictly newer. */
  method LatestDataByType(stream: seq<HealthDataPoint>) returns (latest: map<MetricType, HealthDataPoint>)
    ensures forall t :: t in latest <==> exists i :: 0 <= i < |stream| && stream[i].metric == t
    ensures forall t :: t in latest ==> exists i :: LatestAt(stream, t, i) && latest[t] == stream[i]
  {
    latest := map[];
    ghost var at: map<MetricType, int> := map[];
    for k := 0 to |stream|
      invariant forall t :: t in latest <==> t in at
      invariant forall t :: t in latest <==> exists i :: 0 <= i < k && stream[i].metric == t
      invariant forall t :: t in at ==> LatestUpTo(stream, k, t, at[t]) && latest[t] == stream[at[t]]
    {
      var dataPoint := stream[k];
      var t := dataPoint.metric;
      forall u | u in at && u != t ensures LatestUpTo(stream, k + 1, u, at[u]) {
        LatestExtend(stream, k, u, at[u]);
      }
      if t !in latest {
        LatestFirst(stream, k);
      } else {
        LatestExtend(stream, k, t, at[t]);
      }
      if t !in latest || dataPoint.timestamp > latest[t].timestamp {
        latest := latest[t := dataPoint];
        at := at[t := k];
      }
    }
    forall t | t in latest ensures exists i :: LatestAt(stream, t, i) && latest[t] == stream[i] {
      assert LatestAt(stream, t, at[t]);
    }
  }

  // ---------------------------------------------------------------------
  // Overall risk

  /** A combined assessment as the dashboard would produce it. */
  datatype ClientOverallRiskResult = ClientOverallRiskResult(
    level: AlertLevel,
    message: string,
    triggeringData: seq<HealthDataPoint>,
    behavioralContext: seq<BehavioralLog>,
    timestamp: int)

  /** The comparator's rank: ESCALATION first, NONE last. */
  function SortOrder(l: AlertLevel): (n: nat)
    ensures n == 3 - Severity(l)
  {
    match l
    case ESCALATION => 0
    case MILD => 1
    case INFO => 2
    case NONE => 3
  }

  /** The stable sort by `SortOrder` ascending, i.e. most severe first. */
  function SortBySeverity(alerts: seq<ClientOverallRiskResult>): (r: seq<ClientOverallRiskResult>)
    ensures multiset(r) == multiset(alerts)
    ensures forall i, j :: 0 <= i < j < |r| ==> SortOrder(r[i].level) <= SortOrder(r[j].level)
  {
    var s := Lists.SortDesc(alerts, (a: ClientOverallRiskResult) => Severity(a.level));
    assert forall i, j :: 0 <= i < j < |s| ==> Severity(s[i].level) >= Severity(s[j].level);
    s
  }

  /** The overall assessment: it computes the latest reading of each metric,
      but its only combined rule is disabled, so it always reports nothing. */
  method AssessOverallRisk(user: UserData, recentData: seq<HealthDataPoint>, logs: seq<BehavioralLog>)
    returns (alerts: seq<ClientOverallRiskResult>)
    ensures alerts == []
  {
    alerts := [];
    var latestDataByType := LatestDataByType(recentData);
    alerts := SortBySeverity(alerts);
  }
}
