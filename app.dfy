/** The dashboard: its state (user, reading stream, alerts, behavioural logs)
    and the list bookkeeping its handlers perform on that state. */
module App {
  import opened HealthTypes
  import Lists
  import Text
  import ServerHealthLogic
  import ClientHealthLogic

  /** Caps on the three lists the dashboard keeps, newest first. */
  const MAX_ALERTS: nat := 50
  const MAX_READINGS: nat := 200
  const MAX_LOGS: nat := 100

  /** A non-escalation alert is dropped when a similar one is this recent. */
  const DEDUP_WINDOW_MS: int := 5 * MINUTE_MS
  /** An insight is dropped when the same text was raised this recently. */
  const INSIGHT_DEDUP_MS: int := 24 * HOUR_MS

  /** The logs sent along with a reading, and with an explanation request. */
  const ASSESSMENT_LOOKBACK_MS: int := 6 * HOUR_MS
  const MAX_ASSESSMENT_LOGS: nat := 10
  const EXPLANATION_LOOKBACK_MS: int := 6 * HOUR_MS
  const MAX_EXPLANATION_LOGS: nat := 5

  /** The text whose presence in a MILD message reveals a downgraded escalation. */
  const DOWNGRADE_MARKER: string := "Escalation automatically downgraded"

  // ---------------------------------------------------------------------
  // Bounded lists

  /** `[x, ...s]`, cut to its first `cap` items: the newest comes first, the
      earlier order is kept and only the oldest items are dropped. */
  function PrependCapped<T>(x: T, s: seq<T>, cap: nat): (r: seq<T>)
    requires cap > 0
    ensures |r| == if |s| + 1 <= cap then |s| + 1 else cap
    ensures r[0] == x && r[1..] == s[..|r| - 1]
  {
    var r := Lists.Take([x] + s, cap);
    assert r[1..] == ([x] + s)[1..|r|];
    r
  }

  // ---------------------------------------------------------------------
  // Alerts built from an assessment

  /** The level the alert was raised at before any downgrade, as far as the
      message reveals it. */
  function OriginalLevel(level: AlertLevel, message: string): (o: AlertLevel)
    ensures o != level ==> level == MILD && o == ESCALATION
    ensures o == ESCALATION <==> level == ESCALATION || (level == MILD && Text.Contains(message, DOWNGRADE_MARKER))
  {
    if level == MILD && Text.Contains(message, DOWNGRADE_MARKER) then ESCALATION else level
  }

  /** The alert the dashboard builds from a backend assessment; a zero
      timestamp reads as absent and is replaced by `now`. */
  function AlertFromAssessment(r: RiskAssessmentResult, id: string, userId: string, now: int): Alert
  {
    Alert(
      id, if r.timestamp != 0 then r.timestamp else now, userId, r.level, r.metricType, r.metricValue, r.message,
      r.triggeringData, r.behavioralContext, false, None, Some(OriginalLevel(r.level, r.message)), r.isInsight,
      None, false)
  }

  /** A failed request (`None`) and a NONE assessment raise nothing. */
  function NewAlert(response: Option<RiskAssessmentResult>, id: string, userId: string, now: int): (a: Option<Alert>)
    ensures a.Some? <==> response.Some? && response.value.level != NONE
  {
    if response.Some? && response.value.level != NONE then Some(AlertFromAssessment(response.value, id, userId, now))
    else None
  }

  // ---------------------------------------------------------------------
  // Five-minute deduplication

  /** A live alert of the same metric and level raised in the last five minutes. */
  predicate RecentSimilar(a: Alert, candidate: Alert, now: int)
  {
    && !a.isDismissed
    && a.metricType == candidate.metricType
    && a.level == candidate.level
    && a.timestamp > now - DEDUP_WINDOW_MS
  }

  /** The candidate is dropped: a similar alert is recent, and the candidate is
      neither an escalation nor an insight. */
  predicate Suppressed(alerts: seq<Alert>, candidate: Alert, now: int)
  {
    && (exists i :: 0 <= i < |alerts| && RecentSimilar(alerts[i], candidate, now))
    && candidate.level != ESCALATION
    && !candidate.isInsight
  }

  /** The alert list after a candidate arrives. */
  function MergeAlert(alerts: seq<Alert>, candidate: Alert, now: int): seq<Alert>
  {
    if Suppressed(alerts, candidate, now) then alerts else PrependCapped(candidate, alerts, MAX_ALERTS)
  }

  /** Escalations and insights always get through, at the head of the list;
      any other candidate is dropped when a similar alert is recent. What
      gets through leads, the earlier order is kept, and the list stays
      within its cap. */
  lemma MergeAlertRules(alerts: seq<Alert>, candidate: Alert, now: int)
    requires |alerts| <= MAX_ALERTS
    ensures var r := MergeAlert(alerts, candidate, now);
      && |r| <= MAX_ALERTS
      && (forall a :: a in r ==> a == candidate || a in alerts)
      && ((&& candidate.level != ESCALATION && !candidate.isInsight
           && exists i :: 0 <= i < |alerts| && RecentSimilar(alerts[i], candidate, now)) ==> r == alerts)
      && ((|| candidate.level == ESCALATION || candidate.isInsight
           || forall i :: 0 <= i < |alerts| ==> !RecentSimilar(alerts[i], candidate, now)) ==>
            && r[0] == candidate
            && |r| == (if |alerts| < MAX_ALERTS then |alerts| + 1 else MAX_ALERTS)
            && r[1..] == alerts[..|r| - 1])
  {
    var r := MergeAlert(alerts, candidate, now);
    if !Suppressed(alerts, candidate, now) {
      forall a | a in r ensures a == candidate || a in alerts {
        var k :| 0 <= k < |r| && r[k] == a;
        if k > 0 {
          assert r[1..][k - 1] == a;
        }
      }
    }
  }

  // ---------------------------------------------------------------------
  // Insights raised by the periodic check

  /** The alert the dashboard makes of a dashboard-side insight. The insight
      cites readings only, so its behavioural context is empty. */
  function InsightAlert(i: ClientHealthLogic.ClientInsightResult, id: string, userId: string): Alert
  {
    Alert(id, i.timestamp, userId, INFO, None, None, i.message, i.triggeringData, [], false, None, None, true, None, false)
  }

  /** The insights of one check as alerts; `idOf(k)` is the id of the k-th. */
  function InsightAlerts(insights: seq<ClientHealthLogic.ClientInsightResult>, idOf: nat -> string, userId: string)
    : (r: seq<Alert>)
    ensures |r| == |insights|
    ensures forall k :: 0 <= k < |r| ==>
      && r[k].isInsight && r[k].level == INFO && !r[k].isDismissed
      && r[k].message == insights[k].message && r[k].timestamp == insights[k].timestamp
  {
    var r := seq(|insights|, k requires 0 <= k < |insights| => InsightAlert(insights[k], idOf(k), userId));
    assert forall k :: 0 <= k < |r| ==> r[k] == InsightAlert(insights[k], idOf(k), userId);
    r
  }

  /** An earlier insight with the same text raised less than a day ago. */
  predicate DuplicateInsight(earlier: Alert, candidate: Alert, now: int)
  {
    earlier.isInsight && earlier.message == candidate.message && now - earlier.timestamp < INSIGHT_DEDUP_MS
  }

  predicate FreshInsight(candidate: Alert, alerts: seq<Alert>, now: int)
  {
    !exists i :: 0 <= i < |alerts| && DuplicateInsight(alerts[i], candidate, now)
  }

  /** The new insights that repeat nothing raised in the last day. */
  function UniqueNewInsights(news: seq<Alert>, alerts: seq<Alert>, now: int): seq<Alert>
  {
    Lists.Filter(news, (n: Alert) => FreshInsight(n, alerts, now))
  }

  /** The alert list after a periodic check: the unique insights, in their
      order, ahead of the earlier alerts, cut to the cap. */
  function MergeInsights(alerts: seq<Alert>, news: seq<Alert>, now: int): seq<Alert>
  {
    var unique := UniqueNewInsights(news, alerts, now);
    if |unique| > 0 then Lists.Take(unique + alerts, MAX_ALERTS) else alerts
  }

  /** Nothing is added when every insight repeats a recent one; otherwise the
      unique ones lead, in order, and the earlier alerts follow, oldest dropped.
      Every alert after the check was there before or is a unique insight. */
  lemma MergeInsightsRules(alerts: seq<Alert>, news: seq<Alert>, now: int)
    requires |alerts| <= MAX_ALERTS
    ensures var unique := UniqueNewInsights(news, alerts, now);
      var r := MergeInsights(alerts, news, now);
      && |r| <= MAX_ALERTS
      && (unique == [] ==> r == alerts)
      && (unique != [] && |unique| <= MAX_ALERTS ==> r[..|unique|] == unique && r[|unique|..] == alerts[..|r| - |unique|])
      && forall a :: a in r ==> a in alerts || (a in news && FreshInsight(a, alerts, now))
  {
    var unique := UniqueNewInsights(news, alerts, now);
    var r := MergeInsights(alerts, news, now);
    if unique != [] {
      assert r == (unique + alerts)[..|r|];
      forall a | a in r ensures a in alerts || (a in news && FreshInsight(a, alerts, now)) {
        assert a in unique + alerts;
      }
      if |unique| <= MAX_ALERTS {
        assert r[|unique|..] == (unique + alerts)[|unique|..|r|];
      }
    }
  }

  /** A second check within the same moment adds nothing when it raises only
      texts the first one raised: each of those was either already recent
      or was just added. The first batch consists of insights stamped `now`,
      and there is room for it beside every earlier alert, so that no recent
      insight holding back a repeat is cut off (see `CapCanReadmitInsight`). */
  lemma MergeInsightsIdempotent(alerts: seq<Alert>, news: seq<Alert>, again: seq<Alert>, now: int)
    requires forall n :: n in news ==> n.isInsight && n.timestamp == now
    requires forall m :: m in again ==> exists n :: n in news && n.message == m.message
    requires |UniqueNewInsights(news, alerts, now)| + |alerts| <= MAX_ALERTS
    ensures MergeInsights(MergeInsights(alerts, news, now), again, now) == MergeInsights(alerts, news, now)
  {
    var unique := UniqueNewInsights(news, alerts, now);
    var once := MergeInsights(alerts, news, now);
    assert forall a :: a in alerts ==> a in once by {
      if unique != [] {
        assert once == unique + alerts;
      }
    }
    forall m | m in again ensures !FreshInsight(m, once, now) {
      var n :| n in news && n.message == m.message;
      if FreshInsight(n, alerts, now) {
        assert n in unique;
        assert once == unique + alerts;
        var k :| 0 <= k < |unique| && unique[k] == n;
        assert once[k] == n && DuplicateInsight(once[k], m, now);
      } else {
        var i :| 0 <= i < |alerts| && DuplicateInsight(alerts[i], n, now);
        assert alerts[i] in once;
        var k :| 0 <= k < |once| && once[k] == alerts[i];
        assert DuplicateInsight(once[k], m, now);
      }
    }
    Lists.FilterNone(again, (n: Alert) => FreshInsight(n, once, now));
  }

  /** Without that room the merge is not idempotent. When the list is full
      and its oldest alert is the only recent insight with the text of `x`,
      a batch `[y, x]` adds only `y`, and the cut to the cap drops that old
      insight; merging `[x]` again at the same moment then puts `x` at the
      head, so the same text is raised twice within a day. */
  lemma CapCanReadmitInsight(alerts: seq<Alert>, x: Alert, y: Alert, now: int)
    requires |alerts| == MAX_ALERTS && alerts[MAX_ALERTS - 1] == x
    requires x.isInsight && x.timestamp == now
    requires forall i :: 0 <= i < MAX_ALERTS - 1 ==> !DuplicateInsight(alerts[i], x, now)
    requires y.message != x.message && FreshInsight(y, alerts, now)
    ensures var once := MergeInsights(alerts, [y, x], now);
      && once == [y] + alerts[..MAX_ALERTS - 1]
      && x !in once
      && MergeInsights(once, [x], now) != once
      && MergeInsights(once, [x], now)[0] == x
  {
    assert DuplicateInsight(alerts[MAX_ALERTS - 1], x, now);
    assert !FreshInsight(x, alerts, now);
    var keep := (n: Alert) => FreshInsight(n, alerts, now);
    assert Lists.Filter([x], keep) == [] by {
      assert [x][1..] == [];
    }
    assert Lists.Filter([y, x], keep) == [y] by {
      assert [y, x][1..] == [x];
    }
    assert UniqueNewInsights([y, x], alerts, now) == [y];
    var once := MergeInsights(alerts, [y, x], now);
    assert once == [y] + alerts[..MAX_ALERTS - 1];
    forall i | 0 <= i < |once| ensures !DuplicateInsight(once[i], x, now) {
      if i > 0 {
        assert once[i] == alerts[i - 1];
      }
    }
    assert DuplicateInsight(x, x, now);
    assert UniqueNewInsights([x], once, now) == [x] by {
      assert [x][1..] == [];
    }
    var again := MergeInsights(once, [x], now);
    assert again[0] == x;
    assert once[0] == y;
  }

  /** The alerts of one batch of insights, under two choices of ids: all are
      insights stamped with the batch's moment, and they raise the same texts. */
  lemma SameBatchSameTexts(insights: seq<ClientHealthLogic.ClientInsightResult>, idOf: nat -> string,
                           idOfAgain: nat -> string, userId: string, now: int)
    requires forall i :: 0 <= i < |insights| ==> insights[i].timestamp == now
    ensures var news := InsightAlerts(insights, idOf, userId);
      && (forall n :: n in news ==> n.isInsight && n.timestamp == now)
      && (forall m :: m in InsightAlerts(insights, idOfAgain, userId) ==> exists n :: n in news && n.message == m.message)
  {
    var news := InsightAlerts(insights, idOf, userId);
    var again := InsightAlerts(insights, idOfAgain, userId);
    forall m | m in again ensures exists n :: n in news && n.message == m.message {
      var k :| 0 <= k < |again| && again[k] == m;
      assert news[k] in news && news[k].message == m.message;
    }
  }

  /** Two periodic checks over the same readings at the same moment: the
      second adds nothing, whatever ids it draws, as long as the first one's
      insights all fit. */
  lemma RepeatedCheckAddsNothing(user: UserData, stream: seq<HealthDataPoint>, alerts: seq<Alert>, now: int,
                                 fmt: NumberFormat, idOf: nat -> string, idOfAgain: nat -> string)
    requires var news := InsightAlerts(ClientHealthLogic.Insights(user, stream, now, fmt), idOf, user.id);
      |UniqueNewInsights(news, alerts, now)| + |alerts| <= MAX_ALERTS
    ensures var insights := ClientHealthLogic.Insights(user, stream, now, fmt);
      var once := MergeInsights(alerts, InsightAlerts(insights, idOf, user.id), now);
      MergeInsights(once, InsightAlerts(insights, idOfAgain, user.id), now) == once
  {
    var insights := ClientHealthLogic.Insights(user, stream, now, fmt);
    ClientHealthLogic.InsightsStampedNow(user, stream, now, fmt);
    SameBatchSameTexts(insights, idOf, idOfAgain, user.id, now);
    MergeInsightsIdempotent(alerts, InsightAlerts(insights, idOf, user.id), InsightAlerts(insights, idOfAgain, user.id), now);
  }

  // ---------------------------------------------------------------------
  // Dismissal and the two views

  /** The test `a.id === alertId` of the handlers that update one alert. */
  function WithId(id: string): Alert -> bool
  {
    (a: Alert) => a.id == id
  }

  function MarkDismissed(feedback: Option<UserFeedback>): Alert -> Alert
  {
    (a: Alert) => a.(isDismissed := true, userFeedback := feedback)
  }

  /** Every alert with the id is marked dismissed and carries the feedback. */
  function Dismiss(alerts: seq<Alert>, id: string, feedback: Option<UserFeedback>): seq<Alert>
  {
    Lists.MapWhere(alerts, WithId(id), MarkDismissed(feedback))
  }

  predicate IsActive(a: Alert)
  {
    !a.isDismissed && !a.isInsight
  }

  /** The alerts the active view lists. */
  function ActiveAlerts(alerts: seq<Alert>): seq<Alert>
  {
    Lists.Filter(alerts, IsActive)
  }

  /** The alerts the insight view lists, dismissed or not. */
  function InsightList(alerts: seq<Alert>): seq<Alert>
  {
    Lists.Filter(alerts, (a: Alert) => a.isInsight)
  }

  /** Dismissal touches only the alerts with that id, keeps the list's length,
      and is idempotent. */
  lemma DismissRules(alerts: seq<Alert>, id: string, feedback: Option<UserFeedback>)
    ensures var r := Dismiss(alerts, id, feedback);
      && |r| == |alerts|
      && (forall i :: 0 <= i < |r| && alerts[i].id != id ==> r[i] == alerts[i])
      && (forall i :: 0 <= i < |r| && alerts[i].id == id ==>
            r[i].isDismissed && r[i].userFeedback == feedback && r[i].id == id && r[i].message == alerts[i].message)
      && Dismiss(r, id, feedback) == r
  {
    Lists.MapWhereIdempotent(alerts, WithId(id), MarkDismissed(feedback));
  }

  /** After a dismissal the active view lists the previously active alerts
      except those with the dismissed id; the insight view loses nothing. */
  lemma DismissedLeaveActiveView(alerts: seq<Alert>, id: string, feedback: Option<UserFeedback>)
    ensures ActiveAlerts(Dismiss(alerts, id, feedback)) == Lists.Filter(alerts, (a: Alert) => IsActive(a) && a.id != id)
    ensures |InsightList(Dismiss(alerts, id, feedback))| == |InsightList(alerts)|
  {
    Lists.FilterAfterMapWhere(alerts, WithId(id), MarkDismissed(feedback), IsActive,
      (a: Alert) => IsActive(a) && a.id != id);
    InsightCountKept(alerts, WithId(id), MarkDismissed(feedback));
  }

  /** An update that keeps the insight flag keeps the number of insights. */
  lemma {:induction false} InsightCountKept(alerts: seq<Alert>, sel: Alert -> bool, f: Alert -> Alert)
    requires forall a :: f(a).isInsight == a.isInsight
    ensures |InsightList(Lists.MapWhere(alerts, sel, f))| == |InsightList(alerts)|
  {
    if alerts != [] {
      InsightCountKept(alerts[1..], sel, f);
      var m := Lists.MapWhere(alerts, sel, f);
      assert m[1..] == Lists.MapWhere(alerts[1..], sel, f);
    }
  }

  /** Every alert is in exactly one of three places: the active view, the
      insight view, or neither (a dismissed non-insight). */
  lemma ViewsPartition(alerts: seq<Alert>, a: Alert)
    requires a in alerts
    ensures a in ActiveAlerts(alerts) <==> !a.isDismissed && !a.isInsight
    ensures a in InsightList(alerts) <==> a.isInsight
    ensures !(a in ActiveAlerts(alerts) && a in InsightList(alerts))
  {
  }

  // ---------------------------------------------------------------------
  // Logs sent along with requests

  function ByTimestamp(l: BehavioralLog): int
  {
    l.timestamp
  }

  /** The logs sent with a reading: those of the last six hours, newest first,
      at most ten. */
  function LogsForAssessment(logs: seq<BehavioralLog>, now: int): seq<BehavioralLog>
  {
    Lists.Take(
      Lists.SortDesc(Lists.Filter(logs, (l: BehavioralLog) => l.timestamp >= now - ASSESSMENT_LOOKBACK_MS), ByTimestamp),
      MAX_ASSESSMENT_LOGS)
  }

  /** The logs sent with an explanation request: those of the six hours up to
      the alert, newest first, at most five. */
  function LogsForExplanation(logs: seq<BehavioralLog>, alertTime: int): seq<BehavioralLog>
  {
    Lists.Take(
      Lists.SortDesc(
        Lists.Filter(logs, (l: BehavioralLog) => alertTime - l.timestamp < EXPLANATION_LOOKBACK_MS && l.timestamp <= alertTime),
        ByTimestamp),
      MAX_EXPLANATION_LOGS)
  }

  /** Keeping the `n` newest logs that pass `window`: they come newest first,
      all pass it, and any passing log left out is no newer than any kept. */
  lemma NewestInWindow(logs: seq<BehavioralLog>, window: BehavioralLog -> bool, n: nat)
    ensures var win := Lists.Filter(logs, window);
      var kept := Lists.Take(Lists.SortDesc(win, ByTimestamp), n);
      && |kept| == (if |win| <= n then |win| else n)
      && Lists.SortedDesc(kept, ByTimestamp)
      && (forall l :: l in kept ==> l in logs && window(l))
      && (forall l, k :: l in logs && window(l) && l !in kept && k in kept ==> l.timestamp <= k.timestamp)
  {
    var win := Lists.Filter(logs, window);
    var kept := Lists.Take(Lists.SortDesc(win, ByTimestamp), n);
    Lists.TopByKey(win, ByTimestamp, n);
    forall l | l in kept ensures l in logs && window(l) {
      assert l in multiset(kept);
      assert l in multiset(win);
    }
    forall l, k | l in logs && window(l) && l !in kept && k in kept ensures l.timestamp <= k.timestamp {
      assert l in multiset(win) - multiset(kept);
      assert ByTimestamp(l) <= ByTimestamp(k);
    }
  }

  lemma LogsForAssessmentRules(logs: seq<BehavioralLog>, now: int)
    ensures var r := LogsForAssessment(logs, now);
      && |r| <= MAX_ASSESSMENT_LOGS
      && Lists.SortedDesc(r, ByTimestamp)
      && (forall l :: l in r ==> l in logs && l.timestamp >= now - ASSESSMENT_LOOKBACK_MS)
      && (forall l, k :: l in logs && l.timestamp >= now - ASSESSMENT_LOOKBACK_MS && l !in r && k in r ==>
            l.timestamp <= k.timestamp)
  {
    NewestInWindow(logs, (l: BehavioralLog) => l.timestamp >= now - ASSESSMENT_LOOKBACK_MS, MAX_ASSESSMENT_LOGS);
  }

  lemma LogsForExplanationRules(logs: seq<BehavioralLog>, alertTime: int)
    ensures var r := LogsForExplanation(logs, alertTime);
      && |r| <= MAX_EXPLANATION_LOGS
      && Lists.SortedDesc(r, ByTimestamp)
      && (forall l :: l in r ==> l in logs && alertTime - EXPLANATION_LOOKBACK_MS < l.timestamp <= alertTime)
      && (forall l, k :: l in logs && alertTime - EXPLANATION_LOOKBACK_MS < l.timestamp <= alertTime && l !in r && k in r ==>
            l.timestamp <= k.timestamp)
  {
    NewestInWindow(logs,
      (l: BehavioralLog) => alertTime - l.timestamp < EXPLANATION_LOOKBACK_MS && l.timestamp <= alertTime,
      MAX_EXPLANATION_LOGS);
  }

  // ---------------------------------------------------------------------
  // The alert level recovered from a server assessment

  /** Number text carries no capital E (it uses a lower-case exponent). */
  ghost predicate NoCapitalE(fmt: NumberFormat)
  {
    forall x :: 'E' !in fmt.plain(x)
  }

  lemma HeartRateMessageLacksCapitalE(side: string, p: HealthDataPoint, b: RangeBand, fmt: NumberFormat)
    requires NoCapitalE(fmt) && 'E' !in side
    ensures 'E' !in ServerHealthLogic.HeartRateMessage(side, p, b, fmt)
  {
  }

  lemma GlucoseMessageLacksCapitalE(side: string, condition: string, p: HealthDataPoint, b: RangeBand, fmt: NumberFormat)
    requires NoCapitalE(fmt) && 'E' !in side && 'E' !in condition
    ensures 'E' !in ServerHealthLogic.GlucoseMessage(side, condition, p, b, fmt)
  {
  }

  lemma Spo2MessageLacksCapitalE(p: HealthDataPoint, b: RangeBand, fmt: NumberFormat)
    requires NoCapitalE(fmt)
    ensures 'E' !in ServerHealthLogic.Spo2Message(p, b, fmt)
  {
  }

  /** A mild reading's evaluator message has no capital E. */
  lemma MildBaseMessageLacksCapitalE(th: UserThresholds, p: HealthDataPoint, fmt: NumberFormat)
    requires NoCapitalE(fmt)
    requires ServerHealthLogic.RawLevel(th, p) == MILD
    ensures 'E' !in ServerHealthLogic.BaseMessage(th, p, fmt)
  {
    match p.metric
    case HEART_RATE =>
      HeartRateMessageLacksCapitalE("low", p, th.heartRate.value, fmt);
      HeartRateMessageLacksCapitalE("high", p, th.heartRate.value, fmt);
    case GLUCOSE =>
      GlucoseMessageLacksCapitalE("low", "hypoglycemia", p, th.glucose.value, fmt);
      GlucoseMessageLacksCapitalE("high", "hyperglycemia", p, th.glucose.value, fmt);
    case SPO2 =>
      Spo2MessageLacksCapitalE(p, th.spo2.value, fmt);
    case _ =>
  }

  /** The sentence for a cited mood or meal has no capital E. */
  lemma ContextNoteLacksCapitalE(log: BehavioralLog)
    requires ServerHealthLogic.IsStressedMood(log) || ServerHealthLogic.IsCarbHeavyMeal(log)
    ensures 'E' !in ServerHealthLogic.ContextNote(log)
  {
    if log.MoodLog? {
      MoodNoteFragmentsLackCapitalE();
    } else {
      DietNoteLeadLacksCapitalE();
      DietNoteTailLacksCapitalE();
    }
  }

  lemma MoodNoteFragmentsLackCapitalE()
    ensures 'E' !in ServerHealthLogic.MOOD_NOTE_LEAD && 'E' !in ServerHealthLogic.MOOD_NOTE_TAIL
    ensures 'E' !in MoodText(STRESSED) && 'E' !in MoodText(ANXIOUS)
  {
  }

  lemma DietNoteLeadLacksCapitalE()
    ensures 'E' !in ServerHealthLogic.DIET_NOTE_LEAD
  {
  }

  lemma DietNoteTailLacksCapitalE()
    ensures 'E' !in ServerHealthLogic.DIET_NOTE_TAIL
    ensures 'E' !in DietText(HIGH_CARB) && 'E' !in DietText(SNACK_HEAVY)
  {
  }

  /** A mild assessment's message, context sentence included, has no capital E. */
  lemma MildMessageLacksCapitalE(user: UserData, p: HealthDataPoint, logs: seq<BehavioralLog>, now: int,
                                 fmt: NumberFormat)
    requires NoCapitalE(fmt)
    requires ServerHealthLogic.RawLevel(user.thresholds, p) == MILD
    ensures var th := user.thresholds;
      var ctx := ServerHealthLogic.ContextLog(th, p, logs, now);
      'E' !in ServerHealthLogic.BaseMessage(th, p, fmt) + (if ctx.Some? then ServerHealthLogic.ContextNote(ctx.value) else "")
  {
    var th := user.thresholds;
    MildBaseMessageLacksCapitalE(th, p, fmt);
    var ctx := ServerHealthLogic.ContextLog(th, p, logs, now);
    if ctx.Some? {
      if p.metric == HEART_RATE {
        assert ServerHealthLogic.IsStressedMood(ctx.value);
      } else {
        assert ServerHealthLogic.IsCarbHeavyMeal(ctx.value);
      }
      ContextNoteLacksCapitalE(ctx.value);
    }
  }

  /** The dashboard's marker is the headline of the server's downgrade note. */
  lemma MarkerIsDowngradeHeadline()
    ensures DOWNGRADE_MARKER == ServerHealthLogic.DOWNGRADE_HEADLINE
  {
  }

  /** A downgraded escalation's message carries the marker. */
  lemma DowngradedMessageCarriesMarker(message: string)
    ensures Text.Contains(message + ServerHealthLogic.DOWNGRADE_NOTE, DOWNGRADE_MARKER)
  {
    Text.ContainsMiddle(message + ServerHealthLogic.DOWNGRADE_NOTE_LEAD, ServerHealthLogic.DOWNGRADE_HEADLINE,
                        ServerHealthLogic.DOWNGRADE_NOTE_TAIL);
    Lists.ConcatAssoc(message, ServerHealthLogic.DOWNGRADE_NOTE_LEAD, ServerHealthLogic.DOWNGRADE_HEADLINE,
                      ServerHealthLogic.DOWNGRADE_NOTE_TAIL);
    MarkerIsDowngradeHeadline();
  }

  /** The level an alert records as its original one is the evaluator's raw
      level: a downgraded escalation is recognised by the note the server
      appends, and no other mild message carries that note's marker. */
  lemma OriginalLevelIsRawLevel(user: UserData, p: HealthDataPoint, logs: seq<BehavioralLog>, now: int,
                                fmt: NumberFormat)
    requires NoCapitalE(fmt)
    ensures var r := ServerHealthLogic.Assess(user, p, logs, now, fmt);
      r.level != NONE ==> OriginalLevel(r.level, r.message) == ServerHealthLogic.RawLevel(user.thresholds, p)
  {
    var th := user.thresholds;
    var raw := ServerHealthLogic.RawLevel(th, p);
    var ctx := ServerHealthLogic.ContextLog(th, p, logs, now);
    var message := ServerHealthLogic.BaseMessage(th, p, fmt) + (if ctx.Some? then ServerHealthLogic.ContextNote(ctx.value) else "");
    if raw == ESCALATION && !user.allowAutoEscalation {
      DowngradedMessageCarriesMarker(message);
    } else if raw == MILD {
      MildMessageLacksCapitalE(user, p, logs, now, fmt);
      assert DOWNGRADE_MARKER[0] == 'E';
      Text.MissingCharExcludes(message, DOWNGRADE_MARKER, 'E');
    }
  }

  /** The server correlates the user's logs it reads back from its store:
      those of the last six hours, newest first, at most ten, the same
      selection `LogsForAssessment` makes of `stored`. Because they arrive
      newest first, the mood it cites for a heart-rate alert is the most
      recent qualifying one among them. */
  lemma CitedMoodIsMostRecent(user: UserData, p: HealthDataPoint, stored: seq<BehavioralLog>, now: int,
                              fmt: NumberFormat)
    requires p.metric == HEART_RATE
    ensures var sent := LogsForAssessment(stored, now);
      var r := ServerHealthLogic.Assess(user, p, sent, now, fmt);
      |r.behavioralContext| == 1 ==>
        forall l :: (&& l in sent && ServerHealthLogic.InWindow(l, MOOD, ServerHealthLogic.MOOD_LOOKBACK_HOURS, now)
                     && ServerHealthLogic.IsStressedMood(l)) ==> l.timestamp <= r.behavioralContext[0].timestamp
  {
    var sent := LogsForAssessment(stored, now);
    LogsForAssessmentRules(stored, now);
    assert forall i, j :: 0 <= i < j < |sent| ==> sent[i].timestamp >= sent[j].timestamp by {
      forall i, j | 0 <= i < j < |sent| ensures sent[i].timestamp >= sent[j].timestamp {
        assert ByTimestamp(sent[i]) >= ByTimestamp(sent[j]);
      }
    }
    ServerHealthLogic.NewestFirstFindsMostRecent(sent, MOOD, ServerHealthLogic.MOOD_LOOKBACK_HOURS, now,
                                                 ServerHealthLogic.IsStressedMood);
  }

  // ---------------------------------------------------------------------
  // The dashboard state and its handlers

  /** What a request to the backend came back with. */
  datatype Outcome<T> = Success(value: T) | Failure(message: string)

  /** `error.message || fallback`. */
  function ErrorText(message: string, fallback: string): (t: string)
    ensures t != ""  <== fallback != ""
    ensures message != "" ==> t == message
    ensures message == "" ==> t == fallback
  {
    if message != "" then message else fallback
  }

  const HEALTH_DATA_FAILURE: string := "Failed to communicate with backend for health data processing."
  const BEHAVIORAL_LOG_FAILURE: string := "Failed to communicate with backend for behavioral log."
  const EXPLANATION_FAILURE: string := "Unknown error fetching explanation."
  const EXPLANATION_ERROR_PREFIX: string := "Error: "

  /** An alert gets an explanation fetched when it has none yet and is not an insight. */
  predicate NeedsExplanation(a: Alert)
  {
    !Present(a.explanation) && !a.isInsight
  }

  function MarkExplanationRequested(): Alert -> Alert
  {
    (a: Alert) => a.(explanationRequested := true)
  }

  function WithExplanation(text: string): Alert -> Alert
  {
    (a: Alert) => a.(explanation := Some(text), explanationRequested := false)
  }

  /** The text an explanation request leaves on the alert. */
  function ExplanationText(outcome: Outcome<string>): string
  {
    match outcome
    case Success(text) => text
    case Failure(message) => EXPLANATION_ERROR_PREFIX + ErrorText(message, EXPLANATION_FAILURE)
  }

  /** `alerts.find(a => a.id === alertId)`. */
  function FindAlert(alerts: seq<Alert>, id: string): (r: Option<Alert>)
    ensures r.None? <==> forall i :: 0 <= i < |alerts| ==> alerts[i].id != id
    ensures r.Some? ==> exists i :: 0 <= i < |alerts| && alerts[i] == r.value && r.value.id == id
                                    && forall j :: 0 <= j < i ==> alerts[j].id != id
  {
    if alerts == [] then None
    else if alerts[0].id == id then Some(alerts[0])
    else
      var r := FindAlert(alerts[1..], id);
      assert forall i :: 0 < i < |alerts| ==> alerts[i] == alerts[1..][i - 1];
      r
  }

  /** The dashboard: the monitored user, the readings, the alerts and the
      behavioural logs it shows, newest first, and the explanation dialog. */
  class Dashboard {
    var currentUser: UserData
    var healthDataStream: seq<HealthDataPoint>
    var alerts: seq<Alert>
    var behavioralLogs: seq<BehavioralLog>
    /** When the log list last changed (or the mount): the moment the
        memoised selection of logs sent with readings is computed. */
    var logsChangedAt: int
    var activeAlertForExplanation: Option<Alert>
    var isExplanationLoading: bool
    var lastBackendError: Option<string>

    /** The caps the handlers keep. The behavioural logs restored from storage
        may exceed theirs until the next log is added. */
    predicate Valid()
      reads this
    {
      |healthDataStream| <= MAX_READINGS && |alerts| <= MAX_ALERTS
    }

    /** The state on mount at `now`: the user and logs restored from storage
        when it held them, else the initial user and no logs; no readings or
        alerts. */
    constructor (savedUser: Option<UserData>, savedLogs: Option<seq<BehavioralLog>>, initialUser: UserData, now: int)
      ensures Valid()
      ensures currentUser == (if savedUser.Some? then savedUser.value else initialUser)
      ensures behavioralLogs == (if savedLogs.Some? then savedLogs.value else []) && logsChangedAt == now
      ensures healthDataStream == [] && alerts == []
      ensures activeAlertForExplanation.None? && !isExplanationLoading && lastBackendError.None?
    {
      currentUser := if savedUser.Some? then savedUser.value else initialUser;
      behavioralLogs := if savedLogs.Some? then savedLogs.value else [];
      logsChangedAt := now;
      healthDataStream := [];
      alerts := [];
      activeAlertForExplanation := None;
      isExplanationLoading := false;
      lastBackendError := None;
    }

    /** A new reading: it heads the stream at once; the request carries the
        user and the logs returned in `sentLogs`, selected as of the last
        change of the log list rather than as of `now`; an assessment above NONE
        becomes an alert unless a similar one is recent; a failed request is
        reported and changes no alert. */
    method AddHealthDataPoint(p: HealthDataPoint, outcome: Outcome<RiskAssessmentResult>, alertId: string, now: int)
      returns (sentLogs: seq<BehavioralLog>)
      requires Valid()
      modifies this
      ensures Valid()
      ensures healthDataStream == PrependCapped(p, old(healthDataStream), MAX_READINGS)
      ensures sentLogs == LogsForAssessment(behavioralLogs, logsChangedAt)
      ensures outcome.Success? && outcome.value.level != NONE ==>
        alerts == MergeAlert(old(alerts), AlertFromAssessment(outcome.value, alertId, currentUser.id, now), now)
      ensures outcome.Failure? || outcome.value.level == NONE ==> alerts == old(alerts)
      ensures lastBackendError == if outcome.Failure? then Some(ErrorText(outcome.message, HEALTH_DATA_FAILURE)) else None
      ensures currentUser == old(currentUser) && behavioralLogs == old(behavioralLogs) && logsChangedAt == old(logsChangedAt)
      ensures activeAlertForExplanation == old(activeAlertForExplanation)
      ensures isExplanationLoading == old(isExplanationLoading)
    {
      healthDataStream := PrependCapped(p, healthDataStream, MAX_READINGS);
      lastBackendError := None;
      sentLogs := LogsForAssessment(behavioralLogs, logsChangedAt);
      match outcome {
        case Failure(message) =>
          lastBackendError := Some(ErrorText(message, HEALTH_DATA_FAILURE));
        case Success(assessment) =>
          var candidate := NewAlert(Some(assessment), alertId, currentUser.id, now);
          if candidate.Some? {
            MergeAlertRules(alerts, candidate.value, now);
            alerts := MergeAlert(alerts, candidate.value, now);
          }
      }
    }

    /** A new behavioural log, stamped with its id and `now`, heads the list;
        the list keeps at most its cap, and the logs sent with readings are
        selected again as of `now`. */
    method AddBehavioralLog(entry: BehavioralLog, id: string, now: int, outcome: Outcome<()>)
      requires Valid()
      modifies this
      ensures Valid()
      ensures behavioralLogs == PrependCapped(entry.(id := id, timestamp := now), old(behavioralLogs), MAX_LOGS)
      ensures |behavioralLogs| <= MAX_LOGS && behavioralLogs[0].id == id && behavioralLogs[0].timestamp == now
      ensures logsChangedAt == now
      ensures lastBackendError == if outcome.Failure? then Some(ErrorText(outcome.message, BEHAVIORAL_LOG_FAILURE)) else None
      ensures currentUser == old(currentUser) && healthDataStream == old(healthDataStream) && alerts == old(alerts)
      ensures activeAlertForExplanation == old(activeAlertForExplanation)
      ensures isExplanationLoading == old(isExplanationLoading)
    {
      behavioralLogs := PrependCapped(entry.(id := id, timestamp := now), behavioralLogs, MAX_LOGS);
      logsChangedAt := now;
      lastBackendError := None;
      if outcome.Failure? {
        lastBackendError := Some(ErrorText(outcome.message, BEHAVIORAL_LOG_FAILURE));
      }
    }

    /** The periodic insight check: the insights of the current readings
        become insight alerts, merged without repeating a recent one. */
    method CheckInsights(now: int, fmt: NumberFormat, idOf: nat -> string)
      requires Valid()
      modifies this
      ensures Valid()
      ensures alerts == MergeInsights(old(alerts),
        InsightAlerts(ClientHealthLogic.Insights(currentUser, healthDataStream, now, fmt), idOf, currentUser.id), now)
      ensures currentUser == old(currentUser) && healthDataStream == old(healthDataStream)
      ensures behavioralLogs == old(behavioralLogs) && logsChangedAt == old(logsChangedAt) && lastBackendError == old(lastBackendError)
      ensures activeAlertForExplanation == old(activeAlertForExplanation)
      ensures isExplanationLoading == old(isExplanationLoading)
    {
      var current := alerts;
      var insights := ClientHealthLogic.GenerateInsights(currentUser, healthDataStream, behavioralLogs, now, fmt);
      var news := InsightAlerts(insights, idOf, currentUser.id);
      if |insights| > 0 {
        MergeInsightsRules(current, news, now);
        alerts := MergeInsights(current, news, now);
      } else {
        assert news == [];
      }
    }

    /** Every alert with the id is marked dismissed with the feedback. */
    method DismissAlert(id: string, feedback: Option<UserFeedback>)
      requires Valid()
      modifies this
      ensures Valid()
      ensures alerts == Dismiss(old(alerts), id, feedback)
      ensures currentUser == old(currentUser) && healthDataStream == old(healthDataStream)
      ensures behavioralLogs == old(behavioralLogs) && logsChangedAt == old(logsChangedAt) && lastBackendError == old(lastBackendError)
      ensures activeAlertForExplanation == old(activeAlertForExplanation)
      ensures isExplanationLoading == old(isExplanationLoading)
    {
      alerts := Dismiss(alerts, id, feedback);
    }

    /** Opening an alert's explanation. An alert that needs one is shown,
        marked as requested, and the request carries the logs returned in
        `sentLogs`; an alert that has one is shown as it is; otherwise
        nothing happens and nothing is sent. */
    method RequestExplanation(id: string) returns (sentLogs: Option<seq<BehavioralLog>>)
      requires Valid()
      modifies this
      ensures Valid()
      ensures var found := FindAlert(old(alerts), id);
        && (found.Some? && NeedsExplanation(found.value) ==>
              && alerts == Lists.MapWhere(old(alerts), WithId(id), MarkExplanationRequested())
              && activeAlertForExplanation == found && isExplanationLoading && lastBackendError.None?
              && sentLogs == Some(LogsForExplanation(behavioralLogs, found.value.timestamp)))
        && (found.Some? && Present(found.value.explanation) ==>
              && alerts == old(alerts) && activeAlertForExplanation == found && !isExplanationLoading
              && lastBackendError == old(lastBackendError) && sentLogs.None?)
        && (found.None? || (!NeedsExplanation(found.value) && !Present(found.value.explanation)) ==>
              && alerts == old(alerts) && activeAlertForExplanation == old(activeAlertForExplanation)
              && isExplanationLoading == old(isExplanationLoading)
              && lastBackendError == old(lastBackendError) && sentLogs.None?)
      ensures currentUser == old(currentUser) && healthDataStream == old(healthDataStream)
      ensures behavioralLogs == old(behavioralLogs) && logsChangedAt == old(logsChangedAt)
    {
      sentLogs := None;
      var found := FindAlert(alerts, id);
      if found.Some? && NeedsExplanation(found.value) {
        activeAlertForExplanation := found;
        isExplanationLoading := true;
        alerts := Lists.MapWhere(alerts, WithId(id), MarkExplanationRequested());
        lastBackendError := None;
        sentLogs := Some(LogsForExplanation(behavioralLogs, found.value.timestamp));
      } else if found.Some? && Present(found.value.explanation) {
        activeAlertForExplanation := found;
        isExplanationLoading := false;
      }
    }

    /** The explanation arrives, or the request fails: every alert with the
        id, and the open dialog when it shows that alert, carry the text,
        no longer marked as requested; a failure is also reported. */
    method FinishExplanation(id: string, outcome: Outcome<string>)
      requires Valid()
      modifies this
      ensures Valid()
      ensures alerts == Lists.MapWhere(old(alerts), WithId(id), WithExplanation(ExplanationText(outcome)))
      ensures activeAlertForExplanation ==
        if old(activeAlertForExplanation).Some? && old(activeAlertForExplanation).value.id == id
        then Some(WithExplanation(ExplanationText(outcome))(old(activeAlertForExplanation).value))
        else old(activeAlertForExplanation)
      ensures !isExplanationLoading
      ensures lastBackendError ==
        if outcome.Failure? then Some(ErrorText(outcome.message, EXPLANATION_FAILURE)) else old(lastBackendError)
      ensures currentUser == old(currentUser) && healthDataStream == old(healthDataStream)
      ensures behavioralLogs == old(behavioralLogs) && logsChangedAt == old(logsChangedAt)
    {
      var text := ExplanationText(outcome);
      alerts := Lists.MapWhere(alerts, WithId(id), WithExplanation(text));
      if activeAlertForExplanation.Some? && activeAlertForExplanation.value.id == id {
        activeAlertForExplanation := Some(WithExplanation(text)(activeAlertForExplanation.value));
      }
      if outcome.Failure? {
        lastBackendError := Some(ErrorText(outcome.message, EXPLANATION_FAILURE));
      }
      isExplanationLoading := false;
    }

    method CloseExplanation()
      requires Valid()
      modifies this
      ensures Valid()
      ensures activeAlertForExplanation.None?
      ensures currentUser == old(currentUser) && healthDataStream == old(healthDataStream) && alerts == old(alerts)
      ensures behavioralLogs == old(behavioralLogs) && logsChangedAt == old(logsChangedAt) && lastBackendError == old(lastBackendError)
      ensures isExplanationLoading == old(isExplanationLoading)
    {
      activeAlertForExplanation := None;
    }

    /** The user's bands are replaced; everything else about the user stays. */
    method UpdateThresholds(thresholds: UserThresholds)
      requires Valid()
      modifies this
      ensures Valid()
      ensures currentUser == old(currentUser).(thresholds := thresholds)
      ensures healthDataStream == old(healthDataStream) && alerts == old(alerts)
      ensures behavioralLogs == old(behavioralLogs) && logsChangedAt == old(logsChangedAt) && lastBackendError == old(lastBackendError)
      ensures activeAlertForExplanation == old(activeAlertForExplanation)
      ensures isExplanationLoading == old(isExplanationLoading)
    {
      currentUser := currentUser.(thresholds := thresholds);
    }

    /** The auto-escalation preference is replaced; everything else stays. */
    method UpdateAutoEscalation(allow: bool)
      requires Valid()
      modifies this
      ensures Valid()
      ensures currentUser == old(currentUser).(allowAutoEscalation := allow)
      ensures healthDataStream == old(healthDataStream) && alerts == old(alerts)
      ensures behavioralLogs == old(behavioralLogs) && logsChangedAt == old(logsChangedAt) && lastBackendError == old(lastBackendError)
      ensures activeAlertForExplanation == old(activeAlertForExplanation)
      ensures isExplanationLoading == old(isExplanationLoading)
    {
      currentUser := currentUser.(allowAutoEscalation := allow);
    }

    /** The two views the dashboard renders. */
    function ActiveView(): seq<Alert>
      reads this
    {
      ActiveAlerts(alerts)
    }

    function InsightView(): seq<Alert>
      reads this
    {
      InsightList(alerts)
    }
  }
}
