/** The recent-activity feed: readings, alerts and behavioural logs merged
    into one list, newest first, cut to thirty items; the text of a log entry
    and the icon of each item. */
module RecentActivityFeed {
  import opened HealthTypes
  import Lists
  import Text

  /** The feed shows at most this many items. */
  const FEED_SIZE: nat := 30

  /** An item of the feed, tagged with the list it came from. */
  datatype FeedItem =
    | DataItem(reading: HealthDataPoint)
    | AlertItem(alert: Alert)
    | BehavioralItem(log: BehavioralLog)
  {
    function Timestamp(): int
    {
      match this
      case DataItem(p) => p.timestamp
      case AlertItem(a) => a.timestamp
      case BehavioralItem(l) => l.timestamp
    }

    function Id(): string
    {
      match this
      case DataItem(p) => p.id
      case AlertItem(a) => a.id
      case BehavioralItem(l) => l.id
    }

    /** The tag part of the item's key. */
    function KeyPrefix(): string
    {
      match this
      case DataItem(_) => DATA_PREFIX
      case AlertItem(_) => ALERT_PREFIX
      case BehavioralItem(_) => BEHAVIORAL_PREFIX
    }

    /** The React key: the tag, a dash and the source item's id. */
    function Key(): string
    {
      KeyPrefix() + Id()
    }
  }

  const DATA_PREFIX: string := "data-"
  const ALERT_PREFIX: string := "alert-"
  const BEHAVIORAL_PREFIX: string := "behavioral-"

  function ItemTimestamp(item: FeedItem): int
  {
    item.Timestamp()
  }

  /** The three lists tagged and concatenated: readings, then alerts, then logs. */
  function Items(stream: seq<HealthDataPoint>, alerts: seq<Alert>, logs: seq<BehavioralLog>): (r: seq<FeedItem>)
    ensures |r| == |stream| + |alerts| + |logs|
    ensures forall x :: x in r <==>
      || (x.DataItem? && x.reading in stream)
      || (x.AlertItem? && x.alert in alerts)
      || (x.BehavioralItem? && x.log in logs)
  {
    var data := seq(|stream|, i requires 0 <= i < |stream| => DataItem(stream[i]));
    var raised := seq(|alerts|, i requires 0 <= i < |alerts| => AlertItem(alerts[i]));
    var logged := seq(|logs|, i requires 0 <= i < |logs| => BehavioralItem(logs[i]));
    assert forall x :: x in data <==> x.DataItem? && x.reading in stream by {
      forall x: FeedItem | x.DataItem? && x.reading in stream ensures x in data {
        var i :| 0 <= i < |stream| && stream[i] == x.reading;
        assert data[i] == x;
      }
    }
    assert forall x :: x in raised <==> x.AlertItem? && x.alert in alerts by {
      forall x: FeedItem | x.AlertItem? && x.alert in alerts ensures x in raised {
        var i :| 0 <= i < |alerts| && alerts[i] == x.alert;
        assert raised[i] == x;
      }
    }
    assert forall x :: x in logged <==> x.BehavioralItem? && x.log in logs by {
      forall x: FeedItem | x.BehavioralItem? && x.log in logs ensures x in logged {
        var i :| 0 <= i < |logs| && logs[i] == x.log;
        assert logged[i] == x;
      }
    }
    data + raised + logged
  }

  /** The feed: all items, newest first (a stable sort), the first thirty. */
  function CombinedFeed(stream: seq<HealthDataPoint>, alerts: seq<Alert>, logs: seq<BehavioralLog>): seq<FeedItem>
  {
    Lists.Take(Lists.SortDesc(Items(stream, alerts, logs), ItemTimestamp), FEED_SIZE)
  }

  /** The feed has thirty items, or all of them when there are fewer; it is
      newest first; it holds only items of the three lists; and every item
      left out is no newer than any item shown. */
  lemma CombinedFeedRules(stream: seq<HealthDataPoint>, alerts: seq<Alert>, logs: seq<BehavioralLog>)
    ensures var feed := CombinedFeed(stream, alerts, logs);
      var all := Items(stream, alerts, logs);
      && |feed| == (if |all| <= FEED_SIZE then |all| else FEED_SIZE)
      && Lists.SortedDesc(feed, ItemTimestamp)
      && multiset(feed) <= multiset(all)
      && (forall x, y :: x in multiset(all) - multiset(feed) && y in feed ==> x.Timestamp() <= y.Timestamp())
  {
    var all := Items(stream, alerts, logs);
    var feed := CombinedFeed(stream, alerts, logs);
    Lists.TopByKey(all, ItemTimestamp, FEED_SIZE);
    forall x: FeedItem, y: FeedItem | x in multiset(all) - multiset(feed) && y in feed ensures x.Timestamp() <= y.Timestamp() {
      assert ItemTimestamp(x) <= ItemTimestamp(y);
    }
  }

  /** Every item of the feed is a reading, an alert or a log of the inputs,
      tagged with the list it came from. */
  lemma FeedItemsComeFromInputs(stream: seq<HealthDataPoint>, alerts: seq<Alert>, logs: seq<BehavioralLog>, x: FeedItem)
    requires x in CombinedFeed(stream, alerts, logs)
    ensures || (x.DataItem? && x.reading in stream)
            || (x.AlertItem? && x.alert in alerts)
            || (x.BehavioralItem? && x.log in logs)
  {
    Lists.TopByKey(Items(stream, alerts, logs), ItemTimestamp, FEED_SIZE);
    assert x in multiset(CombinedFeed(stream, alerts, logs));
  }

  /** The key tells the list an item came from and its id: two items with the
      same key have the same tag and the same id. */
  lemma KeysIdentifyItems(x: FeedItem, y: FeedItem)
    requires x.Key() == y.Key()
    ensures x.KeyPrefix() == y.KeyPrefix() && x.Id() == y.Id()
    ensures x.DataItem? <==> y.DataItem?
    ensures x.AlertItem? <==> y.AlertItem?
  {
    var k := x.Key();
    assert k[0] == x.KeyPrefix()[0] && k[0] == y.KeyPrefix()[0];
    assert DATA_PREFIX[0] == 'd' && ALERT_PREFIX[0] == 'a' && BEHAVIORAL_PREFIX[0] == 'b';
    assert x.KeyPrefix() == y.KeyPrefix();
    assert x.Id() == k[|x.KeyPrefix()|..];
    assert y.Id() == k[|y.KeyPrefix()|..];
  }

  // ---------------------------------------------------------------------
  // The text of a behavioural log entry

  const DIET_LEAD: string := "Logged Diet: "
  const MOOD_LEAD: string := "Logged Mood: "
  const ACTIVITY_LEAD: string := "Logged Activity: "
  const ACTIVITY_FOR: string := " for "
  const ACTIVITY_UNIT: string := " mins"
  const NOTES_LEAD: string := " - Notes: "

  /** ` (details)` when the details are non-empty. */
  function DetailsSuffix(details: Option<string>): string
  {
    if Present(details) then " (" + details.value + ")" else ""
  }

  /** ` - Notes: notes` when the notes are non-empty. */
  function NotesSuffix(notes: Option<string>): string
  {
    if Present(notes) then NOTES_LEAD + notes.value else ""
  }

  /** The text before the notes. */
  function LogHeadline(log: BehavioralLog, fmt: NumberFormat): string
  {
    match log
    case DietLog(_, _, _, diet, details) => DIET_LEAD + DietText(diet) + DetailsSuffix(details)
    case MoodLog(_, _, _, mood) => MOOD_LEAD + MoodText(mood)
    case ActivityLog(_, _, _, activity, minutes, _) => ACTIVITY_LEAD + activity + ACTIVITY_FOR + fmt.plain(minutes) + ACTIVITY_UNIT
  }

  /** The feed text of a log entry; every variant has one. */
  function FormatBehavioralLogMessage(log: BehavioralLog, fmt: NumberFormat): string
  {
    LogHeadline(log, fmt) + NotesSuffix(log.notes)
  }

  /** The label a log kind's text starts with. */
  function KindLead(k: LogKind): string
  {
    match k
    case DIET => DIET_LEAD
    case MOOD => MOOD_LEAD
    case ACTIVITY => ACTIVITY_LEAD
  }

  /** The labels differ, so the text reveals the kind of log. */
  lemma KindLeadsDiffer(j: LogKind, k: LogKind, s: string)
    requires Text.StartsWith(s, KindLead(j)) && Text.StartsWith(s, KindLead(k))
    ensures j == k
  {
    assert s[7] == KindLead(j)[7] && s[7] == KindLead(k)[7];
    assert DIET_LEAD[7] == 'D' && MOOD_LEAD[7] == 'M' && ACTIVITY_LEAD[7] == 'A';
  }

  /** The text starts with the label of the log's kind, and with no other. */
  lemma FormatRevealsKind(log: BehavioralLog, fmt: NumberFormat)
    ensures forall k :: Text.StartsWith(FormatBehavioralLogMessage(log, fmt), KindLead(k)) <==> k == log.Kind()
  {
    var text := FormatBehavioralLogMessage(log, fmt);
    var lead := KindLead(log.Kind());
    assert LogHeadline(log, fmt)[..|lead|] == lead;
    assert text[..|lead|] == lead;
    forall k | Text.StartsWith(text, KindLead(k)) ensures k == log.Kind() {
      KindLeadsDiffer(k, log.Kind(), text);
    }
  }

  /** The text ends with the notes exactly when there are some; without
      notes it is the headline alone. */
  lemma FormatQuotesNotes(log: BehavioralLog, fmt: NumberFormat)
    ensures var text := FormatBehavioralLogMessage(log, fmt);
      && (Present(log.notes) ==> Text.EndsWith(text, NOTES_LEAD + log.notes.value))
      && (!Present(log.notes) ==> text == LogHeadline(log, fmt))
  {
    var text := FormatBehavioralLogMessage(log, fmt);
    if Present(log.notes) {
      assert text[|text| - |NOTES_LEAD + log.notes.value|..] == NOTES_LEAD + log.notes.value;
    }
  }

  /** A meal's text names the diet and quotes its details when there are
      some; a mood's text names the mood; an activity's text names the
      activity and its duration in minutes. */
  lemma FormatNamesChoice(log: BehavioralLog, fmt: NumberFormat)
    ensures var text := FormatBehavioralLogMessage(log, fmt);
      && (log.DietLog? ==> Text.Contains(text, DietText(log.dietType)))
      && (log.DietLog? && Present(log.details) ==> Text.Contains(text, " (" + log.details.value + ")"))
      && (log.MoodLog? ==> Text.Contains(text, MoodText(log.moodType)))
      && (log.ActivityLog? ==> Text.Contains(text, log.activityType))
      && (log.ActivityLog? ==> Text.Contains(text, ACTIVITY_FOR + fmt.plain(log.durationMinutes) + ACTIVITY_UNIT))
  {
    var notes := NotesSuffix(log.notes);
    match log {
      case DietLog(_, _, _, diet, details) =>
        var name := DietText(diet);
        var more := DetailsSuffix(details);
        assert FormatBehavioralLogMessage(log, fmt) == DIET_LEAD + name + more + notes;
        Lists.ConcatAssoc(DIET_LEAD, name, more, notes);
        Text.ContainsMiddle(DIET_LEAD, name, more + notes);
        if Present(details) {
          Text.ContainsMiddle(DIET_LEAD + name, more, notes);
        }
      case MoodLog(_, _, _, mood) =>
        Text.ContainsMiddle(MOOD_LEAD, MoodText(mood), notes);
      case ActivityLog(_, _, _, activity, minutes, _) =>
        var duration := ACTIVITY_FOR + fmt.plain(minutes) + ACTIVITY_UNIT;
        assert FormatBehavioralLogMessage(log, fmt) == ACTIVITY_LEAD + activity + (ACTIVITY_FOR + fmt.plain(minutes) + ACTIVITY_UNIT) + notes by {
          Lists.ConcatAssoc(ACTIVITY_LEAD + activity, ACTIVITY_FOR, fmt.plain(minutes), ACTIVITY_UNIT);
        }
        Lists.ConcatAssoc(ACTIVITY_LEAD, activity, duration, notes);
        Text.ContainsMiddle(ACTIVITY_LEAD, activity, duration + notes);
        Text.ContainsMiddle(ACTIVITY_LEAD + activity, duration, notes);
    }
  }

  // ---------------------------------------------------------------------
  // Icons

  datatype Icon = Lightbulb | HeartIcon | GlucoseIcon | LungIcon | BedIcon | ActivityIcon
                | InfoIcon | WarningIcon | DangerIcon | DietIcon | MoodIcon

  function MetricIcon(t: MetricType): Icon
  {
    match t
    case HEART_RATE => HeartIcon
    case GLUCOSE => GlucoseIcon
    case SPO2 => LungIcon
    case SLEEP_HOURS => BedIcon
    case ACTIVITY_MINUTES => ActivityIcon
  }

  /** The icon of a feed item. An insight comes first; an alert about heart
      rate, glucose or SpO2 takes the metric's icon, any other alert its
      level's; a reading its metric's; a log its kind's. */
  function FeedIcon(item: FeedItem): Icon
  {
    match item
    case AlertItem(a) =>
      if a.isInsight then Lightbulb
      else if a.metricType.Some? && a.metricType.value in {HEART_RATE, GLUCOSE, SPO2} then MetricIcon(a.metricType.value)
      else if a.level == MILD then WarningIcon
      else if a.level == ESCALATION then DangerIcon
      else InfoIcon
    case DataItem(p) => MetricIcon(p.metric)
    case BehavioralItem(l) =>
      match l.Kind()
      case DIET => DietIcon
      case MOOD => MoodIcon
      case ACTIVITY => ActivityIcon
  }

  /** The lightbulb marks insights and nothing else, whatever their level or
      metric. Any other alert about heart rate, glucose or SpO2 shows that
      metric's icon before its level is looked at; one without such a metric
      shows warning exactly when MILD, danger exactly when ESCALATION, and
      the plain info icon otherwise. A reading shows its metric's icon, and
      a log shows the icon of its kind. */
  lemma InsightIconFirst(item: FeedItem)
    ensures FeedIcon(item) == Lightbulb <==> item.AlertItem? && item.alert.isInsight
    ensures item.AlertItem? && !item.alert.isInsight
            && item.alert.metricType.Some? && item.alert.metricType.value in {HEART_RATE, GLUCOSE, SPO2}
            ==> FeedIcon(item) == MetricIcon(item.alert.metricType.value)
    ensures item.AlertItem? && !item.alert.isInsight
            && (item.alert.metricType.None? || item.alert.metricType.value !in {HEART_RATE, GLUCOSE, SPO2})
            ==> && (FeedIcon(item) == WarningIcon <==> item.alert.level == MILD)
                && (FeedIcon(item) == DangerIcon <==> item.alert.level == ESCALATION)
                && (FeedIcon(item) == InfoIcon <==> item.alert.level in {INFO, NONE})
    ensures item.DataItem? ==> FeedIcon(item) == MetricIcon(item.reading.metric)
    ensures item.BehavioralItem? ==>
            && (FeedIcon(item) == DietIcon <==> item.log.DietLog?)
            && (FeedIcon(item) == MoodIcon <==> item.log.MoodLog?)
            && (FeedIcon(item) == ActivityIcon <==> item.log.ActivityLog?)
  {
  }
}
