# Health alert engine: a Dafny model

This project models the decision logic of a single-user health companion
dashboard and its backend. The dashboard ingests time-stamped physiological
readings (heart rate, glucose, SpO2, sleep hours, activity minutes) and
self-reported behavioural logs (diet, mood, activity). For each reading the
server assesses the risk: a threshold evaluator, a "no auto-escalation"
downgrade policy, and a behavioural correlator that attaches at most one
recent log as context. The dashboard keeps bounded, newest-first lists of
readings, alerts and logs. It deduplicates alerts, and every minute it mines
the last three days for trend insights (chronic short sleep, glucose near the
ceiling, low activity), which are deduplicated by message for a day. Alerts
can be dismissed or explained. Next to the dashboard sit the vital-sign cards
(latest reading per metric, red/yellow/green status, target line) and the
merged recent-activity feed.

Modules, one per source file:

- `HealthTypes` (`types.dfy`): the data model of `server/src/types.ts`.
- `ServerHealthLogic` (`server_logic.dfy`): the server's per-reading assessment.
- `ClientHealthLogic` (`client_logic.dfy`): the dashboard's insights and overall risk.
- `App` (`app.dfy`): the dashboard state as class `Dashboard`, and the list transforms its handlers apply.
- `HealthDataDisplay` (`health_data_display.dfy`): one vital-sign card.
- `CurrentVitals` (`current_vitals.dfy`): the panel of cards.
- `RecentActivityFeed` (`recent_activity_feed.dfy`): the merged feed.
- `Text` and `Lists`: small shared helpers (substring search, filter, stable sort, take).

Modelling conventions:

- Readings are exact `real`s and timestamps are `int` milliseconds.
- Every `Date.now()` is an explicit `now` parameter, and generated ids are parameters.
- Number-to-text conversion (`${x}`, `toFixed(1)`) is a parameter `NumberFormat`.
- Each backend call's result is a parameter: an `Outcome` of `Success` or `Failure(message)`.
- Optional strings are `Option<string>`; JavaScript truthiness is `Present` (there and non-empty).

Where the design notes and the code disagree, the model follows the code:

- SpO2 carries a `low` and a `high` in the types and the seeded thresholds. The server consults only the floor, while the card judges both edges.
- The correlator attaches the first qualifying log in list order, not "the most recent". The route correlates the user's logs it reads back from the store: those of the last six hours, newest first, at most ten. `NewestFirstFindsMostRecent` and `App.CitedMoodIsMostRecent` prove that on such a newest-first list the first match is the most recent one.
- The dashboard sends its own selection of recent logs with each reading, but the route ignores that field and uses the store's logs.
- The sleep insight cites the first three qualifying readings in stream order. Since the stream is kept newest first, these are the most recent ones.
- Deduplication compares the post-downgrade level, so a downgraded escalation (now MILD) can be suppressed.
- Insight deduplication ignores `isDismissed`.
- Insight deduplication looks only at the alerts still in the list, and the list is cut to 50. Once it is full, the cut can drop the old insight that was holding back a repeat, so the same insight text can be raised twice within a day. `App.CapCanReadmitInsight` exhibits such a case.

## Model

| member | source | states |
|---|---|---|
| HealthTypes.AllMetricsExactlyOnce | personalized-healthcare-alert-system/server/src/types.ts:5-11 | there are exactly five metric types, each listed once |
| HealthTypes.BandOf | personalized-healthcare-alert-system/server/src/types.ts:75-81 | heart rate, glucose and SpO2 bands carry a floor and a ceiling; sleep and activity bands a floor only; every entry may be missing |
| HealthTypes.InitialUserThresholds | personalized-healthcare-alert-system/server/src/types.ts:168-174 | the seeded bands have low < high wherever both are present, and every metric has a band |
| HealthTypes.Severity | personalized-healthcare-alert-system/server/src/types.ts:100-105 | the four levels are ranked NONE < INFO < MILD < ESCALATION, as 0, 1, 2 and 3 |
| HealthTypes.MetricConfigComplete | personalized-healthcare-alert-system/server/src/types.ts:153-159 | every metric has a non-empty unit and a name, and no two metrics share a name |
| ServerHealthLogic.RecentLogs | personalized-healthcare-alert-system/server/src/services/healthLogicService.ts:17-21 | a log is kept exactly when it is of the requested kind and at most `hours` old; nothing else is added |
| ServerHealthLogic.RecentLogsIsFilter | personalized-healthcare-alert-system/server/src/services/healthLogicService.ts:17-21 | the recent logs are `filter` with the kind-and-window test, so they keep their input order |
| ServerHealthLogic.Find | personalized-healthcare-alert-system/server/src/services/healthLogicService.ts:53 | nothing is found exactly when no element matches; otherwise the result is the first match in list order |
| ServerHealthLogic.FindRecentIsFind | personalized-healthcare-alert-system/server/src/services/healthLogicService.ts:35-36 | looking up among the recent logs equals looking up, in the whole list, the first log that is recent, of the kind and matching |
| ServerHealthLogic.FindInRecent | personalized-healthcare-alert-system/server/src/services/healthLogicService.ts:72 | the correlator's lookup finds nothing exactly when no log qualifies, else the first qualifying log in list order |
| ServerHealthLogic.NewestFirstFindsMostRecent | personalized-healthcare-alert-system/server/src/services/healthLogicService.ts:53 | for newest-first logs the first match is no older than any other qualifying log |
| ServerHealthLogic.ApplyEscalationPolicy | personalized-healthcare-alert-system/server/src/services/healthLogicService.ts:104-108 | without permission the level is never ESCALATION; a raw escalation becomes MILD with the downgrade note appended; everything else passes through unchanged |
| ServerHealthLogic.EvaluateHeartRate | personalized-healthcare-alert-system/server/src/services/healthLogicService.ts:39-60 | the heart-rate case yields the raw level, the base message plus the mood sentence, and the attached mood, as `CaseResult` defines them |
| ServerHealthLogic.EvaluateGlucose | personalized-healthcare-alert-system/server/src/services/healthLogicService.ts:61-82 | the glucose case yields the raw level, the message with the meal sentence only for a mild high reading, and that meal as context |
| ServerHealthLogic.EvaluateSpo2 | personalized-healthcare-alert-system/server/src/services/healthLogicService.ts:83-89 | the SpO2 case yields the floor-only level and message, with no context |
| ServerHealthLogic.EvaluateSleep | personalized-healthcare-alert-system/server/src/services/healthLogicService.ts:90-96 | the sleep case yields INFO and its message only for a positive reading below the target |
| ServerHealthLogic.AssessSingleDataPointRiskOnServer | personalized-healthcare-alert-system/server/src/services/healthLogicService.ts:23-120 | the step-by-step assessment equals `Assess`, the composition of evaluator, correlator and escalation policy |
| ServerHealthLogic.AssessEchoesReading | personalized-healthcare-alert-system/server/src/services/healthLogicService.ts:110-119 | the result carries the reading's metric, value and timestamp, and its triggering data is exactly the reading |
| ServerHealthLogic.RangeMetricLevels | personalized-healthcare-alert-system/server/src/services/healthLogicService.ts:38-70 | heart rate and glucose are NONE exactly inside the band, ESCALATION exactly past the margin (15/25 and 20/70), and MILD exactly in between; never INFO |
| ServerHealthLogic.Spo2IgnoresCeiling | personalized-healthcare-alert-system/server/src/services/healthLogicService.ts:83-89 | changing the SpO2 ceiling never changes the level; NONE exactly at or above the floor; ESCALATION exactly below floor − 5 |
| ServerHealthLogic.RangeMetricMonotone | personalized-healthcare-alert-system/server/src/services/healthLogicService.ts:43-48 | moving further outside a range band never lowers the severity, on either side |
| ServerHealthLogic.InsightAndSilentCases | personalized-healthcare-alert-system/server/src/services/healthLogicService.ts:90-117 | `isInsight` holds exactly for a positive sleep reading below target, exactly when the level is INFO; activity and a missing band give NONE, an empty message and no context |
| ServerHealthLogic.MessageIffAlert | personalized-healthcare-alert-system/server/src/services/healthLogicService.ts:38-102 | the message is empty exactly when the raw level is NONE |
| ServerHealthLogic.EscalationPolicyHolds | personalized-healthcare-alert-system/server/src/services/healthLogicService.ts:104-108 | the final level is ESCALATION exactly when the raw level is and escalation is allowed; a downgrade is MILD and its message contains the note; otherwise the raw level is reported |
| ServerHealthLogic.ContextAtMostOne | personalized-healthcare-alert-system/server/src/services/healthLogicService.ts:33-36 | at most one log is attached, it is one of the logs given, and only heart-rate and glucose readings carry one |
| ServerHealthLogic.HeartRateContext | personalized-healthcare-alert-system/server/src/services/healthLogicService.ts:52-58 | an abnormal heart rate carries a mood exactly when a stressed or anxious mood is at most 6 hours old, and the one carried is such a mood |
| ServerHealthLogic.GlucoseContext | personalized-healthcare-alert-system/server/src/services/healthLogicService.ts:68-79 | glucose carries a meal exactly when it is mildly high and a high-carb meal or heavy snack is at most 4 hours old, and the one carried is such a meal |
| ClientHealthLogic.CheckSleep | personalized-healthcare-alert-system/services/healthLogicService.ts:27-41 | the sleep rule as run equals the sleep insight function |
| ClientHealthLogic.CheckGlucose | personalized-healthcare-alert-system/services/healthLogicService.ts:43-57 | the glucose rule as run equals the glucose insight function |
| ClientHealthLogic.CheckActivity | personalized-healthcare-alert-system/services/healthLogicService.ts:59-73 | the activity rule as run equals the activity insight function |
| ClientHealthLogic.GenerateInsights | personalized-healthcare-alert-system/services/healthLogicService.ts:23-75 | the pushed list equals the sleep, glucose and activity findings in that order |
| ClientHealthLogic.MeanVersusBound | personalized-healthcare-alert-system/services/healthLogicService.ts:31-32 | for a positive count, the mean is below (above) a bound exactly when the sum is below (above) bound × count |
| ClientHealthLogic.MoreThanHalf | personalized-healthcare-alert-system/services/healthLogicService.ts:48 | a ratio above 0.5 means strictly more than half |
| ClientHealthLogic.SleepInsightIff | personalized-healthcare-alert-system/services/healthLogicService.ts:28-40 | the sleep insight appears exactly with ≥3 positive in-window readings, a target, and sum < target × count; it cites the first three |
| ClientHealthLogic.GlucoseInsightIff | personalized-healthcare-alert-system/services/healthLogicService.ts:44-56 | the glucose insight appears exactly with >5 in-window readings, a band, and more than half in (0.9·high, 1.1·high]; it cites the first three of those |
| ClientHealthLogic.ActivityInsightIff | personalized-healthcare-alert-system/services/healthLogicService.ts:60-72 | the activity insight appears exactly with ≥3 in-window readings, a target, and at least two below it; it cites the first two of those |
| ClientHealthLogic.SleepInsightCites | personalized-healthcare-alert-system/services/healthLogicService.ts:33-39 | a sleep insight is an INFO insight stamped now that cites only in-window sleep readings of the stream |
| ClientHealthLogic.GlucoseInsightCites | personalized-healthcare-alert-system/services/healthLogicService.ts:49-55 | a glucose insight is an INFO insight stamped now that cites only in-window glucose readings of the stream |
| ClientHealthLogic.ActivityInsightCites | personalized-healthcare-alert-system/services/healthLogicService.ts:65-71 | an activity insight is an INFO insight stamped now that cites only in-window activity readings of the stream |
| ClientHealthLogic.InsightsShape | personalized-healthcare-alert-system/services/healthLogicService.ts:24-74 | at most three insights, each an INFO insight stamped now citing its own metric, in the order sleep, glucose, activity |
| ClientHealthLogic.InsightsStampedNow | personalized-healthcare-alert-system/services/healthLogicService.ts:38 | every insight of a run carries the run's timestamp |
| ClientHealthLogic.InsightsUseWindowOnly | personalized-healthcare-alert-system/services/healthLogicService.ts:25-60 | readings older than three days make no difference to the insights |
| ClientHealthLogic.LatestDataByType | personalized-healthcare-alert-system/services/healthLogicService.ts:101-106 | a metric has an entry exactly when the stream has a reading of it; the entry has the largest timestamp of its metric, and is the earliest such on a tie |
| ClientHealthLogic.LatestUnique | personalized-healthcare-alert-system/services/healthLogicService.ts:103 | the strict `>` makes the latest reading of a metric a single position |
| ClientHealthLogic.SortOrder | personalized-healthcare-alert-system/services/healthLogicService.ts:137 | the comparator's rank is the reverse of the severity order |
| ClientHealthLogic.SortBySeverity | personalized-healthcare-alert-system/services/healthLogicService.ts:136-139 | the sorted list is a permutation of its input, with ESCALATION first and NONE last |
| ClientHealthLogic.AssessOverallRisk | personalized-healthcare-alert-system/services/healthLogicService.ts:89-142 | the overall assessment always returns an empty list, because its only rule is disabled |
| Lists.SortDesc | personalized-healthcare-alert-system/components/RecentActivityFeed.tsx:70 | the sort by `b.timestamp - a.timestamp` returns a permutation of its input, in non-increasing key order |
| Lists.TopByKey | personalized-healthcare-alert-system/App.tsx:85 | sort-then-slice keeps min(n, size) items, newest first, drawn from the input; no item left out is newer than an item kept |
| App.PrependCapped | personalized-healthcare-alert-system/App.tsx:91-94 | the new item comes first, the earlier order is kept, and only the oldest items beyond the cap are dropped |
| App.OriginalLevel | personalized-healthcare-alert-system/App.tsx:131-136 | the original level differs from the level only when MILD becomes ESCALATION; it is ESCALATION exactly for an escalation or for a MILD message containing the downgrade marker |
| App.NewAlert | personalized-healthcare-alert-system/App.tsx:115-133 | an alert is built exactly when the request succeeded and the level is not NONE |
| App.MergeAlertRules | personalized-healthcare-alert-system/App.tsx:138-152 | the list stays within 50; a non-escalation, non-insight candidate with a recent similar live alert leaves it unchanged; otherwise the candidate leads and the earlier alerts follow in order, oldest dropped |
| App.InsightAlerts | personalized-healthcare-alert-system/App.tsx:204-213 | one alert per insight, each an undismissed INFO insight with the insight's message and timestamp |
| App.MergeInsightsRules | personalized-healthcare-alert-system/App.tsx:215-221 | the list stays within 50; if no insight is new the list is unchanged; otherwise the new ones lead in order, followed by the earlier alerts, and every alert kept is old or a fresh insight |
| App.MergeInsightsIdempotent | personalized-healthcare-alert-system/App.tsx:215-221 | merging again, at the same moment, insights that repeat the texts just merged adds nothing, provided the first batch fits beside the earlier alerts under the cap of 50 |
| App.CapCanReadmitInsight | personalized-healthcare-alert-system/App.tsx:215-221 | without that room a repeat gets through: a full list whose oldest alert is the only recent insight with a text loses it to the cut, and merging that text again puts it at the head |
| App.SameBatchSameTexts | personalized-healthcare-alert-system/App.tsx:204-213 | the alerts of one batch, under any ids, are insights stamped with the batch time and raise the same texts |
| App.RepeatedCheckAddsNothing | personalized-healthcare-alert-system/App.tsx:199-224 | a second periodic check over the same readings at the same moment leaves the alerts as the first left them, provided the first check's unique insights fit beside the earlier alerts under the cap of 50 |
| App.DismissRules | personalized-healthcare-alert-system/App.tsx:294-298 | dismissal keeps the length, leaves other alerts unchanged, marks the targeted ones dismissed with the feedback, and is idempotent |
| App.DismissedLeaveActiveView | personalized-healthcare-alert-system/App.tsx:294-305 | after a dismissal the active view is the earlier active alerts minus those with the id; the insight count is unchanged |
| App.InsightCountKept | personalized-healthcare-alert-system/App.tsx:305 | an update that keeps the insight flag keeps the number of insights |
| App.ViewsPartition | personalized-healthcare-alert-system/App.tsx:304-305 | an alert is active exactly when it is neither dismissed nor an insight, in the insight view exactly when it is an insight, and never in both views |
| App.NewestInWindow | personalized-healthcare-alert-system/App.tsx:83-86 | filter, sort and slice keep at most n logs that pass the window, newest first; none passing but left out is newer than one kept |
| App.LogsForAssessmentRules | personalized-healthcare-alert-system/App.tsx:83-86 | the selection as of a given time: at most 10 logs of the 6 hours before it, newest first; none left out of that window is newer than one kept |
| App.LogsForExplanationRules | personalized-healthcare-alert-system/App.tsx:270-272 | the logs sent for an explanation are at most 5 from the 6 hours up to the alert, newest first; none left out of that window is newer |
| App.MarkerIsDowngradeHeadline | personalized-healthcare-alert-system/App.tsx:134 | the dashboard's marker is the headline of the server's downgrade note |
| App.DowngradedMessageCarriesMarker | personalized-healthcare-alert-system/App.tsx:134 | every downgraded message contains the marker |
| App.OriginalLevelIsRawLevel | personalized-healthcare-alert-system/App.tsx:131-136 | for any alert-raising assessment, the original level the dashboard recovers equals the evaluator's raw level |
| App.CitedMoodIsMostRecent | personalized-healthcare-alert-system/server/src/services/mongoService.ts:110-114 | correlating the stored logs of the last 6 hours, newest first, at most 10, the mood cited for heart rate is the most recent qualifying one among them |
| App.ErrorText | personalized-healthcare-alert-system/App.tsx:156 | the reported error is the exception's message when non-empty, otherwise the fallback text |
| App.FindAlert | personalized-healthcare-alert-system/App.tsx:263 | nothing is found exactly when no alert has the id; otherwise the first alert with the id |
| App.Dashboard.constructor | personalized-healthcare-alert-system/App.tsx:54-64 | the user and logs are restored from storage when present, else the initial user and no logs; the log selection is taken as of the mount; no readings, alerts, dialog or error |
| App.Dashboard.AddHealthDataPoint | personalized-healthcare-alert-system/App.tsx:89-159 | the reading heads the capped stream; the request carries the logs selected as of the last change of the log list (the memo of lines 83-86), not as of the reading; a non-NONE assessment is merged by the dedup rule; a failure changes no alert and is reported |
| App.Dashboard.AddBehavioralLog | personalized-healthcare-alert-system/App.tsx:161-197 | the log, stamped with its id and now, heads the list capped at 100, so the log selection is taken again as of now; a failure is reported; nothing else changes |
| App.Dashboard.CheckInsights | personalized-healthcare-alert-system/App.tsx:199-227 | the alerts become the insight merge of the current insights; nothing else changes |
| App.Dashboard.DismissAlert | personalized-healthcare-alert-system/App.tsx:294-298 | the alerts become their dismissal by id with the feedback; nothing else changes |
| App.Dashboard.RequestExplanation | personalized-healthcare-alert-system/App.tsx:262-292 | an alert without explanation that is not an insight is shown, marked requested and sent with its logs; one with an explanation is just shown; otherwise nothing changes |
| App.Dashboard.FinishExplanation | personalized-healthcare-alert-system/App.tsx:274-291 | the alert and an open dialog for it carry the text or "Error: …", no longer requested; loading stops; a failure is reported |
| App.Dashboard.CloseExplanation | personalized-healthcare-alert-system/App.tsx:300 | the dialog closes and nothing else changes |
| App.Dashboard.UpdateThresholds | personalized-healthcare-alert-system/App.tsx:301 | only the user's bands are replaced |
| App.Dashboard.UpdateAutoEscalation | personalized-healthcare-alert-system/App.tsx:302 | only the user's escalation preference is replaced |
| HealthDataDisplay.StatusRules | personalized-healthcare-alert-system/components/HealthDataDisplay.tsx:35-62 | gray exactly with no value or band; for a range, red exactly outside it, yellow inside within 10% of an edge, else green; for a floor, red below it, yellow below 1.1·low, else green |
| HealthDataDisplay.RedMatchesServerAlert | personalized-healthcare-alert-system/components/HealthDataDisplay.tsx:39-42 | for heart rate and glucose the card is red exactly when the server raises an alert |
| HealthDataDisplay.Spo2CeilingOnlyOnCard | personalized-healthcare-alert-system/components/HealthDataDisplay.tsx:39 | an SpO2 reading above its ceiling shows red on the card while the server raises nothing |
| HealthDataDisplay.SleepCardAndServer | personalized-healthcare-alert-system/components/HealthDataDisplay.tsx:50-60 | sleep is red exactly below its floor; the server's INFO is exactly red with a positive value |
| HealthDataDisplay.DisplayUnit | personalized-healthcare-alert-system/components/HealthDataDisplay.tsx:33 | the unit is the reading's own when non-empty, else the metric's configured unit, and never empty |
| HealthDataDisplay.RoundToTenth | personalized-healthcare-alert-system/components/HealthDataDisplay.tsx:81 | the shown value is a whole number of tenths within half a tenth of the reading, which fixes it as the nearest tenth, halves rounded up |
| HealthDataDisplay.TargetTextCites | personalized-healthcare-alert-system/components/HealthDataDisplay.tsx:86-90 | the target line starts "Target: ", names the floor and the unit, shows a range as "low-high", and marks a floor band with ">" |
| CurrentVitals.DisplayOrderListsEachMetricOnce | personalized-healthcare-alert-system/components/CurrentVitals.tsx:22-28 | the display order lists each of the five metrics exactly once |
| CurrentVitals.DisplayLarge | personalized-healthcare-alert-system/components/CurrentVitals.tsx:40 | a card is large exactly when its metric is one of the first two in the display order, the heart-rate and glucose cards that lead the panel |
| CurrentVitals.Cards | personalized-healthcare-alert-system/components/CurrentVitals.tsx:13-42 | one card per metric in display order, with its band and size; it holds a reading exactly when the stream has one of its metric, and then the latest of that metric |
| RecentActivityFeed.Items | personalized-healthcare-alert-system/components/RecentActivityFeed.tsx:66-69 | the tagged list holds exactly the readings, alerts and logs, each tagged with its source list |
| RecentActivityFeed.CombinedFeedRules | personalized-healthcare-alert-system/components/RecentActivityFeed.tsx:66-70 | the feed has min(30, total) items, newest first, drawn from the inputs; no item left out is newer than one shown |
| RecentActivityFeed.FeedItemsComeFromInputs | personalized-healthcare-alert-system/components/RecentActivityFeed.tsx:66-69 | each feed item is a reading, an alert or a log of the inputs, tagged by its list |
| RecentActivityFeed.KeysIdentifyItems | personalized-healthcare-alert-system/components/RecentActivityFeed.tsx:67-69 | two items with the same key have the same tag and the same id |
| RecentActivityFeed.KindLeadsDiffer | personalized-healthcare-alert-system/components/RecentActivityFeed.tsx:55-57 | the three labels "Logged Diet: ", "Logged Mood: " and "Logged Activity: " cannot both start one text |
| RecentActivityFeed.FormatRevealsKind | personalized-healthcare-alert-system/components/RecentActivityFeed.tsx:53-63 | a log's text starts with the label of its own kind and of no other |
| RecentActivityFeed.FormatQuotesNotes | personalized-healthcare-alert-system/components/RecentActivityFeed.tsx:55-57 | the text ends with " - Notes: " and the notes exactly when notes are present; otherwise it is the headline alone |
| RecentActivityFeed.FormatNamesChoice | personalized-healthcare-alert-system/components/RecentActivityFeed.tsx:55-57 | a meal's text names the diet and quotes " (details)" when present; a mood's text names the mood; an activity's text names the activity and " for <minutes> mins" |
| RecentActivityFeed.InsightIconFirst | personalized-healthcare-alert-system/components/RecentActivityFeed.tsx:12-51 | the lightbulb marks exactly the insight alerts; another alert about heart rate, glucose or SpO2 shows that metric's icon before any level check; otherwise warning exactly for MILD, danger exactly for ESCALATION, info for INFO and NONE; a reading shows its metric's icon, a log its kind's |

## Left out

- HTTP routes, MongoDB access, the ML service client and the explanation text service are not part of this model. Their results enter as `Outcome` parameters.
- The Python ML service, the data simulator and the auto-simulation effect are random number generators and are not modelled.
- The `setInterval` timers, the `localStorage` load and save, and id generation from the clock and `Math.random` are not modelled. Ids and `now` are parameters, and the values restored from storage are constructor parameters.
- Number-to-text formatting is the `NumberFormat` parameter, not JavaScript's algorithm.
- The UI toggles (`showSettings`, `showLogForm`, `isAutoSimulating`) and all rendering are not modelled, apart from the status, unit, rounding, target line, feed text and icon.
- NaN and non-numeric values are not modelled; readings are exact reals.
- Floating-point rounding is not modelled. The 1.1 and 0.9 factors and the insight mean are exact rational arithmetic.
- The `isHealthDataPoint` and `isBehavioralLog` guards are not modelled. The types already separate readings from logs, so triggering data is a sequence of readings.
- The `_id` and `userId` storage fields of readings and logs are not modelled.
- The route's once-a-day replacement of the heart-rate and glucose bands by the personalisation service is not modelled (`server/src/server.ts:72-101`). The server logic reads `thresholds` and `allowAutoEscalation` from the user passed in.
- HealthDataDisplay.RedMatchesServerAlert: assumes the server judges the reading against the same bands the dashboard shows, which the personalised bands can break until the dashboard's user is replaced.
- The `recentBehavioralLogs` field of the reading request is ignored by the route (`server/src/server.ts:61`), which correlates the logs it reads from the store instead. A log whose save failed is shown on the dashboard but never correlated. `App.Dashboard.AddHealthDataPoint` still returns what the dashboard sends.
- App.Dashboard.FinishExplanation: the `Failure` outcome over-approximates. The client explanation service turns every failure into returned text (`services/geminiService.ts:13-34`), so the error branch of `App.tsx:279-284` is not reached in the source.
- React's asynchronous state updates are not modelled. Each handler is one atomic step on `Dashboard`, and the await between request and response is split into `RequestExplanation` and `FinishExplanation`.
- App.OriginalLevelIsRawLevel: holds only for number formats that never print a capital E, which JavaScript's number-to-text conversion satisfies. The model does not derive that from JavaScript's algorithm.
- App.MergeInsightsIdempotent: stated only when the first batch's unique insights and the earlier alerts together fit under the cap of 50. The unique insights always lead and are never cut, but the cut to 50 can drop an older recent insight that was holding back a repeat, and the repeat then gets through (`App.CapCanReadmitInsight`).
- App.RepeatedCheckAddsNothing: carries the same condition, that the first check's unique insights fit beside the earlier alerts under the cap of 50, for the same reason. On a full list a second check can raise an insight text again.
- Lists.SortDesc: proved a sorted permutation; the stability of the insertion sort (equal timestamps keep input order, as `Array.prototype.sort` does) is not stated.
- RecentActivityFeed.CombinedFeedRules: the feed's row text for readings and alerts (`name: value unit`, `level Alert: message`) and the time of day are not modelled. Only the behavioural-log text is modelled.
- ClientHealthLogic.AssessOverallRisk: its disabled combined rule (commented out in the source) is not modelled.
