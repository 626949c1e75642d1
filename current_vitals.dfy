/** The current-vitals panel: one card per metric in a fixed order, showing
    the latest reading of that metric against the user's band. */
module CurrentVitals {
  import opened HealthTypes
  import ClientHealthLogic
  import HealthDataDisplay

  /** The order the cards are laid out in. */
  const DisplayOrder: seq<MetricType> := [HEART_RATE, GLUCOSE, SPO2, SLEEP_HOURS, ACTIVITY_MINUTES]

  /** Every metric has a card, and no metric has two. */
  lemma DisplayOrderListsEachMetricOnce()
    ensures |DisplayOrder| == 5
    ensures forall t: MetricType :: t in DisplayOrder
    ensures forall i, j :: 0 <= i < j < |DisplayOrder| ==> DisplayOrder[i] != DisplayOrder[j]
  {
    assert DisplayOrder == AllMetrics;
    AllMetricsExactlyOnce();
  }

  /** Heart rate and glucose get the large card with the target line; they
      are the two cards that lead the panel. */
  function DisplayLarge(t: MetricType): (large: bool)
    ensures large <==> exists k :: 0 <= k < 2 && DisplayOrder[k] == t
  {
    assert DisplayOrder[0] == HEART_RATE && DisplayOrder[1] == GLUCOSE;
    t == HEART_RATE || t == GLUCOSE
  }

  /** What one card is given: its metric, the latest reading if any, the band
      and the size. */
  datatype VitalCard = VitalCard(metric: MetricType, reading: Option<HealthDataPoint>, band: Option<Band>, large: bool)
  {
    /** The colour the card shows. */
    function Status(): HealthDataDisplay.Status
    {
      HealthDataDisplay.StatusOf(if reading.Some? then Some(reading.value.value) else None, band)
    }
  }

  /** The panel: the latest reading of each metric, folded over the stream as
      the overall assessment does, then one card per metric in display order.
      A card holds a reading exactly when the stream has one of its metric,
      and then it is the newest of that metric (the first such on a tie). */
  method Cards(stream: seq<HealthDataPoint>, user: UserData) returns (cards: seq<VitalCard>)
    ensures |cards| == |DisplayOrder|
    ensures forall k :: 0 <= k < |cards| ==>
      && cards[k].metric == DisplayOrder[k]
      && cards[k].band == BandOf(user.thresholds, DisplayOrder[k])
      && (cards[k].large <==> DisplayOrder[k] in {HEART_RATE, GLUCOSE})
      && (cards[k].reading.Some? <==> exists i :: 0 <= i < |stream| && stream[i].metric == DisplayOrder[k])
      && (cards[k].reading.Some? ==>
            exists i :: ClientHealthLogic.LatestAt(stream, DisplayOrder[k], i) && cards[k].reading.value == stream[i])
  {
    var latestData := ClientHealthLogic.LatestDataByType(stream);
    cards := seq(|DisplayOrder|, k requires 0 <= k < |DisplayOrder| =>
      var t := DisplayOrder[k];
      VitalCard(t, if t in latestData then Some(latestData[t]) else None, BandOf(user.thresholds, t), DisplayLarge(t)));
  }
}
