/** The vital-sign card: the colour its reading is shown in against the
    user's band, the unit it prints, the rounded value and the target line. */
module HealthDataDisplay {
  import opened HealthTypes
  import Text
  import Lists
  import ServerHealthLogic

  /** The card's status colour: gray (nothing to judge), red, yellow, green. */
  datatype Status = Gray | Red | Yellow | Green

  /** The status of a value against a band. A band with a ceiling is judged
      as a range, whatever its metric; a floor-only band by its floor. */
  function StatusOf(value: Option<real>, band: Option<Band>): Status
  {
    if value.None? || band.None? then Gray
    else
      var v := value.value;
      match band.value
      case Range(low, high) =>
        if v < low || v > high then Red
        else if v < low * 1.1 || v > high * 0.9 then Yellow
        else Green
      case Floor(low) =>
        if v < low then Red
        else if v < low * 1.1 then Yellow
        else Green
  }

  /** Gray exactly when there is no value or no band; otherwise red exactly
      outside the band, yellow inside it but within ten per cent of an edge,
      green elsewhere. */
  lemma StatusRules(value: Option<real>, band: Option<Band>)
    ensures StatusOf(value, band) == Gray <==> value.None? || band.None?
    ensures value.Some? && band.Some? && band.value.Range? ==>
      var v := value.value;
      var b := band.value;
      && (StatusOf(value, band) == Red <==> v < b.low || v > b.high)
      && (StatusOf(value, band) == Yellow <==> b.low <= v <= b.high && (v < b.low * 1.1 || v > b.high * 0.9))
      && (StatusOf(value, band) == Green <==> b.low * 1.1 <= v <= b.high * 0.9 && b.low <= v <= b.high)
    ensures value.Some? && band.Some? && band.value.Floor? ==>
      var v := value.value;
      var b := band.value;
      && (StatusOf(value, band) == Red <==> v < b.low)
      && (StatusOf(value, band) == Yellow <==> b.low <= v < b.low * 1.1)
      && (StatusOf(value, band) == Green <==> v >= b.low * 1.1 && v >= b.low)
  {
  }

  /** The card and the server agree on heart rate and glucose: the card is
      red exactly when the server raises an alert for the reading. */
  lemma RedMatchesServerAlert(th: UserThresholds, p: HealthDataPoint)
    requires p.metric == HEART_RATE || p.metric == GLUCOSE
    ensures StatusOf(Some(p.value), BandOf(th, p.metric)) == Red <==> ServerHealthLogic.RawLevel(th, p) != NONE
  {
  }

  /** For SpO2 the card judges the ceiling too while the server does not: a
      reading above the band shows red and raises nothing. */
  lemma Spo2CeilingOnlyOnCard(th: UserThresholds, p: HealthDataPoint)
    requires p.metric == SPO2 && th.spo2.Some? && p.value > th.spo2.value.high
    requires th.spo2.value.low <= th.spo2.value.high
    ensures StatusOf(Some(p.value), BandOf(th, p.metric)) == Red
    ensures ServerHealthLogic.RawLevel(th, p) == NONE
  {
  }

  /** For sleep the card is red below the floor, including a zero reading for
      which the server raises nothing; a positive reading below the floor is
      red on the card and an insight on the server. */
  lemma SleepCardAndServer(th: UserThresholds, p: HealthDataPoint)
    requires p.metric == SLEEP_HOURS && th.sleepHours.Some?
    ensures StatusOf(Some(p.value), BandOf(th, p.metric)) == Red <==> p.value < th.sleepHours.value.low
    ensures ServerHealthLogic.RawLevel(th, p) == INFO <==> StatusOf(Some(p.value), BandOf(th, p.metric)) == Red && p.value > 0.0
  {
  }

  /** The unit shown: the reading's own when it has a non-empty one, else the
      metric's configured unit. */
  function DisplayUnit(reading: Option<HealthDataPoint>, t: MetricType): (u: string)
    ensures u != ""
    ensures reading.Some? && reading.value.unit != "" ==> u == reading.value.unit
    ensures (reading.None? || reading.value.unit == "") ==> u == MetricUnit(t)
  {
    if reading.Some? && reading.value.unit != "" then reading.value.unit else MetricUnit(t)
  }

  /** `Math.round(value * 10) / 10`; `Math.round` rounds halves up. The
      result is a whole number of tenths, the nearest one to `v`. */
  function RoundToTenth(v: real): (r: real)
    ensures (r * 10.0).Floor as real == r * 10.0
    ensures v - 0.05 < r <= v + 0.05
  {
    var n := (v * 10.0 + 0.5).Floor;
    assert n as real <= v * 10.0 + 0.5 < n as real + 1.0;
    n as real / 10.0
  }

  /** The fixed parts of the target line. */
  const TARGET_LEAD: string := "Target: "
  const TARGET_FLOOR_MARK: string := ">"

  /** The target line of a large card. */
  function TargetText(band: Band, unit: string, fmt: NumberFormat): string
  {
    match band
    case Range(low, high) => TARGET_LEAD + fmt.plain(low) + "-" + fmt.plain(high) + " " + unit
    case Floor(low) => TARGET_LEAD + TARGET_FLOOR_MARK + fmt.plain(low) + " " + unit
  }

  /** The target line names the band's floor and the unit, and a floor-only
      band is marked with `>`. */
  lemma TargetTextCites(band: Band, unit: string, fmt: NumberFormat)
    ensures var text := TargetText(band, unit, fmt);
      && Text.StartsWith(text, TARGET_LEAD)
      && Text.Contains(text, fmt.plain(band.low))
      && Text.Contains(text, unit)
      && (band.Range? ==> Text.Contains(text, fmt.plain(band.low) + "-" + fmt.plain(band.high)))
      && (band.Floor? ==> Text.StartsWith(text, TARGET_LEAD + TARGET_FLOOR_MARK))
  {
    var text := TargetText(band, unit, fmt);
    match band {
      case Range(low, high) =>
        var rest := "-" + fmt.plain(high) + " " + unit;
        assert text == TARGET_LEAD + fmt.plain(low) + rest;
        Text.ContainsMiddle(TARGET_LEAD, fmt.plain(low), rest);
        assert text == (TARGET_LEAD + fmt.plain(low) + "-" + fmt.plain(high) + " ") + unit + "";
        Text.ContainsMiddle(TARGET_LEAD + fmt.plain(low) + "-" + fmt.plain(high) + " ", unit, "");
        assert text == TARGET_LEAD + (fmt.plain(low) + "-" + fmt.plain(high)) + (" " + unit) by {
          Lists.ConcatAssoc(TARGET_LEAD, fmt.plain(low), "-", fmt.plain(high));
        }
        Text.ContainsMiddle(TARGET_LEAD, fmt.plain(low) + "-" + fmt.plain(high), " " + unit);
        assert text[..|TARGET_LEAD|] == TARGET_LEAD;
      case Floor(low) =>
        var rest := " " + unit;
        assert text == (TARGET_LEAD + TARGET_FLOOR_MARK) + fmt.plain(low) + rest;
        Text.ContainsMiddle(TARGET_LEAD + TARGET_FLOOR_MARK, fmt.plain(low), rest);
        assert text == (TARGET_LEAD + TARGET_FLOOR_MARK + fmt.plain(low) + " ") + unit + "";
        Text.ContainsMiddle(TARGET_LEAD + TARGET_FLOOR_MARK + fmt.plain(low) + " ", unit, "");
        assert text[..|TARGET_LEAD + TARGET_FLOOR_MARK|] == TARGET_LEAD + TARGET_FLOOR_MARK;
        assert text[..|TARGET_LEAD|] == TARGET_LEAD;
    }
  }
}
