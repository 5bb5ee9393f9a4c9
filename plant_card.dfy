/**
 * The decisions of a plant's dashboard card (client/src/components/PlantCard.tsx): the
 * moisture status against the active band, the "last watered" label and the seasonal
 * indicator. The current month and `Date.now()` are parameters.
 */
module PlantCard {
  import opened Wrappers
  import opened Text
  import opened Arith
  import opened Schema
  import opened SeasonalUtils

  datatype PlantStatus = Critical | Warning | Overwatered | Healthy

  /** `getStatus()` for a reading against a band. */
  function GetStatus(moisture: real, moistureMin: int, moistureMax: int): (s: PlantStatus)
    ensures s == Critical <==> moisture < moistureMin as real
    ensures s == Warning <==> moistureMin as real <= moisture < (moistureMin + 10) as real
    ensures s == Overwatered <==> moisture >= (moistureMin + 10) as real && moisture > moistureMax as real
    ensures s == Healthy <==> moisture >= (moistureMin + 10) as real && moisture <= moistureMax as real
  {
    if moisture < moistureMin as real then Critical
    else if moisture < (moistureMin + 10) as real then Warning
    else if moisture > moistureMax as real then Overwatered
    else Healthy
  }

  /** The card's status: `getStatus()` against `getActiveThresholds(profile)`. */
  function CardStatus(profile: PlantProfile, moisture: real, month: int): PlantStatus {
    var t := GetActiveThresholds(profile, month);
    GetStatus(moisture, t.moistureMin, t.moistureMax)
  }

  /**
   * The card is classified against the seasonal override of the current season when the
   * schedule holds one, and against the profile's own band otherwise.
   */
  lemma CardStatusUsesActiveBand(profile: PlantProfile, moisture: real, month: int)
    ensures var o := OverrideFor(profile, CurrentSeason(month));
      CardStatus(profile, moisture, month)
        == if profile.useSeasonalSchedule && o.Some? then GetStatus(moisture, o.value.moistureMin, o.value.moistureMax)
           else GetStatus(moisture, profile.moistureMin, profile.moistureMax)
  {
    AdjustedMeansOverrideApplied(profile, month);
  }

  /** Against the default band 30..70: 20 is critical, 35 low, 50 healthy and 75 too wet. */
  lemma DefaultBandExamples()
    ensures GetStatus(20.0, 30, 70) == Critical
    ensures GetStatus(35.0, 30, 70) == Warning
    ensures GetStatus(50.0, 30, 70) == Healthy
    ensures GetStatus(75.0, 30, 70) == Overwatered
  {
  }

  /** A band narrower than 10 has no healthy readings: warning gives way to overwatered. */
  lemma NarrowBandNeverHealthy(moisture: real, moistureMin: int, moistureMax: int)
    requires moistureMax < moistureMin + 10
    ensures GetStatus(moisture, moistureMin, moistureMax) != Healthy
  {
  }

  /** The badge label of each status. */
  function StatusLabel(s: PlantStatus): (text: string)
    ensures |text| > 0
  {
    match s
    case Healthy => "Optimal"
    case Warning => "Niedrig"
    case Critical => "Kritisch"
    case Overwatered => "Zu feucht"
  }

  /** The status dot colour (`statusColors[status]`). */
  function StatusColor(s: PlantStatus): string {
    match s
    case Healthy => "bg-primary"
    case Warning => "bg-chart-2"
    case Critical => "bg-destructive"
    case Overwatered => "bg-chart-3"
  }

  /** `getProgressColor()`, written as its own if-chain on the status. */
  function ProgressColor(s: PlantStatus): string {
    if s == Critical then "bg-destructive"
    else if s == Warning then "bg-chart-2"
    else if s == Overwatered then "bg-chart-3"
    else "bg-primary"
  }

  /** The progress bar and the status dot always agree in colour, and labels are distinct. */
  lemma {:induction false} ColorsAndLabelsAgree(s: PlantStatus, t: PlantStatus)
    ensures ProgressColor(s) == StatusColor(s)
    ensures StatusLabel(s) == StatusLabel(t) ==> s == t
  {
    if StatusLabel(s) == StatusLabel(t) {
      assert StatusLabel(s)[0] == StatusLabel(t)[0];
    }
  }

  // ===== formatLastWatered =====

  const MillisPerMinute: int := 60000

  /** The age categories `formatLastWatered` distinguishes. */
  datatype LastWatered = Never | DaysAgo(days: int) | HoursAgo(hours: int) | MinutesAgo(minutes: int) | JustNow

  /**
   * `formatLastWatered(timestamp)` before rendering: `!timestamp` (absent or 0) is "never";
   * otherwise whole minutes, hours and days of `now - timestamp`, each `Math.floor`ed.
   */
  function LastWateredAge(timestamp: Option<int>, now: int): LastWatered {
    if timestamp.None? || timestamp.value == 0 then Never
    else
      var diff := now - timestamp.value;
      var minutes := diff / MillisPerMinute;
      var hours := minutes / 60;
      var days := hours / 24;
      if days > 0 then DaysAgo(days)
      else if hours > 0 then HoursAgo(hours)
      else if minutes > 0 then MinutesAgo(minutes)
      else JustNow
  }

  /** The label text. */
  function RenderLastWatered(a: LastWatered): string {
    match a
    case Never => "Nie"
    case DaysAgo(d) => "vor " + DecimalString(if d < 0 then 0 else d) + "d"
    case HoursAgo(h) => "vor " + DecimalString(if h < 0 then 0 else h) + "h"
    case MinutesAgo(m) => "vor " + DecimalString(if m < 0 then 0 else m) + "m"
    case JustNow => "Gerade eben"
  }

  function FormatLastWatered(timestamp: Option<int>, now: int): string {
    RenderLastWatered(LastWateredAge(timestamp, now))
  }

  /**
   * The category is decided by the elapsed milliseconds alone: at least a day gives whole
   * days, at least an hour whole hours (1..23), at least a minute whole minutes (1..59), and
   * anything shorter, or a timestamp in the future, "just now".
   */
  lemma LastWateredByElapsed(timestamp: int, now: int)
    requires timestamp != 0
    ensures var diff := now - timestamp;
      var a := LastWateredAge(Some(timestamp), now);
      (diff >= 86400000 ==> a == DaysAgo(diff / 86400000))
      && (3600000 <= diff < 86400000 ==> a == HoursAgo(diff / 3600000) && 1 <= a.hours <= 23)
      && (60000 <= diff < 3600000 ==> a == MinutesAgo(diff / 60000) && 1 <= a.minutes <= 59)
      && (diff < 60000 ==> a == JustNow)
  {
    var diff := now - timestamp;
    NestedDiv(diff, 60000, 60);
    NestedDiv(diff, 3600000, 24);
    var minutes := diff / 60000;
    var hours := minutes / 60;
    assert hours == diff / 3600000;
    assert hours / 24 == diff / 86400000;
    if diff >= 86400000 {
      DivUnique(diff, 86400000, diff / 86400000, diff % 86400000);
    } else if diff >= 3600000 {
      DivUnique(diff, 86400000, 0, diff);
      DivMonotoneBelow(diff, 3600000, 24);
    } else if diff >= 60000 {
      DivUnique(diff, 3600000, 0, diff);
      DivMonotoneBelow(diff, 60000, 60);
    } else if diff >= 0 {
      DivUnique(diff, 60000, 0, diff);
    } else {
      DivNegative(diff, 60000);
    }
  }

  /** `a < d * k` gives `a / d < k`, and `d <= a` gives `a / d >= 1`. */
  lemma DivMonotoneBelow(a: int, d: int, k: int)
    requires d > 0 && k > 0 && d <= a < d * k
    ensures 1 <= a / d < k
  {
    var q, r := a / d, a % d;
    if q >= k {
      MulMonotone(d, k, q);
    } else if q < 1 {
      MulMonotone(d, q, 0);
    }
  }

  lemma DivNegative(a: int, d: int)
    requires d > 0 && a < 0
    ensures a / d < 0
  {
    var q, r := a / d, a % d;
    if q >= 0 {
      MulMonotone(d, 0, q);
    }
  }

  /** "Nie" is shown exactly for an absent or zero timestamp. */
  lemma NeverIffNoTimestamp(timestamp: Option<int>, now: int)
    ensures FormatLastWatered(timestamp, now) == "Nie" <==> timestamp.None? || timestamp.value == 0
  {
    var a := LastWateredAge(timestamp, now);
    if a != Never {
      var r := RenderLastWatered(a);
      assert r[0] != 'N';
    }
  }

  /** Two and a half hours ago reads "vor 2h"; ninety seconds ago reads "vor 1m". */
  lemma LastWateredExamples()
    ensures FormatLastWatered(Some(1000), 1000 + 9000000) == "vor 2h"
    ensures FormatLastWatered(Some(1000), 1000 + 90000) == "vor 1m"
    ensures FormatLastWatered(Some(1000), 1000 + 30000) == "Gerade eben"
  {
    assert DecimalString(2) == "2" && DecimalString(1) == "1";
  }

  // ===== The seasonal indicator =====

  /** `activeThresholds.isSeasonallyAdjusted && activeThresholds.season`. */
  function SeasonalIndicator(profile: PlantProfile, month: int): (r: Option<string>) {
    var t := GetActiveThresholds(profile, month);
    if t.isSeasonallyAdjusted && t.season.Some? then Some(SeasonNameDE(t.season.value) + " Modus") else None
  }

  /**
   * The indicator appears exactly when the schedule is on and holds an override for the
   * current season, and then it names the current season.
   */
  lemma IndicatorIffOverride(profile: PlantProfile, month: int)
    ensures SeasonalIndicator(profile, month).Some?
        <==> profile.useSeasonalSchedule && OverrideFor(profile, CurrentSeason(month)).Some?
    ensures SeasonalIndicator(profile, month).Some? ==>
      SeasonalIndicator(profile, month).value == SeasonNameDE(CurrentSeason(month)) + " Modus"
  {
    AdjustedMeansOverrideApplied(profile, month);
  }

  /** A disabled profile renders no card at all; an enabled one shows its card status. */
  function RenderedStatus(profile: PlantProfile, moisture: real, month: int): (r: Option<PlantStatus>)
    ensures r.Some? <==> profile.enabled
    ensures r.Some? ==> r.value == CardStatus(profile, moisture, month)
  {
    if !profile.enabled then None else Some(CardStatus(profile, moisture, month))
  }
}
