/**
 * Seasonal threshold resolution (client/src/lib/seasonalUtils.ts): the season of a
 * month, its German name, and the moisture band that currently governs a plant.
 * The wall-clock month is a parameter: `month` is `date.getMonth() + 1`.
 */
module SeasonalUtils {
  import opened Wrappers
  import opened Schema

  /** The season of a 1-based month, Northern-Hemisphere convention. */
  function CurrentSeason(month: int): (s: Season)
    ensures 3 <= month <= 5 <==> s == Spring
    ensures 6 <= month <= 8 <==> s == Summer
    ensures 9 <= month <= 11 <==> s == Fall
    ensures s == Winter <==> !(3 <= month <= 11)
  {
    if 3 <= month <= 5 then Spring
    else if 6 <= month <= 8 then Summer
    else if 9 <= month <= 11 then Fall
    else Winter
  }

  /** The months of a season, as the doc comment of `getCurrentSeason` lists them. */
  function MonthsOf(s: Season): set<int> {
    match s
    case Spring => {3, 4, 5}
    case Summer => {6, 7, 8}
    case Fall => {9, 10, 11}
    case Winter => {12, 1, 2}
  }

  /** Every calendar month belongs to exactly one season, and that season is `CurrentSeason`. */
  lemma EveryMonthHasOneSeason(month: int)
    requires 1 <= month <= 12
    ensures month in MonthsOf(CurrentSeason(month))
    ensures forall s: Season :: month in MonthsOf(s) ==> s == CurrentSeason(month)
  {
  }

  /** The season of a JavaScript month index (`getMonth()` returns 0..11). */
  function SeasonOfMonthIndex(monthIndex: int): (s: Season)
    requires 0 <= monthIndex < 12
    ensures monthIndex + 1 in MonthsOf(s)
  {
    CurrentSeason(monthIndex + 1)
  }

  /**
   * The German display name of a season, as the literals are stored: the spring name holds
   * "√º" (U+221A U+00BA, the UTF-8 bytes of "ü" read as Mac Roman) where "ü" is meant.
   */
  function SeasonNameDE(s: Season): (name: string)
    ensures |name| > 0
  {
    match s
    case Spring => "Fr\U{221A}\U{00BA}hling"
    case Summer => "Sommer"
    case Fall => "Herbst"
    case Winter => "Winter"
  }

  /** The four names are distinct, so the name identifies the season. */
  lemma {:induction false} SeasonNamesDistinct(a: Season, b: Season)
    ensures SeasonNameDE(a) == SeasonNameDE(b) ==> a == b
  {
    if SeasonNameDE(a) == SeasonNameDE(b) {
      assert SeasonNameDE(a)[0] == SeasonNameDE(b)[0];
      assert |SeasonNameDE(a)| == |SeasonNameDE(b)|;
    }
  }

  /** The result of `getActiveThresholds`. */
  datatype ActiveThresholds = ActiveThresholds(
    moistureMin: int,
    moistureMax: int,
    season: Option<Season>,
    isSeasonallyAdjusted: bool)

  /** The override band of the profile for season `s`, when the schedule holds one. */
  function OverrideFor(profile: PlantProfile, s: Season): Option<Band> {
    match profile.seasonalThresholds
    case None => None
    case Some(m) => if s in m then Some(m[s]) else None
  }

  /** The moisture band that governs `profile` in `month`. */
  function GetActiveThresholds(profile: PlantProfile, month: int): (r: ActiveThresholds)
    // Schedule off or no override mapping: the default band, no season.
    ensures !profile.useSeasonalSchedule || profile.seasonalThresholds.None? ==>
      r == ActiveThresholds(profile.moistureMin, profile.moistureMax, None, false)
    // Schedule on: the season is always reported.
    ensures profile.useSeasonalSchedule && profile.seasonalThresholds.Some? ==>
      r.season == Some(CurrentSeason(month))
    // An override for the current season is applied exactly.
    ensures profile.useSeasonalSchedule && OverrideFor(profile, CurrentSeason(month)).Some? ==>
      var b := OverrideFor(profile, CurrentSeason(month)).value;
      r.moistureMin == b.moistureMin && r.moistureMax == b.moistureMax && r.isSeasonallyAdjusted
    // Schedule on without an override for this season: the default band, not adjusted.
    ensures profile.useSeasonalSchedule && profile.seasonalThresholds.Some?
            && OverrideFor(profile, CurrentSeason(month)).None? ==>
      r == ActiveThresholds(profile.moistureMin, profile.moistureMax, Some(CurrentSeason(month)), false)
  {
    if !profile.useSeasonalSchedule || profile.seasonalThresholds.None? then
      ActiveThresholds(profile.moistureMin, profile.moistureMax, None, false)
    else
      var current := CurrentSeason(month);
      var thresholds := profile.seasonalThresholds.value;
      if current in thresholds then
        ActiveThresholds(thresholds[current].moistureMin, thresholds[current].moistureMax, Some(current), true)
      else
        ActiveThresholds(profile.moistureMin, profile.moistureMax, Some(current), false)
  }

  /**
   * `isSeasonallyAdjusted` is set exactly when an override was applied, and then the season
   * is reported and the band is that season's override.
   */
  lemma AdjustedMeansOverrideApplied(profile: PlantProfile, month: int)
    ensures var r := GetActiveThresholds(profile, month);
      r.isSeasonallyAdjusted <==> profile.useSeasonalSchedule && OverrideFor(profile, CurrentSeason(month)).Some?
    ensures var r := GetActiveThresholds(profile, month);
      r.isSeasonallyAdjusted ==>
        r.season.Some? && OverrideFor(profile, r.season.value) == Some(Band(r.moistureMin, r.moistureMax))
    ensures var r := GetActiveThresholds(profile, month);
      !r.isSeasonallyAdjusted ==> r.moistureMin == profile.moistureMin && r.moistureMax == profile.moistureMax
  {
  }

  /** A profile whose bands all lie in [0, 100] yields an active band in [0, 100]. */
  predicate BandsInRange(profile: PlantProfile) {
    0 <= profile.moistureMin <= 100 && 0 <= profile.moistureMax <= 100
    && (profile.seasonalThresholds.Some? ==>
          forall s :: s in profile.seasonalThresholds.value ==>
            0 <= profile.seasonalThresholds.value[s].moistureMin <= 100
            && 0 <= profile.seasonalThresholds.value[s].moistureMax <= 100)
  }

  lemma ActiveBandInRange(profile: PlantProfile, month: int)
    requires BandsInRange(profile)
    ensures var r := GetActiveThresholds(profile, month);
      0 <= r.moistureMin <= 100 && 0 <= r.moistureMax <= 100
  {
  }

  /** An empty override mapping behaves, for every month, as "no override for this season". */
  lemma EmptyScheduleUsesDefaults(profile: PlantProfile, month: int)
    requires profile.useSeasonalSchedule && profile.seasonalThresholds == Some(map[])
    ensures GetActiveThresholds(profile, month)
         == ActiveThresholds(profile.moistureMin, profile.moistureMax, Some(CurrentSeason(month)), false)
  {
  }

  /**
   * A profile with the default band 30..70 and a summer override 40..80: July uses the
   * override, January (no winter override) the defaults.
   */
  lemma SummerOverrideScenario()
    ensures var p := PlantProfile(1, "Pflanze 1", 30, 70, true, true, Some(map[Summer := Band(40, 80)]));
      GetActiveThresholds(p, 7) == ActiveThresholds(40, 80, Some(Summer), true)
      && GetActiveThresholds(p, 1) == ActiveThresholds(30, 70, Some(Winter), false)
  {
  }
}
