/**
 * The record updates of the seasonal schedule editor
 * (client/src/components/SeasonalScheduleEditor.tsx). Each handler builds a new profile
 * from the old one; `onChange` is the identity here, so each handler is a function from
 * the old profile to the new one.
 */
module ScheduleEditor {
  import opened Wrappers
  import opened Text
  import opened Schema
  import opened SeasonalUtils

  /** The two editable fields of a season's band. */
  datatype Field = MinField | MaxField

  function FieldOf(b: Band, f: Field): int {
    match f
    case MinField => b.moistureMin
    case MaxField => b.moistureMax
  }

  function SetField(b: Band, f: Field, v: int): (r: Band)
    ensures FieldOf(r, f) == v
    ensures forall g :: g != f ==> FieldOf(r, g) == FieldOf(b, g)
  {
    match f
    case MinField => b.(moistureMin := v)
    case MaxField => b.(moistureMax := v)
  }

  /** The profile's fields that the schedule handlers never touch. */
  predicate SameBase(a: PlantProfile, b: PlantProfile) {
    a.id == b.id && a.name == b.name && a.moistureMin == b.moistureMin
    && a.moistureMax == b.moistureMax && a.enabled == b.enabled
  }

  /** `profile.seasonalThresholds || {}`. */
  function Schedule(profile: PlantProfile): map<Season, Band> {
    profile.seasonalThresholds.GetOr(map[])
  }

  /** `handleToggle(enabled)`. */
  function HandleToggle(profile: PlantProfile, enabled: bool): (r: PlantProfile)
    ensures SameBase(r, profile) && r.useSeasonalSchedule == enabled
    ensures enabled ==> r.seasonalThresholds == Some(Schedule(profile))
    ensures enabled && profile.seasonalThresholds.Some? ==> r.seasonalThresholds == profile.seasonalThresholds
    ensures !enabled ==> r.seasonalThresholds.None?
  {
    profile.(useSeasonalSchedule := enabled,
             seasonalThresholds := if enabled then Some(Schedule(profile)) else None)
  }

  /** `Math.max(0, Math.min(100, n))`. */
  function Clamp(n: int): (r: int)
    ensures 0 <= r <= 100
    ensures 0 <= n <= 100 ==> r == n
    ensures n < 0 ==> r == 0
    ensures n > 100 ==> r == 100
  {
    if n < 0 then 0 else if n > 100 then 100 else n
  }

  /** `Math.max(0, Math.min(100, parseInt(value) || 0))`: NaN (and 0) becomes 0. */
  function EditedValue(value: string): (r: int)
    ensures 0 <= r <= 100
    ensures ParseInt(value).NaN? ==> r == 0
    ensures ParseInt(value).Int? ==> r == Clamp(ParseInt(value).value)
  {
    match ParseInt(value)
    case NaN => Clamp(0)
    case Int(v) => Clamp(v)
  }

  /** Typing a number between 0 and 100 stores exactly that number. */
  lemma EditedValueOfPercent(n: nat)
    requires n <= 100
    ensures EditedValue(DecimalString(n)) == n
  {
    ParseIntOfDecimal(n);
  }

  /** The band being edited: the season's override, or else the profile's defaults. */
  function CurrentConfig(profile: PlantProfile, season: Season): Band {
    var m := Schedule(profile);
    if season in m then m[season] else Band(profile.moistureMin, profile.moistureMax)
  }

  /** `handleSeasonalThresholdChange(season, field, value)`. */
  function HandleSeasonalThresholdChange(profile: PlantProfile, season: Season, field: Field, value: string): (r: PlantProfile)
    ensures SameBase(r, profile) && r.useSeasonalSchedule == profile.useSeasonalSchedule
    ensures r.seasonalThresholds.Some? && season in r.seasonalThresholds.value
    // The edited field takes the clamped value.
    ensures FieldOf(r.seasonalThresholds.value[season], field) == EditedValue(value)
    // The other field keeps the season's override, or is initialised from the profile default.
    ensures forall g :: g != field ==>
      FieldOf(r.seasonalThresholds.value[season], g)
        == (if season in Schedule(profile) then FieldOf(Schedule(profile)[season], g)
            else FieldOf(Band(profile.moistureMin, profile.moistureMax), g))
    // The other seasons are unchanged: same keys, same bands.
    ensures forall s :: s != season ==>
      (s in r.seasonalThresholds.value <==> s in Schedule(profile))
      && (s in Schedule(profile) ==> r.seasonalThresholds.value[s] == Schedule(profile)[s])
  {
    var m := Schedule(profile);
    profile.(seasonalThresholds := Some(m[season := SetField(CurrentConfig(profile, season), field, EditedValue(value))]))
  }

  /** `handleClearSeason(season)`: the season's key is removed, the others stay. */
  function HandleClearSeason(profile: PlantProfile, season: Season): (r: PlantProfile)
    ensures SameBase(r, profile) && r.useSeasonalSchedule == profile.useSeasonalSchedule
    ensures r.seasonalThresholds.Some? && season !in r.seasonalThresholds.value
    ensures forall s :: s != season ==>
      (s in r.seasonalThresholds.value <==> s in Schedule(profile))
      && (s in Schedule(profile) ==> r.seasonalThresholds.value[s] == Schedule(profile)[s])
  {
    profile.(seasonalThresholds := Some(Schedule(profile) - {season}))
  }

  /** `seasonConfig?.moistureMin ?? profile.moistureMin` (and the same for the maximum). */
  function DisplayedValue(profile: PlantProfile, season: Season, field: Field): (v: int)
    ensures OverrideFor(profile, season).Some? ==> v == FieldOf(OverrideFor(profile, season).value, field)
    ensures OverrideFor(profile, season).None? ==>
      v == FieldOf(Band(profile.moistureMin, profile.moistureMax), field)
  {
    match profile.seasonalThresholds
    case Some(m) =>
      if season in m then FieldOf(m[season], field)
      else FieldOf(Band(profile.moistureMin, profile.moistureMax), field)
    case None => FieldOf(Band(profile.moistureMin, profile.moistureMax), field)
  }

  // ===== How the edits feed back into the display and the active thresholds =====

  /** After an edit, the input shows the clamped value that was stored. */
  lemma EditIsDisplayed(profile: PlantProfile, season: Season, field: Field, value: string)
    ensures DisplayedValue(HandleSeasonalThresholdChange(profile, season, field, value), season, field)
         == EditedValue(value)
  {
  }

  /** Editing one season never changes what another season displays. */
  lemma EditLeavesOtherSeasonsDisplayed(profile: PlantProfile, season: Season, field: Field, value: string, other: Season, g: Field)
    requires other != season
    ensures DisplayedValue(HandleSeasonalThresholdChange(profile, season, field, value), other, g)
         == DisplayedValue(profile, other, g)
  {
  }

  /**
   * With the schedule on, an edit to the season of `month` governs the plant: the active
   * band is the edited override, and it is marked as seasonally adjusted.
   */
  lemma EditGovernsItsSeason(profile: PlantProfile, month: int, field: Field, value: string)
    requires profile.useSeasonalSchedule
    ensures var r := HandleSeasonalThresholdChange(profile, CurrentSeason(month), field, value);
      var a := GetActiveThresholds(r, month);
      a.isSeasonallyAdjusted && a.season == Some(CurrentSeason(month))
      && FieldOf(Band(a.moistureMin, a.moistureMax), field) == EditedValue(value)
  {
  }

  /** After clearing the current season, the plant falls back to its default band. */
  lemma ClearRestoresDefaults(profile: PlantProfile, month: int)
    requires profile.useSeasonalSchedule
    ensures var r := HandleClearSeason(profile, CurrentSeason(month));
      GetActiveThresholds(r, month)
        == ActiveThresholds(profile.moistureMin, profile.moistureMax, Some(CurrentSeason(month)), false)
  {
  }

  /** Clearing a season that has an override shows the profile default again. */
  lemma ClearShowsDefault(profile: PlantProfile, season: Season, field: Field)
    ensures DisplayedValue(HandleClearSeason(profile, season), season, field)
         == FieldOf(Band(profile.moistureMin, profile.moistureMax), field)
  {
  }

  /** Switching the schedule off makes every month use the default band, with no season. */
  lemma ToggleOffUsesDefaults(profile: PlantProfile, month: int)
    ensures GetActiveThresholds(HandleToggle(profile, false), month)
         == ActiveThresholds(profile.moistureMin, profile.moistureMax, None, false)
  {
  }

  /** Switching it off and on again loses the overrides: they were dropped, not hidden. */
  lemma ToggleOffOnDropsOverrides(profile: PlantProfile)
    ensures HandleToggle(HandleToggle(profile, false), true).seasonalThresholds == Some(map[])
  {
  }

  /** Switching it on twice is the same as once. */
  lemma ToggleOnIdempotent(profile: PlantProfile)
    ensures HandleToggle(HandleToggle(profile, true), true) == HandleToggle(profile, true)
  {
  }

  /** An edit keeps the value range of a valid profile: stored overrides stay within [0, 100]. */
  lemma EditKeepsBandsInRange(profile: PlantProfile, season: Season, field: Field, value: string)
    requires BandsInRange(profile)
    ensures BandsInRange(HandleSeasonalThresholdChange(profile, season, field, value))
  {
    var r := HandleSeasonalThresholdChange(profile, season, field, value);
    var m := r.seasonalThresholds.value;
    forall s | s in m ensures 0 <= m[s].moistureMin <= 100 && 0 <= m[s].moistureMax <= 100 {
      if s == season {
        assert FieldOf(m[s], MinField) == m[s].moistureMin && FieldOf(m[s], MaxField) == m[s].moistureMax;
      }
    }
  }
}
