# Beetwässerung: decision logic of the dashboard and the ESP32 controllers

Beetwässerung is a garden-bed irrigation system. ESP32 controllers read four soil-moisture
sensors, a DHT11 and an ultrasonic water-level sensor. They run pumps, draw a status icon on an
e-ink display and keep a realtime database up to date. A React dashboard shows the readings and
errors and edits the settings, including per-season moisture bands for each plant.

This project models the sequential decision and transformation routines inside that code and
proves what they promise. The routines are:

- **Shared data model** (`Schema`): the datatypes, the range constraints as predicates, and the
  shipped defaults.
- **Seasons** (`SeasonalUtils`): the season of a month and the active moisture band of a plant.
- **Plant card** (`PlantCard`): the four-way classification, the "last watered" label and the
  seasonal indicator.
- **Seasonal schedule editor** (`ScheduleEditor`): toggling the schedule, clamped edits and
  clearing a season.
- **Settings dialog** (`SettingsDialog`): the guard chain of a save, the e-mail pattern as a
  predicate, and the update of one profile by id.
- **Historical data** (`HistoricalData`): chunked-average downsampling, done in place as in the
  source, against a functional specification; also the time ranges and the ascending sort.
- **Errors card** (`ErrorsCard`): unresolved errors, newest ten, and the counts by
  severity.
- **ESP32 time keeping** (`TimeSync`): the EU summer-time searches and the millisecond timestamps.
- **Legacy controller** (`LegacyController`, main_1.py): error logging pruned to ten, the
  self-test grading, the display status and its redraw-on-change.
- **Modular controller** (`Controller`, esp32/main_new.py): the three-level display status, the
  published status, the hourly historical save, the self-test verdict and manual watering.
- **Shared helpers:**
  - `Watering` holds the automatic watering decision, which both controllers share.
  - `ErrorList` holds the newest-first selection, which the card and the logger share.
  - `Text`, `Sorting`, `Calendar`, `Arith` and `Wrappers` are small support modules.

Objects whose fields the source updates are classes:

- `TimeSync.NTPSync`
- `LegacyController.FirebaseClient`
- `LegacyController.WateringSystem`
- `Controller.WateringSystem`

Loops in the source are methods with loop invariants, each proved against a specification
function. Everything else is functions and lemmas.

Calls to hardware and the database are parameters:

- a reading, or `None` for a call that raised;
- whether a GET or PUT succeeded;
- the exception text of a failed draw;
- the device clock.

Sensor values are exact reals, thresholds are integers, and timestamps are integer milliseconds.
JavaScript's `Math.round` is `floor(x + 0.5)`. Python's `//` and `%` with a positive divisor are
Dafny's Euclidean operators.

## Model

| member | source | states |
|---|---|---|
| SeasonalUtils.CurrentSeason | client/src/lib/seasonalUtils.ts:12-19 | months 3-5 are spring, 6-8 summer, 9-11 fall, every other month winter (each an iff) |
| SeasonalUtils.EveryMonthHasOneSeason | client/src/lib/seasonalUtils.ts:15-18 | each month 1..12 belongs to its season's month set and to no other season's |
| SeasonalUtils.SeasonOfMonthIndex | client/src/lib/seasonalUtils.ts:13 | the season of a 0-based `getMonth()` index contains month index + 1 |
| SeasonalUtils.SeasonNameDE | client/src/lib/seasonalUtils.ts:24-32 | every season has a non-empty German name; the spring name is the stored literal "Fr√ºhling" |
| SeasonalUtils.SeasonNamesDistinct | client/src/lib/seasonalUtils.ts:25-30 | the four names are pairwise different, so a label identifies its season |
| SeasonalUtils.GetActiveThresholds | client/src/lib/seasonalUtils.ts:38-73 | schedule off or absent: default band, not adjusted, no season; schedule on: season reported, and the override's band exactly when one exists for the current season, else the default band, not adjusted |
| SeasonalUtils.AdjustedMeansOverrideApplied | client/src/lib/seasonalUtils.ts:56-64 | `isSeasonallyAdjusted` holds iff an override for the current season was applied, and then the season is present and the band is that override |
| SeasonalUtils.ActiveBandInRange | client/src/lib/seasonalUtils.ts:45-72 | when the default band and every override lie in 0..100, so does the active band |
| SeasonalUtils.EmptyScheduleUsesDefaults | client/src/lib/seasonalUtils.ts:66-72 | an enabled but empty schedule gives the default band with the season reported and not adjusted |
| SeasonalUtils.SummerOverrideScenario | client/src/lib/seasonalUtils.ts:53-64 | a July profile with a summer override gets that override and the summer season |
| PlantCard.GetStatus | client/src/components/PlantCard.tsx:28-33 | critical iff below min; warning iff in [min, min+10); overwatered iff at least min+10 and above max; healthy iff at least min+10 and at most max |
| PlantCard.CardStatusUsesActiveBand | client/src/components/PlantCard.tsx:25-26 | the card classifies against the season's override band when one applies, else against the profile's default band |
| PlantCard.DefaultBandExamples | client/src/components/PlantCard.tsx:28-33 | the four statuses for the default band 30..70 at 20, 35, 50 and 75 % |
| PlantCard.NarrowBandNeverHealthy | client/src/components/PlantCard.tsx:30-32 | a band narrower than 10 points can never be healthy |
| PlantCard.StatusLabel | client/src/components/PlantCard.tsx:44-49 | every status has a non-empty label |
| PlantCard.ColorsAndLabelsAgree | client/src/components/PlantCard.tsx:37-56 | the progress colour equals the status dot colour, and distinct statuses have distinct labels |
| PlantCard.LastWateredByElapsed | client/src/components/PlantCard.tsx:58-69 | with a timestamp, the label shows whole days if at least one day passed, else whole hours, else whole minutes, else "Gerade eben" |
| PlantCard.NeverIffNoTimestamp | client/src/components/PlantCard.tsx:59 | the label is "Nie" iff the timestamp is missing or 0 |
| PlantCard.LastWateredExamples | client/src/components/PlantCard.tsx:60-68 | 2.5 hours read as "vor 2h", 90 s as "vor 1m", 30 s as "Gerade eben" |
| PlantCard.IndicatorIffOverride | client/src/components/PlantCard.tsx:111-118 | the seasonal indicator appears iff a seasonal override is applied, and it names the current season |
| PlantCard.RenderedStatus | client/src/components/PlantCard.tsx:71-73 | a disabled profile renders nothing; an enabled one renders its card status |
| ScheduleEditor.SetField | client/src/components/SeasonalScheduleEditor.tsx:52-55 | the edited field takes the value and the other field is kept |
| ScheduleEditor.HandleToggle | client/src/components/SeasonalScheduleEditor.tsx:25-32 | the flag becomes `enabled`; on enable the existing schedule is kept (or `{}`), on disable it is removed; the rest of the profile is unchanged |
| ScheduleEditor.Clamp | client/src/components/SeasonalScheduleEditor.tsx:40 | the result lies in 0..100, equals the input inside that range, and is the nearer bound outside it |
| ScheduleEditor.EditedValue | client/src/components/SeasonalScheduleEditor.tsx:39-40 | an unparsable input gives 0; otherwise the parsed integer clamped to 0..100 |
| ScheduleEditor.EditedValueOfPercent | client/src/components/SeasonalScheduleEditor.tsx:39-40 | typing the decimal digits of a percentage stores exactly that percentage |
| ScheduleEditor.HandleSeasonalThresholdChange | client/src/components/SeasonalScheduleEditor.tsx:34-58 | the season gets an entry whose edited field is the edited value; its other field comes from the old entry, or the profile default if there was none; other seasons and the rest of the profile are unchanged |
| ScheduleEditor.HandleClearSeason | client/src/components/SeasonalScheduleEditor.tsx:60-68 | only that season's key is removed; other entries and the rest of the profile are kept |
| ScheduleEditor.DisplayedValue | client/src/components/SeasonalScheduleEditor.tsx:151 | an input shows the season's configured value, or the profile default when none is configured |
| ScheduleEditor.EditIsDisplayed | client/src/components/SeasonalScheduleEditor.tsx:34-58 | after an edit the input shows the edited value |
| ScheduleEditor.EditLeavesOtherSeasonsDisplayed | client/src/components/SeasonalScheduleEditor.tsx:48-57 | an edit leaves every other season's displayed values unchanged |
| ScheduleEditor.EditGovernsItsSeason | client/src/components/SeasonalScheduleEditor.tsx:34-58 | with the schedule on, an edit of the current season becomes the active band |
| ScheduleEditor.ClearRestoresDefaults | client/src/components/SeasonalScheduleEditor.tsx:60-68 | clearing the current season makes the default band active |
| ScheduleEditor.ClearShowsDefault | client/src/components/SeasonalScheduleEditor.tsx:172 | after clearing, the inputs show the profile defaults |
| ScheduleEditor.ToggleOffUsesDefaults | client/src/components/SeasonalScheduleEditor.tsx:30 | after disabling, the default band is active and not adjusted |
| ScheduleEditor.ToggleOffOnDropsOverrides | client/src/components/SeasonalScheduleEditor.tsx:30 | disabling then enabling leaves an empty schedule |
| ScheduleEditor.ToggleOnIdempotent | client/src/components/SeasonalScheduleEditor.tsx:25-32 | enabling twice is enabling once |
| ScheduleEditor.EditKeepsBandsInRange | client/src/components/SeasonalScheduleEditor.tsx:39-56 | edits keep every band within 0..100 |
| SettingsDialog.FirstAt | client/src/components/SettingsDialog.tsx:74 | the index of the first '@', or the length when there is none |
| SettingsDialog.IsEmailMatchesPattern | client/src/components/SettingsDialog.tsx:74-75 | the executable check accepts exactly the strings matching `^[^\s@]+@[^\s@]+\.[^\s@]+$` (both directions) |
| SettingsDialog.HandleSave | client/src/components/SettingsDialog.tsx:43-91 | a bad PIN is rejected first; then an interval below 60 is rejected; a record without `notifications` then throws at the unguarded `notifications.enabled`; only a save passing every guard hands over the edited settings unchanged |
| SettingsDialog.SaveGuardOrder | client/src/components/SettingsDialog.tsx:43-85 | each e-mail outcome happens iff every earlier guard passed, a notifications object is present and its own guard failed; a save happens iff all guards pass |
| SettingsDialog.EmailIgnoredWhenDisabled | client/src/components/SettingsDialog.tsx:63 | with notifications off, the e-mail does not affect the outcome |
| SettingsDialog.BlankEmailIsMissing | client/src/components/SettingsDialog.tsx:64 | with notifications on, an all-whitespace e-mail is "E-Mail erforderlich" |
| SettingsDialog.SavedEmailHasNoWhitespace | client/src/components/SettingsDialog.tsx:63-82 | with notifications on, a saved e-mail contains no whitespace anywhere, not even at its ends |
| SettingsDialog.SaveAcceptsUnparsedInterval | client/src/components/SettingsDialog.tsx:53-85 | for any record with a valid PIN, an emptied interval field (`parseInt("")`, NaN) passes the interval guard; the record is then saved exactly when it carries a notifications object whose e-mail guards pass |
| SettingsDialog.SaveAcceptsOversizedInterval | client/src/components/SettingsDialog.tsx:53-85 | for any record with a valid PIN, an interval of 100000 s passes the interval guard though the schema allows at most 86400; it is saved exactly when a notifications object is present and its e-mail guards pass |
| SettingsDialog.MissingNotificationsNeverSave | client/src/components/SettingsDialog.tsx:63 | a record without `notifications` is never saved; the shipped defaults (shared/schema.ts:92-101), before and after a profile edit, stop at the TypeError |
| SettingsDialog.HandleSaveIntended | client/src/components/SettingsDialog.tsx:53-63 | the corrected chain rejects every interval outside the schema's 60..86400, NaN included, and never throws on a missing notifications object |
| SettingsDialog.IntendedSaveIsValid | shared/schema.ts:36-40 | a corrected save has a valid PIN and interval; it agrees with the as-written save on all valid intervals when notifications are present, and saves every valid-PIN, valid-interval record without them |
| SettingsDialog.IntendedSavesDefaults | shared/schema.ts:92-101 | the corrected chain saves the shipped defaults |
| SettingsDialog.ApplyEdit | client/src/components/SettingsDialog.tsx:101 | only the named field changes |
| SettingsDialog.MapById | client/src/components/SettingsDialog.tsx:100-102 | the length is kept; entries with the id are mapped, the rest are kept |
| SettingsDialog.HandlePlantProfileChange | client/src/components/SettingsDialog.tsx:93-104 | the other settings and the list length are kept; each profile with the id gets the edit and the others are unchanged |
| SettingsDialog.ReplaceProfile | client/src/components/SettingsDialog.tsx:283-289 | the profile with the updated one's id is replaced and nothing else changes |
| SettingsDialog.EditKeepsProfilesValid | shared/schema.ts:18-24 | edits within the schema's field ranges keep every profile valid |
| SettingsDialog.EditTouchesOneProfile | client/src/components/SettingsDialog.tsx:100-102 | with distinct ids an edit changes exactly the chosen profile |
| SettingsDialog.RenameDefaultPlant | client/src/components/SettingsDialog.tsx:93-104 | renaming plant 2 of the defaults changes only its name |
| HistoricalData.GetTimeRange | client/src/lib/historicalData.ts:18-28 | the range ends now and spans exactly 24, 168 or 720 hours in milliseconds |
| HistoricalData.RangesNested | client/src/lib/historicalData.ts:10-14 | the 30-day range starts before the 7-day range, which starts before the 24-hour range |
| HistoricalData.SortByTimestamp | client/src/lib/historicalData.ts:55 | the result is ascending by timestamp and a permutation of the input |
| HistoricalData.RoundHalfUpNearest | client/src/lib/historicalData.ts:94 | `Math.round` gives the integer within half a unit, halves rounded up |
| HistoricalData.RoundTenthNearest | client/src/lib/historicalData.ts:95 | the temperature rounding lands within 0.05 on a multiple of 0.1 |
| HistoricalData.ChunkAverage | client/src/lib/historicalData.ts:76-97 | an averaged point has four moisture channels and the timestamp of the chunk's middle element |
| HistoricalData.ChunkAverageRounds | client/src/lib/historicalData.ts:93-97 | each channel is its chunk mean rounded to a whole number, and the temperature to one decimal |
| HistoricalData.Chunks | client/src/lib/historicalData.ts:73-74 | every chunk is non-empty and at most `step` long |
| HistoricalData.ChunksCover | client/src/lib/historicalData.ts:73-74 | the chunks concatenate to the input, and there are `ceil(n/step)` of them |
| HistoricalData.Averages | client/src/lib/historicalData.ts:73-100 | one averaged point per chunk, in chunk order |
| HistoricalData.SumChunk | client/src/lib/historicalData.ts:84-91 | the in-place sums equal the chunk's channel sums |
| HistoricalData.AverageChunk | client/src/lib/historicalData.ts:76-97 | the built point is the chunk's average |
| HistoricalData.DownsampleData | client/src/lib/historicalData.ts:62-103 | the loop computes the specification: the input itself when short, else the averages of the `ceil(n/maxPoints)`-sized chunks |
| HistoricalData.AverageChunks | client/src/lib/historicalData.ts:73-100 | the `i += step` loop yields the averages of all chunks |
| HistoricalData.ShortSeriesUnchanged | client/src/lib/historicalData.ts:66-68 | a series of at most `maxPoints` readings is returned unchanged |
| HistoricalData.CeilOfCeilBound | client/src/lib/historicalData.ts:70-73 | with `step = ceil(n/m)`, `ceil(n/step)` is at most m |
| HistoricalData.DownsampleLength | client/src/lib/historicalData.ts:70-73 | the output has at most `maxPoints` points, and exactly `ceil(n/step)` for a long series |
| HistoricalData.ChunkAt | client/src/lib/historicalData.ts:73-74 | chunk k is `data[k*step .. min((k+1)*step, n))` |
| HistoricalData.ChunksConsecutive | client/src/lib/historicalData.ts:73-74 | every chunk but the last is full, and the next one starts where it ends |
| HistoricalData.MiddleOfChunk | client/src/lib/historicalData.ts:77 | the middle element of chunk k lies inside the chunk's index range |
| HistoricalData.AverageTimestampAt | client/src/lib/historicalData.ts:77 | point k carries the timestamp of an input element inside chunk k |
| HistoricalData.AveragesAscending | client/src/lib/historicalData.ts:77 | an ascending input gives ascending output timestamps |
| HistoricalData.DownsampledTimestamps | client/src/lib/historicalData.ts:62-103 | every output timestamp is an input timestamp, and an ascending input stays ascending |
| HistoricalData.DownsampledPointAverages | client/src/lib/historicalData.ts:84-97 | output point k is the average of its own chunk, a short last chunk dividing by its own length |
| HistoricalData.ChunkAverageInRange | client/src/lib/historicalData.ts:84-97 | averaging percentages gives percentages |
| HistoricalData.DownsampleInRange | client/src/lib/historicalData.ts:62-103 | downsampling valid percentages gives valid percentages |
| HistoricalData.TwoReadingChunk | client/src/lib/historicalData.ts:77-94 | a chunk of 40 % and 60 % averages to 50 % with the second reading's timestamp |
| HistoricalData.TwentyHourScenario | client/src/lib/historicalData.ts:70-73 | 240 readings at most 100 give step 3 and 80 points |
| Sorting.SortBy | client/src/components/ErrorsCard.tsx:20 | the result is sorted by the key and is a permutation of the input |
| Sorting.Take | client/src/components/ErrorsCard.tsx:21 | `slice(0, n)`: a prefix of length `min(len, n)` |
| ErrorList.SortNewestFirst | client/src/components/ErrorsCard.tsx:20 | descending by timestamp, and a permutation |
| ErrorList.KeepNewestSpec | main_1.py:190-197 | the newest `n` are kept: the length is `min(len, n)`, a sub-multiset, newest first, and no dropped entry is newer than a kept one |
| ErrorList.DistinctKeysKept | client/src/components/ErrorsCard.tsx:18-22 | a selection from entries with distinct keys has distinct keys |
| ErrorList.CountSeverity | client/src/components/ErrorsCard.tsx:49-50 | a count by severity is at most the number of entries |
| ErrorList.CountPermutation | client/src/components/ErrorsCard.tsx:49-50 | counts by severity do not depend on order |
| ErrorList.CountsDisjoint | client/src/components/ErrorsCard.tsx:48-50 | counts of two different severities add up to at most the total |
| ErrorsCard.Unresolved | client/src/components/ErrorsCard.tsx:19 | keeps exactly the unresolved entries, as a sub-multiset |
| ErrorsCard.ToRecord | client/src/components/ErrorsCard.tsx:22 | the record's keys are the entries' keys |
| ErrorsCard.RecordHoldsEntries | client/src/components/ErrorsCard.tsx:22 | with distinct keys, each entry is in the record under its own key, unchanged |
| ErrorsCard.ActiveErrorsSpec | client/src/components/ErrorsCard.tsx:14-27 | no snapshot shows nothing; otherwise at most ten, none resolved, entries of the snapshot, newest first, and no left-out unresolved error is newer than a shown one |
| ErrorsCard.FewErrorsAllShown | client/src/components/ErrorsCard.tsx:18-21 | with at most ten unresolved errors, all of them are shown |
| ErrorsCard.RecordMatchesSelection | client/src/components/ErrorsCard.tsx:22-23 | the stored record holds exactly the selected entries under their original keys |
| ErrorsCard.CountsBounded | client/src/components/ErrorsCard.tsx:48-50 | critical plus warning count is at most the error count, which is at most ten |
| ErrorsCard.CountsOfAllUnresolved | client/src/components/ErrorsCard.tsx:18-21 | when nothing is cut off, the counts are those of all unresolved errors |
| ErrorsCard.ResolvedHiddenScenario | client/src/components/ErrorsCard.tsx:18-22 | one open and one resolved error show only the open one, counted as critical |
| TimeSync.Weekday | esp32/ntp_sync.py:29 | the weekday expression lies in 0..6 |
| TimeSync.WeekdayCountsDown | esp32/ntp_sync.py:23-32 | counting down from the 31st, the expression falls by one per day until 0 |
| TimeSync.SwitchDaySpec | esp32/ntp_sync.py:23-41 | both searches stop at the last day of 25..31 whose expression is 0 |
| TimeSync.NTPSync.IsDst | esp32/ntp_sync.py:17-61 | false outside March..October, true in April..September; in March true after the stop day or on it from 02:00; in October true before it or on it before 03:00 |
| TimeSync.NTPSync.Sync | esp32/ntp_sync.py:63-122 | succeeds iff some server answers; then stores the clock and `(clock + 946684800) * 1000`, so the stored pair is consistent; otherwise nothing changes, so consistency is kept |
| TimeSync.ReadingsFollowClock | esp32/ntp_sync.py:124-145 | in a consistent state, `get_timestamp` is the clock in Unix milliseconds and `get_time` the same in seconds, synced or not |
| TimeSync.TimestampAdvances | esp32/ntp_sync.py:132-134 | once synced, the timestamp advances 1000 per elapsed second from the stored value |
| TimeSync.WeekdayIsCalendarDay | esp32/ntp_sync.py:29 | in March and October the expression is the calendar day number mod 7, with 0 on Saturdays |
| TimeSync.SwitchDayIsLastSaturday | esp32/ntp_sync.py:23-41 | the stop day is the last Saturday of the month |
| TimeSync.SwitchDays2024 | esp32/ntp_sync.py:30 | in 2024 the March search stops on Saturday the 30th, while the 31st is the Sunday |
| TimeSync.LastSundaySpec | esp32/ntp_sync.py:22-41 | the corrected day lies in 25..31, is a Sunday, and no later day of the month is |
| Watering.CheckAndWater | main_1.py:546-557 | no settings, no pumps; otherwise the pumps run are exactly the active plants below their default minimum, in increasing order |
| Watering.SeasonalOverrideIgnored | esp32/main_new.py:148-159 | a plant the card shows as critical under its summer override is not watered |
| LegacyController.KeyIndex | main_1.py:187 | the position of the first entry with the key, or the length |
| LegacyController.Put | main_1.py:187 | `dict[key] = v`: the pair is present, other keys keep their entries, nothing else appears, and distinct keys stay distinct |
| LegacyController.LoggedErrorsSpec | main_1.py:186-197 | the log holds at most ten after a put into fewer than ten, exactly ten when it overflowed, a sub-multiset kept by timestamp, with distinct keys |
| LegacyController.LogStaysBounded | main_1.py:189-197 | a log of at most ten stays at most ten |
| LegacyController.StrictlyNewestFirst | main_1.py:192-196 | an entry newer than all others sorts first |
| LegacyController.NewestErrorKept | main_1.py:186-197 | a new error newer than every stored one survives the pruning |
| LegacyController.FailedReadDropsHistory | main_1.py:172 | a failed read (`or {}`) leaves only the new error |
| LegacyController.LogAppendsWhenRoom | main_1.py:186-190 | under ten entries and a fresh key, the error is appended |
| LegacyController.FirebaseClient.LogError | main_1.py:168-203 | the counter grows by one; a successful put stores the pruned log with the new unresolved entry under `error_<s>_<count>`, and a failed put changes nothing |
| LegacyController.CountFalse | main_1.py:757 | `count(False)` is zero iff all pass |
| LegacyController.Grade | main_1.py:743-768 | passed iff no check fails; warning iff 1..2 fail; failed iff more than 2 |
| LegacyController.GradeExamples | main_1.py:752-768 | one failing pump is a warning, four failing sensors fail, and all-pass details read "Alle Tests erfolgreich abgeschlossen" |
| LegacyController.WateringSystem.IsDst | main_1.py:311-367 | the same month, day and hour cases as the NTP class, computed by `while True` searches |
| LegacyController.WateringSystem.DisplayStatusOf | main_1.py:602-616 | never "error"; "warning" iff water below 20 % or an active plant below its minimum |
| LegacyController.WateringSystem.UpdateDisplay | main_1.py:597-632 | redraws only on change; the last status moves only on a successful draw; a failed draw counts one error and, when the write succeeds, stores the "eink_display" warning through the pruned log; nothing else is logged |
| LegacyController.WateringSystem.ExecuteSystemTest | main_1.py:674-771 | the result is schema-valid, each check is its range test, pumps and connectivity are recorded, and the status and details are the grading |
| LegacyController.WateringSystem.DetermineOverall | main_1.py:743-768 | the status and details are the grading's |
| Controller.PublishedDisplayStatus | esp32/main_new.py:443-451 | error iff water below 20 %, warning iff 20..40 %, ok iff at least 40 % |
| Controller.ToHistorical | esp32/main_new.py:321-327 | the historical point copies timestamp, moisture, temperature, humidity and level |
| Controller.MaxDistance | esp32/main_new.py:262-266 | tank height plus 5 cm with settings, 100 cm without |
| Controller.SelfTestStricterThanLegacy | esp32/main_new.py:247 | within the sensor range every reading this self-test passes also passes the legacy test; a frost reading passes the legacy test only |
| Controller.ManualWateringAction | esp32/main_new.py:161-172 | a command with a plant id runs pump id-1 for its duration, default 5 s; otherwise nothing |
| Controller.SchemaCommandRunsItsPump | shared/schema.ts:65-69 | a schema-valid command runs one of pumps 0..3 for its positive duration, so the controller's 5 s default never applies |
| Controller.WateringSystem.DisplayStatusOf | esp32/main_new.py:343-355 | error iff below 20 %; warning iff at least 20 % and below 40 % or a plant is dry; ok otherwise |
| Controller.WateringSystem.UpdateDisplay | esp32/main_new.py:338-366 | without a display nothing happens; a redraw happens iff the status changed and drawing succeeds; the last status moves only then; a failed draw logs a warning |
| Controller.WateringSystem.SaveHistoricalData | esp32/main_new.py:311-336 | a point is sent iff an hour has passed since the last successful save; the save time moves only when the database accepts |
| Controller.WateringSystem.RunSystemTest | esp32/main_new.py:185-309 | each plant passes iff its moisture rose; pump entries equal sensor entries; DHT passes iff both readings are positive; ultrasonic passes iff within the maximum; database passes iff the put succeeded; overall iff all of these |
| Controller.PublishedStatusIgnoresPlants | esp32/main_new.py:443-451 | the drawn and published statuses agree except when a plant is dry above 40 % water |
| Schema.ParseManualWatering | shared/schema.ts:65-69 | accepted iff the plant id is 1..4 and any given duration is positive; the duration defaults to 10 |
| Schema.DefaultsValid | shared/schema.ts:85-101 | the default settings satisfy every constraint and carry no notifications object; the profiles have ids 1..4 and min at most max |
| Text.TrimEmptyIffBlank | client/src/components/SettingsDialog.tsx:64 | `trim()` is empty iff every character is whitespace |
| Text.ParseInt | client/src/components/SeasonalScheduleEditor.tsx:39 | `parseInt` is NaN iff no digit follows the optional sign after leading whitespace |
| Text.ParseDigits | client/src/components/SeasonalScheduleEditor.tsx:39 | the leading digit run's value is NaN iff the text does not start with a digit, and is never negative |
| Text.ParseIntOfDecimal | client/src/components/SeasonalScheduleEditor.tsx:39 | parsing a number's decimal digits gives that number back |

## Left out

- I/O is represented only by its outcome, passed as a parameter: HTTP, NTP, GPIO, the e-ink drawing, `time.sleep` and the clock. The retries in esp32/firebase_client.py are not part of this model, and the modular controller's database client is represented only by the success of its calls.
- Floating point: readings and means are exact reals, so no claim is made about IEEE rounding.
- Log and toast message texts are not kept, nor are the measured values in a self-test result.
- The self-test result of the modular controller keeps only the `passed` flags; an exception's text is not modelled.
- Timestamps: `int(time.time())` in an error key is a parameter. The legacy logger's `time.time() * 1000` is taken in the 2000 epoch, as written.
- The e-mail regular expression is a predicate written from its pieces; no regex engine is modelled.
- ErrorList.SortNewestFirst: the order of entries with equal timestamps is not stated. Both sorts in the source are stable, and the model is too, but no contract says so.
- A settings record without `waterTank`, and a plant profile whose bounds are not numbers, are not modelled; the datatypes always hold them.
- esp32/main.py, esp32/main_debug.py, the hardware drivers and the UI rendering are not part of this model.
- Not modelled in the legacy controller: the weekly test scheduling, `run_daily_pump4_maintenance`, `sync_time` and `check_manual_watering`. The last matches Controller.ManualWateringAction line for line.
- Both `is_dst` methods model the searches as written, stopping at weekday 0. The corrected day, `TimeSync.LastSunday`, is proved only for years from 2000, the start of the device clock.
- HistoricalData.DownsampleData requires `maxPoints > 0`, because the only caller passes 100 (client/src/components/HistoryDialog.tsx:27). The other values behave as follows in JavaScript, and the model does not cover them:
  - With `maxPoints = 0` and a non-empty series, the step is `Infinity`, so the function returns one point averaged over the whole series.
  - With a negative `maxPoints`, the step is not positive. A chunk then comes out empty, and reading the timestamp of its middle element throws a TypeError.
- Text.ParseInt: reads decimal digits only. `parseInt` without a radix also reads a `0x` or `0X` prefix as hexadecimal, so `"0x1F"` gives 31 and `"0x"` gives NaN; the model does neither. Every call site parses the value of a `type="number"` input, and such a value never holds that prefix.
- Plant-profile names: the model counts their length in Unicode scalar values, while zod's `.max(50)` counts UTF-16 code units. A name with characters outside the Basic Multilingual Plane is counted differently: 26 such characters are valid in the model and too long for the schema.
- Rendering the notifications tab reads `notifications.enabled` as well (client/src/components/SettingsDialog.tsx:378), so on a record without that object the tab fails too; rendering is not modelled.

## Findings

| source | as written | input that shows it | evidently intended | confidence | as-written member | corrected member |
|---|---|---|---|---|---|---|
| client/src/components/SettingsDialog.tsx:53 | `measurementInterval < 60` is the only interval guard; the field is filled by `parseInt` (line 158) | an emptied interval field: `parseInt("")` is NaN and `NaN < 60` is false, so the guard passes; a record with notifications present and switched off is then saved | reject intervals outside the schema's 60..86400, NaN included (shared/schema.ts:37) | medium, not executed | SettingsDialog.SaveAcceptsUnparsedInterval | SettingsDialog.IntendedSaveIsValid |
| client/src/components/SettingsDialog.tsx:53-60 | no upper bound on the interval | an interval of 100000 seconds passes the guard; a record with notifications present and switched off is then saved | at most 86400 seconds (shared/schema.ts:37) | medium, not executed | SettingsDialog.SaveAcceptsOversizedInterval | SettingsDialog.HandleSaveIntended |
| client/src/components/SettingsDialog.tsx:63 | `editedSettings.notifications.enabled` is read without a guard, but the schema (shared/schema.ts:35-41) has no `notifications` field, and the defaults (shared/schema.ts:92-101) carry none; client/src/lib/firebaseInit.ts:22-23 writes exactly those defaults | saving the shipped defaults: PIN "1234" and interval 300 pass, then reading `enabled` on `undefined` throws a TypeError and `onSave` is never called | treat a missing notifications object as notifications switched off (`notifications?.enabled`) | high, not executed | SettingsDialog.MissingNotificationsNeverSave | SettingsDialog.IntendedSavesDefaults |
| esp32/ntp_sync.py:29-31 | the searches stop at weekday 0, commented as Sunday; for March and October, 0 is a Saturday (the same formula is at main_1.py:329-330) | `is_dst(2024, 3, 30, 12)` reports summer time on Saturday 30 March 2024; it began on Sunday 31 March | stop at the last Sunday of the month (weekday 1) | high, not executed | TimeSync.SwitchDayIsLastSaturday | TimeSync.LastSundaySpec |
