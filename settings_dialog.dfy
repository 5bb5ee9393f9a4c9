/**
 * The settings dialog (client/src/components/SettingsDialog.tsx): the guard chain of
 * `handleSave` and the update-by-id of `handlePlantProfileChange`. A toast is reported as
 * the outcome that names it; `onSave` is the `Saved` outcome carrying the settings.
 */
module SettingsDialog {
  import opened Wrappers
  import opened Text
  import opened Schema

  // ===== The e-mail pattern /^[^\s@]+@[^\s@]+\.[^\s@]+$/ =====

  /** `[^\s@]`: neither white space nor an at sign. */
  predicate EmailChar(c: char) {
    !IsJsWhitespace(c) && c != '@'
  }

  predicate AllEmailChars(s: string) {
    forall i :: 0 <= i < |s| ==> EmailChar(s[i])
  }

  /**
   * The pattern read as a split: a non-empty local part, one `@`, and a domain whose dot
   * can be matched by `\.` with at least one character on either side.
   */
  ghost predicate MatchesEmailPattern(e: string) {
    exists k, d :: 0 < k && k + 1 < d && d + 1 < |e|
      && e[k] == '@' && e[d] == '.'
      && AllEmailChars(e[..k]) && AllEmailChars(e[k + 1 .. d]) && AllEmailChars(e[d + 1..])
  }

  /** The index of the first `@`, or `|e|` when there is none. */
  function FirstAt(e: string): (k: nat)
    ensures k <= |e|
    ensures k < |e| ==> e[k] == '@'
    ensures forall i :: 0 <= i < k ==> e[i] != '@'
  {
    if e == [] then 0
    else if e[0] == '@' then 0
    else 1 + FirstAt(e[1..])
  }

  /** A dot strictly inside `s`: neither its first nor its last character. */
  predicate HasInnerDot(s: string) {
    exists i :: 0 < i < |s| - 1 && s[i] == '.'
  }

  /** The pattern as a check: split at the first `@` and test both sides. */
  predicate IsEmail(e: string) {
    var k := FirstAt(e);
    0 < k < |e| && AllEmailChars(e[..k]) && AllEmailChars(e[k + 1..]) && HasInnerDot(e[k + 1..])
  }

  /** The check accepts exactly the strings the pattern matches. */
  lemma IsEmailMatchesPattern(e: string)
    ensures IsEmail(e) <==> MatchesEmailPattern(e)
  {
    if IsEmail(e) {
      CheckGivesPattern(e);
    }
    if MatchesEmailPattern(e) {
      PatternGivesCheck(e);
    }
  }

  lemma SliceChars(s: string, a: nat, b: nat)
    requires a <= b <= |s|
    ensures AllEmailChars(s[a..b]) <==> forall i :: a <= i < b ==> EmailChar(s[i])
  {
    assert forall i :: a <= i < b ==> s[a..b][i - a] == s[i];
  }

  lemma CheckGivesPattern(e: string)
    requires IsEmail(e)
    ensures MatchesEmailPattern(e)
  {
    var k := FirstAt(e);
    var dom := e[k + 1..];
    var i :| 0 < i < |dom| - 1 && dom[i] == '.';
    var d := k + 1 + i;
    SliceChars(e, k + 1, |e|);
    SliceChars(e, k + 1, d);
    SliceChars(e, d + 1, |e|);
    assert e[d] == dom[i];
  }

  lemma PatternGivesCheck(e: string)
    requires MatchesEmailPattern(e)
    ensures IsEmail(e)
  {
    var k, d :| 0 < k && k + 1 < d && d + 1 < |e|
      && e[k] == '@' && e[d] == '.'
      && AllEmailChars(e[..k]) && AllEmailChars(e[k + 1 .. d]) && AllEmailChars(e[d + 1..]);
    FirstAtIs(e, k);
    DomainChars(e, k, d);
    var dom := e[k + 1..];
    assert dom[d - k - 1] == e[d];
  }

  /** An `@` after a run of non-`@` characters is the first one. */
  lemma FirstAtIs(e: string, k: nat)
    requires k < |e| && e[k] == '@' && AllEmailChars(e[..k])
    ensures FirstAt(e) == k
  {
    SliceChars(e, 0, k);
    assert e[..k] == e[0..k];
  }

  /** Two runs of pattern characters joined by a dot form a domain of pattern characters. */
  lemma DomainChars(e: string, k: nat, d: nat)
    requires k + 1 <= d < |e| && e[d] == '.'
    requires AllEmailChars(e[k + 1 .. d]) && AllEmailChars(e[d + 1..])
    ensures AllEmailChars(e[k + 1..])
  {
    SliceChars(e, k + 1, d);
    SliceChars(e, d + 1, |e|);
    SliceChars(e, k + 1, |e|);
  }

  // ===== handleSave =====

  datatype SaveOutcome =
    | Saved(settings: SystemSettings)
    | InvalidPin            // "Ungültige PIN"
    | InvalidInterval       // "Ungültiges Intervall"
    | NotificationsMissing  // `notifications.enabled` read on an absent object: a TypeError
    | EmailRequired         // "E-Mail erforderlich"
    | InvalidEmail          // "Ungültige E-Mail"

  /** `measurementInterval < 60` in JavaScript: every comparison with NaN is false. */
  predicate BelowMinimumInterval(v: JsInt) {
    match v
    case Int(n) => n < 60
    case NaN => false
  }

  /** `!email || email.trim() === ""`. */
  predicate EmailMissing(email: Option<string>) {
    email.None? || Trim(email.value) == []
  }

  /** The e-mail guards; they run only when notifications are enabled. */
  function CheckEmail(n: Notifications): Option<SaveOutcome> {
    if !n.enabled then None
    else if EmailMissing(n.email) then Some(EmailRequired)
    else if !IsEmail(n.email.value) then Some(InvalidEmail)
    else None
  }

  /** A notifications object is present and its e-mail guards pass. */
  predicate NotificationsPass(n: Option<Notifications>) {
    n.Some? && CheckEmail(n.value).None?
  }

  /** `handleSave()` as written. */
  function HandleSave(edited: SystemSettings): (r: SaveOutcome)
    ensures r == InvalidPin <==> !IsPin(edited.pin)
    ensures r == InvalidInterval <==> IsPin(edited.pin) && BelowMinimumInterval(edited.measurementInterval)
    ensures r == NotificationsMissing <==>
      IsPin(edited.pin) && !BelowMinimumInterval(edited.measurementInterval) && edited.notifications.None?
    ensures r.Saved? ==> r.settings == edited
  {
    if |edited.pin| != 4 || !IsPin(edited.pin) then InvalidPin
    else if BelowMinimumInterval(edited.measurementInterval) then InvalidInterval
    else match edited.notifications
      case None => NotificationsMissing
      case Some(n) =>
        match CheckEmail(n)
        case Some(failure) => failure
        case None => Saved(edited)
  }

  /**
   * The guards run in order and the first failure wins; the settings are saved only when
   * every guard passes.
   */
  lemma SaveGuardOrder(edited: SystemSettings)
    ensures var r := HandleSave(edited);
      var n := edited.notifications;
      var guardsBefore := IsPin(edited.pin) && !BelowMinimumInterval(edited.measurementInterval) && n.Some?;
      (r == EmailRequired <==> (guardsBefore && n.value.enabled && EmailMissing(n.value.email)))
      && (r == InvalidEmail <==>
            (guardsBefore && n.value.enabled && !EmailMissing(n.value.email) && !IsEmail(n.value.email.value)))
      && (r.Saved? <==>
            (guardsBefore && (n.value.enabled ==> !EmailMissing(n.value.email) && IsEmail(n.value.email.value))))
  {
  }

  /** With notifications off the e-mail is never looked at: any e-mail gives the same outcome kind. */
  lemma EmailIgnoredWhenDisabled(edited: SystemSettings, e1: Option<string>, e2: Option<string>)
    ensures var a := HandleSave(edited.(notifications := Some(Notifications(false, e1))));
      var b := HandleSave(edited.(notifications := Some(Notifications(false, e2))));
      a.Saved? == b.Saved? && (!a.Saved? ==> a == b)
  {
  }

  /** A blank address (only white space) is reported as missing, not as malformed. */
  lemma BlankEmailIsMissing(edited: SystemSettings, e: string)
    requires IsPin(edited.pin) && !BelowMinimumInterval(edited.measurementInterval)
    requires forall i :: 0 <= i < |e| ==> IsJsWhitespace(e[i])
    ensures HandleSave(edited.(notifications := Some(Notifications(true, Some(e))))) == EmailRequired
  {
    TrimEmptyIffBlank(e);
  }

  /** A saved e-mail (notifications on) contains no white space, not even at its ends. */
  lemma SavedEmailHasNoWhitespace(edited: SystemSettings)
    requires HandleSave(edited).Saved? && edited.notifications.Some? && edited.notifications.value.enabled
    ensures var e := edited.notifications.value.email.value;
      forall i :: 0 <= i < |e| ==> !IsJsWhitespace(e[i])
  {
    var e := edited.notifications.value.email.value;
    var k := FirstAt(e);
    SliceChars(e, 0, k);
    assert e[..k] == e[0..k];
    SliceChars(e, k + 1, |e|);
  }

  // ----- What the as-written chain lets through -----

  /**
   * Clearing the interval field stores `parseInt("")`, which is NaN, and the interval guard
   * lets it through: the record is then saved exactly when it carries a notifications object
   * whose e-mail guards pass, and otherwise the save fails later for a reason that has
   * nothing to do with the interval.
   */
  lemma SaveAcceptsUnparsedInterval(s: SystemSettings)
    requires IsPin(s.pin)
    ensures ParseInt("") == NaN
    ensures var e := s.(measurementInterval := ParseInt(""));
      !ValidInterval(e.measurementInterval) && HandleSave(e) != InvalidInterval
      && (HandleSave(e) == Saved(e) <==> NotificationsPass(e.notifications))
  {
    assert ParseInt("") == NaN by {
      assert TrimStart("") == "";
    }
    PastIntervalGuard(s.(measurementInterval := NaN));
  }

  /** A record past the interval guard is saved exactly when its e-mail guards pass. */
  lemma PastIntervalGuard(e: SystemSettings)
    requires IsPin(e.pin) && !BelowMinimumInterval(e.measurementInterval)
    ensures HandleSave(e) != InvalidInterval
    ensures HandleSave(e) == Saved(e) <==> NotificationsPass(e.notifications)
  {
  }

  /** An interval above the schema's maximum of 86400 seconds passes the guard as well. */
  lemma SaveAcceptsOversizedInterval(s: SystemSettings)
    requires IsPin(s.pin)
    ensures var e := s.(measurementInterval := Int(100000));
      !ValidInterval(e.measurementInterval) && HandleSave(e) != InvalidInterval
      && (HandleSave(e) == Saved(e) <==> NotificationsPass(e.notifications))
  {
    PastIntervalGuard(s.(measurementInterval := Int(100000)));
  }

  /**
   * A record without a notifications object is never saved; with a valid PIN and an
   * interval that passes its guard the save stops at the unguarded `notifications.enabled`.
   * The shipped defaults are such a record, and a profile edit keeps that.
   */
  lemma MissingNotificationsNeverSave(edited: SystemSettings, id: int, edit: ProfileEdit)
    ensures edited.notifications.None? ==> !HandleSave(edited).Saved?
    ensures HandleSave(DefaultSystemSettings) == NotificationsMissing
    ensures HandleSave(HandlePlantProfileChange(DefaultSystemSettings, id, edit)) == NotificationsMissing
  {
    DefaultsValid();
  }

  /**
   * The check the guards evidently mean: a number from 60 to 86400, and a missing
   * notifications object read as notifications switched off (`notifications?.enabled`).
   */
  function HandleSaveIntended(edited: SystemSettings): (r: SaveOutcome)
    ensures r == InvalidPin <==> !IsPin(edited.pin)
    ensures r == InvalidInterval <==> IsPin(edited.pin) && !ValidInterval(edited.measurementInterval)
    ensures r != NotificationsMissing
    ensures r.Saved? ==> r.settings == edited
  {
    if |edited.pin| != 4 || !IsPin(edited.pin) then InvalidPin
    else if !ValidInterval(edited.measurementInterval) then InvalidInterval
    else match edited.notifications
      case None => Saved(edited)
      case Some(n) =>
        match CheckEmail(n)
        case Some(failure) => failure
        case None => Saved(edited)
  }

  /**
   * Whatever the intended chain saves has a valid PIN and interval and, with notifications
   * on, a well-formed address; it agrees with the written chain on every valid interval when
   * a notifications object is present, and saves every valid record that has none.
   */
  lemma IntendedSaveIsValid(edited: SystemSettings)
    ensures HandleSaveIntended(edited).Saved? ==>
      IsPin(edited.pin) && ValidInterval(edited.measurementInterval)
      && (edited.notifications.Some? && edited.notifications.value.enabled ==>
            edited.notifications.value.email.Some? && MatchesEmailPattern(edited.notifications.value.email.value))
    ensures ValidInterval(edited.measurementInterval) && edited.notifications.Some? ==>
      HandleSaveIntended(edited) == HandleSave(edited)
    ensures IsPin(edited.pin) && ValidInterval(edited.measurementInterval) && edited.notifications.None? ==>
      HandleSaveIntended(edited) == Saved(edited)
  {
    if HandleSaveIntended(edited).Saved? && edited.notifications.Some? && edited.notifications.value.enabled {
      IsEmailMatchesPattern(edited.notifications.value.email.value);
    }
  }

  /** Under the intended chain the shipped defaults can be saved. */
  lemma IntendedSavesDefaults()
    ensures HandleSaveIntended(DefaultSystemSettings) == Saved(DefaultSystemSettings)
  {
    DefaultsValid();
  }

  // ===== handlePlantProfileChange =====

  /** The fields the profile inputs edit (`[field]: value`). */
  datatype ProfileEdit = SetName(name: string) | SetMoistureMin(moistureMin: int) | SetMoistureMax(moistureMax: int)

  function ApplyEdit(p: PlantProfile, edit: ProfileEdit): (r: PlantProfile)
    ensures r.id == p.id && r.enabled == p.enabled
    ensures r.useSeasonalSchedule == p.useSeasonalSchedule && r.seasonalThresholds == p.seasonalThresholds
    ensures r.name == (if edit.SetName? then edit.name else p.name)
    ensures r.moistureMin == (if edit.SetMoistureMin? then edit.moistureMin else p.moistureMin)
    ensures r.moistureMax == (if edit.SetMoistureMax? then edit.moistureMax else p.moistureMax)
  {
    match edit
    case SetName(n) => p.(name := n)
    case SetMoistureMin(v) => p.(moistureMin := v)
    case SetMoistureMax(v) => p.(moistureMax := v)
  }

  /** `plantProfiles.map(p => p.id === id ? f(p) : p)`. */
  function MapById(ps: seq<PlantProfile>, id: int, f: PlantProfile -> PlantProfile): (r: seq<PlantProfile>)
    ensures |r| == |ps|
    ensures forall i :: 0 <= i < |ps| ==> r[i] == if ps[i].id == id then f(ps[i]) else ps[i]
  {
    if ps == [] then []
    else [if ps[0].id == id then f(ps[0]) else ps[0]] + MapById(ps[1..], id, f)
  }

  /** `handlePlantProfileChange(id, field, value)`. */
  function HandlePlantProfileChange(s: SystemSettings, id: int, edit: ProfileEdit): (r: SystemSettings)
    ensures r.pin == s.pin && r.measurementInterval == s.measurementInterval
    ensures r.numberOfPlants == s.numberOfPlants && r.waterTank == s.waterTank
    ensures r.notifications == s.notifications
    ensures |r.plantProfiles| == |s.plantProfiles|
    ensures forall i :: 0 <= i < |s.plantProfiles| ==>
      r.plantProfiles[i] == if s.plantProfiles[i].id == id then ApplyEdit(s.plantProfiles[i], edit) else s.plantProfiles[i]
  {
    s.(plantProfiles := MapById(s.plantProfiles, id, p => ApplyEdit(p, edit)))
  }

  /** The schedule editor's `onChange`: the profile with the updated profile's id is replaced. */
  function ReplaceProfile(s: SystemSettings, updated: PlantProfile): (r: SystemSettings)
    ensures r.pin == s.pin && r.measurementInterval == s.measurementInterval
    ensures r.numberOfPlants == s.numberOfPlants && r.waterTank == s.waterTank
    ensures r.notifications == s.notifications
    ensures |r.plantProfiles| == |s.plantProfiles|
    ensures forall i :: 0 <= i < |s.plantProfiles| ==>
      r.plantProfiles[i] == if s.plantProfiles[i].id == updated.id then updated else s.plantProfiles[i]
  {
    s.(plantProfiles := MapById(s.plantProfiles, updated.id, _ => updated))
  }

  /** Ids are distinct in the list, as the defaults have them. */
  predicate DistinctIds(ps: seq<PlantProfile>) {
    forall i, j :: 0 <= i < j < |ps| ==> ps[i].id != ps[j].id
  }

  /**
   * An edit keeps every id, so the ids stay distinct; for a valid list and a value within
   * [0, 100] (or a name of 1 to 50 characters) every profile stays valid.
   */
  lemma EditKeepsProfilesValid(s: SystemSettings, id: int, edit: ProfileEdit)
    requires forall i :: 0 <= i < |s.plantProfiles| ==> ValidPlantProfile(s.plantProfiles[i])
    requires edit.SetName? ==> 1 <= |edit.name| <= 50
    requires edit.SetMoistureMin? ==> 0 <= edit.moistureMin <= 100
    requires edit.SetMoistureMax? ==> 0 <= edit.moistureMax <= 100
    ensures var r := HandlePlantProfileChange(s, id, edit).plantProfiles;
      (forall i :: 0 <= i < |r| ==> ValidPlantProfile(r[i]) && r[i].id == s.plantProfiles[i].id)
      && (DistinctIds(s.plantProfiles) ==> DistinctIds(r))
  {
  }

  /** With distinct ids exactly one profile changes, the one at the position holding `id`. */
  lemma EditTouchesOneProfile(s: SystemSettings, k: nat, edit: ProfileEdit)
    requires k < |s.plantProfiles| && DistinctIds(s.plantProfiles)
    ensures var r := HandlePlantProfileChange(s, s.plantProfiles[k].id, edit).plantProfiles;
      r[k] == ApplyEdit(s.plantProfiles[k], edit)
      && forall i :: 0 <= i < |r| && i != k ==> r[i] == s.plantProfiles[i]
  {
  }

  /** On the default settings, renaming plant 2 only changes that name. */
  lemma RenameDefaultPlant()
    ensures var r := HandlePlantProfileChange(DefaultSystemSettings, 2, SetName("Basilikum")).plantProfiles;
      r[1].name == "Basilikum" && r[1].id == 2
      && r[0] == DefaultPlantProfiles[0] && r[2] == DefaultPlantProfiles[2] && r[3] == DefaultPlantProfiles[3]
  {
    DefaultsValid();
  }
}
