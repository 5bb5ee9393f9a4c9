/**
 * The selection in the `onValue` callback of the dashboard's errors card
 * (client/src/components/ErrorsCard.tsx): drop resolved errors, sort newest first, keep
 * ten, and rebuild a record; then the header counts by severity.
 */
module ErrorsCard {
  import opened Wrappers
  import opened Schema
  import opened ErrorList

  const MaxShownErrors: nat := 10

  /** `filter(([_, error]) => !error.resolved)`, keeping the order. */
  function Unresolved(es: seq<Entry>): (r: seq<Entry>)
    ensures forall i :: 0 <= i < |r| ==> !r[i].1.resolved
    ensures multiset(r) <= multiset(es)
    ensures forall x :: x in es && !x.1.resolved ==> x in r
  {
    if es == [] then []
    else
      assert es == [es[0]] + es[1..];
      var rest := Unresolved(es[1..]);
      if es[0].1.resolved then rest else [es[0]] + rest
  }

  /**
   * `reduce((acc, [key, error]) => ({ ...acc, [key]: error }), {})`: a left fold in which
   * a later key overwrites an earlier one.
   */
  function ToRecord(es: seq<Entry>): (m: map<string, SystemError>)
    ensures m.Keys == set i | 0 <= i < |es| :: es[i].0
  {
    if es == [] then map[]
    else
      var init := es[..|es| - 1];
      var m := ToRecord(init)[es[|es| - 1].0 := es[|es| - 1].1];
      assert forall i :: 0 <= i < |init| ==> init[i] == es[i];
      m
  }

  /** Over distinct keys the record holds every entry under its own key, unchanged. */
  lemma {:induction false} RecordHoldsEntries(es: seq<Entry>)
    requires DistinctKeys(es)
    ensures forall i :: 0 <= i < |es| ==> ToRecord(es)[es[i].0] == es[i].1
  {
    if es != [] {
      var init := es[..|es| - 1];
      assert DistinctKeys(init) by {
        forall i, j | 0 <= i < j < |init| ensures init[i].0 != init[j].0 {
          assert init[i] == es[i] && init[j] == es[j];
        }
      }
      RecordHoldsEntries(init);
      forall i | 0 <= i < |es| ensures ToRecord(es)[es[i].0] == es[i].1 {
        if i < |es| - 1 {
          assert init[i] == es[i];
        }
      }
    }
  }

  /** The callback: an absent snapshot clears the list. */
  function ActiveErrors(snapshot: Option<seq<Entry>>): seq<Entry> {
    match snapshot
    case None => []
    case Some(es) => KeepNewest(Unresolved(es), MaxShownErrors)
  }

  /** `ActiveErrors` as the record the card stores with `setErrors`. */
  function ActiveErrorRecord(snapshot: Option<seq<Entry>>): map<string, SystemError> {
    ToRecord(ActiveErrors(snapshot))
  }

  /**
   * The displayed errors: none when the snapshot is absent; otherwise at most ten, none of
   * them resolved, each an entry of the snapshot with its key and value, newest first, and
   * no unresolved entry left out is newer than one shown.
   */
  lemma ActiveErrorsSpec(snapshot: Option<seq<Entry>>)
    ensures snapshot.None? ==> ActiveErrors(snapshot) == []
    ensures |ActiveErrors(snapshot)| <= MaxShownErrors
    ensures forall i :: 0 <= i < |ActiveErrors(snapshot)| ==> !ActiveErrors(snapshot)[i].1.resolved
    ensures snapshot.Some? ==> multiset(ActiveErrors(snapshot)) <= multiset(snapshot.value)
    ensures NewestFirst(ActiveErrors(snapshot))
    ensures snapshot.Some? ==> forall x, y ::
      (x in snapshot.value && !x.1.resolved && x !in ActiveErrors(snapshot) && y in ActiveErrors(snapshot) ==>
         x.1.timestamp <= y.1.timestamp)
  {
    if snapshot.Some? {
      var es := snapshot.value;
      var u := Unresolved(es);
      var r := ActiveErrors(snapshot);
      KeepNewestSpec(u, MaxShownErrors);
      forall i | 0 <= i < |r| ensures !r[i].1.resolved {
        assert r[i] in multiset(u);
        var j :| 0 <= j < |u| && u[j] == r[i];
      }
      forall x, y | x in es && !x.1.resolved && x !in r && y in r ensures x.1.timestamp <= y.1.timestamp {
        assert x in u;
        assert x in multiset(u) - multiset(r);
      }
    }
  }

  /** With at most ten unresolved errors, every one of them is shown. */
  lemma FewErrorsAllShown(es: seq<Entry>)
    requires |Unresolved(es)| <= MaxShownErrors
    ensures forall x :: x in es && !x.1.resolved ==> x in ActiveErrors(Some(es))
  {
    KeepNewestKeepsSmall(Unresolved(es), MaxShownErrors);
    forall x | x in es && !x.1.resolved ensures x in ActiveErrors(Some(es)) {
      assert x in multiset(ActiveErrors(Some(es)));
    }
  }

  /** The stored record holds exactly the displayed entries when the snapshot's keys are distinct. */
  lemma RecordMatchesSelection(es: seq<Entry>)
    requires DistinctKeys(es)
    ensures var r := ActiveErrors(Some(es));
      ActiveErrorRecord(Some(es)).Keys == (set i | 0 <= i < |r| :: r[i].0)
      && forall i :: 0 <= i < |r| ==> ActiveErrorRecord(Some(es))[r[i].0] == r[i].1
  {
    var r := ActiveErrors(Some(es));
    KeepNewestSpec(Unresolved(es), MaxShownErrors);
    DistinctKeysKept(es, r);
    RecordHoldsEntries(r);
  }

  // ===== The header counts =====

  /** `Object.keys(errors).length`. */
  function ErrorCount(snapshot: Option<seq<Entry>>): nat {
    |ActiveErrors(snapshot)|
  }

  /** `Object.values(errors).filter(e => e.severity === "error").length`. */
  function CriticalCount(snapshot: Option<seq<Entry>>): nat {
    CountSeverity(ActiveErrors(snapshot), "error")
  }

  /** `Object.values(errors).filter(e => e.severity === "warning").length`. */
  function WarningCount(snapshot: Option<seq<Entry>>): nat {
    CountSeverity(ActiveErrors(snapshot), "warning")
  }

  /** The two counts never add up to more than the errors shown, which are at most ten. */
  lemma CountsBounded(snapshot: Option<seq<Entry>>)
    ensures CriticalCount(snapshot) + WarningCount(snapshot) <= ErrorCount(snapshot) <= MaxShownErrors
  {
    CountsDisjoint(ActiveErrors(snapshot), "error", "warning");
    ActiveErrorsSpec(snapshot);
  }

  /** When nothing is cut off, the counts are those of all unresolved errors of the snapshot. */
  lemma CountsOfAllUnresolved(es: seq<Entry>, severity: string)
    requires |Unresolved(es)| <= MaxShownErrors
    ensures CountSeverity(ActiveErrors(Some(es)), severity) == CountSeverity(Unresolved(es), severity)
  {
    KeepNewestKeepsSmall(Unresolved(es), MaxShownErrors);
    CountPermutation(ActiveErrors(Some(es)), Unresolved(es), severity);
  }

  /** A snapshot of one open error and one resolved error shows only the open one. */
  lemma ResolvedHiddenScenario()
    ensures var open := ("a", SystemError(2000, "sensor", "moisture_1", "Sensor fehlt", "error", false));
      var closed := ("b", SystemError(3000, "pump", "pump_1", "Pumpe", "warning", true));
      ActiveErrors(Some([open, closed])) == [open]
      && CriticalCount(Some([open, closed])) == 1 && WarningCount(Some([open, closed])) == 0
  {
    var open := ("a", SystemError(2000, "sensor", "moisture_1", "Sensor fehlt", "error", false));
    var closed := ("b", SystemError(3000, "pump", "pump_1", "Pumpe", "warning", true));
    assert Unresolved([closed]) == [];
    assert Unresolved([open, closed]) == [open];
    var r := ActiveErrors(Some([open, closed]));
    KeepNewestSpec([open], MaxShownErrors);
    assert |r| == 1 && r[0] in multiset([open]);
  }
}
