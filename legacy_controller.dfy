/**
 * The decisions of the single-file controller (main_1.py): the error log kept in the
 * database with its pruning to the ten newest entries, the summer-time decision, the
 * display status and its redraw-on-change, and the grading of the system test. Sensors,
 * pumps, the display and HTTP are opaque: their outcomes are parameters, and a pump run is
 * returned rather than performed. `time.time()` is the parameter `now` (whole seconds).
 */
module LegacyController {
  import opened Wrappers
  import opened Text
  import opened Schema
  import opened ErrorList
  import opened TimeSync
  import opened Watering

  // ===== The stored error log =====

  const MaxStoredErrors: nat := 10

  /** The position of the first entry with `key`, or `|es|` when there is none. */
  function KeyIndex(es: seq<Entry>, key: string): (i: nat)
    ensures i <= |es|
    ensures i < |es| ==> es[i].0 == key
    ensures forall j :: 0 <= j < i ==> es[j].0 != key
  {
    if es == [] then 0
    else if es[0].0 == key then 0
    else 1 + KeyIndex(es[1..], key)
  }

  /**
   * `existing_errors[error_key] = error_data`: a present key keeps its position and takes
   * the new value, an absent key is appended.
   */
  function Put(es: seq<Entry>, key: string, v: SystemError): (r: seq<Entry>)
    ensures (key, v) in r
    ensures forall e :: e in es && e.0 != key ==> e in r
    ensures forall e :: e in r && e != (key, v) ==> e in es
    ensures |r| == if KeyIndex(es, key) < |es| then |es| else |es| + 1
    ensures DistinctKeys(es) ==> DistinctKeys(r)
  {
    var i := KeyIndex(es, key);
    if i < |es| then
      var r := es[i := (key, v)];
      assert forall j :: 0 <= j < |r| ==> r[j].0 == es[j].0;
      r
    else es + [(key, v)]
  }

  /** The pruning step: more than ten entries are cut to the ten newest, newest first. */
  function Prune(es: seq<Entry>): seq<Entry> {
    if |es| > MaxStoredErrors then KeepNewest(es, MaxStoredErrors) else es
  }

  /** `error_{int(time.time())}_{error_count}`. */
  function ErrorKey(now: nat, count: nat): string {
    "error_" + DecimalString(now) + "_" + DecimalString(count)
  }

  /** The list `log_error` writes back, from the list it read. */
  function LoggedErrors(existing: seq<Entry>, key: string, data: SystemError): seq<Entry> {
    Prune(Put(existing, key, data))
  }

  /**
   * After logging, at most ten errors are stored, all of them from the old list or the new
   * one, and no dropped entry is newer than a kept one; keys stay distinct.
   */
  lemma LoggedErrorsSpec(existing: seq<Entry>, key: string, data: SystemError)
    ensures |existing| < MaxStoredErrors ==> |LoggedErrors(existing, key, data)| <= MaxStoredErrors
    ensures |Put(existing, key, data)| > MaxStoredErrors ==> |LoggedErrors(existing, key, data)| == MaxStoredErrors
    ensures multiset(LoggedErrors(existing, key, data)) <= multiset(Put(existing, key, data))
    ensures var p, r := Put(existing, key, data), LoggedErrors(existing, key, data);
      forall x, y :: x in multiset(p) - multiset(r) && y in r ==> x.1.timestamp <= y.1.timestamp
    ensures DistinctKeys(existing) ==> DistinctKeys(LoggedErrors(existing, key, data))
  {
    var p := Put(existing, key, data);
    var r := LoggedErrors(existing, key, data);
    if |p| > MaxStoredErrors {
      KeepNewestSpec(p, MaxStoredErrors);
      if DistinctKeys(existing) {
        DistinctKeysKept(p, r);
      }
    }
  }

  /** With at most ten stored errors before the call, the stored list never exceeds ten. */
  lemma LogStaysBounded(existing: seq<Entry>, key: string, data: SystemError)
    requires |existing| <= MaxStoredErrors
    ensures |LoggedErrors(existing, key, data)| <= MaxStoredErrors
  {
    LoggedErrorsSpec(existing, key, data);
  }

  /** An entry strictly newer than all others comes first in the newest-first order. */
  lemma StrictlyNewestFirst(p: seq<Entry>, x: Entry)
    requires x in p
    requires forall y :: y in p && y != x ==> y.1.timestamp < x.1.timestamp
    ensures |SortNewestFirst(p)| > 0 && SortNewestFirst(p)[0] == x
  {
    var s := SortNewestFirst(p);
    assert x in multiset(s);
    var j :| 0 <= j < |s| && s[j] == x;
    assert s[0].1.timestamp >= s[j].1.timestamp;
    assert s[0] in multiset(p);
  }

  /** A new error strictly newer than every stored one survives the pruning. */
  lemma NewestErrorKept(existing: seq<Entry>, key: string, data: SystemError)
    requires forall e :: e in existing ==> e.1.timestamp < data.timestamp
    ensures (key, data) in LoggedErrors(existing, key, data)
  {
    var p := Put(existing, key, data);
    if |p| > MaxStoredErrors {
      StrictlyNewestFirst(p, (key, data));
    }
  }

  /** A failed read (`get` returns `None`, so `or {}`) loses the stored history. */
  lemma FailedReadDropsHistory(key: string, data: SystemError)
    ensures LoggedErrors([], key, data) == [(key, data)]
  {
  }

  /** Below ten stored errors and with a fresh key, logging only appends. */
  lemma LogAppendsWhenRoom(existing: seq<Entry>, key: string, data: SystemError)
    requires |existing| < MaxStoredErrors
    requires forall e :: e in existing ==> e.0 != key
    ensures LoggedErrors(existing, key, data) == existing + [(key, data)]
  {
    forall j | 0 <= j < |existing| ensures existing[j].0 != key {
      assert existing[j] in existing;
    }
    assert KeyIndex(existing, key) == |existing|;
  }

  /** `FirebaseClient` with the database's `systemErrors` node as a field. */
  class FirebaseClient {
    var errorCount: nat
    /** The `systemErrors` node as stored in the database. */
    var systemErrors: seq<Entry>

    constructor(stored: seq<Entry>)
      ensures errorCount == 0 && systemErrors == stored
    {
      errorCount := 0;
      systemErrors := stored;
    }

    /**
     * `log_error(...)`: read the node (`getOk` false: the read failed), count the call,
     * add the new unresolved entry, prune, and write back (`putOk` false: the write failed).
     */
    method LogError(errorType: string, component: string, message: string, severity: string,
                    now: nat, getOk: bool, putOk: bool)
      modifies this
      ensures errorCount == old(errorCount) + 1
      ensures putOk ==> systemErrors == LoggedErrors(if getOk then old(systemErrors) else [],
        ErrorKey(now, errorCount), SystemError(now * 1000, errorType, component, message, severity, false))
      ensures !putOk ==> systemErrors == old(systemErrors)
    {
      var existing := if getOk then systemErrors else [];
      errorCount := errorCount + 1;
      var errorKey := ErrorKey(now, errorCount);
      var errorData := SystemError(now * 1000, errorType, component, message, severity, false);
      existing := Put(existing, errorKey, errorData);
      if |existing| > MaxStoredErrors {
        existing := KeepNewest(existing, MaxStoredErrors);
      }
      if putOk {
        systemErrors := existing;
      }
    }
  }

  // ===== The system test =====

  /** `0 <= moisture <= 100`; a read that raises (`None`) fails. */
  predicate MoisturePasses(reading: Option<real>) {
    reading.Some? && 0.0 <= reading.value <= 100.0
  }

  /** `-40 <= temp <= 80 and 0 <= humidity <= 100`. */
  predicate DhtPasses(reading: Option<(real, real)>) {
    reading.Some? && -40.0 <= reading.value.0 <= 80.0 && 0.0 <= reading.value.1 <= 100.0
  }

  /** `2 <= distance <= 400`, the range of the HC-SR04. */
  predicate UltrasonicPasses(distance: Option<real>) {
    distance.Some? && 2.0 <= distance.value <= 400.0
  }

  /** `list.count(False)`. */
  function CountFalse(s: seq<bool>): (n: nat)
    ensures n <= |s|
    ensures n == 0 <==> forall i :: 0 <= i < |s| ==> s[i]
  {
    if s == [] then 0
    else (if s[0] then 0 else 1) + CountFalse(s[1..])
  }

  /** The `all_tests` conjunction. */
  predicate AllTestsPassed(t: SensorTests, pumps: seq<bool>, connectivity: bool) {
    (forall i :: 0 <= i < |t.moistureSensors| ==> t.moistureSensors[i])
    && t.dht11 && t.ultrasonic
    && (forall i :: 0 <= i < |pumps| ==> pumps[i])
    && connectivity
  }

  /** `failed_count`: one per failed sensor, pump and connectivity check. */
  function FailedCount(t: SensorTests, pumps: seq<bool>, connectivity: bool): nat {
    CountFalse(t.moistureSensors) + (if t.dht11 then 0 else 1) + (if t.ultrasonic then 0 else 1)
    + CountFalse(pumps) + (if connectivity then 0 else 1)
  }

  /**
   * The grading: passed when every check passed, warning for one or two failures, failed
   * for more. Passing means no failure at all, so a warning has at least one.
   */
  function Grade(t: SensorTests, pumps: seq<bool>, connectivity: bool): (s: TestStatus)
    ensures s == TestPassed <==> FailedCount(t, pumps, connectivity) == 0
    ensures s == TestWarning <==> 1 <= FailedCount(t, pumps, connectivity) <= 2
    ensures s == TestFailed <==> FailedCount(t, pumps, connectivity) > 2
  {
    if AllTestsPassed(t, pumps, connectivity) then TestPassed
    else if FailedCount(t, pumps, connectivity) <= 2 then TestWarning
    else TestFailed
  }

  /** The `details` text of each grade. */
  function Details(t: SensorTests, pumps: seq<bool>, connectivity: bool): string {
    var n := FailedCount(t, pumps, connectivity);
    match Grade(t, pumps, connectivity)
    case TestPassed => "Alle Tests erfolgreich abgeschlossen"
    case TestWarning => DecimalString(n) + " Test(s) fehlgeschlagen"
    case TestFailed => DecimalString(n) + " Test(s) fehlgeschlagen - Systemprüfung erforderlich"
  }

  /** A single failed pump gives a warning; a dead sensor bus (all four moisture reads) fails. */
  lemma GradeExamples()
    ensures Grade(SensorTests([true, true, true, true], true, true), [true, false, true, true], true) == TestWarning
    ensures Grade(SensorTests([false, false, false, false], true, true), [true, true, true, true], true) == TestFailed
    ensures Details(SensorTests([true, true, true, true], true, true), [true, true, true, true], true)
         == "Alle Tests erfolgreich abgeschlossen"
  {
    assert CountFalse([true, false, true, true]) == 1;
    assert CountFalse([false, false, false, false]) == 4;
  }

  // ===== The controller =====

  /** The warning condition of the display: low water, or some active plant below its minimum. */
  ghost predicate DisplayWarns(settings: Option<SystemSettings>, sensor: Option<SensorData>)
    requires sensor.Some? && settings.Some? ==> PlantsIndexable(settings.value, sensor.value.plantMoisture)
  {
    sensor.Some? && (sensor.value.waterLevel < 20.0
      || (settings.Some? && AnyNeedsWater(settings.value, sensor.value.plantMoisture)))
  }

  class WateringSystem {
    const fb: FirebaseClient
    /** Whether an e-ink display was passed in (`self.eink`). */
    const einkPresent: bool
    var settings: Option<SystemSettings>
    var lastDisplayStatus: Option<DisplayStatus>

    constructor(fb: FirebaseClient, einkPresent: bool)
      ensures this.fb == fb && this.einkPresent == einkPresent
      ensures settings.None? && lastDisplayStatus.None?
    {
      this.fb := fb;
      this.einkPresent := einkPresent;
      settings := None;
      lastDisplayStatus := None;
    }

    /**
     * `is_dst(year, month, day, hour)`. The searches loop `while True` with the bound test
     * first; they stop at the same days as those of esp32/ntp_sync.py, so both controllers
     * decide summer time alike.
     */
    method IsDst(year: int, month: int, day: int, hour: int) returns (dst: bool)
      ensures month < 3 || month > 10 ==> !dst
      ensures 3 < month < 10 ==> dst
      ensures month == 3 ==>
        (dst <==> day > SwitchDay(year, 3) || (day == SwitchDay(year, 3) && hour >= 2))
      ensures month == 10 ==>
        (dst <==> day < SwitchDay(year, 10) || (day == SwitchDay(year, 10) && hour < 3))
    {
      SwitchDaySpec(year, 3);
      var marchLastSunday := 31;
      while true
        invariant SwitchDay(year, 3) <= marchLastSunday <= 31
        decreases marchLastSunday
      {
        if marchLastSunday <= 0 {
          break;
        }
        var m := 3;
        var y := year;
        var d := marchLastSunday;
        if m < 3 {
          m := m + 12;
          y := y - 1;
        }
        var weekday := (d + (13 * (m + 1)) / 5 + y + y / 4 - y / 100 + y / 400) % 7;
        if weekday == 0 {
          break;
        }
        WeekdayCountsDown(year, 3, marchLastSunday);
        marchLastSunday := marchLastSunday - 1;
      }
      WeekdayCountsDown(year, 3, marchLastSunday);

      SwitchDaySpec(year, 10);
      var octoberLastSunday := 31;
      while true
        invariant SwitchDay(year, 10) <= octoberLastSunday <= 31
        decreases octoberLastSunday
      {
        if octoberLastSunday <= 0 {
          break;
        }
        var m := 10;
        var y := year;
        var d := octoberLastSunday;
        var weekday := (d + (13 * (m + 1)) / 5 + y + y / 4 - y / 100 + y / 400) % 7;
        if weekday == 0 {
          break;
        }
        WeekdayCountsDown(year, 10, octoberLastSunday);
        octoberLastSunday := octoberLastSunday - 1;
      }
      WeekdayCountsDown(year, 10, octoberLastSunday);

      if month < 3 || month > 10 {
        dst := false;
      } else if month > 3 && month < 10 {
        dst := true;
      } else if month == 3 {
        if day < marchLastSunday {
          dst := false;
        } else if day > marchLastSunday {
          dst := true;
        } else {
          dst := hour >= 2;
        }
      } else {
        if day < octoberLastSunday {
          dst := true;
        } else if day > octoberLastSunday {
          dst := false;
        } else {
          dst := hour < 3;
        }
      }
    }

    /** The status part of `update_display`: "warning" or "ok", never "error". */
    method DisplayStatusOf(sensor: Option<SensorData>) returns (status: DisplayStatus)
      requires sensor.Some? && settings.Some? ==> PlantsIndexable(settings.value, sensor.value.plantMoisture)
      ensures status != DisplayError
      ensures status == DisplayWarning <==> DisplayWarns(settings, sensor)
    {
      status := DisplayOk;
      if sensor.Some? {
        var data := sensor.value;
        if data.waterLevel < 20.0 {
          status := DisplayWarning;
        }
        if settings.Some? {
          var s := settings.value;
          var i := 0;
          while i < s.numberOfPlants
            invariant 0 <= i <= s.numberOfPlants
            invariant forall j :: 0 <= j < i ==> !NeedsWater(s, data.plantMoisture, j)
            invariant status == DisplayWarning <==> data.waterLevel < 20.0
          {
            var profile := s.plantProfiles[i];
            var moisture := data.plantMoisture[i];
            if moisture < profile.moistureMin as real {
              assert NeedsWater(s, data.plantMoisture, i);
              status := DisplayWarning;
              break;
            }
            i := i + 1;
          }
        }
      }
    }

    /**
     * `update_display(sensor_data)`: without a display nothing happens; otherwise the
     * display is redrawn only when the status differs from the last one drawn, and the last
     * status moves only when the draw succeeds. A failed draw (`drawFailure` holds the
     * exception text) is logged as a warning through `fb`.
     */
    method UpdateDisplay(sensor: Option<SensorData>, drawFailure: Option<string>, now: nat, getOk: bool, putOk: bool)
      returns (status: Option<DisplayStatus>, drawn: bool)
      requires sensor.Some? && settings.Some? ==> PlantsIndexable(settings.value, sensor.value.plantMoisture)
      modifies this, fb
      ensures settings == old(settings)
      ensures !einkPresent ==> status.None?
      ensures einkPresent ==>
        status.Some? && (status.value == DisplayWarning <==> DisplayWarns(settings, sensor)) && status.value != DisplayError
      ensures drawn <==> einkPresent && status != old(lastDisplayStatus) && drawFailure.None?
      ensures lastDisplayStatus == if drawn then status else old(lastDisplayStatus)
      ensures einkPresent && status != old(lastDisplayStatus) && drawFailure.Some? ==>
        fb.errorCount == old(fb.errorCount) + 1
        && fb.systemErrors == (if !putOk then old(fb.systemErrors) else
             LoggedErrors(if getOk then old(fb.systemErrors) else [], ErrorKey(now, fb.errorCount),
               SystemError(now * 1000, "eink_display", "Display Update",
                           "E-Ink update failed: " + drawFailure.value, "warning", false)))
      ensures !(einkPresent && status != old(lastDisplayStatus) && drawFailure.Some?) ==>
        fb.errorCount == old(fb.errorCount) && fb.systemErrors == old(fb.systemErrors)
    {
      drawn := false;
      if !einkPresent {
        return None, false;
      }
      var s := DisplayStatusOf(sensor);
      status := Some(s);
      if status != lastDisplayStatus {
        if drawFailure.None? {
          lastDisplayStatus := status;
          drawn := true;
        } else {
          fb.LogError("eink_display", "Display Update", "E-Ink update failed: " + drawFailure.value, "warning",
                      now, getOk, putOk);
        }
      }
    }

    /**
     * `execute_system_test()`: four moisture reads, the DHT11, the ultrasonic sensor, four
     * one-second pump runs and a read of `systemStatus`; `None` stands for a call that
     * raised, `statusFetched` for a read that returned data.
     */
    method ExecuteSystemTest(timestamp: int, moisture: seq<Option<real>>, dht: Option<(real, real)>,
                             distance: Option<real>, pumpOk: seq<bool>, statusFetched: bool)
      returns (result: SystemTestResult)
      requires |moisture| == 4 && |pumpOk| == 4
      ensures ValidSystemTestResult(result) && result.timestamp == timestamp
      ensures forall i :: 0 <= i < 4 ==> result.sensorTests.moistureSensors[i] == MoisturePasses(moisture[i])
      ensures result.sensorTests.dht11 == DhtPasses(dht)
      ensures result.sensorTests.ultrasonic == UltrasonicPasses(distance)
      ensures result.pumpTests == pumpOk
      ensures result.connectivityTest == statusFetched
      ensures result.overallStatus == Grade(result.sensorTests, result.pumpTests, result.connectivityTest)
      ensures result.details == Some(Details(result.sensorTests, result.pumpTests, result.connectivityTest))
    {
      var sensors: seq<bool> := [];
      for i := 0 to 4
        invariant |sensors| == i
        invariant forall j :: 0 <= j < i ==> sensors[j] == MoisturePasses(moisture[j])
      {
        var passed := moisture[i].Some? && 0.0 <= moisture[i].value <= 100.0;
        sensors := sensors + [passed];
      }
      var dhtPassed := dht.Some? && -40.0 <= dht.value.0 <= 80.0 && 0.0 <= dht.value.1 <= 100.0;
      var ultrasonicPassed := distance.Some? && 2.0 <= distance.value <= 400.0;
      var pumps: seq<bool> := [];
      for i := 0 to 4
        invariant pumps == pumpOk[..i]
      {
        pumps := pumps + [pumpOk[i]];
      }
      var tests := SensorTests(sensors, dhtPassed, ultrasonicPassed);
      var status, details := DetermineOverall(tests, pumps, statusFetched);
      assert pumps == pumpOk;
      result := SystemTestResult(timestamp, status, tests, pumps, statusFetched, Some(details));
    }

    /** The "Determine overall status" step of `execute_system_test`. */
    static method DetermineOverall(tests: SensorTests, pumps: seq<bool>, connectivity: bool)
      returns (status: TestStatus, details: string)
      ensures status == Grade(tests, pumps, connectivity)
      ensures details == Details(tests, pumps, connectivity)
    {
      if AllTestsPassed(tests, pumps, connectivity) {
        status := TestPassed;
        details := "Alle Tests erfolgreich abgeschlossen";
      } else {
        var failedCount := CountFalse(tests.moistureSensors) + (if tests.dht11 then 0 else 1)
                           + (if tests.ultrasonic then 0 else 1) + CountFalse(pumps) + (if connectivity then 0 else 1);
        if failedCount <= 2 {
          status := TestWarning;
          details := DecimalString(failedCount) + " Test(s) fehlgeschlagen";
        } else {
          status := TestFailed;
          details := DecimalString(failedCount) + " Test(s) fehlgeschlagen - Systemprüfung erforderlich";
        }
      }
    }
  }
}
