/**
 * The decisions of the modular ESP32 controller (esp32/main_new.py): the three-level
 * display status and its redraw-on-change, the status it publishes, the hourly gate on
 * historical saves, the verdict of the self-test, and the manual watering command.
 * Hardware and database calls are opaque: their outcomes are parameters.
 */
module Controller {
  import opened Wrappers
  import opened Schema
  import opened Watering
  import LegacyController

  /** `CONFIG['WATERING_DURATION']`, the default length of a manual pump run in seconds. */
  const WateringDuration: real := 5.0

  /** `CONFIG['HISTORICAL_DATA_INTERVAL']`: one historical point per hour. */
  const HistoricalDataInterval: real := 3600.0

  /**
   * The `displayStatus` published with the system status in `run`: "error" below 20 %
   * water, "warning" below 40 %, "ok" otherwise.
   */
  function PublishedDisplayStatus(waterLevel: real): (s: DisplayStatus)
    ensures s == DisplayError <==> waterLevel < 20.0
    ensures s == DisplayWarning <==> 20.0 <= waterLevel < 40.0
    ensures s == DisplayOk <==> waterLevel >= 40.0
  {
    if waterLevel < 20.0 then DisplayError
    else if waterLevel < 40.0 then DisplayWarning
    else DisplayOk
  }

  /** Some active plant is below its minimum (false without settings). */
  ghost predicate PlantAlarm(settings: Option<SystemSettings>, sensor: SensorData)
    requires settings.Some? ==> PlantsIndexable(settings.value, sensor.plantMoisture)
  {
    settings.Some? && AnyNeedsWater(settings.value, sensor.plantMoisture)
  }

  /** What `hist_data` copies from the sensor reading: everything but the raw distance. */
  function ToHistorical(d: SensorData): (h: HistoricalSensorData)
    ensures h.timestamp == d.timestamp && h.plantMoisture == d.plantMoisture
    ensures h.temperature == d.temperature && h.humidity == d.humidity && h.waterLevel == d.waterLevel
  {
    HistoricalSensorData(d.timestamp, d.plantMoisture, d.temperature, d.humidity, d.waterLevel)
  }

  // ===== The self-test =====

  /** The `passed` flag of one entry of the test result; messages and readings are not kept. */
  datatype Check = Check(passed: bool)

  /** The dictionary `run_system_test` uploads, without the measured values. */
  datatype SelfTestResult = SelfTestResult(
    timestamp: int,
    moistureSensors: seq<Check>,
    pumps: seq<Check>,
    dht11: Check,
    ultrasonic: Check,
    database: Check,
    overall: bool)

  /** A plant passes when its moisture rose over the minute after a 3-second pump run. */
  predicate PlantPasses(reading: Option<(real, real)>) {
    reading.Some? && reading.value.1 > reading.value.0
  }

  /** `temp > 0 and humidity > 0`. */
  predicate DhtSelfTestPasses(reading: Option<(real, real)>) {
    reading.Some? && reading.value.0 > 0.0 && reading.value.1 > 0.0
  }

  /** `max_distance`: the tank height plus 5 cm with settings, 100 cm without. */
  function MaxDistance(settings: Option<SystemSettings>): (m: real)
    ensures settings.None? ==> m == 100.0
    ensures settings.Some? ==> m == settings.value.waterTank.height + 5.0
  {
    if settings.Some? then settings.value.waterTank.height + 5.0 else 100.0
  }

  /**
   * Within the sensor's range the self-test is stricter than the legacy controller's check:
   * whatever it passes the legacy check passes, but a frost reading passes the legacy check
   * and fails here.
   */
  lemma SelfTestStricterThanLegacy(t: real, h: real)
    ensures DhtSelfTestPasses(Some((t, h))) && t <= 80.0 && h <= 100.0 ==> LegacyController.DhtPasses(Some((t, h)))
    ensures LegacyController.DhtPasses(Some((-5.0, 60.0))) && !DhtSelfTestPasses(Some((-5.0, 60.0)))
  {
  }

  /** A command as read from `manualWatering`: `plantId` and `duration` may be missing. */
  datatype ManualCommand = ManualCommand(plantId: Option<int>, duration: Option<real>)

  /** A pump run: 0-based pump index and seconds. */
  datatype PumpRun = PumpRun(pump: int, duration: real)

  /**
   * `check_manual_watering()`: a command with a plant id runs pump `plantId - 1` for the
   * given duration, or for 5 seconds when none is given.
   */
  function ManualWateringAction(command: Option<ManualCommand>): (r: Option<PumpRun>)
    ensures r.Some? <==> command.Some? && command.value.plantId.Some?
    ensures r.Some? ==> r.value.pump + 1 == command.value.plantId.value
    ensures r.Some? && command.value.duration.None? ==> r.value.duration == WateringDuration
    ensures r.Some? && command.value.duration.Some? ==> r.value.duration == command.value.duration.value
  {
    match command
    case None => None
    case Some(c) =>
      if c.plantId.None? then None
      else Some(PumpRun(c.plantId.value - 1, c.duration.GetOr(WateringDuration)))
  }

  /**
   * A command the dashboard's schema accepts runs one of the four pumps: the one of its
   * plant, for its duration, which the schema always fills in (so the controller's own
   * default of 5 seconds, unlike the schema's 10, never applies).
   */
  lemma SchemaCommandRunsItsPump(plantId: int, timestamp: int, duration: Option<real>)
    requires ParseManualWatering(plantId, timestamp, duration).Some?
    ensures var w := ParseManualWatering(plantId, timestamp, duration).value;
      var r := ManualWateringAction(Some(ManualCommand(Some(w.plantId), Some(w.duration))));
      r.Some? && 0 <= r.value.pump < 4 && r.value.pump == plantId - 1
      && r.value.duration == (if duration.None? then DefaultManualDuration else duration.value)
      && r.value.duration > 0.0
  {
  }

  // ===== The controller =====

  class WateringSystem {
    /** Whether an e-ink display was passed in (`self.eink`). */
    const einkPresent: bool
    var settings: Option<SystemSettings>
    var lastDisplayStatus: Option<DisplayStatus>
    /** `get_time()` at the last successful historical save; 0 initially. */
    var lastHistoricalSave: real

    constructor(einkPresent: bool)
      ensures this.einkPresent == einkPresent
      ensures settings.None? && lastDisplayStatus.None? && lastHistoricalSave == 0.0
    {
      this.einkPresent := einkPresent;
      settings := None;
      lastDisplayStatus := None;
      lastHistoricalSave := 0.0;
    }

    /**
     * The status part of `update_display`: the water level sets "error" or "warning", and a
     * plant below its minimum raises "ok" to "warning" but never lowers "error".
     */
    method DisplayStatusOf(sensor: SensorData) returns (status: DisplayStatus)
      requires settings.Some? ==> PlantsIndexable(settings.value, sensor.plantMoisture)
      ensures status == DisplayError <==> sensor.waterLevel < 20.0
      ensures status == DisplayWarning <==>
        sensor.waterLevel >= 20.0 && (sensor.waterLevel < 40.0 || PlantAlarm(settings, sensor))
      ensures status == DisplayOk <==> sensor.waterLevel >= 40.0 && !PlantAlarm(settings, sensor)
    {
      status := DisplayOk;
      if sensor.waterLevel < 20.0 {
        status := DisplayError;
      } else if sensor.waterLevel < 40.0 {
        status := DisplayWarning;
      }
      if settings.Some? {
        var s := settings.value;
        ghost var water := status;
        for i := 0 to s.numberOfPlants
          invariant water == PublishedDisplayStatus(sensor.waterLevel)
          invariant (exists j :: 0 <= j < i && NeedsWater(s, sensor.plantMoisture, j)) ==>
            status == (if water == DisplayOk then DisplayWarning else water)
          invariant (forall j :: 0 <= j < i ==> !NeedsWater(s, sensor.plantMoisture, j)) ==> status == water
        {
          var profile := s.plantProfiles[i];
          if sensor.plantMoisture[i] < profile.moistureMin as real {
            assert NeedsWater(s, sensor.plantMoisture, i);
            status := if status == DisplayOk then DisplayWarning else status;
          }
        }
      }
    }

    /**
     * `update_display(sensor_data)`: without a display nothing happens; otherwise the
     * display is redrawn only when the status differs from the last one drawn, and the last
     * status moves only when the draw succeeds. A failed draw is logged as a warning
     * (`warningLogged`).
     */
    method UpdateDisplay(sensor: SensorData, drawFailure: Option<string>)
      returns (status: Option<DisplayStatus>, drawn: bool, warningLogged: bool)
      requires settings.Some? ==> PlantsIndexable(settings.value, sensor.plantMoisture)
      modifies this
      ensures settings == old(settings) && lastHistoricalSave == old(lastHistoricalSave)
      ensures !einkPresent ==> status.None?
      ensures einkPresent ==> status.Some? && (status.value == DisplayOk <==>
        sensor.waterLevel >= 40.0 && !PlantAlarm(settings, sensor))
      ensures einkPresent ==> (status.value == DisplayError <==> sensor.waterLevel < 20.0)
      ensures drawn <==> einkPresent && status != old(lastDisplayStatus) && drawFailure.None?
      ensures warningLogged <==> einkPresent && status != old(lastDisplayStatus) && drawFailure.Some?
      ensures lastDisplayStatus == if drawn then status else old(lastDisplayStatus)
    {
      drawn, warningLogged := false, false;
      if !einkPresent {
        return None, false, false;
      }
      var s := DisplayStatusOf(sensor);
      status := Some(s);
      if status != lastDisplayStatus {
        if drawFailure.None? {
          lastDisplayStatus := status;
          drawn := true;
        } else {
          warningLogged := true;
        }
      }
    }

    /**
     * `save_historical_data(sensor_data)` at `get_time() == now`: a point is sent only once
     * an hour has passed since the last successful save, and the time of the last save
     * moves only when the database accepts it (`saveOk`).
     */
    method SaveHistoricalData(sensor: SensorData, now: real, saveOk: bool) returns (sent: Option<HistoricalSensorData>)
      modifies this
      ensures settings == old(settings) && lastDisplayStatus == old(lastDisplayStatus)
      ensures sent.Some? <==> now - old(lastHistoricalSave) >= HistoricalDataInterval
      ensures sent.Some? ==> sent.value == ToHistorical(sensor)
      ensures lastHistoricalSave == if sent.Some? && saveOk then now else old(lastHistoricalSave)
    {
      sent := None;
      if now - lastHistoricalSave >= HistoricalDataInterval {
        var histData := HistoricalSensorData(sensor.timestamp, sensor.plantMoisture, sensor.temperature,
                                             sensor.humidity, sensor.waterLevel);
        sent := Some(histData);
        if saveOk {
          lastHistoricalSave := now;
        }
      }
    }

    /**
     * `run_system_test()`: for each plant the moisture before and after a pump run
     * (`None`: a call raised), the DHT11 reading, the ultrasonic distance and the outcome of
     * the test upload (`None`: it raised). The same entry is recorded for a plant's sensor
     * and its pump; the overall verdict needs every plant, the DHT11, the ultrasonic sensor
     * and the database to pass.
     */
    method RunSystemTest(timestamp: int, plants: seq<Option<(real, real)>>, dht: Option<(real, real)>,
                         distance: Option<real>, upload: Option<bool>) returns (result: SelfTestResult)
      requires |plants| == 4
      ensures result.timestamp == timestamp
      ensures |result.moistureSensors| == 4 && result.pumps == result.moistureSensors
      ensures forall i :: 0 <= i < 4 ==> result.moistureSensors[i].passed == PlantPasses(plants[i])
      ensures result.dht11.passed == DhtSelfTestPasses(dht)
      ensures result.ultrasonic.passed == (distance.Some? && distance.value <= MaxDistance(settings))
      ensures result.database.passed == (upload == Some(true))
      ensures result.overall <==>
        (forall i :: 0 <= i < 4 ==> PlantPasses(plants[i]))
        && DhtSelfTestPasses(dht) && result.ultrasonic.passed && upload == Some(true)
    {
      var sensors: seq<Check> := [];
      var pumps: seq<Check> := [];
      for i := 0 to 4
        invariant |sensors| == i && pumps == sensors
        invariant forall j :: 0 <= j < i ==> sensors[j].passed == PlantPasses(plants[j])
      {
        var entry: Check;
        if plants[i].Some? {
          var increased := plants[i].value.1 > plants[i].value.0;
          entry := Check(increased);
        } else {
          entry := Check(false);
        }
        sensors := sensors + [entry];
        pumps := pumps + [entry];
      }
      var dht11: Check;
      if dht.Some? {
        var passed := dht.value.0 > 0.0 && dht.value.1 > 0.0;
        dht11 := Check(passed);
      } else {
        dht11 := Check(false);
      }
      var ultrasonic: Check;
      if distance.Some? {
        var maxDistance := 100.0;
        if settings.Some? {
          maxDistance := settings.value.waterTank.height + 5.0;
        }
        var passed := distance.value <= maxDistance;
        ultrasonic := Check(passed);
      } else {
        ultrasonic := Check(false);
      }
      var database: Check;
      if upload.Some? {
        database := Check(upload.value);
      } else {
        database := Check(false);
      }
      var allPassed := (forall i :: 0 <= i < |sensors| ==> sensors[i].passed)
        && dht11.passed && ultrasonic.passed && database.passed;
      result := SelfTestResult(timestamp, sensors, pumps, dht11, ultrasonic, database, allPassed);
    }
  }

  /**
   * The published status and the drawn status agree exactly when no plant alarm is raised
   * over 40 % water: a dry plant turns the display to "warning" while "ok" is published.
   */
  lemma PublishedStatusIgnoresPlants(waterLevel: real, plantAlarm: bool)
    ensures var drawn := if waterLevel < 20.0 then DisplayError
                         else if waterLevel < 40.0 || plantAlarm then DisplayWarning
                         else DisplayOk;
      drawn == PublishedDisplayStatus(waterLevel) <==> !(plantAlarm && waterLevel >= 40.0)
  {
  }
}
