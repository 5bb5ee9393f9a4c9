/**
 * The shared data model of the dashboard and the controllers: the entities of
 * shared/schema.ts, the fields the client code uses without the schema declaring them
 * (the seasonal schedule of a plant, the historical reading, the system error, the
 * notification settings), the schema's constraints as validity predicates, and the
 * shipped default values.
 */
module Schema {
  import opened Wrappers
  import opened Text

  // ===== Seasons and moisture bands =====

  datatype Season = Spring | Summer | Fall | Winter

  /** A moisture band in percent: water below `moistureMin`, stop above `moistureMax`. */
  datatype Band = Band(moistureMin: int, moistureMax: int)

  /**
   * A plant profile. `useSeasonalSchedule` is `false` where the stored profile has no such
   * field (the client reads it with `?? false` or `!`); `seasonalThresholds` is absent
   * (`None`) or a mapping from some of the four seasons to an override band.
   */
  datatype PlantProfile = PlantProfile(
    id: int,
    name: string,
    moistureMin: int,
    moistureMax: int,
    enabled: bool,
    useSeasonalSchedule: bool,
    seasonalThresholds: Option<map<Season, Band>>)

  // ===== Sensor readings =====

  /** A live reading: four soil-moisture percentages, air temperature and humidity, water level. */
  datatype SensorData = SensorData(
    timestamp: int,
    plantMoisture: seq<real>,
    temperature: real,
    humidity: real,
    waterLevel: real,
    waterLevelCm: real)

  /** A point of the hourly history: a sensor reading without the raw distance. */
  datatype HistoricalSensorData = HistoricalSensorData(
    timestamp: int,
    plantMoisture: seq<real>,
    temperature: real,
    humidity: real,
    waterLevel: real)

  predicate IsPercent(x: real) {
    0.0 <= x <= 100.0
  }

  predicate ValidSensorData(d: SensorData) {
    |d.plantMoisture| == 4
    && (forall i :: 0 <= i < 4 ==> IsPercent(d.plantMoisture[i]))
    && IsPercent(d.humidity) && IsPercent(d.waterLevel)
  }

  // ===== Settings =====

  datatype WaterTank = WaterTank(diameter: real, height: real)

  /** The notification settings the settings dialog reads; the schema itself has no such field. */
  datatype Notifications = Notifications(enabled: bool, email: Option<string>)

  /**
   * `measurementInterval` is what `parseInt` made of the interval input, so it may be NaN.
   * `notifications` is absent (`None`) unless a stored record happens to carry it: neither
   * the schema nor its defaults define it.
   */
  datatype SystemSettings = SystemSettings(
    pin: string,
    measurementInterval: JsInt,
    numberOfPlants: int,
    waterTank: WaterTank,
    plantProfiles: seq<PlantProfile>,
    notifications: Option<Notifications>)

  /** `/^\d{4}$/`: exactly four ASCII digits (JavaScript's `$` does not accept a trailing newline). */
  predicate IsPin(pin: string) {
    |pin| == 4 && forall i :: 0 <= i < 4 ==> IsDigit(pin[i])
  }

  predicate ValidPlantProfile(p: PlantProfile) {
    1 <= p.id <= 4
    && 1 <= |p.name| <= 50
    && 0 <= p.moistureMin <= 100
    && 0 <= p.moistureMax <= 100
  }

  predicate ValidWaterTank(t: WaterTank) {
    t.diameter > 0.0 && t.height > 0.0
  }

  predicate ValidInterval(v: JsInt) {
    v.Int? && 60 <= v.value <= 86400
  }

  predicate ValidSystemSettings(s: SystemSettings) {
    IsPin(s.pin)
    && ValidInterval(s.measurementInterval)
    && 3 <= s.numberOfPlants <= 4
    && ValidWaterTank(s.waterTank)
    && |s.plantProfiles| == 4
    && forall i :: 0 <= i < 4 ==> ValidPlantProfile(s.plantProfiles[i])
  }

  // ===== System test, manual watering, status, errors =====

  datatype TestStatus = TestPassed | TestWarning | TestFailed

  datatype SensorTests = SensorTests(moistureSensors: seq<bool>, dht11: bool, ultrasonic: bool)

  datatype SystemTestResult = SystemTestResult(
    timestamp: int,
    overallStatus: TestStatus,
    sensorTests: SensorTests,
    pumpTests: seq<bool>,
    connectivityTest: bool,
    details: Option<string>)

  predicate ValidSystemTestResult(r: SystemTestResult) {
    |r.sensorTests.moistureSensors| == 4 && |r.pumpTests| == 4
  }

  datatype ManualWatering = ManualWatering(plantId: int, timestamp: int, duration: real)

  const DefaultManualDuration: real := 10.0

  /**
   * What `manualWateringSchema` makes of a command: the plant id must lie in 1..4 and a given
   * duration must be positive; a missing duration becomes 10 seconds.
   */
  function ParseManualWatering(plantId: int, timestamp: int, duration: Option<real>): (r: Option<ManualWatering>)
    ensures r.Some? <==> 1 <= plantId <= 4 && (duration.None? || duration.value > 0.0)
    ensures r.Some? ==> r.value.plantId == plantId && r.value.timestamp == timestamp
    ensures r.Some? ==> r.value.duration > 0.0
    ensures r.Some? && duration.None? ==> r.value.duration == DefaultManualDuration
    ensures r.Some? && duration.Some? ==> r.value.duration == duration.value
  {
    if !(1 <= plantId <= 4) then None
    else
      match duration
      case None => Some(ManualWatering(plantId, timestamp, DefaultManualDuration))
      case Some(d) => if d > 0.0 then Some(ManualWatering(plantId, timestamp, d)) else None
  }

  datatype DisplayStatus = DisplayOk | DisplayWarning | DisplayError

  datatype SystemStatus = SystemStatus(online: bool, lastUpdate: int, displayStatus: DisplayStatus)

  /** An entry of the `systemErrors` node; `severity` is "info", "warning" or "error" by convention. */
  datatype SystemError = SystemError(
    timestamp: int,
    errorType: string,
    component: string,
    message: string,
    severity: string,
    resolved: bool)

  // ===== Defaults =====

  /** "Pflanze <id>", band 30..70, no seasonal schedule. */
  function DefaultProfile(id: nat, enabled: bool): PlantProfile {
    PlantProfile(id, "Pflanze " + DecimalString(id), 30, 70, enabled, false, None)
  }

  const DefaultPlantProfiles: seq<PlantProfile> := [
    DefaultProfile(1, true),
    DefaultProfile(2, true),
    DefaultProfile(3, true),
    DefaultProfile(4, false)
  ]

  const DefaultSystemSettings: SystemSettings := SystemSettings(
    "1234",
    Int(300),
    3,
    WaterTank(20.0, 30.0),
    DefaultPlantProfiles,
    None)

  const DefaultSystemStatus: SystemStatus := SystemStatus(false, 0, DisplayError)

  /** The shipped defaults satisfy the schema, with ids 1..4 in order and an ordered band. */
  lemma DefaultsValid()
    ensures ValidSystemSettings(DefaultSystemSettings)
    ensures forall i :: 0 <= i < 4 ==> DefaultPlantProfiles[i].id == i + 1
    ensures forall i :: 0 <= i < 4 ==>
      DefaultPlantProfiles[i].moistureMin <= DefaultPlantProfiles[i].moistureMax
    ensures DefaultSystemSettings.plantProfiles == DefaultPlantProfiles
    ensures DefaultSystemSettings.notifications.None?
  {
    forall i | 0 <= i < 4 ensures ValidPlantProfile(DefaultPlantProfiles[i]) {
      assert |DecimalString(i + 1)| == 1;
    }
  }
}
