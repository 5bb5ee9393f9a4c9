/**
 * The automatic watering decision `check_and_water`, written identically in both
 * controllers (main_1.py and esp32/main_new.py): with settings loaded, every plant among
 * the first `numberOfPlants` whose reading lies below its profile's `moistureMin` gets its
 * pump run, in plant order. Running a pump is an opaque action: the method returns the
 * pump indices in the order they are run.
 */
module Watering {
  import opened Wrappers
  import opened Schema
  import opened SeasonalUtils
  import PlantCard

  /** The loop indexes `plantProfiles[i]` and `plantMoisture[i]` for `i < numberOfPlants`. */
  predicate PlantsIndexable(s: SystemSettings, moisture: seq<real>) {
    0 <= s.numberOfPlants <= |s.plantProfiles| && s.numberOfPlants <= |moisture|
  }

  /** `moisture < profile['moistureMin']` for plant `i`. */
  predicate NeedsWater(s: SystemSettings, moisture: seq<real>, i: int)
    requires PlantsIndexable(s, moisture) && 0 <= i < s.numberOfPlants
  {
    moisture[i] < s.plantProfiles[i].moistureMin as real
  }

  /** Some active plant needs water. */
  ghost predicate AnyNeedsWater(s: SystemSettings, moisture: seq<real>)
    requires PlantsIndexable(s, moisture)
  {
    exists i :: 0 <= i < s.numberOfPlants && NeedsWater(s, moisture, i)
  }

  /** `check_and_water(sensor_data)`. */
  method CheckAndWater(settings: Option<SystemSettings>, moisture: seq<real>) returns (pumps: seq<int>)
    requires settings.Some? ==> PlantsIndexable(settings.value, moisture)
    ensures settings.None? ==> pumps == []
    ensures settings.Some? ==> forall k :: 0 <= k < |pumps| ==>
      0 <= pumps[k] < settings.value.numberOfPlants && NeedsWater(settings.value, moisture, pumps[k])
    ensures settings.Some? ==> forall i ::
      (0 <= i < settings.value.numberOfPlants && NeedsWater(settings.value, moisture, i) ==> i in pumps)
    ensures forall k, l :: 0 <= k < l < |pumps| ==> pumps[k] < pumps[l]
  {
    pumps := [];
    if settings.None? {
      return;
    }
    var s := settings.value;
    for i := 0 to s.numberOfPlants
      invariant forall k :: 0 <= k < |pumps| ==> 0 <= pumps[k] < i && NeedsWater(s, moisture, pumps[k])
      invariant forall j :: 0 <= j < i && NeedsWater(s, moisture, j) ==> j in pumps
      invariant forall k, l :: 0 <= k < l < |pumps| ==> pumps[k] < pumps[l]
    {
      var profile := s.plantProfiles[i];
      var m := moisture[i];
      if m < profile.moistureMin as real {
        pumps := pumps + [i];
      }
    }
  }

  /**
   * The controllers water against the profile's own `moistureMin`; a seasonal override is
   * never consulted. In July, a plant whose summer override starts at 60 % is shown as
   * critical on the dashboard at 50 % and is still not watered.
   */
  lemma SeasonalOverrideIgnored()
    ensures var p := PlantProfile(1, "Pflanze 1", 30, 70, true, true, Some(map[Summer := Band(60, 80)]));
      var s := DefaultSystemSettings.(plantProfiles := [p] + DefaultPlantProfiles[1..]);
      var moisture := [50.0, 50.0, 50.0, 50.0];
      !NeedsWater(s, moisture, 0) && PlantCard.CardStatus(p, 50.0, 7) == PlantCard.Critical
  {
    var p := PlantProfile(1, "Pflanze 1", 30, 70, true, true, Some(map[Summer := Band(60, 80)]));
    AdjustedMeansOverrideApplied(p, 7);
  }
}
