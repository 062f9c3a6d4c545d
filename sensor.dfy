/**
 * The five boiler sensors (day and night consumption, saved energy, heater
 * state, energy-usage reset date), their value derivations and unique ids,
 * and the platform setup that creates five of them for every flat and smart
 * boiler of the first snapshot.
 *
 * The source has one class per sensor. Apart from presentation attributes
 * (icon, device class, state class, unit), they differ only in their id
 * suffix, name, options and value, so here they are one class with a `kind`.
 */
module Sensor {
  import opened Wrappers
  import opened Builtins
  import opened EldomBoiler
  import opened Coordinator
  import Switch

  const HeaterStateOn: string := "On"
  const HeaterStateOff: string := "Off"
  const HeaterOptions: seq<string> := [HeaterStateOn, HeaterStateOff]

  /** The date the vendor reports for a boiler whose energy usage was never reset. */
  const NeverResetDate: string := "0001-01-01T00:00:00Z"
  const Never: string := "Never"

  datatype SensorKind =
    | DayEnergyConsumptionSensor
    | NightEnergyConsumptionSensor
    | SavedEnergySensor
    | HeaterSensor
    | EnergyUsageResetDateSensor

  /** The order in which setup creates the five sensors of a boiler. */
  const SensorKinds: seq<SensorKind> := [
    DayEnergyConsumptionSensor, NightEnergyConsumptionSensor, SavedEnergySensor,
    HeaterSensor, EnergyUsageResetDateSensor]

  /** How many sensors setup creates per boiler: one of each kind. */
  const GroupSize: nat := |SensorKinds|

  function UniqueIdSuffix(kind: SensorKind): string {
    match kind
    case DayEnergyConsumptionSensor => "-day-energy-consumption-sensor"
    case NightEnergyConsumptionSensor => "-night-energy-consumption-sensor"
    case SavedEnergySensor => "-energy-saved-sensor"
    case HeaterSensor => "-heater-sensor"
    case EnergyUsageResetDateSensor => "-energy-usage-reset-date-sensor"
  }

  function SensorUniqueId(deviceId: string, kind: SensorKind): string {
    deviceId + UniqueIdSuffix(kind)
  }

  function DisplayName(kind: SensorKind): string {
    match kind
    case DayEnergyConsumptionSensor => "Day Energy Consumption"
    case NightEnergyConsumptionSensor => "Night Energy Consumption"
    case SavedEnergySensor => "Saved Energy"
    case HeaterSensor => "Heater"
    case EnergyUsageResetDateSensor => "Energy Usage Reset Date"
  }

  /**
   * The five sensors of one device have five different unique ids, none of
   * them the switch's id or the bare device id the water heater uses.
   */
  lemma UniqueIdsDistinct(deviceId: string, k1: SensorKind, k2: SensorKind)
    ensures SensorUniqueId(deviceId, k1) == SensorUniqueId(deviceId, k2) <==> k1 == k2
    ensures SensorUniqueId(deviceId, k1) != Switch.SwitchUniqueId(deviceId)
    ensures SensorUniqueId(deviceId, k1) != deviceId
  {
    var n := |deviceId|;
    assert SensorUniqueId(deviceId, k1)[n..] == UniqueIdSuffix(k1);
    assert SensorUniqueId(deviceId, k2)[n..] == UniqueIdSuffix(k2);
    assert Switch.SwitchUniqueId(deviceId)[n..] == Switch.UniqueIdSuffix;
  }

  /** The heater sensor's value is one of its options, and "On" exactly when the heater is on. */
  function HeaterState(enabled: bool): (r: string)
    ensures r in HeaterOptions
    ensures r == HeaterStateOn <==> enabled
  {
    if enabled then HeaterStateOn else HeaterStateOff
  }

  /**
   * The sentinel date reads "Never"; every other date is shown as given, so
   * "Never" is shown for the sentinel and for a date that is literally "Never".
   */
  function ResetDateValue(date: string): (r: string)
    ensures date == NeverResetDate ==> r == Never
    ensures date != NeverResetDate ==> r == date
    ensures r == Never <==> date == NeverResetDate || date == Never
  {
    if date == NeverResetDate then Never else date
  }

  /** `int(reading)`: the whole kilowatt-hours of a consumption reading, truncated toward zero. */
  function EnergyKWh(reading: real): (r: int)
    ensures 0.0 <= reading ==> 0 <= r && r as real <= reading < r as real + 1.0
    ensures reading < 0.0 ==> r <= 0 && r as real - 1.0 < reading <= r as real
  {
    Truncate(reading)
  }

  /** `int(saved / 100)`: the saved-energy reading is in hundredths of a kilowatt-hour. */
  function SavedEnergyKWh(saved: real): (r: int)
    ensures 0.0 <= saved ==> 0 <= r && r as real * 100.0 <= saved < (r as real + 1.0) * 100.0
    ensures saved < 0.0 ==> r <= 0 && (r as real - 1.0) * 100.0 < saved <= r as real * 100.0
  {
    Truncate(saved / 100.0)
  }

  /** A sensor reading: the energy sensors report integers, the other two report text. */
  datatype SensorValue = Number(n: int) | Text(s: string)

  class EldomBoilerSensor {
    const kind: SensorKind
    var boiler: Boiler
    const coordinator: EldomCoordinator

    constructor (kind: SensorKind, boiler: Boiler, coordinator: EldomCoordinator)
      ensures this.kind == kind && this.boiler == boiler && this.coordinator == coordinator
    {
      this.kind := kind;
      this.boiler := boiler;
      this.coordinator := coordinator;
    }

    function UniqueId(): string
      reads this, boiler.Obj()
    {
      SensorUniqueId(boiler.DeviceId(), kind)
    }

    function Name(): string
      reads this, boiler.Obj()
    {
      boiler.Name() + "'s " + DisplayName(kind)
    }

    /** Only the heater sensor is an enumeration with options. */
    function Options(): Option<seq<string>>
      reads this
    {
      if kind == HeaterSensor then Some(HeaterOptions) else None
    }

    /** What each kind of sensor reports about its boiler. */
    function NativeValue(): (r: SensorValue)
      reads this, boiler.Obj()
      ensures r.Number? <==> kind != HeaterSensor && kind != EnergyUsageResetDateSensor
      ensures kind == HeaterSensor ==>
        && Options().Some? && r.s in Options().value
        && (r.s == HeaterStateOn <==> boiler.HeaterEnabled())
      ensures (kind == DayEnergyConsumptionSensor || kind == NightEnergyConsumptionSensor) ==>
        var reading := if kind == DayEnergyConsumptionSensor then boiler.DayEnergyConsumption() else boiler.NightEnergyConsumption();
        && (0.0 <= reading ==> 0 <= r.n && r.n as real <= reading < r.n as real + 1.0)
        && (reading < 0.0 ==> r.n <= 0 && r.n as real - 1.0 < reading <= r.n as real)
      ensures kind == EnergyUsageResetDateSensor ==>
        && (boiler.EnergyUsageResetDate() != NeverResetDate ==> r.s == boiler.EnergyUsageResetDate())
        && (r.s == Never <==> boiler.EnergyUsageResetDate() == NeverResetDate || boiler.EnergyUsageResetDate() == Never)
      ensures kind == SavedEnergySensor && 0.0 <= boiler.SavedEnergy() ==>
        0 <= r.n && r.n as real * 100.0 <= boiler.SavedEnergy() < (r.n as real + 1.0) * 100.0
      ensures kind == SavedEnergySensor && boiler.SavedEnergy() < 0.0 ==>
        r.n <= 0 && (r.n as real - 1.0) * 100.0 < boiler.SavedEnergy() <= r.n as real * 100.0
    {
      match kind
      case DayEnergyConsumptionSensor => Number(EnergyKWh(boiler.DayEnergyConsumption()))
      case NightEnergyConsumptionSensor => Number(EnergyKWh(boiler.NightEnergyConsumption()))
      case SavedEnergySensor => Number(SavedEnergyKWh(boiler.SavedEnergy()))
      case HeaterSensor => Text(HeaterState(boiler.HeaterEnabled()))
      case EnergyUsageResetDateSensor => Text(ResetDateValue(boiler.EnergyUsageResetDate()))
    }

    /**
     * Looks the boiler up again under its own type and id in the coordinator's
     * new snapshot; a snapshot without that boiler makes the state write fail.
     */
    method HandleCoordinatorUpdate() returns (outcome: Outcome)
      modifies this`boiler
      ensures LookupBoiler(coordinator.data, old(boiler.Type()), old(boiler.Id())).Some? ==>
        outcome == Done && boiler == LookupBoiler(coordinator.data, old(boiler.Type()), old(boiler.Id())).value
      ensures LookupBoiler(coordinator.data, old(boiler.Type()), old(boiler.Id())).None? ==>
        outcome == Raised(AttributeError) && boiler == old(boiler)
      ensures WellFormed(coordinator.data) && outcome == Done ==> boiler.Id() == old(boiler.Id())
    {
      var found := LookupBoiler(coordinator.data, boiler.Type(), boiler.Id());
      if found.None? {
        return Raised(AttributeError);
      }
      boiler := found.value;
      outcome := Done;
    }
  }

  /** `group` is the five sensors setup creates for `b`, in setup order. */
  ghost predicate SensorsFor(group: seq<EldomBoilerSensor>, b: Boiler, coordinator: EldomCoordinator)
    reads group
  {
    && |group| == |SensorKinds|
    && forall j :: 0 <= j < |group| ==>
         group[j].kind == SensorKinds[j] && group[j].boiler == b && group[j].coordinator == coordinator
  }

  /** The `g`-th group of `GroupSize` sensors after the first `base` entities. */
  ghost function Group(entities: seq<EldomBoilerSensor>, base: nat, g: nat): seq<EldomBoilerSensor>
    requires base + GroupSize * g + GroupSize <= |entities|
  {
    entities[base + GroupSize * g..base + GroupSize * g + GroupSize]
  }

  /** After the first `base` entities, group `g` holds the sensors of the boiler under `keys[g]` in `m`. */
  ghost predicate GroupsFor(entities: seq<EldomBoilerSensor>, base: nat, m: map<string, Device>, keys: seq<string>,
                            coordinator: EldomCoordinator)
    reads entities
  {
    && |entities| == base + GroupSize * |keys|
    && (forall k :: k in keys ==> k in m && m[k].BoilerDevice?)
    && forall g :: 0 <= g < |keys| ==> SensorsFor(Group(entities, base, g), m[keys[g]].boiler, coordinator)
  }

  /** Appends the five sensors of `b`. */
  method AddBoilerSensors(entities: seq<EldomBoilerSensor>, b: Boiler, coordinator: EldomCoordinator)
    returns (r: seq<EldomBoilerSensor>)
    ensures |r| == |entities| + GroupSize && r[..|entities|] == entities
    ensures forall j :: |entities| <= j < |r| ==> fresh(r[j])
    ensures SensorsFor(r[|entities|..], b, coordinator)
  {
    var day := new EldomBoilerSensor(DayEnergyConsumptionSensor, b, coordinator);
    var night := new EldomBoilerSensor(NightEnergyConsumptionSensor, b, coordinator);
    var saved := new EldomBoilerSensor(SavedEnergySensor, b, coordinator);
    var heater := new EldomBoilerSensor(HeaterSensor, b, coordinator);
    var resetDate := new EldomBoilerSensor(EnergyUsageResetDateSensor, b, coordinator);
    r := entities + [day, night, saved, heater, resetDate];
    assert r[|entities|..] == [day, night, saved, heater, resetDate];
  }

  /**
   * The loop over one typed sub-map: five sensors per boiler, appended in
   * the order `keys` the map is visited in, each key once.
   */
  method AddSensorsFor(entities: seq<EldomBoilerSensor>, m: map<string, Device>, coordinator: EldomCoordinator)
    returns (r: seq<EldomBoilerSensor>, ghost keys: seq<string>)
    requires forall k :: k in m ==> m[k].BoilerDevice?
    ensures |keys| == |m| && (forall k :: k in keys <==> k in m)
    ensures forall i, j :: 0 <= i < j < |keys| ==> keys[i] != keys[j]
    ensures |r| == |entities| + GroupSize * |keys| && r[..|entities|] == entities
    ensures forall j :: |entities| <= j < |r| ==> fresh(r[j])
    ensures GroupsFor(r, |entities|, m, keys, coordinator)
  {
    assert GroupSize == 5;
    var rest := m.Keys;
    r, keys := entities, [];
    while rest != {}
      invariant forall k :: k in m <==> k in rest || k in keys
      invariant forall k :: k in keys ==> k !in rest
      invariant |keys| + |rest| == |m|
      invariant forall i, j :: 0 <= i < j < |keys| ==> keys[i] != keys[j]
      invariant |r| == |entities| + GroupSize * |keys| && r[..|entities|] == entities
      invariant forall j :: |entities| <= j < |r| ==> fresh(r[j])
      invariant forall g :: 0 <= g < |keys| ==> SensorsFor(Group(r, |entities|, g), m[keys[g]].boiler, coordinator)
      decreases |rest|
    {
      var k :| k in rest;
      ghost var before := r;
      r := AddBoilerSensors(r, m[k].boiler, coordinator);
      forall g | 0 <= g < |keys| ensures Group(r, |entities|, g) == Group(before, |entities|, g) {
        assert r[..|before|] == before;
      }
      assert Group(r, |entities|, |keys|) == r[|before|..];
      keys := keys + [k];
      rest := rest - {k};
    }
  }

  /** Five sensors for every boiler of `flat`, followed by five for every boiler of `smart`. */
  method AddAllSensors(flat: map<string, Device>, smart: map<string, Device>, coordinator: EldomCoordinator)
    returns (entities: seq<EldomBoilerSensor>, ghost flatIds: seq<string>, ghost smartIds: seq<string>)
    requires forall k :: k in flat ==> flat[k].BoilerDevice?
    requires forall k :: k in smart ==> smart[k].BoilerDevice?
    ensures forall k :: k in flatIds <==> k in flat
    ensures forall k :: k in smartIds <==> k in smart
    ensures forall i, j :: 0 <= i < j < |flatIds| ==> flatIds[i] != flatIds[j]
    ensures forall i, j :: 0 <= i < j < |smartIds| ==> smartIds[i] != smartIds[j]
    ensures |entities| == GroupSize * (|flat| + |smart|) && |flatIds| == |flat|
    ensures forall j :: 0 <= j < |entities| ==> fresh(entities[j])
    ensures GroupsFor(entities[..GroupSize * |flatIds|], 0, flat, flatIds, coordinator)
    ensures GroupsFor(entities, GroupSize * |flatIds|, smart, smartIds, coordinator)
  {
    var afterFlat: seq<EldomBoilerSensor>;
    afterFlat, flatIds := AddSensorsFor([], flat, coordinator);
    entities, smartIds := AddSensorsFor(afterFlat, smart, coordinator);
    assert entities[..|afterFlat|] == afterFlat;
    assert GroupsFor(afterFlat, 0, flat, flatIds, coordinator);
    forall j | 0 <= j < |entities| ensures fresh(entities[j]) {
      if j < |afterFlat| {
        assert entities[j] == afterFlat[j];
      }
    }
  }

  /**
   * `async_setup_entry`: the first refresh, then five sensors for every flat
   * boiler followed by five for every smart boiler, and none for convectors.
   */
  method AsyncSetupEntry(coordinator: EldomCoordinator, devices: seq<ListedDevice>, statuses: StatusSource)
    returns (entities: seq<EldomBoilerSensor>, ghost flatIds: seq<string>, ghost smartIds: seq<string>)
    modifies coordinator`data
    ensures WellFormed(coordinator.data)
    ensures forall k :: k in flatIds <==> k in IdsOfType(devices, DeviceTypeFlatBoiler)
    ensures forall k :: k in smartIds <==> k in IdsOfType(devices, DeviceTypeSmartBoiler)
    ensures forall i, j :: 0 <= i < j < |flatIds| ==> flatIds[i] != flatIds[j]
    ensures forall i, j :: 0 <= i < j < |smartIds| ==> smartIds[i] != smartIds[j]
    ensures |entities| == GroupSize * (|IdsOfType(devices, DeviceTypeFlatBoiler)| + |IdsOfType(devices, DeviceTypeSmartBoiler)|)
    ensures forall j :: 0 <= j < |entities| ==> fresh(entities[j])
    ensures GroupSize * |flatIds| <= |entities|
    ensures GroupsFor(entities[..GroupSize * |flatIds|], 0, coordinator.data[DeviceTypeFlatBoiler], flatIds, coordinator)
    ensures GroupsFor(entities, GroupSize * |flatIds|, coordinator.data[DeviceTypeSmartBoiler], smartIds, coordinator)
  {
    coordinator.Refresh(devices, statuses);
    var data := coordinator.data;
    RefreshShape(data, devices, statuses);
    var flat, smart := data[DeviceTypeFlatBoiler], data[DeviceTypeSmartBoiler];
    assert |flat| == |flat.Keys| && |smart| == |smart.Keys|;
    entities, flatIds, smartIds := AddAllSensors(flat, smart, coordinator);
  }
}
