/**
 * The polling coordinator's refresh: the vendor's device list partitioned by
 * type code into three maps from device id to a freshly built capability
 * object.  `Partition` states the result on values; `AsyncUpdateData` builds
 * the objects and is proved to produce exactly that partition.
 */
module Coordinator {
  import opened Wrappers
  import opened Remote
  import opened EldomBoiler
  import opened EldomConvector

  const DeviceTypeFlatBoiler: int := 7
  const DeviceTypeSmartBoiler: int := 5
  const DeviceTypeConvectorHeater: int := 4

  predicate IsTypeCode(code: int) {
    code == DeviceTypeFlatBoiler || code == DeviceTypeSmartBoiler || code == DeviceTypeConvectorHeater
  }

  /** One entry of the vendor's device list. */
  datatype ListedDevice = ListedDevice(id: string, deviceType: int)

  /** The three status endpoints of the vendor API, as lookups by device id. */
  datatype StatusSource = StatusSource(
    flat: string -> FlatBoilerDetails,
    smart: string -> SmartBoilerDetails,
    convector: string -> ConvectorHeaterDetails)

  /** What a snapshot entry holds, as a value: the wrapper's id and its status record. */
  datatype DeviceState =
    | FlatState(id: string, flat: FlatBoilerDetails)
    | SmartState(id: string, smart: SmartBoilerDetails)
    | ConvectorState(id: string, convector: ConvectorHeaterDetails)

  /** The wrapper built for device `id` in the comprehension of type `code`. */
  function Entry(statuses: StatusSource, code: int, id: string): DeviceState
    requires IsTypeCode(code)
  {
    if code == DeviceTypeFlatBoiler then FlatState(id, statuses.flat(id))
    else if code == DeviceTypeSmartBoiler then SmartState(id, statuses.smart(id))
    else ConvectorState(id, statuses.convector(id))
  }

  /** The ids of the listed devices whose type is `code`. */
  ghost function IdsOfType(devices: seq<ListedDevice>, code: int): set<string> {
    set i | 0 <= i < |devices| && devices[i].deviceType == code :: devices[i].id
  }

  /**
   * `{device.id: Wrapper(device.id, status(device.id), api) for device in devices
   * if device.deviceType == code}`: the list is visited in order and a later
   * device with the same id replaces the earlier entry.
   */
  function Collect(devices: seq<ListedDevice>, code: int, statuses: StatusSource): map<string, DeviceState>
    requires IsTypeCode(code)
  {
    if devices == [] then map[]
    else
      var m := Collect(devices[..|devices| - 1], code, statuses);
      var d := devices[|devices| - 1];
      if d.deviceType == code then m[d.id := Entry(statuses, code, d.id)] else m
  }

  /** The comprehension's keys are exactly the ids listed with that type. */
  lemma {:induction false} CollectKeys(devices: seq<ListedDevice>, code: int, statuses: StatusSource)
    requires IsTypeCode(code)
    ensures Collect(devices, code, statuses).Keys == IdsOfType(devices, code)
  {
    if devices != [] {
      var p := devices[..|devices| - 1];
      var d := devices[|devices| - 1];
      CollectKeys(p, code, statuses);
      assert IdsOfType(devices, code) == IdsOfType(p, code) + (if d.deviceType == code then {d.id} else {}) by {
        forall k | k in IdsOfType(devices, code)
          ensures k in IdsOfType(p, code) + (if d.deviceType == code then {d.id} else {})
        {
          var i :| 0 <= i < |devices| && devices[i].deviceType == code && devices[i].id == k;
          if i < |p| { assert p[i] == devices[i]; }
        }
        forall k | k in IdsOfType(p, code) ensures k in IdsOfType(devices, code) {
          var i :| 0 <= i < |p| && p[i].deviceType == code && p[i].id == k;
          assert devices[i] == p[i];
        }
      }
    }
  }

  /** Every entry of the comprehension is the wrapper built for its own key. */
  lemma {:induction false} CollectEntries(devices: seq<ListedDevice>, code: int, statuses: StatusSource)
    requires IsTypeCode(code)
    ensures forall k :: k in Collect(devices, code, statuses) ==> Collect(devices, code, statuses)[k] == Entry(statuses, code, k)
  {
    if devices != [] {
      CollectEntries(devices[..|devices| - 1], code, statuses);
    }
  }

  /** The snapshot returned by a refresh, on values. */
  function Partition(devices: seq<ListedDevice>, statuses: StatusSource): map<int, map<string, DeviceState>> {
    map[
      DeviceTypeFlatBoiler := Collect(devices, DeviceTypeFlatBoiler, statuses),
      DeviceTypeSmartBoiler := Collect(devices, DeviceTypeSmartBoiler, statuses),
      DeviceTypeConvectorHeater := Collect(devices, DeviceTypeConvectorHeater, statuses)]
  }

  /**
   * The snapshot has exactly the three type keys; each sub-map's keys are the
   * ids listed with that type; each entry is the wrapper of its own kind built
   * for its key, so its id is its key.
   */
  lemma PartitionShape(devices: seq<ListedDevice>, statuses: StatusSource)
    ensures Partition(devices, statuses).Keys == {DeviceTypeFlatBoiler, DeviceTypeSmartBoiler, DeviceTypeConvectorHeater}
    ensures forall code :: code in Partition(devices, statuses) ==> Partition(devices, statuses)[code].Keys == IdsOfType(devices, code)
    ensures forall code, k :: code in Partition(devices, statuses) && k in Partition(devices, statuses)[code] ==>
      Partition(devices, statuses)[code][k] == Entry(statuses, code, k) && Partition(devices, statuses)[code][k].id == k
  {
    var p := Partition(devices, statuses);
    forall code | code in p ensures p[code].Keys == IdsOfType(devices, code) {
      CollectKeys(devices, code, statuses);
    }
    forall code | code in p ensures forall k :: k in p[code] ==> p[code][k] == Entry(statuses, code, k) {
      CollectEntries(devices, code, statuses);
    }
  }

  /** A device listed only with types other than the three codes is in no sub-map. */
  lemma PartitionIgnoresOtherTypes(devices: seq<ListedDevice>, statuses: StatusSource, id: string)
    requires forall i :: 0 <= i < |devices| && devices[i].id == id ==> !IsTypeCode(devices[i].deviceType)
    ensures forall code :: code in Partition(devices, statuses) ==> id !in Partition(devices, statuses)[code]
  {
    PartitionShape(devices, statuses);
  }

  /** An id listed at most once appears in at most one sub-map, whatever other ids repeat. */
  lemma PartitionDisjoint(devices: seq<ListedDevice>, statuses: StatusSource, id: string)
    requires forall i, j :: 0 <= i < j < |devices| && devices[i].id == id ==> devices[j].id != id
    ensures forall c1, c2 ::
      (c1 in Partition(devices, statuses) && c2 in Partition(devices, statuses)
       && id in Partition(devices, statuses)[c1] && id in Partition(devices, statuses)[c2]) ==> c1 == c2
  {
    PartitionShape(devices, statuses);
    forall c1, c2 | c1 in Partition(devices, statuses) && c2 in Partition(devices, statuses)
      && id in Partition(devices, statuses)[c1] && id in Partition(devices, statuses)[c2]
      ensures c1 == c2
    {
      var i :| 0 <= i < |devices| && devices[i].deviceType == c1 && devices[i].id == id;
      var j :| 0 <= j < |devices| && devices[j].deviceType == c2 && devices[j].id == id;
      assert i == j;
    }
  }

  /** A snapshot entry: one of the three capability objects. */
  datatype Device = BoilerDevice(boiler: Boiler) | ConvectorDevice(heater: EldomConvectorHeater) {

    function Obj(): object {
      if BoilerDevice? then boiler.Obj() else heater
    }

    function Id(): string {
      if BoilerDevice? then boiler.Id() else heater.id
    }

    function Client(): EldomClient {
      if BoilerDevice? then boiler.Client() else heater.client
    }

    /** The object's id and current status record, as a value. */
    ghost function State(): (s: DeviceState)
      reads Obj()
      ensures s.id == Id()
    {
      match this
      case BoilerDevice(Flat(b)) => FlatState(b.id, b.details)
      case BoilerDevice(Smart(b)) => SmartState(b.id, b.details)
      case ConvectorDevice(h) => ConvectorState(h.id, h.details)
    }
  }

  /** The coordinator's data: type code -> device id -> capability object. */
  type Snapshot = map<int, map<string, Device>>

  ghost function Objects(s: Snapshot): set<object> {
    set code, k | code in s && k in s[code] :: s[code][k].Obj()
  }

  ghost function Footprint(m: map<string, Device>): set<object> {
    set k | k in m :: m[k].Obj()
  }

  ghost function SubView(m: map<string, Device>): map<string, DeviceState>
    reads Footprint(m)
  {
    map k | k in m :: m[k].State()
  }

  ghost function View(s: Snapshot): map<int, map<string, DeviceState>>
    reads Objects(s)
  {
    map code | code in s :: SubView(s[code])
  }

  /** A snapshot of three sub-maps is viewed sub-map by sub-map. */
  lemma ViewOfThree(s: Snapshot, flat: map<string, Device>, smart: map<string, Device>, convector: map<string, Device>)
    requires s == map[DeviceTypeFlatBoiler := flat, DeviceTypeSmartBoiler := smart, DeviceTypeConvectorHeater := convector]
    ensures View(s) == map[DeviceTypeFlatBoiler := SubView(flat), DeviceTypeSmartBoiler := SubView(smart),
                           DeviceTypeConvectorHeater := SubView(convector)]
  {
    var v := View(s);
    assert v.Keys == s.Keys;
    assert v[DeviceTypeFlatBoiler] == SubView(flat);
    assert v[DeviceTypeSmartBoiler] == SubView(smart);
    assert v[DeviceTypeConvectorHeater] == SubView(convector);
  }

  /** The shape every refresh produces: three typed sub-maps whose entries carry their own key as id. */
  predicate WellFormed(s: Snapshot) {
    && s.Keys == {DeviceTypeFlatBoiler, DeviceTypeSmartBoiler, DeviceTypeConvectorHeater}
    && (forall k :: k in s[DeviceTypeFlatBoiler] ==>
          s[DeviceTypeFlatBoiler][k].BoilerDevice? && s[DeviceTypeFlatBoiler][k].boiler.Flat?)
    && (forall k :: k in s[DeviceTypeSmartBoiler] ==>
          s[DeviceTypeSmartBoiler][k].BoilerDevice? && s[DeviceTypeSmartBoiler][k].boiler.Smart?)
    && (forall k :: k in s[DeviceTypeConvectorHeater] ==> s[DeviceTypeConvectorHeater][k].ConvectorDevice?)
    && (forall code, k :: code in s && k in s[code] ==> s[code][k].Id() == k)
  }

  /** Objects whose view is a partition have the partition's shape. */
  lemma ViewOfPartitionIsWellFormed(s: Snapshot, devices: seq<ListedDevice>, statuses: StatusSource)
    requires View(s) == Partition(devices, statuses)
    ensures WellFormed(s)
  {
    PartitionShape(devices, statuses);
    assert s.Keys == View(s).Keys;
    forall code, k | code in s && k in s[code] ensures s[code][k].Id() == k {
      assert View(s)[code][k] == s[code][k].State();
    }
    forall k | k in s[DeviceTypeFlatBoiler]
      ensures s[DeviceTypeFlatBoiler][k].BoilerDevice? && s[DeviceTypeFlatBoiler][k].boiler.Flat?
    {
      assert View(s)[DeviceTypeFlatBoiler][k] == s[DeviceTypeFlatBoiler][k].State();
    }
    forall k | k in s[DeviceTypeSmartBoiler]
      ensures s[DeviceTypeSmartBoiler][k].BoilerDevice? && s[DeviceTypeSmartBoiler][k].boiler.Smart?
    {
      assert View(s)[DeviceTypeSmartBoiler][k] == s[DeviceTypeSmartBoiler][k].State();
    }
    forall k | k in s[DeviceTypeConvectorHeater] ensures s[DeviceTypeConvectorHeater][k].ConvectorDevice? {
      assert View(s)[DeviceTypeConvectorHeater][k] == s[DeviceTypeConvectorHeater][k].State();
    }
  }

  /** A sub-map's view depends only on its own objects. */
  twostate lemma SubViewUnchanged(m: map<string, Device>)
    requires unchanged(Footprint(m))
    ensures SubView(m) == old(SubView(m))
  {
  }

  /**
   * `data.get(code).get(id)` as the entity adapters use it, where only a
   * boiler is a usable result.  In a well-formed snapshot the boiler found is
   * the one built for `id`, of the kind its sub-map holds.
   */
  function LookupBoiler(data: Snapshot, code: int, id: string): (r: Option<Boiler>)
    ensures r.Some? <==> code in data && id in data[code] && data[code][id].BoilerDevice?
    ensures r.Some? ==> r.value == data[code][id].boiler
    ensures WellFormed(data) && r.Some? ==>
      && r.value.Id() == id
      && (code == DeviceTypeFlatBoiler ==> r.value.Flat?)
      && (code == DeviceTypeSmartBoiler ==> r.value.Smart?)
      && code != DeviceTypeConvectorHeater
  {
    if code in data && id in data[code] && data[code][id].BoilerDevice? then Some(data[code][id].boiler) else None
  }

  /** After a refresh, a boiler is found under a boiler type code exactly when the device list has that id with that type. */
  lemma LookupAfterRefresh(data: Snapshot, devices: seq<ListedDevice>, statuses: StatusSource, code: int, id: string)
    requires View(data) == Partition(devices, statuses)
    requires code == DeviceTypeFlatBoiler || code == DeviceTypeSmartBoiler
    ensures LookupBoiler(data, code, id).Some? <==> id in IdsOfType(devices, code)
  {
    PartitionShape(devices, statuses);
    ViewOfPartitionIsWellFormed(data, devices, statuses);
    assert data[code].Keys == View(data)[code].Keys;
  }

  /** A refreshed snapshot is well formed, and its boiler sub-maps are keyed by the listed boiler ids. */
  lemma RefreshShape(data: Snapshot, devices: seq<ListedDevice>, statuses: StatusSource)
    requires View(data) == Partition(devices, statuses)
    ensures WellFormed(data)
    ensures data[DeviceTypeFlatBoiler].Keys == IdsOfType(devices, DeviceTypeFlatBoiler)
    ensures data[DeviceTypeSmartBoiler].Keys == IdsOfType(devices, DeviceTypeSmartBoiler)
    ensures data[DeviceTypeConvectorHeater].Keys == IdsOfType(devices, DeviceTypeConvectorHeater)
  {
    PartitionShape(devices, statuses);
    ViewOfPartitionIsWellFormed(data, devices, statuses);
    assert data[DeviceTypeFlatBoiler].Keys == View(data)[DeviceTypeFlatBoiler].Keys;
    assert data[DeviceTypeSmartBoiler].Keys == View(data)[DeviceTypeSmartBoiler].Keys;
    assert data[DeviceTypeConvectorHeater].Keys == View(data)[DeviceTypeConvectorHeater].Keys;
  }

  /** Allocates the wrapper of kind `code` for device `id`. */
  method NewDevice(code: int, id: string, statuses: StatusSource, api: EldomClient) returns (d: Device)
    requires IsTypeCode(code)
    ensures fresh(d.Obj()) && d.Client() == api && d.State() == Entry(statuses, code, id)
  {
    if code == DeviceTypeFlatBoiler {
      var b := new FlatEldomBoiler(id, statuses.flat(id), api);
      d := BoilerDevice(Flat(b));
    } else if code == DeviceTypeSmartBoiler {
      var b := new SmartEldomBoiler(id, statuses.smart(id), api);
      d := BoilerDevice(Smart(b));
    } else {
      var h := new EldomConvectorHeater(id, statuses.convector(id), api);
      d := ConvectorDevice(h);
    }
  }

  /** One of the three comprehensions, building a fresh wrapper per matching device. */
  method CollectDevices(devices: seq<ListedDevice>, code: int, statuses: StatusSource, api: EldomClient)
    returns (m: map<string, Device>)
    requires IsTypeCode(code)
    ensures forall k :: k in m ==> fresh(m[k].Obj()) && m[k].Client() == api
    ensures SubView(m) == Collect(devices, code, statuses)
  {
    m := map[];
    var i := 0;
    while i < |devices|
      invariant 0 <= i <= |devices|
      invariant forall k :: k in m ==> fresh(m[k].Obj()) && m[k].Client() == api
      invariant SubView(m) == Collect(devices[..i], code, statuses)
    {
      var d := devices[i];
      assert devices[..i + 1][..i] == devices[..i] && devices[..i + 1][i] == d;
      if d.deviceType == code {
        var entry := NewDevice(code, d.id, statuses, api);
        m := m[d.id := entry];
      }
      i := i + 1;
    }
    assert devices[..|devices|] == devices;
  }

  class EldomCoordinator {
    const api: EldomClient
    var data: Snapshot
    ghost var refreshRequests: nat

    constructor (api: EldomClient)
      ensures this.api == api && data == map[] && refreshRequests == 0
    {
      this.api := api;
      data := map[];
      refreshRequests := 0;
    }

    /**
     * Builds the snapshot of `devices`, fetching each status from `statuses`.
     * Every capability object in it is new and shares this coordinator's
     * client; nothing that existed before is modified.
     */
    method AsyncUpdateData(devices: seq<ListedDevice>, statuses: StatusSource) returns (snapshot: Snapshot)
      ensures View(snapshot) == Partition(devices, statuses)
      ensures WellFormed(snapshot)
      ensures forall o :: o in Objects(snapshot) ==> fresh(o)
      ensures forall code, k :: code in snapshot && k in snapshot[code] ==> snapshot[code][k].Client() == api
    {
      var flatBoilers := CollectDevices(devices, DeviceTypeFlatBoiler, statuses, api);
      label Flat:
      var smartBoilers := CollectDevices(devices, DeviceTypeSmartBoiler, statuses, api);
      label Smart:
      var convectorHeaters := CollectDevices(devices, DeviceTypeConvectorHeater, statuses, api);
      SubViewUnchanged@Flat(flatBoilers);
      SubViewUnchanged@Smart(smartBoilers);
      snapshot := map[
        DeviceTypeFlatBoiler := flatBoilers,
        DeviceTypeSmartBoiler := smartBoilers,
        DeviceTypeConvectorHeater := convectorHeaters];
      ViewOfThree(snapshot, flatBoilers, smartBoilers, convectorHeaters);
      assert View(snapshot) == Partition(devices, statuses);
      ViewOfPartitionIsWellFormed(snapshot, devices, statuses);
      forall o | o in Objects(snapshot) ensures fresh(o) {
        var code, k :| code in snapshot && k in snapshot[code] && snapshot[code][k].Obj() == o;
        if code == DeviceTypeFlatBoiler {
          assert flatBoilers[k].Obj() == o;
        } else if code == DeviceTypeSmartBoiler {
          assert smartBoilers[k].Obj() == o;
        } else {
          assert convectorHeaters[k].Obj() == o;
        }
      }
    }

    /** What the host coordinator does with a completed refresh: the new snapshot replaces the old one. */
    method Refresh(devices: seq<ListedDevice>, statuses: StatusSource)
      modifies this`data
      ensures View(data) == Partition(devices, statuses) && WellFormed(data)
      ensures forall o :: o in Objects(data) ==> fresh(o)
    {
      data := AsyncUpdateData(devices, statuses);
    }

    /** `async_request_refresh`: asks the host for a refresh after a command. */
    method AsyncRequestRefresh()
      modifies this`refreshRequests
      ensures refreshRequests == old(refreshRequests) + 1
    {
      refreshRequests := refreshRequests + 1;
    }
  }
}
