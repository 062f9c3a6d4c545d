/**
 * The flat water-heater entity.  It caches its own copy of the boiler's
 * temperatures and mode, overwritten optimistically by its setters and
 * recomputed from the coordinator's data on every update.  It reads that
 * data as one map from device id to the flat boiler's status record.
 */
module WaterHeater {
  import opened Wrappers
  import opened ModeTable
  import opened Remote
  import EldomBoiler

  const MaxTemp: int := 75
  const MinTemp: int := 35

  /** The entity's own copy of the boiler mode table. */
  const OperationModes: Table := [
    (0, EldomBoiler.StateOff), (1, EldomBoiler.StateElectric),
    (2, EldomBoiler.StateEco), (3, EldomBoiler.StateHighDemand)]

  /** The table agrees with the boiler's, so it too has four distinct names that invert to their codes. */
  lemma OperationModesTable()
    ensures OperationModes == EldomBoiler.OperationModes
    ensures MinTemp < MaxTemp
    ensures Names(OperationModes) == [EldomBoiler.StateOff, EldomBoiler.StateElectric, EldomBoiler.StateEco, EldomBoiler.StateHighDemand]
    ensures forall n :: n in Names(OperationModes) <==> n in Inverse(OperationModes)
    ensures forall n :: n in Inverse(OperationModes) ==>
      Inverse(OperationModes)[n] in ToMap(OperationModes) && ToMap(OperationModes)[Inverse(OperationModes)[n]] == n
  {
    EldomBoiler.OperationModesTable();
    EldomBoiler.OperationModesRoundTrip();
  }

  /** The coordinator as this entity sees it: its data and the refreshes requested of it. */
  class FlatDataCoordinator {
    var data: map<string, EldomBoiler.FlatBoilerDetails>
    ghost var refreshRequests: nat

    constructor (data: map<string, EldomBoiler.FlatBoilerDetails>)
      ensures this.data == data && refreshRequests == 0
    {
      this.data := data;
      refreshRequests := 0;
    }

    method AsyncRequestRefresh()
      modifies this`refreshRequests
      ensures refreshRequests == old(refreshRequests) + 1
    {
      refreshRequests := refreshRequests + 1;
    }
  }

  /** The entity's cached fields, as one value. */
  datatype CachedFields = CachedFields(
    flatBoiler: EldomBoiler.FlatBoilerDetails,
    name: string,
    currentTemperature: real,
    targetTemperature: Option<real>,
    currentOperation: string,
    operationList: seq<string>)

  /**
   * What the constructor and the update handler both compute from the record
   * of `id`: the upper-chamber temperature, the set point, the mode name as
   * the boiler adapter reports it, and the four mode names.
   */
  function FieldsFrom(id: string, rec: EldomBoiler.FlatBoilerDetails): (r: CachedFields)
    ensures r.flatBoiler == rec && r.name == "Flat Boiler (" + id + ")"
    ensures r.currentTemperature == rec.STL_Temp && r.targetTemperature == Some(rec.SetTemp)
    ensures r.currentOperation == EldomBoiler.OperationName(rec.State)
    ensures r.currentOperation == Unknown <==> !(0 <= rec.State < 4)
    ensures r.operationList == [EldomBoiler.StateOff, EldomBoiler.StateElectric, EldomBoiler.StateEco, EldomBoiler.StateHighDemand]
  {
    OperationModesTable();
    CachedFields(
      rec,
      "Flat Boiler (" + id + ")",
      rec.STL_Temp,
      Some(rec.SetTemp),
      Get(OperationModes, rec.State, Unknown),
      Names(OperationModes))
  }

  class EldomFlatWaterHeaterEntity {
    const api: FlatBoilerClient
    const coordinator: FlatDataCoordinator
    const flatBoilerId: string
    var flatBoiler: EldomBoiler.FlatBoilerDetails
    var name: string
    var currentTemperature: real
    var targetTemperature: Option<real>
    var currentOperation: string
    var operationList: seq<string>

    function Cached(): CachedFields
      reads this
    {
      CachedFields(flatBoiler, name, currentTemperature, targetTemperature, currentOperation, operationList)
    }

    /** Reads the record of `flatBoilerId`; an id missing from the data is not modelled (see README). */
    constructor (flatBoilerId: string, coordinator: FlatDataCoordinator, api: FlatBoilerClient)
      requires flatBoilerId in coordinator.data
      ensures this.flatBoilerId == flatBoilerId && this.coordinator == coordinator && this.api == api
      ensures Cached() == FieldsFrom(flatBoilerId, coordinator.data[flatBoilerId])
    {
      this.api := api;
      this.coordinator := coordinator;
      this.flatBoilerId := flatBoilerId;
      var rec := coordinator.data[flatBoilerId];
      flatBoiler := rec;
      name := "Flat Boiler (" + flatBoilerId + ")";
      currentTemperature := rec.STL_Temp;
      targetTemperature := Some(rec.SetTemp);
      currentOperation := Get(OperationModes, rec.State, Unknown);
      operationList := Names(OperationModes);
    }

    function UniqueId(): string reads this { flatBoiler.DeviceID }

    function Name(): string reads this { name }

    function MaxTemperature(): int { MaxTemp }

    function MinTemperature(): int { MinTemp }

    function CurrentTemperature(): real reads this { currentTemperature }

    function TargetTemperature(): Option<real> reads this { targetTemperature }

    function CurrentOperation(): string reads this { currentOperation }

    function OperationList(): seq<string> reads this { operationList }

    /**
     * An unknown mode raises and changes nothing: no command, no refresh.
     * A known one becomes the cached mode; its code is sent for the record's
     * device id and a refresh is requested.  The cached record itself is not
     * touched until the next update.
     */
    method AsyncSetOperationMode(operationMode: string) returns (outcome: Outcome)
      modifies this`currentOperation, api, coordinator`refreshRequests
      ensures outcome == Done <==> operationMode in Names(OperationModes)
      ensures outcome != Done ==>
        && outcome == Raised(HomeAssistantError(ModeNotSupported))
        && currentOperation == old(currentOperation)
        && api.sent == old(api.sent)
        && coordinator.refreshRequests == old(coordinator.refreshRequests)
      ensures outcome == Done ==>
        && currentOperation == operationMode
        && |api.sent| == |old(api.sent)| + 1 && api.sent[..|old(api.sent)|] == old(api.sent)
        && api.sent[|old(api.sent)|].SetState? && api.sent[|old(api.sent)|].deviceId == flatBoiler.DeviceID
        && api.sent[|old(api.sent)|].state in ToMap(OperationModes)
        && ToMap(OperationModes)[api.sent[|old(api.sent)|].state] == operationMode
        && coordinator.refreshRequests == old(coordinator.refreshRequests) + 1
    {
      if operationMode !in Names(OperationModes) {
        return Raised(HomeAssistantError(ModeNotSupported));
      }
      OperationModesTable();
      currentOperation := operationMode;
      var operationModeId := Inverse(OperationModes)[operationMode];
      api.Send(SetState(flatBoiler.DeviceID, operationModeId));
      coordinator.AsyncRequestRefresh();
      outcome := Done;
    }

    /**
     * `temperature` is whatever the caller passed, possibly nothing; it is
     * cached and forwarded without a range check, and a refresh is requested.
     */
    method AsyncSetTemperature(temperature: Option<real>)
      modifies this`targetTemperature, api, coordinator`refreshRequests
      ensures targetTemperature == temperature
      ensures api.sent == old(api.sent) + [SetTemperature(flatBoiler.DeviceID, temperature)]
      ensures coordinator.refreshRequests == old(coordinator.refreshRequests) + 1
    {
      targetTemperature := temperature;
      api.Send(SetTemperature(flatBoiler.DeviceID, temperature));
      coordinator.AsyncRequestRefresh();
    }

    /**
     * Recomputes every cached field from the record of this entity's id, as
     * the constructor does.  Data without that id raises `KeyError` before
     * anything is assigned.
     */
    method HandleCoordinatorUpdate() returns (outcome: Outcome)
      modifies this`flatBoiler, this`name, this`currentTemperature, this`targetTemperature,
        this`currentOperation, this`operationList
      ensures flatBoilerId in coordinator.data ==>
        outcome == Done && Cached() == FieldsFrom(flatBoilerId, coordinator.data[flatBoilerId])
      ensures flatBoilerId !in coordinator.data ==>
        outcome == Raised(KeyError(flatBoilerId)) && Cached() == old(Cached())
    {
      if flatBoilerId !in coordinator.data {
        return Raised(KeyError(flatBoilerId));
      }
      var rec := coordinator.data[flatBoilerId];
      flatBoiler := rec;
      name := "Flat Boiler (" + flatBoilerId + ")";
      currentTemperature := rec.STL_Temp;
      targetTemperature := Some(rec.SetTemp);
      currentOperation := Get(OperationModes, rec.State, Unknown);
      operationList := Names(OperationModes);
      outcome := Done;
    }
  }
}
