/**
 * The boiler capability model: the fixed mode table, the flat and smart
 * boiler wrappers around the vendor status record, and `Boiler`, the common
 * interface both satisfy.
 */
module EldomBoiler {
  import opened Wrappers
  import opened Builtins
  import opened ModeTable
  import opened Remote

  const MaxTemp: int := 75
  const MinTemp: int := 35

  // Home Assistant's water-heater state names.
  const StateOff: string := "off"
  const StateElectric: string := "electric"      // the vendor's "Heating"
  const StateEco: string := "eco"                // the vendor's "Smart"
  const StateHighDemand: string := "high_demand" // the vendor's "Study"

  const OperationModes: Table :=
    [(0, StateOff), (1, StateElectric), (2, StateEco), (3, StateHighDemand)]

  /** The boiler table has the four codes 0..3, four distinct names, and inverts to the expected dict. */
  lemma OperationModesTable()
    ensures DistinctCodes(OperationModes) && DistinctNames(OperationModes)
    ensures ToMap(OperationModes) == map[0 := StateOff, 1 := StateElectric, 2 := StateEco, 3 := StateHighDemand]
    ensures Inverse(OperationModes) == map[StateOff := 0, StateElectric := 1, StateEco := 2, StateHighDemand := 3]
    ensures Names(OperationModes) == [StateOff, StateElectric, StateEco, StateHighDemand]
    ensures Unknown !in Names(OperationModes)
    ensures MinTemp < MaxTemp
  {
    var t1, t2, t3 := OperationModes[..1], OperationModes[..2], OperationModes[..3];
    assert t1 == [(0, StateOff)] && t1[..0] == [];
    assert t2[..1] == t1 && t3[..2] == t2 && OperationModes[..3] == t3;
    assert ToMap(t1) == map[0 := StateOff];
    assert Inverse(t1) == map[StateOff := 0];
    assert Names(t1) == [StateOff] by { assert Names(t1) == Names([]) + [StateOff]; }
    assert ToMap(t2) == map[0 := StateOff, 1 := StateElectric];
    assert Inverse(t2) == map[StateOff := 0, StateElectric := 1];
    assert Names(t2) == [StateOff, StateElectric];
    assert ToMap(t3) == map[0 := StateOff, 1 := StateElectric, 2 := StateEco];
    assert Inverse(t3) == map[StateOff := 0, StateElectric := 1, StateEco := 2];
    assert Names(t3) == [StateOff, StateElectric, StateEco];
  }

  /** `table[inverse[n]] == n` for every boiler mode name, and the inverse is defined exactly on them. */
  lemma OperationModesRoundTrip()
    ensures forall n :: n in Names(OperationModes) <==> n in Inverse(OperationModes)
    ensures forall n :: n in Inverse(OperationModes) ==>
      Inverse(OperationModes)[n] in ToMap(OperationModes) && ToMap(OperationModes)[Inverse(OperationModes)[n]] == n
    ensures forall c :: c in ToMap(OperationModes) ==>
      ToMap(OperationModes)[c] in Inverse(OperationModes) && Inverse(OperationModes)[ToMap(OperationModes)[c]] == c
  {
    OperationModesTable();
    RoundTrip(OperationModes);
  }

  /** `OPERATION_MODES.get(state, "Unknown")`. */
  function OperationName(state: int): (r: string)
    ensures 0 <= state < 4 ==> r == [StateOff, StateElectric, StateEco, StateHighDemand][state]
    ensures r == Unknown <==> !(0 <= state < 4)
    ensures r in Names(OperationModes) <==> 0 <= state < 4
  {
    OperationModesTable();
    Get(OperationModes, state, Unknown)
  }

  /** The status record of a flat boiler as the vendor API returns it. */
  datatype FlatBoilerDetails = FlatBoilerDetails(
    DeviceID: string,
    Type: int,
    SoftwareVersion: string,
    HardwareVersion: string,
    STL_Temp: real,
    FT_Temp: real,
    SetTemp: real,
    HasBoost: bool,
    EnergyD: real,
    EnergyN: real,
    SavedEnergy: real,
    State: int,
    PowerFlag: int,
    EnergyUsageResetDate: string)

  /** The status record of a smart boiler as the vendor API returns it. */
  datatype SmartBoilerDetails = SmartBoilerDetails(
    DeviceID: string,
    Type: int,
    SoftwareVersion: string,
    HardwareVersion: string,
    WH_TempL: real,
    SetTemp: real,
    BoostHeating: bool,
    EnergyD: real,
    EnergyN: real,
    SavedEnergy: real,
    State: int,
    Heater: bool,
    EnergyUsageResetDate: string)

  class FlatEldomBoiler {
    const id: string
    var details: FlatBoilerDetails
    const client: EldomClient

    constructor (id: string, details: FlatBoilerDetails, client: EldomClient)
      ensures this.id == id && this.details == details && this.client == client
    {
      this.id := id;
      this.details := details;
      this.client := client;
    }

    function DeviceId(): string reads this { details.DeviceID }

    /** The kind of device and, in parentheses, the last four characters of its vendor id (all of a shorter id). */
    function Name(): (r: string)
      reads this
      ensures |r| - 14 == if |details.DeviceID| < 4 then |details.DeviceID| else 4
      ensures r == "Flat Boiler (" + r[13..|r| - 1] + ")"
      ensures details.DeviceID == details.DeviceID[..|details.DeviceID| - (|r| - 14)] + r[13..|r| - 1]
    {
      "Flat Boiler (" + Tail(details.DeviceID, 4) + ")"
    }

    function Type(): int reads this { details.Type }

    function SoftwareVersion(): string reads this { details.SoftwareVersion }

    function HardwareVersion(): string reads this { details.HardwareVersion }

    function OperationModeNames(): seq<string> { Names(OperationModes) }

    function MaxTemperature(): int { MaxTemp }

    function MinTemperature(): int { MinTemp }

    /** The mean of the two chambers' temperatures. */
    function CurrentTemperature(): real reads this { (details.STL_Temp + details.FT_Temp) / 2.0 }

    function TargetTemperature(): real reads this { details.SetTemp }

    function PowerfulEnabled(): bool reads this { details.HasBoost }

    function DayEnergyConsumption(): real reads this { details.EnergyD }

    function NightEnergyConsumption(): real reads this { details.EnergyN }

    function SavedEnergy(): real reads this { details.SavedEnergy }

    function EnergyUsageResetDate(): string reads this { details.EnergyUsageResetDate }

    function CurrentOperation(): string reads this { OperationName(details.State) }

    function HeaterEnabled(): bool reads this { details.PowerFlag != 0 }

    /**
     * An unknown mode name raises and changes nothing; a known one becomes
     * the local state and is sent to the vendor, once.
     */
    method SetOperationMode(mode: string) returns (outcome: Outcome)
      modifies this, client
      ensures outcome == Done <==> mode in Names(OperationModes)
      ensures outcome != Done ==>
        && outcome == Raised(ValueError(ModeNotSupported))
        && details == old(details) && client.sent == old(client.sent)
      ensures outcome == Done ==>
        && details == old(details).(State := details.State)
        && details.State in ToMap(OperationModes) && ToMap(OperationModes)[details.State] == mode
        && CurrentOperation() == mode
        && client.sent == old(client.sent) + [SetFlatBoilerState(details.DeviceID, details.State)]
    {
      if mode !in Names(OperationModes) {
        return Raised(ValueError(ModeNotSupported));
      }
      OperationModesRoundTrip();
      var code := Inverse(OperationModes)[mode];
      details := details.(State := code);
      client.Send(SetFlatBoilerState(details.DeviceID, code));
      outcome := Done;
    }

    method TurnOn()
      modifies this, client
      ensures details == old(details).(State := 2) && CurrentOperation() == StateEco
      ensures client.sent == old(client.sent) + [SetFlatBoilerState(details.DeviceID, 2)]
    {
      OperationModesTable();
      var _ := SetOperationMode(StateEco);
    }

    method TurnOff()
      modifies this, client
      ensures details == old(details).(State := 0) && CurrentOperation() == StateOff
      ensures client.sent == old(client.sent) + [SetFlatBoilerState(details.DeviceID, 0)]
    {
      OperationModesTable();
      var _ := SetOperationMode(StateOff);
    }

    /** No range check: any temperature becomes the target and is forwarded as given. */
    method SetTemperature(temperature: real)
      modifies this, client
      ensures details == old(details).(SetTemp := temperature) && TargetTemperature() == temperature
      ensures client.sent == old(client.sent) + [SetFlatBoilerTemperature(details.DeviceID, temperature)]
    {
      details := details.(SetTemp := temperature);
      client.Send(SetFlatBoilerTemperature(details.DeviceID, temperature));
    }

    /** Sets the boost flag whatever the current mode; the mode check lives in the switch. */
    method EnablePowerfulMode()
      modifies this, client
      ensures details == old(details).(HasBoost := true) && PowerfulEnabled()
      ensures client.sent == old(client.sent) + [SetFlatBoilerPowerfulModeOn(details.DeviceID)]
    {
      details := details.(HasBoost := true);
      client.Send(SetFlatBoilerPowerfulModeOn(details.DeviceID));
    }
  }

  class SmartEldomBoiler {
    const id: string
    var details: SmartBoilerDetails
    const client: EldomClient

    constructor (id: string, details: SmartBoilerDetails, client: EldomClient)
      ensures this.id == id && this.details == details && this.client == client
    {
      this.id := id;
      this.details := details;
      this.client := client;
    }

    function DeviceId(): string reads this { details.DeviceID }

    /** The kind of device and, in parentheses, the last four characters of its vendor id (all of a shorter id). */
    function Name(): (r: string)
      reads this
      ensures |r| - 15 == if |details.DeviceID| < 4 then |details.DeviceID| else 4
      ensures r == "Smart Boiler (" + r[14..|r| - 1] + ")"
      ensures details.DeviceID == details.DeviceID[..|details.DeviceID| - (|r| - 15)] + r[14..|r| - 1]
    {
      "Smart Boiler (" + Tail(details.DeviceID, 4) + ")"
    }

    function Type(): int reads this { details.Type }

    function SoftwareVersion(): string reads this { details.SoftwareVersion }

    function HardwareVersion(): string reads this { details.HardwareVersion }

    function OperationModeNames(): seq<string> { Names(OperationModes) }

    function MaxTemperature(): int { MaxTemp }

    function MinTemperature(): int { MinTemp }

    function CurrentTemperature(): real reads this { details.WH_TempL }

    function TargetTemperature(): real reads this { details.SetTemp }

    function PowerfulEnabled(): bool reads this { details.BoostHeating }

    function DayEnergyConsumption(): real reads this { details.EnergyD }

    function NightEnergyConsumption(): real reads this { details.EnergyN }

    function SavedEnergy(): real reads this { details.SavedEnergy }

    function EnergyUsageResetDate(): string reads this { details.EnergyUsageResetDate }

    function CurrentOperation(): string reads this { OperationName(details.State) }

    function HeaterEnabled(): bool reads this { details.Heater }

    method SetOperationMode(mode: string) returns (outcome: Outcome)
      modifies this, client
      ensures outcome == Done <==> mode in Names(OperationModes)
      ensures outcome != Done ==>
        && outcome == Raised(ValueError(ModeNotSupported))
        && details == old(details) && client.sent == old(client.sent)
      ensures outcome == Done ==>
        && details == old(details).(State := details.State)
        && details.State in ToMap(OperationModes) && ToMap(OperationModes)[details.State] == mode
        && CurrentOperation() == mode
        && client.sent == old(client.sent) + [SetSmartBoilerState(details.DeviceID, details.State)]
    {
      if mode !in Names(OperationModes) {
        return Raised(ValueError(ModeNotSupported));
      }
      OperationModesRoundTrip();
      var code := Inverse(OperationModes)[mode];
      details := details.(State := code);
      client.Send(SetSmartBoilerState(details.DeviceID, code));
      outcome := Done;
    }

    method TurnOn()
      modifies this, client
      ensures details == old(details).(State := 2) && CurrentOperation() == StateEco
      ensures client.sent == old(client.sent) + [SetSmartBoilerState(details.DeviceID, 2)]
    {
      OperationModesTable();
      var _ := SetOperationMode(StateEco);
    }

    method TurnOff()
      modifies this, client
      ensures details == old(details).(State := 0) && CurrentOperation() == StateOff
      ensures client.sent == old(client.sent) + [SetSmartBoilerState(details.DeviceID, 0)]
    {
      OperationModesTable();
      var _ := SetOperationMode(StateOff);
    }

    method SetTemperature(temperature: real)
      modifies this, client
      ensures details == old(details).(SetTemp := temperature) && TargetTemperature() == temperature
      ensures client.sent == old(client.sent) + [SetSmartBoilerTemperature(details.DeviceID, temperature)]
    {
      details := details.(SetTemp := temperature);
      client.Send(SetSmartBoilerTemperature(details.DeviceID, temperature));
    }

    method EnablePowerfulMode()
      modifies this, client
      ensures details == old(details).(BoostHeating := true) && PowerfulEnabled()
      ensures client.sent == old(client.sent) + [SetSmartBoilerPowerfulModeOn(details.DeviceID)]
    {
      details := details.(BoostHeating := true);
      client.Send(SetSmartBoilerPowerfulModeOn(details.DeviceID));
    }
  }

  /** Either kind of boiler, behind the interface the entity adapters use. */
  datatype Boiler = Flat(flat: FlatEldomBoiler) | Smart(smart: SmartEldomBoiler) {

    function Obj(): object {
      if Flat? then flat else smart
    }

    function Client(): EldomClient {
      if Flat? then flat.client else smart.client
    }

    function Id(): string {
      if Flat? then flat.id else smart.id
    }

    function DeviceId(): string reads Obj() {
      if Flat? then flat.DeviceId() else smart.DeviceId()
    }

    function Name(): string reads Obj() {
      if Flat? then flat.Name() else smart.Name()
    }

    function Type(): int reads Obj() {
      if Flat? then flat.Type() else smart.Type()
    }

    function PowerfulEnabled(): bool reads Obj() {
      if Flat? then flat.PowerfulEnabled() else smart.PowerfulEnabled()
    }

    function CurrentOperation(): string reads Obj() {
      if Flat? then flat.CurrentOperation() else smart.CurrentOperation()
    }

    function HeaterEnabled(): bool reads Obj() {
      if Flat? then flat.HeaterEnabled() else smart.HeaterEnabled()
    }

    function DayEnergyConsumption(): real reads Obj() {
      if Flat? then flat.DayEnergyConsumption() else smart.DayEnergyConsumption()
    }

    function NightEnergyConsumption(): real reads Obj() {
      if Flat? then flat.NightEnergyConsumption() else smart.NightEnergyConsumption()
    }

    function SavedEnergy(): real reads Obj() {
      if Flat? then flat.SavedEnergy() else smart.SavedEnergy()
    }

    function EnergyUsageResetDate(): string reads Obj() {
      if Flat? then flat.EnergyUsageResetDate() else smart.EnergyUsageResetDate()
    }

    /** The mode, the identity and everything but the boost flag stay as they were. */
    method EnablePowerfulMode()
      modifies Obj(), Client()
      ensures PowerfulEnabled()
      ensures Flat? ==> flat.details == old(flat.details).(HasBoost := true)
      ensures Smart? ==> smart.details == old(smart.details).(BoostHeating := true)
      ensures CurrentOperation() == old(CurrentOperation()) && DeviceId() == old(DeviceId())
      ensures Client().sent == old(Client().sent) +
        [if Flat? then SetFlatBoilerPowerfulModeOn(DeviceId()) else SetSmartBoilerPowerfulModeOn(DeviceId())]
    {
      if Flat? {
        flat.EnablePowerfulMode();
      } else {
        smart.EnablePowerfulMode();
      }
    }
  }
}
