/** The convector heater capability model: its two-entry mode table and its wrapper. */
module EldomConvector {
  import opened Wrappers
  import opened Builtins
  import opened ModeTable
  import opened Remote

  const MaxTemp: int := 35
  const MinTemp: int := 5

  // Home Assistant's HVAC mode names.
  const HvacOff: string := "off"
  const HvacHeat: string := "heat"

  const OperationModes: Table := [(0, HvacOff), (1, HvacHeat)]

  /** The convector table is exactly 0 -> off, 1 -> heat, and inverts to the expected dict. */
  lemma OperationModesTable()
    ensures DistinctCodes(OperationModes) && DistinctNames(OperationModes)
    ensures ToMap(OperationModes) == map[0 := HvacOff, 1 := HvacHeat]
    ensures Inverse(OperationModes) == map[HvacOff := 0, HvacHeat := 1]
    ensures Names(OperationModes) == [HvacOff, HvacHeat]
    ensures Unknown !in Names(OperationModes)
    ensures MinTemp < MaxTemp
  {
    var t1 := OperationModes[..1];
    assert t1 == [(0, HvacOff)] && t1[..0] == [] && OperationModes[..1] == t1;
    assert ToMap(t1) == map[0 := HvacOff];
    assert Inverse(t1) == map[HvacOff := 0];
    assert Names(t1) == [HvacOff] by { assert Names(t1) == Names([]) + [HvacOff]; }
  }

  /** `table[inverse[m]] == m` for both convector modes, and the inverse is defined exactly on them. */
  lemma OperationModesRoundTrip()
    ensures forall n :: n in Names(OperationModes) <==> n in Inverse(OperationModes)
    ensures forall n :: n in Inverse(OperationModes) ==>
      Inverse(OperationModes)[n] in ToMap(OperationModes) && ToMap(OperationModes)[Inverse(OperationModes)[n]] == n
    ensures forall c :: c in ToMap(OperationModes) ==>
      ToMap(OperationModes)[c] in Inverse(OperationModes) && Inverse(OperationModes)[ToMap(OperationModes)[c]] == c
  {
    OperationModesTable();
    RoundTrip(OperationModes);
  }

  /** `OPERATION_MODES.get(state, "Unknown")`. */
  function OperationName(state: int): (r: string)
    ensures state == 0 ==> r == HvacOff
    ensures state == 1 ==> r == HvacHeat
    ensures r == Unknown <==> state != 0 && state != 1
  {
    OperationModesTable();
    Get(OperationModes, state, Unknown)
  }

  /** The status record of a convector heater as the vendor API returns it. */
  datatype ConvectorHeaterDetails = ConvectorHeaterDetails(
    DeviceID: string,
    Type: int,
    SoftwareVersion: string,
    HardwareVersion: string,
    AmbientTemp: real,
    SetTemp: real,
    BoostHeating: bool,
    EnergyD: real,
    EnergyN: real,
    State: int,
    Power: int)

  class EldomConvectorHeater {
    const id: string
    var details: ConvectorHeaterDetails
    const client: EldomClient

    constructor (id: string, details: ConvectorHeaterDetails, client: EldomClient)
      ensures this.id == id && this.details == details && this.client == client
    {
      this.id := id;
      this.details := details;
      this.client := client;
    }

    function DeviceId(): string reads this { details.DeviceID }

    /** The kind of device and, in parentheses, the last four characters of its vendor id (all of a shorter id). */
    function Name(): (r: string)
      reads this
      ensures |r| - 19 == if |details.DeviceID| < 4 then |details.DeviceID| else 4
      ensures r == "Convector Heater (" + r[18..|r| - 1] + ")"
      ensures details.DeviceID == details.DeviceID[..|details.DeviceID| - (|r| - 19)] + r[18..|r| - 1]
    {
      "Convector Heater (" + Tail(details.DeviceID, 4) + ")"
    }

    function Type(): int reads this { details.Type }

    function SoftwareVersion(): string reads this { details.SoftwareVersion }

    function HardwareVersion(): string reads this { details.HardwareVersion }

    function OperationModeNames(): seq<string> { Names(OperationModes) }

    function MaxTemperature(): int { MaxTemp }

    function MinTemperature(): int { MinTemp }

    function CurrentTemperature(): real reads this { details.AmbientTemp }

    function TargetTemperature(): real reads this { details.SetTemp }

    function PowerfulEnabled(): bool reads this { details.BoostHeating }

    function DayEnergyConsumption(): real reads this { details.EnergyD }

    function NightEnergyConsumption(): real reads this { details.EnergyN }

    function CurrentOperation(): string reads this { OperationName(details.State) }

    function PowerLevel(): int reads this { details.Power }

    /**
     * An unsupported mode raises and changes nothing; a supported one
     * becomes the local state and is sent to the vendor, once.
     */
    method SetOperationMode(mode: string) returns (outcome: Outcome)
      modifies this, client
      ensures outcome == Done <==> mode in Names(OperationModes)
      ensures outcome != Done ==>
        && outcome == Raised(ValueError(ModeNotSupported))
        && details == old(details) && client.sent == old(client.sent)
      ensures outcome == Done ==>
        && details == old(details).(State := details.State)
        && details.State in ToMap(OperationModes) && ToMap(OperationModes)[details.State] == mode
        && CurrentOperation() == mode
        && client.sent == old(client.sent) + [SetConvectorHeaterState(details.DeviceID, details.State)]
    {
      if mode !in Names(OperationModes) {
        return Raised(ValueError(ModeNotSupported));
      }
      OperationModesRoundTrip();
      var code := Inverse(OperationModes)[mode];
      details := details.(State := code);
      client.Send(SetConvectorHeaterState(details.DeviceID, code));
      outcome := Done;
    }

    method TurnOn()
      modifies this, client
      ensures details == old(details).(State := 1) && CurrentOperation() == HvacHeat
      ensures client.sent == old(client.sent) + [SetConvectorHeaterState(details.DeviceID, 1)]
    {
      OperationModesTable();
      var _ := SetOperationMode(HvacHeat);
    }

    method TurnOff()
      modifies this, client
      ensures details == old(details).(State := 0) && CurrentOperation() == HvacOff
      ensures client.sent == old(client.sent) + [SetConvectorHeaterState(details.DeviceID, 0)]
    {
      OperationModesTable();
      var _ := SetOperationMode(HvacOff);
    }

    /** No range check against MinTemp..MaxTemp: the value is stored and forwarded as given. */
    method SetTemperature(temperature: real)
      modifies this, client
      ensures details == old(details).(SetTemp := temperature) && TargetTemperature() == temperature
      ensures client.sent == old(client.sent) + [SetConvectorHeaterTemperature(details.DeviceID, temperature)]
    {
      details := details.(SetTemp := temperature);
      client.Send(SetConvectorHeaterTemperature(details.DeviceID, temperature));
    }
  }
}
