/**
 * The vendor's cloud clients, reduced to what can be observed of them: the
 * ordered log of mutation requests sent.  Reads (device lists and statuses)
 * are parameters of the operations that need them.
 */
module Remote {
  import opened Wrappers

  /** One mutation request of `eldom.client.Client`. */
  datatype Command =
    | SetFlatBoilerState(deviceId: string, state: int)
    | SetFlatBoilerTemperature(deviceId: string, temperature: real)
    | SetFlatBoilerPowerfulModeOn(deviceId: string)
    | SetSmartBoilerState(deviceId: string, state: int)
    | SetSmartBoilerTemperature(deviceId: string, temperature: real)
    | SetSmartBoilerPowerfulModeOn(deviceId: string)
    | SetConvectorHeaterState(deviceId: string, state: int)
    | SetConvectorHeaterTemperature(deviceId: string, temperature: real)

  /** The client shared by the coordinator and every capability object it builds. */
  class EldomClient {
    ghost var sent: seq<Command>

    constructor ()
      ensures sent == []
    {
      sent := [];
    }

    method Send(c: Command)
      modifies this
      ensures sent == old(sent) + [c]
    {
      sent := sent + [c];
    }
  }

  /**
   * One mutation request of `eldom.flat_boiler.Client`, the client the water
   * heater entity uses; its temperature is whatever the caller's keyword
   * arguments held, possibly nothing.
   */
  datatype FlatBoilerCommand =
    | SetState(deviceId: string, state: int)
    | SetTemperature(deviceId: string, temperature: Option<real>)

  class FlatBoilerClient {
    ghost var sent: seq<FlatBoilerCommand>

    constructor ()
      ensures sent == []
    {
      sent := [];
    }

    method Send(c: FlatBoilerCommand)
      modifies this
      ensures sent == old(sent) + [c]
    {
      sent := sent + [c];
    }
  }
}
