/**
 * The powerful-mode switch: one per boiler.  It reports the boiler's boost
 * flag, turns boost on only while the boiler is in Eco mode, never turns it
 * off, and re-resolves its boiler from the coordinator's snapshot after each
 * refresh.
 */
module Switch {
  import opened Wrappers
  import opened ModeTable
  import opened Remote
  import opened EldomBoiler
  import opened Coordinator

  const SwitchName: string := "Powerful"
  const UniqueIdSuffix: string := "-powerful-switch"

  /** `OPERATION_MODES[2]`: the boiler table's code-2 entry, which is Eco. */
  function RequiredOperationModeForBoost(): (r: string)
    ensures r == StateEco && r in Names(OperationModes)
    ensures 2 in ToMap(OperationModes) && r == ToMap(OperationModes)[2]
  {
    OperationModesTable();
    ToMap(OperationModes)[2]
  }

  /** The switch's unique id for a boiler whose vendor id is `deviceId`. */
  function SwitchUniqueId(deviceId: string): (r: string)
    ensures |r| == |deviceId| + |UniqueIdSuffix| && r[..|deviceId|] == deviceId && r[|deviceId|..] == UniqueIdSuffix
  {
    deviceId + UniqueIdSuffix
  }

  /** The command `enable_powerful_mode` sends for `b`. */
  function PowerfulModeCommand(b: Boiler): Command
    reads b.Obj()
  {
    if b.Flat? then SetFlatBoilerPowerfulModeOn(b.DeviceId()) else SetSmartBoilerPowerfulModeOn(b.DeviceId())
  }

  class EldomBoilerPowerfulModeSwitch {
    var boiler: Boiler
    const coordinator: EldomCoordinator

    constructor (boiler: Boiler, coordinator: EldomCoordinator)
      ensures this.boiler == boiler && this.coordinator == coordinator
    {
      this.boiler := boiler;
      this.coordinator := coordinator;
    }

    function UniqueId(): string
      reads this, boiler.Obj()
    {
      SwitchUniqueId(boiler.DeviceId())
    }

    function Name(): string
      reads this, boiler.Obj()
    {
      boiler.Name() + "'s " + SwitchName + " Switch"
    }

    /** The switch is on exactly when the boiler's boost flag is set. */
    function IsOn(): (r: bool)
      reads this, boiler.Obj()
      ensures r <==> (boiler.Flat? && boiler.flat.details.HasBoost) || (boiler.Smart? && boiler.smart.details.BoostHeating)
    {
      boiler.PowerfulEnabled()
    }

    /**
     * Outside Eco mode nothing happens: the boiler is untouched and nothing
     * is sent.  In Eco mode boost is enabled, so the switch is on afterwards,
     * the mode is unchanged and exactly the boost command is sent.
     */
    method AsyncTurnOn()
      modifies boiler.Obj(), boiler.Client()
      ensures old(boiler.CurrentOperation()) != RequiredOperationModeForBoost() ==>
        && unchanged(boiler.Obj())
        && boiler.Client().sent == old(boiler.Client().sent)
      ensures old(boiler.CurrentOperation()) == RequiredOperationModeForBoost() ==>
        && IsOn()
        && boiler.CurrentOperation() == old(boiler.CurrentOperation())
        && (boiler.Flat? ==> boiler.flat.details == old(boiler.flat.details).(HasBoost := true))
        && (boiler.Smart? ==> boiler.smart.details == old(boiler.smart.details).(BoostHeating := true))
        && boiler.Client().sent == old(boiler.Client().sent) + [PowerfulModeCommand(boiler)]
    {
      var ecoModeEnabled := boiler.CurrentOperation() == RequiredOperationModeForBoost();
      if !ecoModeEnabled {
        return;
      }
      boiler.EnablePowerfulMode();
    }

    /** Boost cannot be turned off here: only a refresh is requested, the boiler is left alone. */
    method AsyncTurnOff()
      modifies coordinator`refreshRequests
      ensures coordinator.refreshRequests == old(coordinator.refreshRequests) + 1
      ensures IsOn() == old(IsOn()) && boiler.CurrentOperation() == old(boiler.CurrentOperation())
    {
      coordinator.AsyncRequestRefresh();
    }

    /**
     * Looks the boiler up again under its own type and id in the coordinator's
     * new snapshot.  A snapshot without that boiler makes the state write fail.
     * In a well-formed snapshot the boiler found has the id it was looked up by.
     */
    method HandleCoordinatorUpdate() returns (outcome: Outcome)
      modifies this`boiler
      ensures LookupBoiler(coordinator.data, old(boiler.Type()), old(boiler.Id())).Some? ==>
        outcome == Done && boiler == LookupBoiler(coordinator.data, old(boiler.Type()), old(boiler.Id())).value
      ensures LookupBoiler(coordinator.data, old(boiler.Type()), old(boiler.Id())).None? ==>
        outcome == Raised(AttributeError) && boiler == old(boiler)
      ensures WellFormed(coordinator.data) && outcome == Done ==> boiler.Id() == old(boiler.Id())
    {
      var found := LookupBoiler(coordinator.data, boiler.Type(), boiler.Id());
      if found.None? {
        return Raised(AttributeError);
      }
      boiler := found.value;
      outcome := Done;
    }
  }
}
