# Eldom integration: capability model, adapters and snapshot

This project models the Eldom water-heater and convector-heater integration for
Home Assistant.

The centre of the integration is a **capability object** per vendor device:

- `FlatEldomBoiler`, `SmartEldomBoiler` and `EldomConvectorHeater` each wrap the
  vendor's mutable status record;
- each maps the record's numeric `State` through a fixed **mode table** (code →
  Home Assistant mode name, with `"Unknown"` as fallback);
- each offers **optimistic mutators**: the record is written locally first, then
  the change is sent to the vendor cloud.

Around the capability objects sit the **entity adapters**:

- the powerful-mode switch, which allows boost only in Eco mode;
- the water-heater entity, which keeps its own cached copy of mode and set point;
- the five boiler sensors, which derive display values from the record.

Every poll, the **coordinator** partitions the vendor's device list by type code
(7 flat boiler, 5 smart boiler, 4 convector) into three maps from device id to a
freshly built capability object.

Modules, one per source file, plus four small shared ones:

| file | module | models |
|---|---|---|
| `wrappers.dfy` | `Wrappers` | `Option`, the raised Python exceptions, a call's outcome |
| `builtins.dfy` | `Builtins` | Python's `s[-n:]` and `int()` on floats |
| `mode_table.dfy` | `ModeTable` | a mode table as its dict items; `dict()`, `list(values())`, the `{v: k}` inverse, `.get` |
| `remote.dfy` | `Remote` | the vendor clients as ghost logs of the commands sent |
| `eldom_boiler.dfy` | `EldomBoiler` | `eldom_boiler.py` |
| `eldom_convector.dfy` | `EldomConvector` | `eldom_convector.py` |
| `coordinator.dfy` | `Coordinator` | `coordinator.py` and the type codes of `const.py` |
| `switch.dfy` | `Switch` | `switch.py` |
| `sensor.dfy` | `Sensor` | `sensor.py` |
| `water_heater.dfy` | `WaterHeater` | `water_heater.py` |

How the model is built:

- A mutator's remote call is an append to the ghost `sent` log of the client
  object it holds. "Sends code 0", "sends nothing" and "exactly one command"
  can therefore be stated.
- The coordinator's partition is first stated on values, by `Partition`.
  `EldomCoordinator.AsyncUpdateData` then builds the objects and is proved to
  build exactly that partition, through `View`.
- The abstract `EldomBoiler` base class becomes the `Boiler` datatype, with one
  variant per concrete class. The switch and the sensors work on a `Boiler`.
- The vendor's device list and the three status endpoints are parameters:
  `devices` and the lookup functions in `StatusSource`.
- Temperatures and energy readings are `real`.

Two facts about the code that a reader of the capability classes might not expect:

- `enable_powerful_mode` sets the boost flag and sends the command whatever
  the current mode (`eldom_boiler.py:251-255`, `386-390`). The only Eco gate
  is the switch's, which is Eco for both boiler kinds (`switch.py:93-102`).
- The mode tables hold Home Assistant's names: `"off"`, `"electric"`,
  `"eco"` and `"high_demand"` for boilers, `"off"` and `"heat"` for the
  convector. The vendor's names Heating, Smart and Study appear only in
  comments and docstrings (`eldom_boiler.py:21-23`, `58`, `94`, `167`, `214`,
  `304`, `349`; `water_heater.py:38-40`, `139`); no code path uses them.

## Model

| member | source | states |
|---|---|---|
| `Builtins.Tail` | custom_components/eldom/eldom_boiler.py:148 | `s[-n:]`: the last `n` characters, or all of a shorter `s`, fixed by length and by `s` being some prefix followed by the result |
| `Builtins.Truncate` | custom_components/eldom/sensor.py:131 | `int()` of a float: truncation toward zero, fixed by bounds on both signs |
| `ModeTable.ToMapKeys` | custom_components/eldom/eldom_boiler.py:19-24 | the dict built from a table has exactly the table's codes as keys |
| `ModeTable.NamesElements` | custom_components/eldom/eldom_boiler.py:165-168 | `list(OPERATION_MODES.values())` has one name per entry, in table order |
| `ModeTable.InverseKeys` | custom_components/eldom/eldom_boiler.py:235 | the inverse dict `{v: k …}` has exactly the table's names as keys |
| `ModeTable.ToMapAt` | custom_components/eldom/eldom_boiler.py:19-24 | with distinct codes, every entry's code looks up to that entry's name |
| `ModeTable.InverseAt` | custom_components/eldom/eldom_boiler.py:235 | with distinct names, every entry's name inverts to that entry's code |
| `ModeTable.NamesAreInverseKeys` | custom_components/eldom/eldom_boiler.py:232-235 | a name passes the `in values()` check exactly when it is a key of the inverse, so the inverse lookup after the check cannot fail |
| `ModeTable.RoundTrip` | custom_components/eldom/eldom_boiler.py:232-237 | for distinct codes and names, `table[inverse[n]] == n` for every name and `inverse[table[c]] == c` for every code |
| `ModeTable.ToMap` | custom_components/eldom/eldom_boiler.py:19-24 | by definition: `dict` of the items in order, a later code overriding an earlier one |
| `ModeTable.Names` | custom_components/eldom/eldom_boiler.py:165-168 | by definition: `list(values())`, the names in item order |
| `ModeTable.Inverse` | custom_components/eldom/eldom_boiler.py:235 | by definition: `{v: k for k, v in items()}`, a later name overriding an earlier one |
| `ModeTable.Get` | custom_components/eldom/eldom_boiler.py:212-215 | by definition: `d.get(code, default)` of the dict of the items |
| `EldomBoiler.OperationModesTable` | custom_components/eldom/eldom_boiler.py:16-24 | the boiler table is 0→off, 1→electric, 2→eco, 3→high_demand, with four distinct names, none of them "Unknown"; its inverse is the expected dict; min 35 < max 75 |
| `EldomBoiler.OperationModesRoundTrip` | custom_components/eldom/eldom_boiler.py:232-237 | the boiler table round-trips in both directions, and its inverse is defined on exactly its names |
| `EldomBoiler.OperationName` | custom_components/eldom/eldom_boiler.py:212-215 | `current_operation`: codes 0..3 give their names; every other code gives "Unknown"; the result is a mode name exactly when the code is in 0..3 |
| `EldomBoiler.FlatEldomBoiler.constructor` | custom_components/eldom/eldom_boiler.py:124-133 | the wrapper holds its id, the status record and the shared client |
| `EldomBoiler.FlatEldomBoiler.Name` | custom_components/eldom/eldom_boiler.py:145-148 | "Flat Boiler (" + the last min(4, length) characters of the device id + ")" |
| `EldomBoiler.FlatEldomBoiler.CurrentTemperature` | custom_components/eldom/eldom_boiler.py:180-185 | by definition: the mean `(STL_Temp + FT_Temp) / 2` of the two chambers, exactly |
| `EldomBoiler.FlatEldomBoiler.CurrentOperation` | custom_components/eldom/eldom_boiler.py:212-215 | by definition: `OperationName` of the record's `State` |
| `EldomBoiler.FlatEldomBoiler.HeaterEnabled` | custom_components/eldom/eldom_boiler.py:217-220 | by definition: `PowerFlag != 0` |
| `EldomBoiler.FlatEldomBoiler.DeviceId` | custom_components/eldom/eldom_boiler.py:140-143 | by definition: the record's `DeviceID` |
| `EldomBoiler.FlatEldomBoiler.Type` | custom_components/eldom/eldom_boiler.py:150-153 | by definition: the record's `Type` |
| `EldomBoiler.FlatEldomBoiler.SoftwareVersion` | custom_components/eldom/eldom_boiler.py:155-158 | by definition: the record's `SoftwareVersion` |
| `EldomBoiler.FlatEldomBoiler.HardwareVersion` | custom_components/eldom/eldom_boiler.py:160-163 | by definition: the record's `HardwareVersion` |
| `EldomBoiler.FlatEldomBoiler.OperationModeNames` | custom_components/eldom/eldom_boiler.py:165-168 | by definition: `Names` of the boiler table, the four mode names in order |
| `EldomBoiler.FlatEldomBoiler.MaxTemperature` | custom_components/eldom/eldom_boiler.py:170-173 | by definition: 75 |
| `EldomBoiler.FlatEldomBoiler.MinTemperature` | custom_components/eldom/eldom_boiler.py:175-178 | by definition: 35 |
| `EldomBoiler.FlatEldomBoiler.TargetTemperature` | custom_components/eldom/eldom_boiler.py:187-190 | by definition: the record's `SetTemp` |
| `EldomBoiler.FlatEldomBoiler.PowerfulEnabled` | custom_components/eldom/eldom_boiler.py:192-195 | by definition: the record's `HasBoost` flag |
| `EldomBoiler.FlatEldomBoiler.DayEnergyConsumption` | custom_components/eldom/eldom_boiler.py:197-200 | by definition: the record's `EnergyD` |
| `EldomBoiler.FlatEldomBoiler.NightEnergyConsumption` | custom_components/eldom/eldom_boiler.py:202-205 | by definition: the record's `EnergyN` |
| `EldomBoiler.FlatEldomBoiler.SavedEnergy` | custom_components/eldom/eldom_boiler.py:207-210 | by definition: the record's `SavedEnergy` |
| `EldomBoiler.FlatEldomBoiler.EnergyUsageResetDate` | custom_components/eldom/sensor.py:360-363 | by definition: the record's reset-date string, which the reset-date sensor reads (see "## Left out": the source class defines no such property) |
| `EldomBoiler.FlatEldomBoiler.SetOperationMode` | custom_components/eldom/eldom_boiler.py:230-241 | an unknown name raises `ValueError`, leaves the record unchanged and sends nothing; a known name makes `State` the name's code, so `current_operation` is the name; no other field changes; exactly one state command with the device id and that code is sent |
| `EldomBoiler.FlatEldomBoiler.TurnOn` | custom_components/eldom/eldom_boiler.py:222-224 | sets code 2 (eco) and sends it; nothing else changes |
| `EldomBoiler.FlatEldomBoiler.TurnOff` | custom_components/eldom/eldom_boiler.py:226-228 | sets code 0 (off) and sends it; nothing else changes |
| `EldomBoiler.FlatEldomBoiler.SetTemperature` | custom_components/eldom/eldom_boiler.py:243-249 | with no range check, `SetTemp` becomes the value, so the target temperature is the value; the value itself is sent |
| `EldomBoiler.FlatEldomBoiler.EnablePowerfulMode` | custom_components/eldom/eldom_boiler.py:251-255 | in any mode, `HasBoost` becomes true and no other field changes; the boost command is sent |
| `EldomBoiler.SmartEldomBoiler.constructor` | custom_components/eldom/eldom_boiler.py:261-270 | the wrapper holds its id, the status record and the shared client |
| `EldomBoiler.SmartEldomBoiler.Name` | custom_components/eldom/eldom_boiler.py:282-285 | "Smart Boiler (" + the last min(4, length) characters of the device id + ")" |
| `EldomBoiler.SmartEldomBoiler.CurrentOperation` | custom_components/eldom/eldom_boiler.py:347-350 | by definition: `OperationName` of the record's `State` |
| `EldomBoiler.SmartEldomBoiler.HeaterEnabled` | custom_components/eldom/eldom_boiler.py:352-355 | by definition: the record's `Heater` flag |
| `EldomBoiler.SmartEldomBoiler.DeviceId` | custom_components/eldom/eldom_boiler.py:277-280 | by definition: the record's `DeviceID` |
| `EldomBoiler.SmartEldomBoiler.Type` | custom_components/eldom/eldom_boiler.py:287-290 | by definition: the record's `Type` |
| `EldomBoiler.SmartEldomBoiler.SoftwareVersion` | custom_components/eldom/eldom_boiler.py:292-295 | by definition: the record's `SoftwareVersion` |
| `EldomBoiler.SmartEldomBoiler.HardwareVersion` | custom_components/eldom/eldom_boiler.py:297-300 | by definition: the record's `HardwareVersion` |
| `EldomBoiler.SmartEldomBoiler.OperationModeNames` | custom_components/eldom/eldom_boiler.py:302-305 | by definition: `Names` of the boiler table, the four mode names in order |
| `EldomBoiler.SmartEldomBoiler.MaxTemperature` | custom_components/eldom/eldom_boiler.py:307-310 | by definition: 75 |
| `EldomBoiler.SmartEldomBoiler.MinTemperature` | custom_components/eldom/eldom_boiler.py:312-315 | by definition: 35 |
| `EldomBoiler.SmartEldomBoiler.CurrentTemperature` | custom_components/eldom/eldom_boiler.py:317-320 | by definition: the record's `WH_TempL` |
| `EldomBoiler.SmartEldomBoiler.TargetTemperature` | custom_components/eldom/eldom_boiler.py:322-325 | by definition: the record's `SetTemp` |
| `EldomBoiler.SmartEldomBoiler.PowerfulEnabled` | custom_components/eldom/eldom_boiler.py:327-330 | by definition: the record's `BoostHeating` flag |
| `EldomBoiler.SmartEldomBoiler.DayEnergyConsumption` | custom_components/eldom/eldom_boiler.py:332-335 | by definition: the record's `EnergyD` |
| `EldomBoiler.SmartEldomBoiler.NightEnergyConsumption` | custom_components/eldom/eldom_boiler.py:337-340 | by definition: the record's `EnergyN` |
| `EldomBoiler.SmartEldomBoiler.SavedEnergy` | custom_components/eldom/eldom_boiler.py:342-345 | by definition: the record's `SavedEnergy` |
| `EldomBoiler.SmartEldomBoiler.EnergyUsageResetDate` | custom_components/eldom/sensor.py:360-363 | by definition: the record's reset-date string, as for the flat boiler |
| `EldomBoiler.SmartEldomBoiler.SetOperationMode` | custom_components/eldom/eldom_boiler.py:365-376 | as for the flat boiler, with the smart-boiler state command |
| `EldomBoiler.SmartEldomBoiler.TurnOn` | custom_components/eldom/eldom_boiler.py:357-359 | sets code 2 (eco) and sends it; nothing else changes |
| `EldomBoiler.SmartEldomBoiler.TurnOff` | custom_components/eldom/eldom_boiler.py:361-363 | sets code 0 (off) and sends it; nothing else changes |
| `EldomBoiler.SmartEldomBoiler.SetTemperature` | custom_components/eldom/eldom_boiler.py:378-384 | with no range check, `SetTemp` becomes the value; the value itself is sent |
| `EldomBoiler.SmartEldomBoiler.EnablePowerfulMode` | custom_components/eldom/eldom_boiler.py:386-390 | in any mode, `BoostHeating` becomes true and no other field changes; the boost command is sent |
| `EldomBoiler.Boiler.EnablePowerfulMode` | custom_components/eldom/eldom_boiler.py:116-118 | through the common interface: boost is on, the mode and the device id are unchanged, and the variant's boost command is sent |
| `EldomBoiler.Boiler.Id` | custom_components/eldom/eldom_boiler.py:32-35 | by definition: the `id` of whichever variant it holds, as the abstract `id` property dispatches |
| `EldomBoiler.Boiler.DeviceId` | custom_components/eldom/eldom_boiler.py:36-39 | by definition: the variant's `DeviceId` |
| `EldomBoiler.Boiler.Name` | custom_components/eldom/eldom_boiler.py:40-43 | by definition: the variant's `Name` |
| `EldomBoiler.Boiler.Type` | custom_components/eldom/eldom_boiler.py:44-47 | by definition: the variant's `Type` |
| `EldomBoiler.Boiler.PowerfulEnabled` | custom_components/eldom/eldom_boiler.py:76-79 | by definition: the variant's `PowerfulEnabled` |
| `EldomBoiler.Boiler.DayEnergyConsumption` | custom_components/eldom/eldom_boiler.py:80-83 | by definition: the variant's `DayEnergyConsumption` |
| `EldomBoiler.Boiler.NightEnergyConsumption` | custom_components/eldom/eldom_boiler.py:84-87 | by definition: the variant's `NightEnergyConsumption` |
| `EldomBoiler.Boiler.SavedEnergy` | custom_components/eldom/eldom_boiler.py:88-91 | by definition: the variant's `SavedEnergy` |
| `EldomBoiler.Boiler.CurrentOperation` | custom_components/eldom/eldom_boiler.py:92-95 | by definition: the variant's `CurrentOperation` |
| `EldomBoiler.Boiler.HeaterEnabled` | custom_components/eldom/eldom_boiler.py:96-99 | by definition: the variant's `HeaterEnabled` |
| `EldomBoiler.Boiler.EnergyUsageResetDate` | custom_components/eldom/sensor.py:360-363 | by definition: the variant's `EnergyUsageResetDate` |
| `EldomConvector.OperationModesTable` | custom_components/eldom/eldom_convector.py:10-13 | the convector table has exactly the two entries 0→off and 1→heat, with distinct names, none of them "Unknown"; its inverse is the expected dict; min 5 < max 35 |
| `EldomConvector.OperationModesRoundTrip` | custom_components/eldom/eldom_convector.py:120-127 | the convector table round-trips in both directions, and its inverse is defined on exactly its names |
| `EldomConvector.OperationName` | custom_components/eldom/eldom_convector.py:102-105 | code 0 gives off, code 1 gives heat, and every other code gives "Unknown" |
| `EldomConvector.EldomConvectorHeater.constructor` | custom_components/eldom/eldom_convector.py:21-30 | the wrapper holds its id, the status record and the shared client |
| `EldomConvector.EldomConvectorHeater.Name` | custom_components/eldom/eldom_convector.py:42-45 | "Convector Heater (" + the last min(4, length) characters of the device id + ")" |
| `EldomConvector.EldomConvectorHeater.CurrentOperation` | custom_components/eldom/eldom_convector.py:102-105 | by definition: the convector's `OperationName` of the record's `State` |
| `EldomConvector.EldomConvectorHeater.DeviceId` | custom_components/eldom/eldom_convector.py:37-40 | by definition: the record's `DeviceID` |
| `EldomConvector.EldomConvectorHeater.Type` | custom_components/eldom/eldom_convector.py:47-50 | by definition: the record's `Type` |
| `EldomConvector.EldomConvectorHeater.SoftwareVersion` | custom_components/eldom/eldom_convector.py:52-55 | by definition: the record's `SoftwareVersion` |
| `EldomConvector.EldomConvectorHeater.HardwareVersion` | custom_components/eldom/eldom_convector.py:57-60 | by definition: the record's `HardwareVersion` |
| `EldomConvector.EldomConvectorHeater.OperationModeNames` | custom_components/eldom/eldom_convector.py:62-65 | by definition: `Names` of the convector table, off then heat |
| `EldomConvector.EldomConvectorHeater.MaxTemperature` | custom_components/eldom/eldom_convector.py:67-70 | by definition: 35 |
| `EldomConvector.EldomConvectorHeater.MinTemperature` | custom_components/eldom/eldom_convector.py:72-75 | by definition: 5 |
| `EldomConvector.EldomConvectorHeater.CurrentTemperature` | custom_components/eldom/eldom_convector.py:77-80 | by definition: the record's `AmbientTemp` |
| `EldomConvector.EldomConvectorHeater.TargetTemperature` | custom_components/eldom/eldom_convector.py:82-85 | by definition: the record's `SetTemp` |
| `EldomConvector.EldomConvectorHeater.PowerfulEnabled` | custom_components/eldom/eldom_convector.py:87-90 | by definition: the record's `BoostHeating` flag |
| `EldomConvector.EldomConvectorHeater.DayEnergyConsumption` | custom_components/eldom/eldom_convector.py:92-95 | by definition: the record's `EnergyD` |
| `EldomConvector.EldomConvectorHeater.NightEnergyConsumption` | custom_components/eldom/eldom_convector.py:97-100 | by definition: the record's `EnergyN` |
| `EldomConvector.EldomConvectorHeater.PowerLevel` | custom_components/eldom/eldom_convector.py:107-110 | by definition: the record's `Power` |
| `EldomConvector.EldomConvectorHeater.SetOperationMode` | custom_components/eldom/eldom_convector.py:120-131 | an unknown mode raises `ValueError`, changes nothing and sends nothing; a known mode becomes `State` as its code, so `current_operation` is the mode; one command is sent |
| `EldomConvector.EldomConvectorHeater.TurnOn` | custom_components/eldom/eldom_convector.py:112-114 | sets code 1 (heat) and sends it |
| `EldomConvector.EldomConvectorHeater.TurnOff` | custom_components/eldom/eldom_convector.py:116-118 | sets code 0 (off) and sends it |
| `EldomConvector.EldomConvectorHeater.SetTemperature` | custom_components/eldom/eldom_convector.py:133-139 | with no check against the 5..35 bounds, the value becomes the target temperature and is sent as given |
| `Coordinator.CollectKeys` | custom_components/eldom/coordinator.py:40-46 | a comprehension's keys are exactly the ids of the listed devices of its type code |
| `Coordinator.Collect` | custom_components/eldom/coordinator.py:40-64 | by definition: one typed comprehension as a fold over the device list, a later device with the same id replacing the earlier entry |
| `Coordinator.Partition` | custom_components/eldom/coordinator.py:66-70 | by definition: the map from the three type codes to their comprehensions |
| `Coordinator.Entry` | custom_components/eldom/coordinator.py:41-43 | by definition: the status record fetched for the id, under the wrapper kind of the type code |
| `Coordinator.IdsOfType` | custom_components/eldom/coordinator.py:44-45 | by definition: the ids of the listed devices whose `deviceType` is the code |
| `Coordinator.Device.State` | custom_components/eldom/coordinator.py:41-43 | by definition: the wrapper's id and current status record, tagged with its kind; its contract keeps the id |
| `Coordinator.CollectEntries` | custom_components/eldom/coordinator.py:40-46 | the entry under id k is the wrapper built for k from k's own status |
| `Coordinator.PartitionShape` | custom_components/eldom/coordinator.py:66-70 | the snapshot has exactly the keys 7, 5 and 4; each sub-map is keyed by the ids listed with that code, and each entry carries its own key as id |
| `Coordinator.PartitionIgnoresOtherTypes` | custom_components/eldom/coordinator.py:40-64 | an id listed only with a type code other than 7, 5 and 4 is in no sub-map |
| `Coordinator.PartitionDisjoint` | custom_components/eldom/coordinator.py:40-70 | an id listed at most once is in at most one sub-map, whatever other ids repeat |
| `Coordinator.ViewOfPartitionIsWellFormed` | custom_components/eldom/coordinator.py:40-70 | objects whose state is the partition: flat boilers under 7, smart boilers under 5, convectors under 4, each stored under its own id |
| `Coordinator.RefreshShape` | custom_components/eldom/coordinator.py:40-70 | a refreshed snapshot is well formed, and its three sub-maps are keyed by the ids listed with each code |
| `Coordinator.LookupBoiler` | custom_components/eldom/switch.py:116-118 | `data.get(type).get(id)`: a boiler is found exactly when the snapshot has one under that type and id, and it is that very entry's boiler; in a well-formed snapshot it has that id and the kind of its sub-map, and nothing is found under the convector code |
| `Coordinator.LookupAfterRefresh` | custom_components/eldom/coordinator.py:40-54 | after a refresh, a boiler is found under 7 or 5 and an id exactly when the device list includes that id with that type |
| `Coordinator.NewDevice` | custom_components/eldom/coordinator.py:41-43 | a new wrapper of the code's kind, holding its id, that id's status and the shared client |
| `Coordinator.CollectDevices` | custom_components/eldom/coordinator.py:40-64 | the comprehension builds fresh wrappers whose states are exactly `Collect` of the list |
| `Coordinator.EldomCoordinator.constructor` | custom_components/eldom/coordinator.py:26-34 | the coordinator holds the client and has no data yet |
| `Coordinator.EldomCoordinator.AsyncUpdateData` | custom_components/eldom/coordinator.py:36-70 | the snapshot's state is exactly `Partition` of the device list; it is well formed; every object in it is newly built and shares the coordinator's client |
| `Coordinator.EldomCoordinator.Refresh` | custom_components/eldom/coordinator.py:36-70 | the new snapshot replaces the old one in full; nothing of an earlier snapshot is reused |
| `Coordinator.EldomCoordinator.AsyncRequestRefresh` | custom_components/eldom/switch.py:111 | one more refresh has been requested |
| `Switch.RequiredOperationModeForBoost` | custom_components/eldom/switch.py:18 | the table's code-2 entry, which is eco |
| `Switch.SwitchUniqueId` | custom_components/eldom/switch.py:68-71 | the device id followed by "-powerful-switch" |
| `Switch.PowerfulModeCommand` | custom_components/eldom/eldom_boiler.py:251-255 | by definition: the boost command for the boiler's device id, flat or smart as the variant is |
| `Switch.EldomBoilerPowerfulModeSwitch.constructor` | custom_components/eldom/switch.py:53-59 | the switch holds its boiler and the coordinator |
| `Switch.EldomBoilerPowerfulModeSwitch.IsOn` | custom_components/eldom/switch.py:88-91 | on exactly when the boiler's boost flag (`HasBoost` or `BoostHeating`) is set |
| `Switch.EldomBoilerPowerfulModeSwitch.UniqueId` | custom_components/eldom/switch.py:68-71 | by definition: `SwitchUniqueId` of the boiler's device id |
| `Switch.EldomBoilerPowerfulModeSwitch.Name` | custom_components/eldom/switch.py:73-76 | by definition: the boiler's name, then "'s Powerful Switch" |
| `Switch.EldomBoilerPowerfulModeSwitch.AsyncTurnOn` | custom_components/eldom/switch.py:93-103 | outside eco, the boiler is untouched and nothing is sent; in eco, the switch is on afterwards, the mode is unchanged, only the boost flag changed, and exactly the boost command is sent |
| `Switch.EldomBoilerPowerfulModeSwitch.AsyncTurnOff` | custom_components/eldom/switch.py:105-111 | boost and mode are unchanged; only a refresh is requested |
| `Switch.EldomBoilerPowerfulModeSwitch.HandleCoordinatorUpdate` | custom_components/eldom/switch.py:113-120 | the boiler becomes the new snapshot's entry under the previous boiler's type and id; in a well-formed snapshot the id is preserved; without an entry, the write fails with `AttributeError` |
| `Sensor.UniqueIdsDistinct` | custom_components/eldom/sensor.py:98-101 | the five sensor ids of one device (suffixes at lines 164, 227, 285 and 345 too) are pairwise distinct, and differ from the switch's id and from the water heater's bare device id |
| `Sensor.UniqueIdSuffix` | custom_components/eldom/sensor.py:98-101 | by definition: the suffix each of the five classes appends to the device id (this line range is the first) |
| `Sensor.SensorUniqueId` | custom_components/eldom/sensor.py:98-101 | by definition: the device id followed by `UniqueIdSuffix` of the kind |
| `Sensor.DisplayName` | custom_components/eldom/sensor.py:103-106 | by definition: the label each of the five classes appends to the boiler's name (this line range is the first) |
| `Sensor.HeaterState` | custom_components/eldom/sensor.py:302-312 | "On" exactly when the heater is enabled, otherwise "Off"; always one of the options |
| `Sensor.ResetDateValue` | custom_components/eldom/sensor.py:357-363 | the sentinel "0001-01-01T00:00:00Z" reads "Never", and any other date reads as itself; "Never" therefore shows exactly for the sentinel or a literal "Never" |
| `Sensor.EnergyKWh` | custom_components/eldom/sensor.py:128-131 | `int()` of a reading: the whole number toward zero, within 1 of the reading |
| `Sensor.SavedEnergyKWh` | custom_components/eldom/sensor.py:249-252 | `int(saved / 100)`: for a non-negative reading, the largest r with 100·r ≤ saved; mirrored toward zero for a negative one |
| `Sensor.EldomBoilerSensor.constructor` | custom_components/eldom/sensor.py:83-89 | the sensor holds its kind, its boiler and the coordinator |
| `Sensor.EldomBoilerSensor.UniqueId` | custom_components/eldom/sensor.py:98-101 | by definition: the device id followed by the kind's suffix, one per sensor class (this line range is the first) |
| `Sensor.EldomBoilerSensor.Name` | custom_components/eldom/sensor.py:103-106 | by definition: the boiler's name, "'s " and the kind's display name (this line range is the first of five) |
| `Sensor.EldomBoilerSensor.Options` | custom_components/eldom/sensor.py:302-305 | by definition: `["On", "Off"]` for the heater sensor, none for the others |
| `Sensor.EldomBoilerSensor.NativeValue` | custom_components/eldom/sensor.py:128-363 | the energy sensors report integers; the heater sensor reports one of its options, "On" exactly when the heater is on; day and night energy are their readings truncated toward zero; the reset-date sensor shows any date other than the sentinel unchanged, and reads "Never" exactly for the sentinel or "Never"; saved energy is the reading's whole hundreds, truncated toward zero |
| `Sensor.EldomBoilerSensor.HandleCoordinatorUpdate` | custom_components/eldom/sensor.py:133-140 | as for the switch: re-resolved under the previous boiler's type and id, with the id kept in a well-formed snapshot |
| `Sensor.AddBoilerSensors` | custom_components/eldom/sensor.py:40-54 | appends five new sensors for the boiler, in order: day, night, saved, heater, reset date |
| `Sensor.AddSensorsFor` | custom_components/eldom/sensor.py:37-55 | one group of five per entry of the sub-map, each key visited once, earlier entities kept |
| `Sensor.AddAllSensors` | custom_components/eldom/sensor.py:35-77 | five sensors per flat boiler, then five per smart boiler: 5 × (flat + smart) new sensors, each boiler's group of five in setup order |
| `Sensor.AsyncSetupEntry` | custom_components/eldom/sensor.py:24-77 | after the first refresh, 5 × (number of listed flat boiler ids + number of listed smart boiler ids) new sensors, flat boilers' groups first; each group holds the five kinds for one boiler of the snapshot; no sensor is built for a convector |
| `WaterHeater.OperationModesTable` | custom_components/eldom/water_heater.py:33-41 | the entity's table equals the boiler table: four names that round-trip; min 35 < max 75 |
| `WaterHeater.FieldsFrom` | custom_components/eldom/water_heater.py:77-84 | the cached fields from a record: `STL_Temp`, `SetTemp`, the boiler adapter's mode name ("Unknown" exactly outside 0..3), and the four mode names |
| `WaterHeater.EldomFlatWaterHeaterEntity.constructor` | custom_components/eldom/water_heater.py:71-84 | the cached fields are `FieldsFrom` the record of the entity's id |
| `WaterHeater.EldomFlatWaterHeaterEntity.UniqueId` | custom_components/eldom/water_heater.py:97-100 | by definition: the cached record's `DeviceID` |
| `WaterHeater.EldomFlatWaterHeaterEntity.Name` | custom_components/eldom/water_heater.py:102-105 | by definition: the cached name, "Flat Boiler (" + id + ")" |
| `WaterHeater.EldomFlatWaterHeaterEntity.MaxTemperature` | custom_components/eldom/water_heater.py:117-120 | by definition: 75 |
| `WaterHeater.EldomFlatWaterHeaterEntity.MinTemperature` | custom_components/eldom/water_heater.py:122-125 | by definition: 35 |
| `WaterHeater.EldomFlatWaterHeaterEntity.CurrentTemperature` | custom_components/eldom/water_heater.py:127-130 | by definition: the cached current temperature |
| `WaterHeater.EldomFlatWaterHeaterEntity.TargetTemperature` | custom_components/eldom/water_heater.py:132-135 | by definition: the cached target temperature, possibly absent |
| `WaterHeater.EldomFlatWaterHeaterEntity.CurrentOperation` | custom_components/eldom/water_heater.py:137-140 | by definition: the cached mode name |
| `WaterHeater.EldomFlatWaterHeaterEntity.OperationList` | custom_components/eldom/water_heater.py:142-145 | by definition: the cached list of mode names |
| `WaterHeater.EldomFlatWaterHeaterEntity.AsyncSetOperationMode` | custom_components/eldom/water_heater.py:147-158 | an unknown mode raises `HomeAssistantError`, with nothing cached, sent or requested; a known mode is cached, exactly one state command with its inverse code is sent for the record's device id, and a refresh is requested |
| `WaterHeater.EldomFlatWaterHeaterEntity.AsyncSetTemperature` | custom_components/eldom/water_heater.py:160-168 | with no range check, the given temperature (possibly absent) is cached and sent, and a refresh is requested |
| `WaterHeater.EldomFlatWaterHeaterEntity.HandleCoordinatorUpdate` | custom_components/eldom/water_heater.py:170-182 | the cached fields are recomputed exactly as the constructor computes them; an id missing from the data raises `KeyError` and changes nothing |

## Left out

- `eldom_client.py` is not part of this model: it wraps two network clients and names IoT device classes that the boiler and convector files do not define. The IoT variants and their temperature scaling are not modelled.
- `button.py` is not modelled: `reset_energy_usage` is not defined on the boiler classes.
- `EnergyUsageResetDate` is a string field the model adds to both boiler records. The source's boiler classes define no `energy_usage_reset_date` property, which `sensor.py:360-363` reads. As written, reading that sensor's value would raise `AttributeError`; the model does not capture that failure.
- `climate.py` is not modelled. Each of its commands forwards to the convector and then requests a coordinator refresh (`climate.py:137-164`); only `async_set_hvac_mode` wraps the convector's exception in a `HomeAssistantError` (`149-157`). Its update handler re-resolves the convector by type and id, as the switch does for a boiler (`167-172`).
- `config_flow.py` and `__init__.py` are not modelled: they are the host's plugin lifecycle and credential checks over HTTP.
- `models.py` is not modelled. Its `EldomData` has no `api` field, but the water heater reads one. The water heater's client is therefore a constructor parameter.
- Networking, `await`, the 30-second poll timer and single-flight refresh belong to the host's coordinator. They are left out. A refresh request is counted and nothing more.
- The device list and the status endpoints are parameters, not calls.
- `schedule_update_ha_state`, `async_write_ha_state`, logging, device info, icons, units, device and state classes and supported-feature flags are left out.
- Floating point is modelled as `real`, exactly. Rounding in the flat boiler's average temperature and in the sensors' division by 100 is not modelled, nor is `int()` of a NaN or an infinity.
- Order across objects is not captured. The water heater sets its cache, then sends, then requests a refresh. Each effect is stated, but their relative order is not.
- The water heater reads the coordinator's data as one map from device id to a flat boiler record, as its code does. That shape is not reconciled with the typed snapshot the coordinator returns.
- `WaterHeater.EldomFlatWaterHeaterEntity.constructor` requires the entity's id to be in the data. The source raises `KeyError` in that case, and a constructor cannot return an outcome.
- `Switch.EldomBoilerPowerfulModeSwitch.HandleCoordinatorUpdate` reports `AttributeError` and keeps its old boiler when the lookup finds nothing. The source stores `None` (or fails on a missing type), and the following state write raises `AttributeError`. A convector found under a boiler's type is treated the same way.
- `Sensor.EldomBoilerSensor.HandleCoordinatorUpdate` follows the switch's rule in the same way.
- The handlers find the boiler under the type its status record reports. The model does not prove that this type equals the snapshot key the boiler was built under, so only the id is shown to be preserved.
- `Sensor.EldomBoilerSensor` is one class with a `kind`, in place of the source's five classes. Apart from the presentation attributes left out above (icon, device class, state class, unit), the five differ only in id suffix, name, options and value.
- `Sensor.AsyncSetupEntry` gives no particular order for visiting a sub-map: a Python dict keeps insertion order, and here that order is a ghost enumeration of the keys. A failed first refresh is not modelled. After a successful refresh, the missing-key path of `data.get(7)` cannot happen.
- `async_setup_entry` of `switch.py` and `water_heater.py` is not modelled. After the first refresh, the switch's builds one switch per boiler of `data.get(7)` and then of `data.get(5)` (`switch.py:35-47`), with no further logic. The water heater's builds one entity per value of `coordinator.data`, keyed by that value's `DeviceID` (`water_heater.py:53-58`); against the typed snapshot those values are the three sub-maps, a shape this model does not reconcile.
- Python's `int` device ids are modelled as strings, the type the source's dict annotations give them.
