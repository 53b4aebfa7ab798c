# SmartDevice home-automation registry, modelled in Dafny

The program simulates a home with smart devices. Each device has a name, an
ON/OFF power status that starts OFF, and data that depends on its kind: a
`Light` has a colour and a `ThermoStat` has a temperature. A `SmartHome` keeps
an ordered list of device references. It can add a device, turn every listed
device on or off, and print every device's status.

The model has two modules.

- `Devices` (`devices.dfy`) holds the class `SmartDevice`. Its fields are
  `deviceName`, `status` and `payload`. `payload` is `Color(color)` for a light
  and `Temperature(degrees)` for a thermostat. The two Java subclasses become
  the two named constructors `Light` and `ThermoStat`. Their `turnOn` and
  `turnOff` overrides differ only in message wording, so each becomes one
  method. Their `printStatus` overrides differ in the field they print, colour
  or temperature, and the model carries that difference in `payload`. The value-level functions `TurnedOn`, `TurnedOff` and `StatusOf`
  specify those methods. Each method's postcondition ties the device's new
  state to one of these functions applied to the old state.
- `Home` (`home.dfy`) holds the class `SmartHome` with a `seq<SmartDevice>`
  field. The two bulk loops are specified by `TurnAll`, a fold over a store of
  device states keyed by reference. `TurnAll`'s postcondition gives its closed
  form: every listed device is switched once, however often it is listed, and
  every other device is left as it was. The loops are proved correct when the
  same device is listed more than once. The proof rests on turnOn and turnOff
  being idempotent.

Printed messages are modelled by which branch was taken. `TurnOn` and
`TurnOff` return a `Notice`. `PrintStatus` and `PrintDeviceStatus` return the
status lines as values.

## Model

| member | source | states |
|---|---|---|
| Devices.SmartDevice.Light | SmartDevice.java:101-104 | a new light is OFF and has exactly the given name and colour |
| Devices.SmartDevice.ThermoStat | SmartDevice.java:142-145 | a new thermostat is OFF and has exactly the given name and temperature |
| Devices.SmartDevice.GetDeviceName | SmartDevice.java:14-16 | returns the device's name and changes nothing |
| Devices.SmartDevice.GetStatus | SmartDevice.java:18-20 | returns the device's status and changes nothing |
| Devices.SmartDevice.SetStatus | SmartDevice.java:26-28 | the status becomes the argument; name and payload are unchanged |
| Devices.TurnedOn | SmartDevice.java:107-114 | after turnOn the device is ON; name and payload are kept; a device already ON is left exactly as it was |
| Devices.TurnedOff | SmartDevice.java:117-124 | after turnOff the device is OFF; name and payload are kept; a device already OFF is left exactly as it was |
| Devices.SmartDevice.TurnOn | SmartDevice.java:148-155 | the new state is TurnedOn of the old state, whatever the boolean argument; only `status` may change; the notice says whether the status flipped |
| Devices.SmartDevice.TurnOff | SmartDevice.java:158-165 | the new state is TurnedOff of the old state, whatever the boolean argument; only `status` may change; the notice says whether the status flipped |
| Devices.StatusOf | SmartDevice.java:31-34 | a status line carries the device's name, "ON" exactly when it is on and "OFF" otherwise, and its colour or temperature, which the overrides at SmartDevice.java:128-131 and SmartDevice.java:169-172 add |
| Devices.SmartDevice.PrintStatus | SmartDevice.java:128-131 | returns the device's status line and changes no state; it models the ThermoStat override at SmartDevice.java:169-172 too |
| Devices.TurnOnTwice | SmartDevice.java:107-114 | turning on twice gives the same state as turning on once |
| Devices.TurnOnThenOff | SmartDevice.java:107-124 | turning an OFF device on and then off restores its state |
| Devices.TurnOffTwice | SmartDevice.java:117-124 | turning off twice gives the same state as turning off once |
| Devices.TurnOffThenOn | SmartDevice.java:107-124 | turning an ON device off and then on restores its state |
| Home.SmartHome.constructor | SmartDevice.java:177 | a new home has an empty device list |
| Home.SmartHome.AddDevice | SmartDevice.java:179-182 | the list grows by one; the new device is last; earlier entries keep their order |
| Home.TurnAll | SmartDevice.java:184-194 | switching listed devices in order switches each listed device exactly once, even one listed several times; unlisted devices are untouched; no device is added or lost |
| Home.TurnAllTwice | SmartDevice.java:184-194 | running a bulk operation twice gives the same states as running it once |
| Home.TurnAllRepeated | SmartDevice.java:179-194 | adding an already-listed device again does not change what a bulk operation does |
| Home.SmartHome.TurnOnAllDevices | SmartDevice.java:184-188 | every listed device ends ON, even one listed twice; each device's new state is TurnedOn of its old one, so names and payloads are unchanged; the list is unchanged; the states agree with TurnAll |
| Home.SmartHome.TurnOffAllDevices | SmartDevice.java:190-194 | every listed device ends OFF, even one listed twice; each device's new state is TurnedOff of its old one, so names and payloads are unchanged; the list is unchanged; the states agree with TurnAll |
| Home.SmartHome.PrintDeviceStatus | SmartDevice.java:197-201 | returns one status line per list entry, in list order, and changes no state |

## Left out

- The interactive `main` menu and its `Scanner` input (SmartDevice.java:36-95). It is console I/O that only dispatches to the operations above.
- The text of every `System.out.println` message. `TurnOn` and `TurnOff` return which branch was taken instead. The status operations return the status line as a value.
- `Light.dimLight` (SmartDevice.java:133-135). It only prints its argument and stores nothing.
- The thermostat temperature is a Java `double`. It is modelled as a `real` that is stored and reported but never computed with. Formatting it as text is not modelled.
- Null references. In Java, `addDevice(null)` appends null at SmartDevice.java:180 and then throws at SmartDevice.java:181, when it asks the null for its name. The model's `AddDevice` takes a non-null `SmartDevice`, and `main` never passes null.
- A Light and a ThermoStat are two subclasses in Java. In the model they are one class whose `payload` records the kind. Their `turnOn` and `turnOff` overrides differ only in message wording. Their `printStatus` overrides print different fields, and `payload` carries that difference. So no behaviour is lost.
