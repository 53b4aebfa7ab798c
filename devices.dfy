/** The smart devices of the home: a name, an ON/OFF power status that starts
    OFF, and a payload that depends on the kind of device (a light's colour or
    a thermostat's temperature). Turning a device on or off is a guarded
    transition that changes the status only when it differs from the target. */
module Devices {

  /** What distinguishes a Light from a ThermoStat. The temperature is an
      opaque stored value: no operation computes with it. */
  datatype Payload = Color(color: string) | Temperature(degrees: real)

  /** The observable state of one device. */
  datatype DeviceState = DeviceState(name: string, status: bool, payload: Payload)

  /** Which branch a turnOn/turnOff call took: the status flipped, or the
      device was already in the requested state and only a notice was given. */
  datatype Notice = Switched | AlreadyInState

  /** One device's status line: its name, "ON" or "OFF", then the colour of a
      light or the temperature of a thermostat. */
  datatype StatusLine = StatusLine(name: string, state: string, detail: Payload)

  /** The state a device is in after turnOn. */
  function TurnedOn(d: DeviceState): (r: DeviceState)
    ensures r.status
    ensures r.name == d.name && r.payload == d.payload
    ensures d.status ==> r == d
  {
    if !d.status then d.(status := true) else d
  }

  /** The state a device is in after turnOff. */
  function TurnedOff(d: DeviceState): (r: DeviceState)
    ensures !r.status
    ensures r.name == d.name && r.payload == d.payload
    ensures !d.status ==> r == d
  {
    if d.status then d.(status := false) else d
  }

  /** turnOn when `target` holds, turnOff otherwise. */
  function Turned(d: DeviceState, target: bool): (r: DeviceState)
    ensures r.status == target
    ensures r.name == d.name && r.payload == d.payload
    ensures d.status == target ==> r == d
  {
    if target then TurnedOn(d) else TurnedOff(d)
  }

  /** The status line printed for a device in state `d`. */
  function StatusOf(d: DeviceState): (line: StatusLine)
    ensures line.name == d.name && line.detail == d.payload
    ensures line.state == "ON" || line.state == "OFF"
    ensures line.state == "ON" <==> d.status
  {
    StatusLine(d.name, if d.status then "ON" else "OFF", d.payload)
  }

  /** Turning on twice leaves the device as turning on once does. */
  lemma TurnOnTwice(d: DeviceState)
    ensures TurnedOn(TurnedOn(d)) == TurnedOn(d)
  {
  }

  /** Turning a device on and then off restores a device that was OFF. */
  lemma TurnOnThenOff(d: DeviceState)
    requires !d.status
    ensures TurnedOff(TurnedOn(d)) == d
  {
  }

  /** Turning off twice leaves the device as turning off once does. */
  lemma TurnOffTwice(d: DeviceState)
    ensures TurnedOff(TurnedOff(d)) == TurnedOff(d)
  {
  }

  /** Turning a device off and then on restores a device that was ON. */
  lemma TurnOffThenOn(d: DeviceState)
    requires d.status
    ensures TurnedOn(TurnedOff(d)) == d
  {
  }

  class SmartDevice {
    /** The name is set once, by the constructor, and never changes. */
    const deviceName: string
    var status: bool
    var payload: Payload

    /** The device's fields as a value. */
    function View(): (d: DeviceState)
      reads this
    {
      DeviceState(deviceName, status, payload)
    }

    /** A new light: OFF, with the given name and colour. */
    constructor Light(deviceName: string, color: string)
      ensures View() == DeviceState(deviceName, false, Color(color))
    {
      this.deviceName := deviceName;
      this.status := false;
      this.payload := Color(color);
    }

    /** A new thermostat: OFF, with the given name and temperature. */
    constructor ThermoStat(temperature: real, deviceName: string)
      ensures View() == DeviceState(deviceName, false, Temperature(temperature))
    {
      this.deviceName := deviceName;
      this.status := false;
      this.payload := Temperature(temperature);
    }

    method GetDeviceName() returns (name: string)
      ensures name == deviceName
    {
      name := deviceName;
    }

    method GetStatus() returns (on: bool)
      ensures on == status
    {
      on := status;
    }

    method SetStatus(status: bool)
      modifies this`status
      ensures View() == old(View()).(status := status)
    {
      this.status := status;
    }

    /** turnOn of both Light and ThermoStat: the two overrides differ only in
        the wording of their messages. The argument is ignored, which the
        postcondition shows by not mentioning it. */
    method TurnOn(on: bool) returns (notice: Notice)
      modifies this`status
      ensures View() == TurnedOn(old(View()))
      ensures notice == if old(status) then AlreadyInState else Switched
    {
      var current := GetStatus();
      if !current {
        SetStatus(true);
        notice := Switched;
      } else {
        notice := AlreadyInState;
      }
    }

    /** turnOff of both Light and ThermoStat; the argument is ignored. */
    method TurnOff(off: bool) returns (notice: Notice)
      modifies this`status
      ensures View() == TurnedOff(old(View()))
      ensures notice == if old(status) then Switched else AlreadyInState
    {
      var current := GetStatus();
      if current {
        SetStatus(false);
        notice := Switched;
      } else {
        notice := AlreadyInState;
      }
    }

    /** printStatus of both variants: the base class's name and state, then
        the variant's colour or temperature. Changes nothing. */
    method PrintStatus() returns (line: StatusLine)
      ensures line == StatusOf(View())
    {
      var state := if status then "ON" else "OFF";
      line := StatusLine(deviceName, state, payload);
    }
  }
}
