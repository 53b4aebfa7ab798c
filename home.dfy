/** The SmartHome registry: an ordered list of device references, in which the
    same device may appear more than once, and the bulk operations that walk
    the list in insertion order and switch every device in place. */
module Home {
  import opened Devices

  /** Switching the devices named by `ids` one after another, in order, on a
      store `h` of device states: the sequential effect of the bulk loop, with
      repeated names allowed. */
  function TurnAll<K>(h: map<K, DeviceState>, ids: seq<K>, target: bool): (r: map<K, DeviceState>)
    requires forall i | 0 <= i < |ids| :: ids[i] in h
    ensures r.Keys == h.Keys
    ensures forall k | k in h :: r[k] == if k in ids then Turned(h[k], target) else h[k]
    decreases |ids|
  {
    if ids == [] then h
    else
      var last := ids[|ids| - 1];
      var before := TurnAll(h, ids[..|ids| - 1], target);
      before[last := Turned(before[last], target)]
  }

  /** Running a bulk operation a second time changes nothing. */
  lemma TurnAllTwice<K>(h: map<K, DeviceState>, ids: seq<K>, target: bool)
    requires forall i | 0 <= i < |ids| :: ids[i] in h
    ensures TurnAll(TurnAll(h, ids, target), ids, target) == TurnAll(h, ids, target)
  {
  }

  /** A device listed again at the end is not switched any further. */
  lemma TurnAllRepeated<K>(h: map<K, DeviceState>, ids: seq<K>, k: K, target: bool)
    requires forall i | 0 <= i < |ids| :: ids[i] in h
    requires k in ids
    ensures TurnAll(h, ids + [k], target) == TurnAll(h, ids, target)
  {
  }

  class SmartHome {
    var devices: seq<SmartDevice>

    /** The state of every listed device, keyed by reference, so that a
        device listed twice appears once. */
    ghost function Snapshot(): (s: map<SmartDevice, DeviceState>)
      reads this, devices
      ensures forall i | 0 <= i < |devices| :: devices[i] in s && s[devices[i]] == devices[i].View()
    {
      map d | d in devices :: d.View()
    }

    /** An empty home. */
    constructor ()
      ensures devices == []
    {
      devices := [];
    }

    /** addDevice: append to the end, keeping the earlier entries in order. */
    method AddDevice(device: SmartDevice)
      modifies this
      ensures devices == old(devices) + [device]
    {
      devices := devices + [device];
    }

    /** turnOnAllDevices: turnOn each listed device in order. */
    method TurnOnAllDevices()
      modifies devices
      ensures devices == old(devices)
      ensures Snapshot() == TurnAll(old(Snapshot()), devices, true)
      ensures forall i | 0 <= i < |devices| ::
        devices[i].View() == TurnedOn(old(devices[i].View()))
      ensures forall i | 0 <= i < |devices| :: devices[i].status
    {
      var i := 0;
      while i < |devices|
        invariant 0 <= i <= |devices|
        invariant forall j | 0 <= j < |devices| ::
          devices[j].View() == if devices[j] in devices[..i]
            then TurnedOn(old(devices[j].View())) else old(devices[j].View())
      {
        var device := devices[i];
        var _ := device.TurnOn(true);
        assert devices[..i + 1] == devices[..i] + [device];
        i := i + 1;
      }
      assert devices[..i] == devices;
      SnapshotAfter(old(Snapshot()), Snapshot(), true);
    }

    /** turnOffAllDevices: turnOff each listed device in order. */
    method TurnOffAllDevices()
      modifies devices
      ensures devices == old(devices)
      ensures Snapshot() == TurnAll(old(Snapshot()), devices, false)
      ensures forall i | 0 <= i < |devices| ::
        devices[i].View() == TurnedOff(old(devices[i].View()))
      ensures forall i | 0 <= i < |devices| :: !devices[i].status
    {
      var i := 0;
      while i < |devices|
        invariant 0 <= i <= |devices|
        invariant forall j | 0 <= j < |devices| ::
          devices[j].View() == if devices[j] in devices[..i]
            then TurnedOff(old(devices[j].View())) else old(devices[j].View())
      {
        var device := devices[i];
        var _ := device.TurnOff(false);
        assert devices[..i + 1] == devices[..i] + [device];
        i := i + 1;
      }
      assert devices[..i] == devices;
      SnapshotAfter(old(Snapshot()), Snapshot(), false);
    }

    /** printDeviceStatus: each listed device's status line, in list order.
        Changes nothing. */
    method PrintDeviceStatus() returns (lines: seq<StatusLine>)
      ensures |lines| == |devices|
      ensures forall i | 0 <= i < |devices| :: lines[i] == StatusOf(devices[i].View())
    {
      lines := [];
      for i := 0 to |devices|
        invariant |lines| == i
        invariant forall j | 0 <= j < i :: lines[j] == StatusOf(devices[j].View())
      {
        var line := devices[i].PrintStatus();
        lines := lines + [line];
      }
    }

    /** Connects the per-device postcondition of a bulk loop to TurnAll. */
    lemma SnapshotAfter(before: map<SmartDevice, DeviceState>, after: map<SmartDevice, DeviceState>, target: bool)
      requires before.Keys == after.Keys
      requires forall d | d in before :: d in devices
      requires forall i | 0 <= i < |devices| :: devices[i] in before
      requires forall d | d in before :: after[d] == Turned(before[d], target)
      ensures after == TurnAll(before, devices, target)
    {
    }
  }
}
