/** The device list the sound library reports, and the first-match lookup by name. */
module Devices {
  import opened Options

  datatype DeviceInfo = DeviceInfo(name: string, maxInputChannels: int, maxOutputChannels: int)

  /** The first index at or after `from` whose device has the given name. */
  function FindFrom(devices: seq<DeviceInfo>, name: string, from: nat): (r: Option<nat>)
    requires from <= |devices|
    ensures r.Some? ==> from <= r.value < |devices| && devices[r.value].name == name
    ensures r.Some? ==> forall j :: from <= j < r.value ==> devices[j].name != name
    ensures r.None? ==> forall j :: from <= j < |devices| ==> devices[j].name != name
    decreases |devices| - from
  {
    if from == |devices| then None
    else if devices[from].name == name then Some(from)
    else FindFrom(devices, name, from + 1)
  }

  /**
   * The index of the first device with the given name, or None exactly when no device
   * has that name.
   */
  function FindDevice(devices: seq<DeviceInfo>, name: string): (r: Option<nat>)
    ensures r.Some? ==> r.value < |devices| && devices[r.value].name == name
    ensures r.Some? ==> forall j :: 0 <= j < r.value ==> devices[j].name != name
    ensures r.None? <==> forall j :: 0 <= j < |devices| ==> devices[j].name != name
  {
    FindFrom(devices, name, 0)
  }

  /** A position that matches and has no match before it is the one FindDevice returns. */
  lemma FirstMatchIsFound(devices: seq<DeviceInfo>, name: string, i: nat)
    requires i < |devices| && devices[i].name == name
    requires forall j :: 0 <= j < i ==> devices[j].name != name
    ensures FindDevice(devices, name) == Some(i)
  {
    var r := FindDevice(devices, name);
    assert r.Some?;
    assert !(r.value < i);
    assert !(i < r.value);
  }
}
