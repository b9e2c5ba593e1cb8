/**
 * The socket handlers that read and change the device selection: the device
 * list sent to clients, and switching the selected device by location.
 */
module Sockets {
  import opened Wrappers
  import opened DeviceModel
  import opened UpnpClient

  /** The four fields of a device that clients receive. */
  datatype DeviceSummary = DeviceSummary(friendlyName: string, manufacturer: string, modelName: string, location: string)

  function Summary(d: Device): DeviceSummary {
    DeviceSummary(d.desc.friendlyName, d.desc.manufacturer, d.desc.modelName, d.location)
  }

  /** `getDevices`: the list emitted on "devices-get", one summary per device in list order. */
  function GetDevices(devices: seq<Device>): (r: seq<DeviceSummary>)
    ensures |r| == |devices|
    ensures forall i :: 0 <= i < |devices| ==> r[i] == Summary(devices[i])
  {
    if devices == [] then [] else [Summary(devices[0])] + GetDevices(devices[1..])
  }

  /** The projection commutes with appending, so a newly discovered device shows up last. */
  lemma GetDevicesAppend(a: seq<Device>, b: seq<Device>)
    ensures GetDevices(a + b) == GetDevices(a) + GetDevices(b)
  {
  }

  /** `deviceList.filter(d => d.location === location)`. */
  function WithLocation(devices: seq<Device>, loc: string): (r: seq<Device>)
    ensures forall k :: 0 <= k < |r| ==> r[k].location == loc && r[k] in devices
    ensures r == [] <==> forall i :: 0 <= i < |devices| ==> devices[i].location != loc
    ensures forall i :: 0 <= i < |devices| && devices[i].location == loc ==> devices[i] in r
  {
    if devices == [] then []
    else
      var rest := WithLocation(devices[1..], loc);
      assert forall i :: 1 <= i < |devices| ==> devices[i] == devices[1..][i - 1];
      if devices[0].location == loc then [devices[0]] + rest else rest
  }

  /** The head of the filtered list is the first device with that location. */
  lemma {:induction false} FirstWithLocation(devices: seq<Device>, loc: string)
    requires WithLocation(devices, loc) != []
    ensures exists i :: 0 <= i < |devices| && devices[i] == WithLocation(devices, loc)[0] &&
              forall j :: 0 <= j < i ==> devices[j].location != loc
  {
    if devices[0].location != loc {
      FirstWithLocation(devices[1..], loc);
      var i :| 0 <= i < |devices[1..]| && devices[1..][i] == WithLocation(devices[1..], loc)[0] &&
               forall j :: 0 <= j < i ==> devices[1..][j].location != loc;
      assert devices[i + 1] == WithLocation(devices, loc)[0];
      assert forall j :: 0 <= j < i + 1 ==> devices[j].location != loc by {
        forall j | 0 <= j < i + 1
          ensures devices[j].location != loc
        {
          if j > 0 {
            assert devices[j] == devices[1..][j - 1];
          }
        }
      }
    } else {
      assert devices[0] == WithLocation(devices, loc)[0];
    }
  }

  /** What a device switch announces and persists. */
  datatype SetDeviceEffect = DeviceSet(selected: SelectedDevice) | SaveSelection(selected: SelectedDevice)

  /**
   * `setDevice`: when a listed device has the location, the device record is
   * reset (state, metadata and client), the first such device becomes the
   * selected one, the new selection is broadcast and saved. Otherwise nothing
   * changes. The device list is only read.
   */
  method SetDevice(list: DeviceList, info: DeviceInfo, settings: ServerSettings, location: string)
    returns (effects: seq<SetDeviceEffect>)
    modifies info, settings
    ensures WithLocation(list.devices, location) == [] ==>
      && info.state == old(info.state) && info.metadata == old(info.metadata) && info.client == old(info.client)
      && settings.selectedDevice == old(settings.selectedDevice) && effects == []
    ensures WithLocation(list.devices, location) != [] ==>
      && info.state == None && info.metadata == None && info.client == None
      && settings.selectedDevice == SelectionOf(WithLocation(list.devices, location)[0])
      && effects == [DeviceSet(settings.selectedDevice), SaveSelection(settings.selectedDevice)]
  {
    var selected := WithLocation(list.devices, location);
    if |selected| > 0 {
      info.state := None;
      info.metadata := None;
      info.client := None;
      settings.selectedDevice := SelectionOf(selected[0]);
      effects := [DeviceSet(settings.selectedDevice), SaveSelection(settings.selectedDevice)];
    } else {
      effects := [];
    }
  }

  /** The selection a switch makes names the requested location. */
  lemma SelectionHasLocation(devices: seq<Device>, loc: string)
    requires WithLocation(devices, loc) != []
    ensures SelectionOf(WithLocation(devices, loc)[0]).location == loc
  {
  }
}
