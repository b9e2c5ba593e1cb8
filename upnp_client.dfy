/**
 * The UPnP side of the server: the record of the selected device that the
 * server settings keep, the list of devices that discovery fills, the gate
 * in front of AVTransport actions, and the step that adds a described
 * device to the list. The UPnP client library itself (creating a client,
 * fetching descriptions, sending an action) is not modelled: its answers
 * arrive as parameters and its calls leave as returned requests.
 *
 * The state and metadata poll callbacks of this module are the same code as
 * in the WiiM HTTP API module and are modelled once, in `WiimApi`.
 */
module UpnpClient {
  import opened Wrappers
  import opened Text
  import opened JsValues
  import opened DeviceModel

  /** One entry of a service description's action table. */
  datatype ActionEntry = ActionEntry(name: string, arguments: seq<string>)

  /** `Object.keys` of an action table: the action names, in table order. */
  function ActionNames(table: seq<ActionEntry>): (names: seq<string>)
    ensures |names| == |table|
    ensures forall i :: 0 <= i < |table| ==> names[i] == table[i].name
  {
    if table == [] then [] else [table[0].name] + ActionNames(table[1..])
  }

  /** `serverSettings.selectedDevice`; an empty location means no device is selected. */
  datatype SelectedDevice = SelectedDevice(
    friendlyName: string, manufacturer: string, modelName: string, location: string, actions: seq<string>)

  /** The fields of a device description this model reads. */
  datatype DeviceDescription = DeviceDescription(
    friendlyName: string, manufacturer: string, modelName: string, deviceType: string)

  /** A discovered device: its SSDP location, its description, and its AVTransport action table. */
  datatype Device = Device(location: string, desc: DeviceDescription, actions: seq<ActionEntry>)

  /** The selection record built from a device: its names, location and action names. */
  function SelectionOf(d: Device): (s: SelectedDevice)
    ensures s.location == d.location && s.actions == ActionNames(d.actions)
    ensures s.friendlyName == d.desc.friendlyName && s.manufacturer == d.desc.manufacturer
    ensures s.modelName == d.desc.modelName
  {
    SelectedDevice(d.desc.friendlyName, d.desc.manufacturer, d.desc.modelName, d.location, ActionNames(d.actions))
  }

  class ServerSettings {
    var selectedDevice: SelectedDevice

    constructor (selected: SelectedDevice)
      ensures selectedDevice == selected
    {
      selectedDevice := selected;
    }
  }

  /** The list of discovered devices, shared between discovery and the socket handlers. */
  class DeviceList {
    var devices: seq<Device>

    constructor ()
      ensures devices == []
    {
      devices := [];
    }
  }

  /** Side effects handed to the outside world. */
  datatype Effect =
    | SaveSettings(selected: SelectedDevice)
    | EmitDeviceAction(action: string, result: Value)
    | RefreshMetadata
    | RefreshState

  // ---------------------------------------------------------------------
  // ensureClient and callDeviceAction

  /** Creates a client for the selected location only when none exists yet. */
  method EnsureClient(info: DeviceInfo, settings: ServerSettings)
    modifies info
    ensures old(info.client).Some? ==> info.client == old(info.client)
    ensures old(info.client).None? ==> info.client == Some(Client(settings.selectedDevice.location))
    ensures info.state == old(info.state) && info.metadata == old(info.metadata)
  {
    if info.client.None? {
      info.client := Some(Client(settings.selectedDevice.location));
    }
  }

  /** The arguments of an AVTransport action request. */
  datatype ActionOptions = ActionOptions(instanceId: int, speed: Option<int>)

  /** An AVTransport action handed to the device client. */
  datatype ActionCall = ActionCall(client: Client, service: string, action: string, options: ActionOptions)

  /**
   * The gate in front of an action: it may be sent only when a device is
   * selected and the device lists the action; the request always carries
   * InstanceID 0, and Speed 1 exactly for "Play".
   */
  function ActionRequest(selected: SelectedDevice, action: string): (r: Option<ActionOptions>)
    ensures r.Some? <==> selected.location != "" && action in selected.actions
    ensures r.Some? ==> r.value.instanceId == 0
    ensures r.Some? ==> (r.value.speed.Some? <==> action == "Play")
    ensures r.Some? && r.value.speed.Some? ==> r.value.speed.value == 1
  {
    if selected.location != "" && action in selected.actions then
      Some(ActionOptions(0, if action == "Play" then Some(1) else None))
    else None
  }

  /**
   * `callDeviceAction`: when the gate lets the action through, a client is
   * ensured and the action is sent through it; otherwise nothing happens.
   */
  method CallDeviceAction(info: DeviceInfo, settings: ServerSettings, action: string) returns (call: Option<ActionCall>)
    modifies info
    ensures info.state == old(info.state) && info.metadata == old(info.metadata)
    ensures call.Some? <==> ActionRequest(settings.selectedDevice, action).Some?
    ensures call.None? ==> info.client == old(info.client)
    ensures call.Some? ==>
      && info.client == Some(if old(info.client).Some? then old(info.client).value else Client(settings.selectedDevice.location))
      && call.value == ActionCall(info.client.value, "AVTransport", action, ActionRequest(settings.selectedDevice, action).value)
  {
    var options := ActionRequest(settings.selectedDevice, action);
    if options.None? {
      return None;
    }
    EnsureClient(info, settings);
    call := Some(ActionCall(info.client.value, "AVTransport", action, options.value));
  }

  /**
   * The callback of a sent action: on success the result is broadcast and
   * metadata and state are refreshed, each once; an error only gets logged.
   */
  function OnActionReply(action: string, reply: Option<Value>): (effects: seq<Effect>)
    ensures reply.None? ==> effects == []
    ensures reply.Some? ==> |effects| == 3 && effects[0] == EmitDeviceAction(action, reply.value)
    ensures reply.Some? ==> multiset(effects[1..]) == multiset{RefreshMetadata, RefreshState}
  {
    if reply.None? then [] else [EmitDeviceAction(action, reply.value), RefreshMetadata, RefreshState]
  }

  // ---------------------------------------------------------------------
  // getServiceDescription

  /** The devices the server selects on its own: WiiM devices, made by Linkplay. */
  predicate IsWiimDevice(desc: DeviceDescription) {
    Contains(desc.manufacturer, "Linkplay") || Contains(desc.modelName, "WiiM")
  }

  /**
   * The AVTransport service description arrived for the device found at
   * `location` (None when the request failed). The device joins the list and,
   * when nothing is selected yet and it is a WiiM device, it becomes the
   * selected device and the settings are saved.
   */
  method GetServiceDescription(list: DeviceList, settings: ServerSettings, location: string,
                               desc: DeviceDescription, service: Option<seq<ActionEntry>>)
    returns (effects: seq<Effect>)
    modifies list, settings
    ensures service.None? ==> list.devices == old(list.devices) && settings.selectedDevice == old(settings.selectedDevice) && effects == []
    ensures service.Some? ==> list.devices == old(list.devices) + [Device(location, desc, service.value)]
    ensures service.Some? && old(settings.selectedDevice.location) == "" && IsWiimDevice(desc) ==>
      settings.selectedDevice == SelectionOf(Device(location, desc, service.value))
      && effects == [SaveSettings(settings.selectedDevice)]
    ensures service.Some? && (old(settings.selectedDevice.location) != "" || !IsWiimDevice(desc)) ==>
      settings.selectedDevice == old(settings.selectedDevice) && effects == []
  {
    if service.None? {
      return [];
    }
    var device := Device(location, desc, service.value);
    list.devices := list.devices + [device];
    effects := [];
    if settings.selectedDevice.location == "" && IsWiimDevice(desc) {
      settings.selectedDevice := SelectionOf(device);
      effects := [SaveSettings(settings.selectedDevice)];
    }
  }

  /** A device whose manufacturer names Linkplay is a WiiM device, wherever the name appears. */
  lemma LinkplayIsWiim(desc: DeviceDescription, before: string, after: string)
    requires desc.manufacturer == before + "Linkplay" + after
    ensures IsWiimDevice(desc)
  {
    var m := desc.manufacturer;
    assert m[|before|..|before| + 8] == "Linkplay";
    ContainsAt(m, "Linkplay", |before|);
  }
}
