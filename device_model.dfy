/**
 * The server's shared `deviceInfo` record: the last known transport state,
 * the last known metadata and the UPnP client handle. The poll callbacks,
 * the device selection and the action dispatch all update it in place.
 */
module DeviceModel {
  import opened Wrappers
  import opened JsValues

  /** `deviceInfo.state`: transport state and the formatted position and duration. */
  datatype PlayerState = PlayerState(currentTransportState: string, relTime: Value, trackDuration: Value)

  /** What a state poll puts in place of a null `deviceInfo.state` before it parses anything. */
  const InitialState := PlayerState("", Num(0), Num(0))

  /**
   * `deviceInfo.metadata`. `currentVolume` is absent (undefined) until the
   * first state poll writes it.
   */
  datatype Metadata = Metadata(
    playMedium: string,
    playMedia: string,
    timeStamp: int,
    currentTransportState: string,
    artist: Value,
    album: Value,
    title: Value,
    albumCoverUri: Value,
    trackSource: Value,
    bitDepth: Value,
    sampleRate: Value,
    currentVolume: Value)

  /** The record a metadata poll creates when `deviceInfo.metadata` is null. */
  function DefaultMetadata(timeStamp: int): (m: Metadata)
    ensures m.playMedium == "SONGLIST-NETWORK" && m.playMedia == "SONGLIST-NETWORK"
    ensures m.timeStamp == timeStamp && m.currentTransportState == ""
    ensures m.artist == m.album == m.title == m.albumCoverUri == m.trackSource == Str("")
    ensures m.bitDepth == m.sampleRate == Num(0) && m.currentVolume == Undefined
  {
    Metadata("SONGLIST-NETWORK", "SONGLIST-NETWORK", timeStamp, "",
             Str(""), Str(""), Str(""), Str(""), Str(""), Num(0), Num(0), Undefined)
  }

  /** A UPnP device client, identified by the renderer location it was created for. */
  datatype Client = Client(rendererUri: string)

  class DeviceInfo {
    var state: Option<PlayerState>
    var metadata: Option<Metadata>
    var client: Option<Client>

    /** The server starts with `{ state: null, metadata: null }` and no client. */
    constructor ()
      ensures state == None && metadata == None && client == None
    {
      state := None;
      metadata := None;
      client := None;
    }
  }
}
