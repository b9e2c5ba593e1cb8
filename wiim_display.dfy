/**
 * The decisions of the "WiiM Display" client that differ from the "Now
 * Playing" client: its own `convertToSeconds` and `getPlayerProgress`, and
 * the "device-state" and "album-changed" handlers. Its `convertToMinutes`,
 * `checkAlbumArtURI`, `getSourceIdent`, `getQualityIdent` and metadata
 * handler are the Now Playing ones, which this module reuses.
 */
module WiimDisplay {
  import opened Wrappers
  import opened Text
  import opened JsValues
  import opened NowPlaying

  // ---------------------------------------------------------------------
  // convertToSeconds

  /** The text "0" is one section worth nothing. */
  lemma SecondsOfZero()
    ensures Seconds("0") == Some(0)
  {
    assert Split("0", ':') == ["0"];
    ParseIntDigits("0", "");
    assert "0" + "" == "0";
  }

  /**
   * `convertToSeconds` with its early exit: an undefined argument and the
   * text "0" give 0 straight away, any other text is split at ':' and summed.
   * The early exit agrees with the sum, so every text gets `Seconds`.
   */
  method ConvertToSeconds(duration: Option<string>) returns (total: Option<int>)
    ensures duration.None? ==> total == Some(0)
    ensures duration.Some? ==> total == Seconds(duration.value)
  {
    if duration.None? || duration.value == "0" {
      SecondsOfZero();
      total := Some(0);
    } else {
      var sections := Split(duration.value, ':');
      total := SumSections(sections);
    }
  }

  // ---------------------------------------------------------------------
  // getPlayerProgress

  /** The read-out: `played` is a value, since one branch hands back the transport state itself. */
  datatype Readout = Readout(played: Value, left: string, total: string, percent: Percent)

  /** The first branch's test: a positive duration and a position before its end. */
  predicate InTrack(trackPos: int, trackDuration: int) {
    trackDuration > 0 && trackPos < trackDuration
  }

  /** The "Paused " prefix of the played text, given when the state `==` "paused". */
  function PausedPrefix(currentTransportState: Value): string {
    if LooseEqualsString(currentTransportState, "paused") then "Paused " else ""
  }

  /**
   * `getPlayerProgress` on positions and durations in seconds: inside a
   * track the minute texts and the fraction played; "Live Stream" at 100 for
   * a stream without duration while "playing"; otherwise the state itself at 0.
   */
  function GetPlayerProgress(trackPos: int, trackDuration: int, currentTransportState: Value): (p: Readout)
    ensures InTrack(trackPos, trackDuration) ==>
      && p.played == Str(PausedPrefix(currentTransportState) + ConvertToMinutes(trackPos))
      && p.left == ConvertToMinutes(trackDuration - trackPos)
      && p.total == ConvertToMinutes(trackDuration)
      && p.percent == Ratio(trackPos, trackDuration)
    ensures !InTrack(trackPos, trackDuration) ==>
      && p.left == "" && p.total == ""
      && (p.percent == Fixed(100) <==> trackDuration == 0 && LooseEqualsString(currentTransportState, "playing"))
      && (p.percent == Fixed(100) ==> p.played == Str("Live Stream"))
      && (p.percent != Fixed(100) ==> p.played == currentTransportState && p.percent == Fixed(0))
  {
    if InTrack(trackPos, trackDuration) then
      Readout(Str(PausedPrefix(currentTransportState) + ConvertToMinutes(trackPos)),
              ConvertToMinutes(trackDuration - trackPos), ConvertToMinutes(trackDuration),
              Ratio(trackPos, trackDuration))
    else if trackDuration == 0 && LooseEqualsString(currentTransportState, "playing") then
      Readout(Str("Live Stream"), "", "", Fixed(100))
    else
      Readout(currentTransportState, "", "", Fixed(0))
  }

  /**
   * Inside a track the played text starts with "Paused " exactly when the
   * state is "paused", and what follows the prefix is the position's minute
   * text.
   */
  lemma PausedExactly(trackPos: int, trackDuration: int, currentTransportState: Value)
    requires InTrack(trackPos, trackDuration)
    ensures var played := GetPlayerProgress(trackPos, trackDuration, currentTransportState).played.s;
      && (StartsWith(played, "Paused ") <==> LooseEqualsString(currentTransportState, "paused"))
      && played[|played| - 5..] == ConvertToMinutes(trackPos)
  {
    var minutes := ConvertToMinutes(trackPos);
    var played := PausedPrefix(currentTransportState) + minutes;
    assert played[|played| - 5..] == minutes;
  }

  // ---------------------------------------------------------------------
  // The "device-state" and "album-changed" handlers

  /** What `element.innerText = v` shows: the string conversion, with null as "". */
  function InnerText(v: Value): string {
    if v.Null? then "" else ToJsString(v)
  }

  /** The volume and the device name line the "device-state" handler writes. */
  datatype DeviceLine = DeviceLine(volume: string, name: string)

  /**
   * The "device-state" handler: the volume, replaced by "mute" when `mute`
   * is the text "1" (`===`, so a numeric 1 does not mute), and
   * "name / model". None when the message is null or undefined: reading a
   * field throws.
   */
  function DeviceState(state: Value): (r: Option<DeviceLine>)
    ensures r.None? <==> !Readable(state)
    ensures r.Some? ==> Readable(state)
    ensures r.Some? ==> r.value.name == ToJsString(Field(state, "name")) + " / " + ToJsString(Field(state, "model"))
    ensures r.Some? ==>
      (r.value.volume == "mute" <==> Field(state, "mute") == Str("1") || InnerText(Field(state, "volume")) == "mute")
    ensures r.Some? && Field(state, "mute") != Str("1") ==> r.value.volume == InnerText(Field(state, "volume"))
  {
    if !Readable(state) then None
    else
      var volume := if StrictEquals(Field(state, "mute"), Str("1")) then "mute" else InnerText(Field(state, "volume"));
      Some(DeviceLine(volume, ToJsString(Field(state, "name")) + " / " + ToJsString(Field(state, "model"))))
  }

  /**
   * The "album-changed" handler: a set `albumArt` goes through
   * `checkAlbumArtURI` without a time stamp, an unset one gives the fallback
   * image. None when the message cannot be read, or when `albumArt` is set
   * but is not text: it has no `startsWith`.
   */
  function AlbumChanged(state: Value, page: Page, encode: string -> string): (r: Option<string>)
    ensures r.None? <==> !Readable(state) || (Truthy(Field(state, "albumArt")) && !Field(state, "albumArt").Str?)
    ensures r.Some? && Truthy(Field(state, "albumArt")) ==>
      r.value == CheckAlbumArtURI(Field(state, "albumArt").s, Undefined, page, encode, InitialAlbumArt)
    ensures r.Some? && !Truthy(Field(state, "albumArt")) ==> r.value == InitialAlbumArt
  {
    if !Readable(state) then None
    else
      var art := Field(state, "albumArt");
      if !Truthy(art) then Some(InitialAlbumArt)
      else if art.Str? then Some(CheckAlbumArtURI(art.s, Undefined, page, encode, InitialAlbumArt))
      else None
  }

  /**
   * The image the handler sets is always one the page can load, and a
   * proxied address carries the literal cache breaker "undefined".
   */
  lemma AlbumChangedAddress(state: Value, page: Page, encode: string -> string)
    requires AlbumChanged(state, page, encode).Some?
    ensures var r := AlbumChanged(state, page, encode).value;
      StartsWith(r, "http") || r == InitialAlbumArt
    ensures var art := Field(state, "albumArt");
      art.Str? && StartsWith(art.s, "https") ==>
        var r := AlbumChanged(state, page, encode).value;
        |r| >= 13 && r[|r| - 13..] == "&ts=undefined"
  {
    var art := Field(state, "albumArt");
    var r := AlbumChanged(state, page, encode).value;
    if art.Str? && StartsWith(art.s, "https") {
      var head := "http://" + page.hostname + PortPart(page) + "/proxy?url=" + encode(art.s);
      assert r == head + "&ts=" + "undefined";
      assert r[|r| - 13..] == "&ts=undefined";
      assert StartsWith(r, "http");
    } else if art.Str? && StartsWith(art.s, "http") {
      assert StartsWith(r, "http");
    }
  }
}
