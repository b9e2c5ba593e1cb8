/**
 * The device poll step of the WiiM HTTP API module: formatting of the
 * millisecond position and duration, the mapping of the device's player
 * status onto UPnP transport states, and the two callbacks that fold one
 * fetched payload into the shared `deviceInfo` record. The HTTPS fetch is
 * not modelled: its result arrives as a `Fetched` value.
 */
module WiimApi {
  import opened Wrappers
  import opened Text
  import opened JsValues
  import opened DeviceModel

  const DayMs := 86400000

  // ---------------------------------------------------------------------
  // msToTime

  /** `(x < 10) ? "0" + x : x` followed by string concatenation. */
  function Clock2(x: int): string {
    if x < 10 then "0" + IntToString(x) else IntToString(x)
  }

  function CeilDiv(n: nat, u: nat): nat
    requires u > 0
  {
    (n + u - 1) / u
  }

  /**
   * `Math.floor((d / u) % m)` for an integer `d`: the division is exact and
   * `%` keeps the sign of `d`.
   */
  function FloorOfRem(d: int, u: nat, m: nat): int
    requires u > 0 && m > 0
  {
    if d >= 0 then (d / u) % m else -(CeilDiv((-d) % (u * m), u) as int)
  }

  /** `Math.floor((d % 1000) / 100)`, with `%` keeping the sign of `d`. */
  function Tenths(d: int): int {
    if d >= 0 then (d % 1000) / 100 else -(CeilDiv((-d) % 1000, 100) as int)
  }

  /** "HH:MM:SS.T": hours, minutes and seconds with two digits each, then the tenths digit. */
  function ClockText(h: nat, m: nat, s: nat, t: nat): (r: string)
    requires h < 100 && m < 100 && s < 100 && t < 10
    ensures |r| == 10 && r[2] == ':' && r[5] == ':' && r[8] == '.'
    ensures r[0..2] == Pad2(h) && r[3..5] == Pad2(m) && r[6..8] == Pad2(s) && r[9] == DigitChar(t)
  {
    var hh, mm, ss := Pad2(h), Pad2(m), Pad2(s);
    var r := hh + ":" + mm + ":" + ss + "." + [DigitChar(t)];
    assert r == hh + (":" + mm + (":" + ss + ("." + [DigitChar(t)])));
    assert r[0..2] == hh;
    assert r[3..5] == mm;
    assert r[6..8] == ss;
    r
  }

  /**
   * `msToTime(d)` for an integral millisecond count. For a count that is not
   * negative it is the clock text of the time of day and its tenth.
   */
  function MsToTime(d: int): (r: string)
    ensures d >= 0 ==> r == ClockText((d / 3600000) % 24, (d / 60000) % 60, (d / 1000) % 60, (d % 1000) / 100)
  {
    var hours := FloorOfRem(d, 3600000, 24);
    var minutes := FloorOfRem(d, 60000, 60);
    var seconds := FloorOfRem(d, 1000, 60);
    var r := Clock2(hours) + ":" + Clock2(minutes) + ":" + Clock2(seconds) + "." + IntToString(Tenths(d));
    if d >= 0 then
      Clock2IsPad2(hours);
      Clock2IsPad2(minutes);
      Clock2IsPad2(seconds);
      assert IntToString(Tenths(d)) == [DigitChar(Tenths(d))];
      r
    else r
  }

  lemma Clock2IsPad2(x: int)
    requires 0 <= x < 100
    ensures Clock2(x) == Pad2(x)
  {
  }

  /** `msToTime(v)` for whatever the payload holds: NaN in every field when `v` is not numeric. */
  function MsToTimeOf(v: Value): (r: string)
    ensures ToNumber(v).None? <==> r == "NaN:NaN:NaN.NaN"
  {
    match ToNumber(v)
    case Some(d) =>
      var t := MsToTime(d);
      assert d < 0 ==> t[0] == '0' by {
        assert d < 0 ==> Clock2(FloorOfRem(d, 3600000, 24)) == "0" + IntToString(FloorOfRem(d, 3600000, 24));
      }
      assert IsDigit(t[0]);
      t
    case None => "NaN:NaN:NaN.NaN"
  }

  /** The hours field wraps at a day, so adding a whole day does not change the rendering. */
  lemma MsToTimeWrapsDaily(d: nat)
    ensures MsToTime(d + DayMs) == MsToTime(d)
  {
    var e := d + DayMs;
    assert (e / 3600000) % 24 == (d / 3600000) % 24 by {
      assert e / 3600000 == d / 3600000 + 24;
    }
    assert (e / 60000) % 60 == (d / 60000) % 60 by {
      assert e / 60000 == d / 60000 + 1440;
    }
    assert (e / 1000) % 60 == (d / 1000) % 60 by {
      assert e / 1000 == d / 1000 + 86400;
    }
    assert e % 1000 == d % 1000;
  }

  /** Splitting a count of seconds into hours mod 24, minutes and seconds. */
  lemma ClockDecomposition(s: nat)
    ensures (s / 3600) % 24 * 3600 + (s / 60) % 60 * 60 + s % 60 == s % 86400
  {
    var q := s / 60;
    var p := q / 60;
    var k := p / 24;
    assert p == s / 3600;
    assert s == q * 60 + s % 60;
    assert q == p * 60 + q % 60;
    assert p == k * 24 + p % 24;
    var rest := p % 24 * 3600 + q % 60 * 60 + s % 60;
    assert s == k * 86400 + rest;
    assert 0 <= rest < 86400;
  }

  /**
   * The fields of `msToTime(d)` read back as decimals give the time of day in
   * seconds and the tenths of the current second.
   */
  lemma MsToTimeFields(d: nat)
    ensures var r := MsToTime(d);
      DecimalValue(r[0..2]) * 3600 + DecimalValue(r[3..5]) * 60 + DecimalValue(r[6..8]) == (d / 1000) % 86400
      && DigitValue(r[9]) == (d % 1000) / 100
  {
    assert d / 60000 == d / 1000 / 60 && d / 3600000 == d / 1000 / 3600;
    ClockDecomposition(d / 1000);
  }

  // ---------------------------------------------------------------------
  // Player status

  /**
   * The transport state a `status` of the device's player-status payload
   * stands for, compared with `==`; any other status keeps `previous`.
   */
  function TransportStateFor(status: Value, previous: string): (r: string)
    ensures r != previous ==> DeviceStatusOf(r).Some? && LooseEqualsString(status, DeviceStatusOf(r).value)
    ensures status.Undefined? || status.Null? ==> r == previous
    ensures status.Str? && !KnownStatus(status.s) ==> r == previous
    ensures status.Str? && KnownStatus(status.s) ==> DeviceStatusOf(r) == Some(status.s)
  {
    if LooseEqualsString(status, "play") then "PLAYING"
    else if LooseEqualsString(status, "stop") then "STOPPED"
    else if LooseEqualsString(status, "pause") then "PAUSED_PLAYBACK"
    else if LooseEqualsString(status, "loading") then "TRANSITIONING"
    else previous
  }

  /** The device statuses that name a transport state. */
  predicate KnownStatus(s: string) {
    s == "play" || s == "stop" || s == "pause" || s == "loading"
  }

  /** The device status a transport state comes from: the inverse of the mapping. */
  function DeviceStatusOf(transportState: string): (r: Option<string>)
    ensures r.Some? ==> KnownStatus(r.value)
  {
    if transportState == "PLAYING" then Some("play")
    else if transportState == "STOPPED" then Some("stop")
    else if transportState == "PAUSED_PLAYBACK" then Some("pause")
    else if transportState == "TRANSITIONING" then Some("loading")
    else None
  }

  /** A known status string is mapped to a transport state it can be recovered from. */
  lemma TransportStateRoundTrip(s: string, previous: string)
    requires KnownStatus(s)
    ensures DeviceStatusOf(TransportStateFor(Str(s), previous)) == Some(s)
  {
  }

  /** A string status other than the four known ones leaves the previous transport state in place. */
  lemma UnknownStatusKeepsPrevious(s: string, previous: string)
    requires !KnownStatus(s)
    ensures TransportStateFor(Str(s), previous) == previous
  {
  }

  /** A word starting with a lower-case letter is not a numeric literal. */
  lemma {:induction false} WordIsNotNumber(t: string)
    requires t != [] && 'a' <= t[0] <= 'z'
    ensures StringToNumber(t) == None
  {
    assert TrimStart(t) == t;
    var u := TrimEnd(t);
    assert u != [] && u[0] == t[0] by {
      TrimEndKeepsFirst(t);
    }
    assert DigitPrefix(u) == [];
  }

  lemma {:induction false} TrimEndKeepsFirst(t: string)
    requires t != [] && !IsJsWhitespace(t[0])
    ensures TrimEnd(t) != [] && TrimEnd(t)[0] == t[0]
    decreases |t|
  {
    if IsJsWhitespace(t[|t| - 1]) {
      assert |t| > 1;
      TrimEndKeepsFirst(t[..|t| - 1]);
    }
  }

  /** A number or a boolean is never `==` to a word. */
  lemma NumberNeverEqualsWord(v: Value, w: string)
    requires v.Num? || v.Bool?
    requires w != [] && 'a' <= w[0] <= 'z'
    ensures !LooseEqualsString(v, w)
  {
    WordIsNotNumber(w);
  }

  /** A numeric or boolean status never matches: none of the four status words is a number. */
  lemma NonStringStatusKeepsPrevious(status: Value, previous: string)
    requires status.Num? || status.Bool?
    ensures TransportStateFor(status, previous) == previous
  {
    NumberNeverEqualsWord(status, "play");
    NumberNeverEqualsWord(status, "stop");
    NumberNeverEqualsWord(status, "pause");
    NumberNeverEqualsWord(status, "loading");
  }

  // ---------------------------------------------------------------------
  // The poll callbacks

  /** What the HTTPS request hands the callback: an error, a body that is not JSON, or parsed JSON. */
  datatype Fetched = FetchFailed | Unparsable | Parsed(json: Value)

  datatype Event = StateEvent(state: PlayerState) | MetadataEvent(metadata: Metadata)

  /**
   * How a callback ends: it returns early, emits one event to every socket
   * client, or throws. `getJsonFromHttps` catches the throw and calls the
   * callback again with the error, and that call returns at `if (error)`,
   * so a throw emits nothing and keeps whatever was written before it.
   */
  datatype Outcome = Silent | Emitted(event: Event) | Threw

  /**
   * One state poll (getPlayerStatus). A failed fetch returns at once. Otherwise
   * a null `state` is initialised first; then the body is parsed and mapped.
   * A body that is not JSON, JSON null, or a missing `metadata` record throws,
   * leaving only the initialised state behind.
   */
  method UpdateDeviceState(info: DeviceInfo, fetched: Fetched) returns (outcome: Outcome)
    modifies info
    ensures info.client == old(info.client)
    ensures fetched.FetchFailed? ==>
      outcome == Silent && info.state == old(info.state) && info.metadata == old(info.metadata)
    ensures !fetched.FetchFailed? && (fetched.Unparsable? || !Readable(fetched.json) || old(info.metadata).None?) ==>
      && outcome == Threw
      && info.state == Some(if old(info.state).Some? then old(info.state).value else InitialState)
      && info.metadata == old(info.metadata)
    ensures fetched.Parsed? && Readable(fetched.json) && old(info.metadata).Some? ==>
      var json := fetched.json;
      var cts := TransportStateFor(Field(json, "status"), old(info.metadata).value.currentTransportState);
      && info.metadata == Some(old(info.metadata).value.(
           currentTransportState := cts, trackSource := Field(json, "vendor"), currentVolume := Field(json, "vol")))
      && info.state == Some(PlayerState(cts, Str(MsToTimeOf(Field(json, "curpos"))), Str(MsToTimeOf(Field(json, "totlen")))))
      && outcome == Emitted(StateEvent(info.state.value))
  {
    if fetched.FetchFailed? {
      return Silent;
    }
    if info.state.None? {
      info.state := Some(InitialState);
    }
    if fetched.Unparsable? || !Readable(fetched.json) || info.metadata.None? {
      return Threw;
    }
    var json := fetched.json;
    var md := info.metadata.value;
    var cts := TransportStateFor(Field(json, "status"), md.currentTransportState);
    md := md.(currentTransportState := cts);
    var st := info.state.value.(currentTransportState := md.currentTransportState);
    st := st.(relTime := Str(MsToTimeOf(Field(json, "curpos"))));
    st := st.(trackDuration := Str(MsToTimeOf(Field(json, "totlen"))));
    md := md.(trackSource := Field(json, "vendor"), currentVolume := Field(json, "vol"));
    info.state := Some(st);
    info.metadata := Some(md);
    outcome := Emitted(StateEvent(st));
  }

  /** The six fields a metadata poll copies from the payload's `metaData` record. */
  function WithTrackInfo(md: Metadata, metaData: Value): (r: Metadata)
    requires Readable(metaData)
    ensures r.(artist := md.artist, album := md.album, title := md.title, albumCoverUri := md.albumCoverUri,
               sampleRate := md.sampleRate, bitDepth := md.bitDepth) == md
    ensures r.artist == Field(metaData, "artist") && r.album == Field(metaData, "album")
    ensures r.title == Field(metaData, "title") && r.albumCoverUri == Field(metaData, "albumArtURI")
    ensures r.sampleRate == Field(metaData, "sampleRate") && r.bitDepth == Field(metaData, "bitDepth")
  {
    md.(artist := Field(metaData, "artist"), album := Field(metaData, "album"), title := Field(metaData, "title"),
        albumCoverUri := Field(metaData, "albumArtURI"), sampleRate := Field(metaData, "sampleRate"),
        bitDepth := Field(metaData, "bitDepth"))
  }

  /**
   * One metadata poll (getMetaInfo) at clock reading `now`. A failed fetch
   * returns at once and a body that is not JSON throws before anything is
   * written. Otherwise a null `metadata` is replaced by the default record;
   * then the six track fields are copied from `metaData`, which throws when
   * the payload or its `metaData` is null or missing.
   */
  method UpdateDeviceMetadata(info: DeviceInfo, fetched: Fetched, now: int) returns (outcome: Outcome)
    modifies info
    ensures info.client == old(info.client) && info.state == old(info.state)
    ensures fetched.FetchFailed? ==> outcome == Silent && info.metadata == old(info.metadata)
    ensures fetched.Unparsable? ==> outcome == Threw && info.metadata == old(info.metadata)
    ensures fetched.Parsed? ==>
      var base := if old(info.metadata).Some? then old(info.metadata).value else DefaultMetadata(now);
      var json := fetched.json;
      if Readable(json) && Readable(Field(json, "metaData")) then
        info.metadata == Some(WithTrackInfo(base, Field(json, "metaData")))
        && outcome == Emitted(MetadataEvent(info.metadata.value))
      else
        info.metadata == Some(base) && outcome == Threw
  {
    if fetched.FetchFailed? {
      return Silent;
    }
    if fetched.Unparsable? {
      return Threw;
    }
    if info.metadata.None? {
      info.metadata := Some(DefaultMetadata(now));
    }
    var json := fetched.json;
    if !Readable(json) || !Readable(Field(json, "metaData")) {
      return Threw;
    }
    var md := WithTrackInfo(info.metadata.value, Field(json, "metaData"));
    info.metadata := Some(md);
    outcome := Emitted(MetadataEvent(md));
  }
}
