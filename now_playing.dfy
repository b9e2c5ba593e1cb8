/**
 * The decisions of the "Now Playing" client: time parsing and formatting,
 * the progress read-out, the album-art address, the source and quality
 * badges, the play-button and track-change cursors of the socket handlers,
 * and the split of the device list into WiiM and other devices. The page
 * writes (DOM nodes, classes, attributes) are not modelled; the handlers
 * return what they would show.
 */
module NowPlaying {
  import opened Wrappers
  import opened Text
  import opened JsValues
  import opened Sockets

  // ---------------------------------------------------------------------
  // convertToSeconds

  function Pow60(k: nat): nat {
    if k == 0 then 1 else 60 * Pow60(k - 1)
  }

  /** Number addition where None is NaN: NaN absorbs everything. */
  function AddNaN(a: Option<int>, b: Option<int>): (r: Option<int>)
    ensures r.Some? <==> a.Some? && b.Some?
    ensures r.Some? ==> r.value == a.value + b.value
  {
    if a.Some? && b.Some? then Some(a.value + b.value) else None
  }

  /** The value of a section with weight `m`. */
  function Weighted(m: nat, v: Option<int>): Option<int> {
    if v.Some? then Some(m * v.value) else None
  }

  /**
   * The base-60 value of colon-separated sections, the first section having
   * the highest weight; None (NaN) as soon as one section has no number.
   */
  function SectionSum(sections: seq<string>): Option<int> {
    if sections == [] then Some(0)
    else AddNaN(Weighted(Pow60(|sections| - 1), ParseInt(sections[0])), SectionSum(sections[1..]))
  }

  /** What `convertToSeconds` computes for a time text. */
  function Seconds(duration: string): Option<int> {
    SectionSum(Split(duration, ':'))
  }

  /** `convertToSeconds`: splits the text at ':' and sums the sections. */
  method ConvertToSeconds(duration: string) returns (total: Option<int>)
    ensures total == Seconds(duration)
  {
    var sections := Split(duration, ':');
    total := SumSections(sections);
  }

  /** The loop of `convertToSeconds`: adds 60^(n-1-i) * parseInt(section i) for each section in turn. */
  method SumSections(sections: seq<string>) returns (total: Option<int>)
    ensures total == SectionSum(sections)
  {
    total := Some(0);
    var i := 0;
    while i < |sections|
      invariant 0 <= i <= |sections|
      invariant AddNaN(total, SectionSum(sections[i..])) == SectionSum(sections)
    {
      assert sections[i..][1..] == sections[i + 1..];
      var factor := |sections| - 1 - i;
      var multiplier := Pow60(factor);
      total := AddNaN(total, Weighted(multiplier, ParseInt(sections[i])));
      i := i + 1;
    }
    assert sections[i..] == [];
  }

  /** The sum is NaN exactly when some section does not start with a number. */
  lemma {:induction false} SectionSumNaN(sections: seq<string>)
    ensures SectionSum(sections).None? <==> exists k :: 0 <= k < |sections| && ParseInt(sections[k]).None?
  {
    if sections != [] {
      SectionSumNaN(sections[1..]);
      if ParseInt(sections[0]).None? {
        assert ParseInt(sections[0]).None?;
      } else {
        assert forall k :: 1 <= k < |sections| ==> sections[k] == sections[1..][k - 1];
        assert (exists k :: 0 <= k < |sections| && ParseInt(sections[k]).None?) ==>
               (exists k :: 0 <= k < |sections[1..]| && ParseInt(sections[1..][k]).None?);
      }
    }
  }

  /** Once a text is a join of colon-free sections, `convertToSeconds` sums exactly those sections. */
  lemma SecondsOfJoin(parts: seq<string>)
    requires |parts| >= 1
    requires forall k :: 0 <= k < |parts| ==> Free(parts[k], ':')
    ensures Seconds(Join(parts, ':')) == SectionSum(parts)
  {
    SplitJoin(parts, ':');
  }

  lemma SectionSumTwo(a: string, b: string)
    requires ParseInt(a).Some? && ParseInt(b).Some?
    ensures SectionSum([a, b]) == Some(60 * ParseInt(a).value + ParseInt(b).value)
  {
    assert [a, b][1..] == [b];
    assert [b][1..] == [];
    assert Pow60(1) == 60 && Pow60(0) == 1;
    assert SectionSum([b]) == Some(ParseInt(b).value);
  }

  lemma SectionSumThree(a: string, b: string, c: string)
    requires ParseInt(a).Some? && ParseInt(b).Some? && ParseInt(c).Some?
    ensures SectionSum([a, b, c]) == Some(3600 * ParseInt(a).value + 60 * ParseInt(b).value + ParseInt(c).value)
  {
    assert [a, b, c][1..] == [b, c];
    SectionSumTwo(b, c);
    assert Pow60(2) == 3600;
  }

  /** "M:S" is worth 60 M + S seconds. */
  lemma TwoSectionText(m: string, s: string)
    requires Free(m, ':') && Free(s, ':')
    requires ParseInt(m).Some? && ParseInt(s).Some?
    ensures Seconds(m + ":" + s) == Some(60 * ParseInt(m).value + ParseInt(s).value)
  {
    assert Join([m, s], ':') == m + ":" + s by {
      assert [m, s][1..] == [s];
    }
    SecondsOfJoin([m, s]);
    SectionSumTwo(m, s);
  }

  /** "H:M:S" is worth 3600 H + 60 M + S seconds. */
  lemma ThreeSections(h: string, m: string, s: string)
    requires Free(h, ':') && Free(m, ':') && Free(s, ':')
    requires ParseInt(h).Some? && ParseInt(m).Some? && ParseInt(s).Some?
    ensures Seconds(h + ":" + m + ":" + s) ==
      Some(3600 * ParseInt(h).value + 60 * ParseInt(m).value + ParseInt(s).value)
  {
    assert Join([h, m, s], ':') == h + ":" + m + ":" + s by {
      assert [h, m, s][1..] == [m, s];
      assert [m, s][1..] == [s];
      assert Join([m, s], ':') == m + [':'] + s;
      assert h + [':'] + (m + [':'] + s) == h + ":" + m + ":" + s;
    }
    SecondsOfJoin([h, m, s]);
    SectionSumThree(h, m, s);
  }

  lemma ParseIntPad2(n: nat)
    requires n < 100
    ensures ParseInt(Pad2(n)) == Some(n)
  {
    ParseIntDigits(Pad2(n), "");
    assert Pad2(n) + "" == Pad2(n);
  }

  // ---------------------------------------------------------------------
  // convertToMinutes

  /**
   * `convertToMinutes`: the minutes and seconds of the clock `seconds` after
   * the epoch ("MM:SS"); hours are dropped. `setSeconds` works in local time,
   * so this is the browser in a zone whose offset is a fixed whole number of
   * hours, such as UTC. Date arithmetic rounds towards minus infinity, which
   * is Dafny's `/` and `%` for a positive divisor.
   */
  function ConvertToMinutes(seconds: int): (r: string)
    ensures |r| == 5 && r[2] == ':' && AllDigits(r[..2]) && AllDigits(r[3..])
  {
    Pad2((seconds / 60) % 60) + ":" + Pad2(seconds % 60)
  }

  lemma MinuteClock(s: int)
    ensures (s / 60) % 60 * 60 + s % 60 == s % 3600
  {
    var q := s / 60;
    var p := q / 60;
    assert s == q * 60 + s % 60;
    assert q == p * 60 + q % 60;
    var rest := q % 60 * 60 + s % 60;
    assert s == p * 3600 + rest;
    assert 0 <= rest < 3600;
  }

  lemma TwoSections(minutes: nat, seconds: nat)
    requires minutes < 60 && seconds < 60
    ensures Seconds(Pad2(minutes) + ":" + Pad2(seconds)) == Some(60 * minutes + seconds)
  {
    ParseIntPad2(minutes);
    ParseIntPad2(seconds);
    Pad2Free(minutes);
    Pad2Free(seconds);
    TwoSectionText(Pad2(minutes), Pad2(seconds));
  }

  lemma Pad2Free(n: nat)
    requires n < 100
    ensures Free(Pad2(n), ':')
  {
  }

  /** Reading the text back gives the seconds within the hour: the round trip of the two conversions. */
  lemma MinutesRoundTrip(seconds: int)
    ensures Seconds(ConvertToMinutes(seconds)) == Some(seconds % 3600)
  {
    TwoSections((seconds / 60) % 60, seconds % 60);
    MinuteClock(seconds);
  }

  /** Whole hours make no difference to the text. */
  lemma MinutesDropHours(seconds: int, hours: int)
    ensures ConvertToMinutes(seconds + 3600 * hours) == ConvertToMinutes(seconds)
  {
    assert (seconds + 3600 * hours) / 60 == seconds / 60 + 60 * hours;
    assert (seconds + 3600 * hours) % 60 == seconds % 60;
    assert (seconds / 60 + 60 * hours) % 60 == (seconds / 60) % 60;
  }

  // ---------------------------------------------------------------------
  // getPlayerProgress

  /** The percentage played, left as the fraction it is formatted from. */
  datatype Percent = Ratio(part: int, whole: int) | Fixed(percent: int)

  datatype Progress = Progress(played: string, left: string, total: string, percent: Percent)

  /** `convertToSeconds(relTime) + timeStampDiff`. */
  function Position(relTime: string, timeStampDiff: Option<int>): Option<int> {
    AddNaN(Seconds(relTime), timeStampDiff)
  }

  /** The first branch's test: a positive duration and a position before its end. */
  predicate InProgress(position: Option<int>, duration: Option<int>) {
    duration.Some? && duration.value > 0 && position.Some? && position.value < duration.value
  }

  /** The read-out of a track in progress: the minute texts of the played, left and total times and the fraction played. */
  predicate TrackShown(p: Progress, position: int, duration: int) {
    && p.played == ConvertToMinutes(position)
    && p.left == ConvertToMinutes(duration - position)
    && p.total == ConvertToMinutes(duration)
    && p.percent == Ratio(position, duration)
  }

  /**
   * The body of `getPlayerProgress` once both times are in seconds: the
   * played, left and total texts and the fraction played while a track is in
   * progress; "Live" at 100 for a stream without duration while playing;
   * "Paused" at 0 otherwise.
   */
  function ProgressAt(position: Option<int>, duration: Option<int>, currentTransportState: Value): (p: Progress)
    ensures p.left != "" <==> InProgress(position, duration)
    ensures InProgress(position, duration) ==> TrackShown(p, position.value, duration.value)
    ensures !InProgress(position, duration) ==>
      (p.played == "Live" <==> duration == Some(0) && LooseEqualsString(currentTransportState, "PLAYING"))
    ensures !InProgress(position, duration) ==>
      p.left == "" && p.total == "" && (p.played == "Live" || p.played == "Paused")
      && p.percent == Fixed(if p.played == "Live" then 100 else 0)
  {
    if InProgress(position, duration) then
      Progress(ConvertToMinutes(position.value), ConvertToMinutes(duration.value - position.value),
               ConvertToMinutes(duration.value), Ratio(position.value, duration.value))
    else if duration == Some(0) && LooseEqualsString(currentTransportState, "PLAYING") then
      Progress("Live", "", "", Fixed(100))
    else
      Progress("Paused", "", "", Fixed(0))
  }

  /** `getPlayerProgress`: position `convertToSeconds(relTime) + timeStampDiff`, duration `convertToSeconds(trackDuration)`. */
  function GetPlayerProgress(relTime: string, trackDuration: string, timeStampDiff: Option<int>,
                             currentTransportState: Value): (p: Progress)
    ensures p.left != "" <==> InProgress(Position(relTime, timeStampDiff), Seconds(trackDuration))
    ensures InProgress(Position(relTime, timeStampDiff), Seconds(trackDuration)) ==>
      TrackShown(p, Position(relTime, timeStampDiff).value, Seconds(trackDuration).value)
    ensures Seconds(trackDuration) == Some(0) ==>
      p == if LooseEqualsString(currentTransportState, "PLAYING") then Progress("Live", "", "", Fixed(100))
           else Progress("Paused", "", "", Fixed(0))
    ensures Seconds(trackDuration).None? ==> p == Progress("Paused", "", "", Fixed(0))
    ensures Seconds(relTime).None? || timeStampDiff.None? ==> p.left == ""
  {
    var position := Position(relTime, timeStampDiff);
    var duration := Seconds(trackDuration);
    ProgressAt(position, duration, currentTransportState)
  }

  // ---------------------------------------------------------------------
  // checkAlbumArtURI

  /** The page's location: the host name and the port text ("" when the URL has none). */
  datatype Page = Page(hostname: string, port: string)

  /** `locPort`: the page's port, with none, "80" and the development port "1234" all read as "80". */
  function LocPort(port: string): (r: string)
    ensures r == "80" <==> port == "" || port == "80" || port == "1234"
    ensures r != "80" ==> r == port
  {
    if port != "" && port != "80" && port != "1234" then port else "80"
  }

  /** The first `rndAlbumArtUri`, before a random image is drawn. */
  const InitialAlbumArt := "./img/fake-album-1.jpg"

  /**
   * `rndAlbumArt`: a local image from the "img" folder, `n` being the
   * number `rndNumber(1, 16)` drew.
   */
  function RndAlbumArt(prefix: string, n: nat): (r: string)
    ensures StartsWith(r, "./img/" + prefix)
    ensures !StartsWith(r, "http")
  {
    var r := "./img/" + prefix + NatToString(n) + ".jpg";
    assert r[..|"./img/" + prefix|] == "./img/" + prefix;
    assert r[0] == '.';
    r
  }

  /** The initial image is the first of the random ones. */
  lemma InitialIsFirstRandom()
    ensures InitialAlbumArt == RndAlbumArt("fake-album-", 1)
  {
  }

  function PortPart(page: Page): string {
    if LocPort(page.port) != "80" then ":" + LocPort(page.port) else ""
  }

  /**
   * `checkAlbumArtURI`: an "https" address goes through the server's
   * album-art proxy on the page's own host, with the original address
   * encoded by `encode` (encodeURIComponent) and the time stamp as a cache
   * breaker; another "http" address is used as is; anything else gets the
   * `fallback` image (`rndAlbumArtUri`).
   */
  function CheckAlbumArtURI(uri: string, timestamp: Value, page: Page, encode: string -> string, fallback: string): (r: string)
    ensures StartsWith(uri, "https") ==>
      r == "http://" + page.hostname + PortPart(page) + "/proxy?url=" + encode(uri) + "&ts=" + ToJsString(timestamp)
    ensures !StartsWith(uri, "https") && StartsWith(uri, "http") ==> r == uri
    ensures !StartsWith(uri, "http") ==> r == fallback
  {
    if uri != "" && StartsWith(uri, "https") then
      if LocPort(page.port) != "80" then
        "http://" + page.hostname + ":" + LocPort(page.port) + "/proxy?url=" + encode(uri) + "&ts=" + ToJsString(timestamp)
      else
        "http://" + page.hostname + "/proxy?url=" + encode(uri) + "&ts=" + ToJsString(timestamp)
    else if uri != "" && StartsWith(uri, "http") then uri
    else fallback
  }

  /** The proxy address leaves the port out exactly when the page is served on port 80. */
  lemma ProxyPortOmitted(uri: string, timestamp: Value, page: Page, encode: string -> string, fallback: string)
    requires StartsWith(uri, "https")
    ensures StartsWith(CheckAlbumArtURI(uri, timestamp, page, encode, fallback), "http://" + page.hostname + "/proxy?url=")
      <==> LocPort(page.port) == "80"
  {
    var r := CheckAlbumArtURI(uri, timestamp, page, encode, fallback);
    var n := |"http://" + page.hostname|;
    if LocPort(page.port) != "80" {
      assert r[n] == ':';
      assert ("http://" + page.hostname + "/proxy?url=")[n] == '/';
    } else {
      assert r == "http://" + page.hostname + "/proxy?url=" + (encode(uri) + "&ts=" + ToJsString(timestamp));
    }
  }

  /**
   * Every result passes a second check unchanged: a proxy address is plain
   * "http", and a local fallback image (as every `RndAlbumArt` is) stays.
   */
  lemma CheckAlbumArtIdempotent(uri: string, timestamp: Value, page: Page, encode: string -> string, fallback: string)
    requires !StartsWith(fallback, "http")
    ensures var r := CheckAlbumArtURI(uri, timestamp, page, encode, fallback);
      CheckAlbumArtURI(r, timestamp, page, encode, fallback) == r
  {
    var r := CheckAlbumArtURI(uri, timestamp, page, encode, fallback);
    if StartsWith(uri, "https") {
      assert r[..7] == "http://";
      assert !StartsWith(r, "https") by {
        assert r[4] == ':';
      }
      assert StartsWith(r, "http") by {
        assert r[..4] == "http";
      }
    }
  }

  // ---------------------------------------------------------------------
  // getSourceIdent

  const SourcesDir := "./img/sources/"

  /** The badge for a play medium (lower case). */
  function MediumIdent(medium: string): (r: Option<string>)
    ensures r.Some? ==> StartsWith(r.value, SourcesDir)
  {
    if medium == "airplay" then Some("./img/sources/airplay2.png")
    else if medium == "third-dlna" then Some("./img/sources/dlna2.png")
    else if medium == "cast" then Some("./img/sources/chromecast2.png")
    else if medium == "radio-network" then Some("./img/sources/radio.png")
    else if medium == "songlist-network" then Some("./img/sources/ethernet2.png")
    else if medium == "spotify" then Some("./img/sources/spotify.png")
    else if medium == "squeezelite" then Some("./img/sources/music-assistant2.png")
    else if medium == "none" then Some("./img/sources/none2.png")
    else if medium == "bluetooth" then Some("./img/sources/bluetooth2.png")
    else if medium == "hdmi" then Some("./img/sources/hdmi2.png")
    else if medium == "line-in" then Some("./img/sources/line-in2.png")
    else if medium == "optical" then Some("./img/sources/spdif2.png")
    else None
  }

  /** The badge for a track source, that is the streaming service (lower case). */
  function TrackSourceIdent(source: string): (r: Option<string>)
    ensures r.Some? ==> StartsWith(r.value, SourcesDir)
  {
    if source == "deezer" || source == "deezer2" then Some("./img/sources/deezer.png")
    else if source == "iheartradio" then Some("./img/sources/iheart.png")
    else if source == "newtunein" then Some("./img/sources/newtunein.png")
    else if source == "plex" then Some("./img/sources/plex.png")
    else if source == "prime" then Some("./img/sources/amazon-music2.png")
    else if source == "qobuz" then Some("./img/sources/qobuz2.png")
    else if source == "tidal" then Some("./img/sources/tidal2.png")
    else if source == "upnpserver" then Some("./img/sources/dlna2.png")
    else if source == "vtuner" then Some("./img/sources/vtuner2.png")
    else None
  }

  /**
   * `getSourceIdent`: the play medium picks a badge, and a known track
   * source then replaces it; both are compared in lower case.
   */
  function GetSourceIdent(playMedium: string, trackSource: string): (r: string)
    ensures TrackSourceIdent(ToLower(trackSource)).Some? ==> r == TrackSourceIdent(ToLower(trackSource)).value
    ensures TrackSourceIdent(ToLower(trackSource)).None? && MediumIdent(ToLower(playMedium)).Some? ==>
      r == MediumIdent(ToLower(playMedium)).value
    ensures r == "" <==> TrackSourceIdent(ToLower(trackSource)).None? && MediumIdent(ToLower(playMedium)).None?
  {
    var byMedium := match MediumIdent(ToLower(playMedium)) case Some(u) => u case None => "";
    match TrackSourceIdent(ToLower(trackSource))
    case Some(u) => u
    case None => byMedium
  }

  /** The letter case of either argument does not matter. */
  lemma SourceIdentIgnoresCase(playMedium: string, trackSource: string)
    ensures GetSourceIdent(ToLower(playMedium), ToLower(trackSource)) == GetSourceIdent(playMedium, trackSource)
  {
    ToLowerIdempotent(playMedium);
    ToLowerIdempotent(trackSource);
  }

  // ---------------------------------------------------------------------
  // getQualityIdent

  /** `v > k` against a number: NaN compares false. */
  predicate NumberAbove(v: Value, k: int) {
    ToNumber(v).Some? && ToNumber(v).value > k
  }

  /** `v >= k` against a number. */
  predicate NumberAtLeast(v: Value, k: int) {
    ToNumber(v).Some? && ToNumber(v).value >= k
  }

  predicate CdHeuristic(bitrate: Value, depth: Value, rate: Value) {
    NumberAbove(bitrate, 1000) && StrictEquals(depth, Num(16)) && StrictEquals(rate, Num(44100))
  }

  predicate HiResHeuristic(bitrate: Value, depth: Value, rate: Value) {
    NumberAbove(bitrate, 7000) && NumberAtLeast(depth, 24) && NumberAtLeast(rate, 96000)
  }

  /** The service-reported `quality:actualQuality` keys that have a badge of their own. */
  function QualityKeyIdent(key: string): (r: Option<string>)
    ensures r.Some? ==> r.value != ""
  {
    if key == "2:LOSSLESS" || key == ":LOSSLESS" then Some("HIGH")
    else if key == "3:HI_RES" then Some("MQA")
    else if key == "4:HI_RES_LOSSLESS" || key == ":HI_RES_LOSSLESS" || key == "0:LOSSLESS" then Some("FLAC")
    else if key == ":UHD" then Some("ULTRA HD")
    else if key == ":HD" then Some("HD")
    else if key == "3:7" || key == "4:27" then Some("Hi-Res")
    else if key == "2:6" then Some("CD")
    else None
  }

  /** The switch key, built with JavaScript's `+`. */
  function QualityKey(quality: Value, actualQuality: Value): string {
    ToJsString(quality) + ":" + ToJsString(actualQuality)
  }

  /**
   * `getQualityIdent`: a recognised service key decides the badge;
   * otherwise the stream figures suggest "CD" or "Hi-Res", or nothing.
   */
  function GetQualityIdent(quality: Value, actualQuality: Value, bitrate: Value, depth: Value, rate: Value): (r: string)
    ensures QualityKeyIdent(QualityKey(quality, actualQuality)).Some? ==>
      r == QualityKeyIdent(QualityKey(quality, actualQuality)).value
    ensures QualityKeyIdent(QualityKey(quality, actualQuality)).None? ==>
      && (r == "CD" <==> CdHeuristic(bitrate, depth, rate))
      && (r == "Hi-Res" <==> !CdHeuristic(bitrate, depth, rate) && HiResHeuristic(bitrate, depth, rate))
      && (r == "" <==> !CdHeuristic(bitrate, depth, rate) && !HiResHeuristic(bitrate, depth, rate))
  {
    var guess := if CdHeuristic(bitrate, depth, rate) then "CD"
                 else if HiResHeuristic(bitrate, depth, rate) then "Hi-Res"
                 else "";
    match QualityKeyIdent(QualityKey(quality, actualQuality))
    case Some(badge) => badge
    case None => guess
  }

  /**
   * `===` compares types: a bit depth or sample rate that arrives as text
   * ("16", "44100") never makes the "CD" guess.
   */
  lemma TextFiguresNeverGuessCd(quality: Value, actualQuality: Value, bitrate: Value, depth: string, rate: Value)
    requires QualityKeyIdent(QualityKey(quality, actualQuality)).None?
    ensures GetQualityIdent(quality, actualQuality, bitrate, Str(depth), rate) != "CD"
  {
  }

  /** Tidal's "4"/"HI_RES_LOSSLESS" is shown as FLAC whatever the stream figures say. */
  lemma TidalFlac(bitrate: Value, depth: Value, rate: Value)
    ensures GetQualityIdent(Str("4"), Str("HI_RES_LOSSLESS"), bitrate, depth, rate) == "FLAC"
  {
    assert QualityKey(Str("4"), Str("HI_RES_LOSSLESS")) == "4:HI_RES_LOSSLESS";
  }

  // ---------------------------------------------------------------------
  // The "devices-get" handler: WiiM devices and the others

  predicate IsLinkplay(d: DeviceSummary) {
    StartsWith(d.manufacturer, "Linkplay")
  }

  /** The devices whose manufacturer test is `linkplay`, in list order. */
  function Filtered(devices: seq<DeviceSummary>, linkplay: bool): (r: seq<DeviceSummary>)
    ensures forall k :: 0 <= k < |r| ==> IsLinkplay(r[k]) == linkplay && r[k] in devices
    ensures forall d :: d in devices && IsLinkplay(d) == linkplay ==> d in r
  {
    if devices == [] then []
    else
      var rest := Filtered(devices[1..], linkplay);
      assert forall d :: d in devices ==> d == devices[0] || d in devices[1..];
      if IsLinkplay(devices[0]) == linkplay then [devices[0]] + rest else rest
  }

  /** The "WiiM devices" group. */
  function WiimDevices(devices: seq<DeviceSummary>): seq<DeviceSummary> {
    Filtered(devices, true)
  }

  /** The "Other devices" group. */
  function OtherDevices(devices: seq<DeviceSummary>): seq<DeviceSummary> {
    Filtered(devices, false)
  }

  /** The two groups partition the list: every device appears in exactly one, as often as in the list. */
  lemma {:induction false} DeviceGroupsPartition(devices: seq<DeviceSummary>)
    ensures multiset(WiimDevices(devices)) + multiset(OtherDevices(devices)) == multiset(devices)
    ensures |WiimDevices(devices)| + |OtherDevices(devices)| == |devices|
  {
    if devices != [] {
      DeviceGroupsPartition(devices[1..]);
      assert devices == [devices[0]] + devices[1..];
    }
  }

  /** "No devices found!" is shown exactly when the list is empty. */
  lemma NoDevicesFound(devices: seq<DeviceSummary>)
    ensures WiimDevices(devices) == [] && OtherDevices(devices) == [] <==> devices == []
  {
    DeviceGroupsPartition(devices);
  }

  // ---------------------------------------------------------------------
  // The "state" and "metadata" handlers

  /** The play button after a change: a spinner while transitioning, or the action the button now offers. */
  datatype ButtonUpdate = Busy | Offer(action: string)

  /** The play button's new look for a transport state and play medium; None leaves it as it is. */
  function PlayButton(cts: Value, medium: Value): (b: Option<ButtonUpdate>)
    ensures b == Some(Busy) <==> cts == Str("TRANSITIONING")
    ensures b == Some(Offer("Stop")) <==> cts == Str("PLAYING") && medium == Str("RADIO-NETWORK")
    ensures b == Some(Offer("Pause")) <==> cts == Str("PLAYING") && medium != Str("RADIO-NETWORK")
    ensures b == Some(Offer("Play")) <==> cts == Str("PAUSED_PLAYBACK") || cts == Str("STOPPED")
    ensures b.Some? && b.value.Offer? ==> b.value.action in {"Stop", "Pause", "Play"}
  {
    if cts == Str("TRANSITIONING") then Some(Busy)
    else if cts == Str("PLAYING") then
      if Truthy(medium) && medium == Str("RADIO-NETWORK") then Some(Offer("Stop")) else Some(Offer("Pause"))
    else if cts == Str("PAUSED_PLAYBACK") || cts == Str("STOPPED") then Some(Offer("Play"))
    else None
  }

  /** `v ? v : "00:00:00"` handed to `split`: only a string has one. None is the TypeError. */
  function TimeText(v: Value): Option<string> {
    if !Truthy(v) then Some("00:00:00") else if v.Str? then Some(v.s) else None
  }

  /**
   * The time-stamp correction: while playing, the difference of the two
   * stamps in whole seconds (`Math.round`, halves up) when both are set.
   */
  function TimeStampDiff(msg: Value): (r: Option<int>)
    requires Readable(msg)
    ensures Field(msg, "CurrentTransportState") != Str("PLAYING") ==> r == Some(0)
    ensures !Truthy(Field(msg, "stateTimeStamp")) || !Truthy(Field(msg, "metadataTimeStamp")) ==> r == Some(0)
    ensures (Field(msg, "CurrentTransportState") == Str("PLAYING")
             && Truthy(Field(msg, "stateTimeStamp")) && Truthy(Field(msg, "metadataTimeStamp"))) ==>
        var a := ToNumber(Field(msg, "stateTimeStamp"));
        var b := ToNumber(Field(msg, "metadataTimeStamp"));
        && (r.Some? <==> a.Some? && b.Some?)
        && (r.Some? ==> r.value * 1000 - 500 <= a.value - b.value < r.value * 1000 + 500)
  {
    if Field(msg, "CurrentTransportState") == Str("PLAYING")
       && Truthy(Field(msg, "stateTimeStamp")) && Truthy(Field(msg, "metadataTimeStamp")) then
      var a := ToNumber(Field(msg, "stateTimeStamp"));
      var b := ToNumber(Field(msg, "metadataTimeStamp"));
      if a.Some? && b.Some? then Some((a.value - b.value + 500) / 1000) else None
    else Some(0)
  }

  /** The arguments the "state" handler hands to `getPlayerProgress`. */
  datatype ProgressCall = ProgressCall(relTime: string, trackDuration: string, timeStampDiff: Option<int>,
                                       transportState: Value)

  /** The progress read-out the handler writes: `getPlayerProgress` applied to its arguments. */
  function ShownProgress(call: ProgressCall): Progress {
    GetPlayerProgress(call.relTime, call.trackDuration, call.timeStampDiff, call.transportState)
  }

  datatype StateOutcome =
    | StateIgnored                     // falsy message
    | StateFailed                      // a time field that is not text: `split` throws
    | StateShown(call: ProgressCall, button: Option<ButtonUpdate>, skipEnabled: bool)

  /** The transport state or the play medium differs (`!==`) from the remembered one. */
  predicate StateChanged(msg: Value, prevTransportState: Value, prevPlayMedium: Value)
    requires Readable(msg)
  {
    !StrictEquals(prevTransportState, Field(msg, "CurrentTransportState"))
    || !StrictEquals(prevPlayMedium, Field(msg, "PlayMedium"))
  }

  /**
   * What the "state" handler shows for a message, given the remembered
   * transport state and play medium: the progress read-out, the play button
   * when something changed, and the skip buttons, which radio disables.
   */
  function StateView(msg: Value, prevTransportState: Value, prevPlayMedium: Value): (r: StateOutcome)
    ensures r.StateIgnored? <==> !Truthy(msg)
    ensures r.StateFailed? <==>
      Truthy(msg) && (TimeText(Field(msg, "RelTime")).None? || TimeText(Field(msg, "TrackDuration")).None?)
    ensures r.StateShown? ==>
      && r.call == ProgressCall(TimeText(Field(msg, "RelTime")).value, TimeText(Field(msg, "TrackDuration")).value,
                                TimeStampDiff(msg), Field(msg, "CurrentTransportState"))
      && (r.button.Some? ==> StateChanged(msg, prevTransportState, prevPlayMedium))
      && (StateChanged(msg, prevTransportState, prevPlayMedium) ==>
            r.button == PlayButton(Field(msg, "CurrentTransportState"), Field(msg, "PlayMedium")))
      && (r.skipEnabled <==> Field(msg, "PlayMedium") != Str("RADIO-NETWORK"))
  {
    if !Truthy(msg) then StateIgnored
    else
      var relTime := TimeText(Field(msg, "RelTime"));
      var trackDuration := TimeText(Field(msg, "TrackDuration"));
      if relTime.None? || trackDuration.None? then StateFailed
      else
        var cts := Field(msg, "CurrentTransportState");
        var medium := Field(msg, "PlayMedium");
        StateShown(ProgressCall(relTime.value, trackDuration.value, TimeStampDiff(msg), cts),
                   if StateChanged(msg, prevTransportState, prevPlayMedium) then PlayButton(cts, medium) else None,
                   !(Truthy(medium) && medium == Str("RADIO-NETWORK")))
  }

  /**
   * Once a message has been shown, the same message again changes nothing on
   * the play button, unless its state or medium is an object (never `===`).
   */
  lemma RepeatedStateKeepsButton(msg: Value, prevTransportState: Value, prevPlayMedium: Value)
    requires StateView(msg, prevTransportState, prevPlayMedium).StateShown?
    requires !IsObject(Field(msg, "CurrentTransportState")) && !IsObject(Field(msg, "PlayMedium"))
    ensures StateView(msg, Field(msg, "CurrentTransportState"), Field(msg, "PlayMedium")).button == None
  {
  }

  /** "00:00:00", the stand-in for a missing time, is zero seconds. */
  lemma ZeroTimeText()
    ensures Seconds("00:00:00") == Some(0)
  {
    ParseIntPad2(0);
    assert Pad2(0) == "00";
    ThreeSections("00", "00", "00");
    assert "00" + ":" + "00" + ":" + "00" == "00:00:00";
  }

  /**
   * A shown message without a track duration reads as a live stream while
   * playing and as paused otherwise, with no remaining or total time.
   */
  lemma NoDurationShowsLiveOrPaused(msg: Value, prevTransportState: Value, prevPlayMedium: Value)
    requires StateView(msg, prevTransportState, prevPlayMedium).StateShown?
    requires !Truthy(Field(msg, "TrackDuration"))
    ensures var p := ShownProgress(StateView(msg, prevTransportState, prevPlayMedium).call);
      && (p.played == "Live" <==> LooseEqualsString(Field(msg, "CurrentTransportState"), "PLAYING"))
      && p.left == "" && p.total == ""
  {
    ZeroTimeText();
  }

  /** The source texts, `v ? v : ""`, handed to `toLowerCase`. */
  datatype Source = Source(medium: string, track: string)

  function TextOrEmpty(v: Value): Option<string> {
    if !Truthy(v) then Some("") else if v.Str? then Some(v.s) else None
  }

  function SourceOf(msg: Value): Option<Source>
    requires Readable(msg)
  {
    var m := TextOrEmpty(Field(msg, "PlayMedium"));
    var t := TextOrEmpty(Field(msg, "TrackSource"));
    if m.Some? && t.Some? then Some(Source(m.value, t.value)) else None
  }

  /** What `element.innerText = v ? v : ""` shows. */
  function ShownText(v: Value): string {
    if Truthy(v) then ToJsString(v) else ""
  }

  datatype TrackInfo = TrackInfo(title: string, subtitle: string, artist: string, album: string)

  /** `title|subtitle|artist|album`, the remembered track key. */
  function TrackKey(t: TrackInfo): string {
    t.title + "|" + t.subtitle + "|" + t.artist + "|" + t.album
  }

  /** The four track texts, with "No Music Selected" for a stopped network playlist without a source. */
  function TrackOf(msg: Value, source: Source): (t: TrackInfo)
    requires Readable(msg)
    ensures t.title == "No Music Selected" <==>
      (source.medium == "SONGLIST-NETWORK" && source.track == "" && Field(msg, "CurrentTransportState") == Str("STOPPED"))
      || ShownText(Field(msg, "Title")) == "No Music Selected"
  {
    var title := if source.medium == "SONGLIST-NETWORK" && source.track == ""
                    && Field(msg, "CurrentTransportState") == Str("STOPPED")
                 then "No Music Selected" else ShownText(Field(msg, "Title"));
    TrackInfo(title, ShownText(Field(msg, "Subtitle")), ShownText(Field(msg, "Artist")), ShownText(Field(msg, "Album")))
  }

  predicate BarFree(t: TrackInfo) {
    Free(t.title, '|') && Free(t.subtitle, '|') && Free(t.artist, '|') && Free(t.album, '|')
  }

  lemma JoinFour(t: TrackInfo)
    ensures Join([t.title, t.subtitle, t.artist, t.album], '|') == TrackKey(t)
  {
    var ps := [t.title, t.subtitle, t.artist, t.album];
    assert ps[1..] == [t.subtitle, t.artist, t.album];
    assert ps[1..][1..] == [t.artist, t.album];
    assert ps[1..][1..][1..] == [t.album];
    var j2 := t.artist + ['|'] + t.album;
    assert Join([t.artist, t.album], '|') == j2;
    var j3 := t.subtitle + ['|'] + j2;
    assert Join(ps[1..], '|') == j3;
    assert Join(ps, '|') == t.title + ['|'] + j3;
    assert t.title + ['|'] + j3 == TrackKey(t);
  }

  /** Without "|" in the texts, two tracks have the same key exactly when all four texts agree. */
  lemma TrackKeyInjective(a: TrackInfo, b: TrackInfo)
    requires BarFree(a) && BarFree(b)
    ensures TrackKey(a) == TrackKey(b) <==> a == b
  {
    JoinFour(a);
    JoinFour(b);
    SplitJoin([a.title, a.subtitle, a.artist, a.album], '|');
    SplitJoin([b.title, b.subtitle, b.artist, b.album], '|');
  }

  /** A "|" inside a text lets two different tracks share a key, so the change goes unnoticed. */
  lemma TrackKeyCollision(a: string, b: string, c: string, d: string, e: string)
    ensures TrackKey(TrackInfo(a + "|" + b, c, d, e)) == TrackKey(TrackInfo(a, b + "|" + c, d, e))
    ensures TrackInfo(a + "|" + b, c, d, e) != TrackInfo(a, b + "|" + c, d, e)
  {
    assert |a + "|" + b| != |a|;
    assert a + "|" + b + "|" + c == a + "|" + (b + "|" + c);
  }

  /** `msg.AlbumCoverURI ? msg.AlbumCoverURI : ""` handed to `startsWith`. */
  function AlbumArtArg(msg: Value): Option<string>
    requires Readable(msg)
  {
    TextOrEmpty(Field(msg, "AlbumCoverURI"))
  }

  /** `v ? v : ""` as a value, for the quality figures. */
  function OrEmpty(v: Value): Value {
    if Truthy(v) then v else Str("")
  }

  /** The five figures the handler reads for the quality badge, each `v ? v : ""`. */
  datatype QualityFigures = QualityFigures(quality: Value, actualQuality: Value, bitrate: Value, bitDepth: Value,
                                           sampleRate: Value)

  function FiguresOf(msg: Value): QualityFigures
    requires Readable(msg)
  {
    QualityFigures(OrEmpty(Field(msg, "Quality")), OrEmpty(Field(msg, "ActualQuality")),
                   OrEmpty(Field(msg, "BitRate")), OrEmpty(Field(msg, "BitDepth")), OrEmpty(Field(msg, "SampleRate")))
  }

  /** The badge the handler shows for the figures. */
  function QualityBadge(f: QualityFigures): string {
    GetQualityIdent(f.quality, f.actualQuality, f.bitrate, f.bitDepth, f.sampleRate)
  }

  /** A numeric quality 0 is falsy and turns into "": Deezer's "0:LOSSLESS" then reads as ":LOSSLESS". */
  lemma NumericZeroQuality(msg: Value)
    requires Readable(msg)
    requires Field(msg, "Quality") == Num(0) && Field(msg, "ActualQuality") == Str("LOSSLESS")
    ensures QualityBadge(FiguresOf(msg)) == "HIGH"
  {
    assert QualityKey(Str(""), Str("LOSSLESS")) == ":LOSSLESS";
  }

  /**
   * What the metadata handler shows. `quality` holds the figures its badge is
   * computed from (`QualityBadge`); `albumArt` is the image it would set, when
   * the track changed.
   */
  datatype MetadataView = MetadataView(
    sourceIdent: string, sourceChanged: bool, track: TrackInfo, trackChanged: bool,
    quality: QualityFigures, qualityVisible: bool, albumArt: Option<string>, volume: string)

  datatype MetadataOutcome =
    | MetadataIgnored              // falsy message
    | MetadataFailed               // a field that is not text reached a string method: it throws
    | MetadataShown(view: MetadataView)

  /**
   * The handlers' "remember the previous value" cursors. Each starts as null
   * and afterwards holds what the last handled message carried.
   */
  class DisplayCursors {
    var prevTransportState: Value
    var prevPlayMedium: Value
    var prevSourceIdent: Value
    var prevTrackInfo: Value
    /** The fallback album art of the moment (a setting rather than a cursor). */
    var rndAlbumArtUri: string

    /** The fallback image is always a local one. */
    predicate Valid()
      reads this
    {
      !StartsWith(rndAlbumArtUri, "http")
    }

    constructor ()
      ensures Valid()
      ensures prevTransportState == Null && prevPlayMedium == Null
      ensures prevSourceIdent == Null && prevTrackInfo == Null
      ensures rndAlbumArtUri == InitialAlbumArt
    {
      prevTransportState := Null;
      prevPlayMedium := Null;
      prevSourceIdent := Null;
      prevTrackInfo := Null;
      rndAlbumArtUri := InitialAlbumArt;
      InitialIsFirstRandom();
    }

    /**
     * The start-up draw and the one every three minutes: the fallback
     * becomes image `n`, the number `rndNumber(1, 16)` drew.
     */
    method RefreshAlbumArt(n: int)
      requires 1 <= n <= 16
      modifies this
      ensures Valid()
      ensures rndAlbumArtUri == RndAlbumArt("fake-album-", n)
      ensures prevTransportState == old(prevTransportState) && prevPlayMedium == old(prevPlayMedium)
      ensures prevSourceIdent == old(prevSourceIdent) && prevTrackInfo == old(prevTrackInfo)
    {
      rndAlbumArtUri := "./img/" + "fake-album-" + NatToString(n) + ".jpg";
      assert rndAlbumArtUri == RndAlbumArt("fake-album-", n);
    }

    /**
     * The "state" handler: it shows `StateView` and, when the transport state
     * or the play medium changed, remembers both.
     */
    method OnState(msg: Value) returns (outcome: StateOutcome)
      modifies this
      ensures outcome == StateView(msg, old(prevTransportState), old(prevPlayMedium))
      ensures prevSourceIdent == old(prevSourceIdent) && prevTrackInfo == old(prevTrackInfo)
      ensures rndAlbumArtUri == old(rndAlbumArtUri)
      ensures outcome.StateShown? && StateChanged(msg, old(prevTransportState), old(prevPlayMedium)) ==>
        prevTransportState == Field(msg, "CurrentTransportState") && prevPlayMedium == Field(msg, "PlayMedium")
      ensures !(outcome.StateShown? && StateChanged(msg, old(prevTransportState), old(prevPlayMedium))) ==>
        prevTransportState == old(prevTransportState) && prevPlayMedium == old(prevPlayMedium)
    {
      if !Truthy(msg) {
        return StateIgnored;
      }
      var relTime := TimeText(Field(msg, "RelTime"));
      var trackDuration := TimeText(Field(msg, "TrackDuration"));
      if relTime.None? || trackDuration.None? {
        return StateFailed;
      }
      var cts := Field(msg, "CurrentTransportState");
      var medium := Field(msg, "PlayMedium");
      var call := ProgressCall(relTime.value, trackDuration.value, TimeStampDiff(msg), cts);
      var button := None;
      if !StrictEquals(prevTransportState, cts) || !StrictEquals(prevPlayMedium, medium) {
        button := PlayButton(cts, medium);
        prevTransportState := cts;
        prevPlayMedium := medium;
      }
      var skipEnabled := !(Truthy(medium) && medium == Str("RADIO-NETWORK"));
      outcome := StateShown(call, button, skipEnabled);
    }

    /** Remembers a source badge that differs (`!==`) from the remembered one, and says whether it did. */
    method RememberSource(ident: string) returns (changed: bool)
      modifies this
      ensures changed <==> !StrictEquals(Str(ident), old(prevSourceIdent))
      ensures prevSourceIdent == Str(ident)
      ensures prevTransportState == old(prevTransportState) && prevPlayMedium == old(prevPlayMedium)
      ensures prevTrackInfo == old(prevTrackInfo) && rndAlbumArtUri == old(rndAlbumArtUri)
    {
      changed := false;
      if !StrictEquals(Str(ident), prevSourceIdent) {
        changed := true;
        prevSourceIdent := Str(ident);
      }
    }

    /** Remembers a track key that differs (`!==`) from the remembered one, and says whether it did. */
    method RememberTrack(key: string) returns (changed: bool)
      modifies this
      ensures changed <==> !StrictEquals(old(prevTrackInfo), Str(key))
      ensures prevTrackInfo == Str(key)
      ensures prevTransportState == old(prevTransportState) && prevPlayMedium == old(prevPlayMedium)
      ensures prevSourceIdent == old(prevSourceIdent) && rndAlbumArtUri == old(rndAlbumArtUri)
    {
      changed := false;
      if !StrictEquals(prevTrackInfo, Str(key)) {
        changed := true;
        prevTrackInfo := Str(key);
      }
    }

    /**
     * The "metadata" handler: the source badge (remembered when it changes),
     * the four track texts and whether their key differs from the remembered
     * one (then remembered), the quality badge, the album art to set when the
     * track changed, and the volume text.
     */
    method OnMetadata(msg: Value, page: Page, encode: string -> string) returns (outcome: MetadataOutcome)
      requires Valid()
      modifies this
      ensures Valid()
      ensures prevTransportState == old(prevTransportState) && prevPlayMedium == old(prevPlayMedium)
      ensures rndAlbumArtUri == old(rndAlbumArtUri)
      ensures Truthy(msg) && outcome.MetadataShown? && outcome.view.albumArt.Some? ==>
        var art := outcome.view.albumArt.value;
        CheckAlbumArtURI(art, Field(msg, "TimeStamp"), page, encode, rndAlbumArtUri) == art
      ensures !Truthy(msg) ==> outcome == MetadataIgnored
      ensures !Truthy(msg) || SourceOf(msg).None? ==>
        prevSourceIdent == old(prevSourceIdent) && prevTrackInfo == old(prevTrackInfo)
      ensures Truthy(msg) && SourceOf(msg).None? ==> outcome == MetadataFailed
      ensures Truthy(msg) && SourceOf(msg).Some? ==>
        var source := SourceOf(msg).value;
        var ident := GetSourceIdent(source.medium, source.track);
        var track := TrackOf(msg, source);
        var trackChanged := !StrictEquals(old(prevTrackInfo), Str(TrackKey(track)));
        && prevSourceIdent == Str(ident)
        && prevTrackInfo == Str(TrackKey(track))
        && outcome == match AlbumArtArg(msg)
           case None => MetadataFailed
           case Some(uri) => MetadataShown(MetadataView(
             ident, !StrictEquals(old(prevSourceIdent), Str(ident)), track, trackChanged,
             FiguresOf(msg),
             Truthy(OrEmpty(Field(msg, "BitRate"))) || Truthy(OrEmpty(Field(msg, "BitDepth")))
               || Truthy(OrEmpty(Field(msg, "SampleRate"))),
             if trackChanged then Some(CheckAlbumArtURI(uri, Field(msg, "TimeStamp"), page, encode, rndAlbumArtUri)) else None,
             if Truthy(Field(msg, "CurrentVolume")) then ToJsString(Field(msg, "CurrentVolume")) else "-"))
    {
      if !Truthy(msg) {
        return MetadataIgnored;
      }
      var source := SourceOf(msg);
      if source.None? {
        return MetadataFailed;
      }
      var ident := GetSourceIdent(source.value.medium, source.value.track);
      var sourceChanged := RememberSource(ident);
      var track := TrackOf(msg, source.value);
      var trackChanged := RememberTrack(TrackKey(track));
      var bitrate := OrEmpty(Field(msg, "BitRate"));
      var depth := OrEmpty(Field(msg, "BitDepth"));
      var rate := OrEmpty(Field(msg, "SampleRate"));
      var visible := !(!Truthy(bitrate) && !Truthy(depth) && !Truthy(rate));
      var quality := FiguresOf(msg);
      var uri := AlbumArtArg(msg);
      if uri.None? {
        return MetadataFailed;
      }
      var albumArt := CheckAlbumArtURI(uri.value, Field(msg, "TimeStamp"), page, encode, rndAlbumArtUri);
      CheckAlbumArtIdempotent(uri.value, Field(msg, "TimeStamp"), page, encode, rndAlbumArtUri);
      var volume := if Truthy(Field(msg, "CurrentVolume")) then ToJsString(Field(msg, "CurrentVolume")) else "-";
      outcome := MetadataShown(MetadataView(ident, sourceChanged, track, trackChanged, quality, visible,
                                            if trackChanged then Some(albumArt) else None, volume));
    }
  }
}
