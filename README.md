# WiiM display — a Dafny model of its core

The WiiM display is a small web application. It shows what a WiiM (Linkplay)
network streamer is playing. A Node.js server finds the streamer over UPnP,
polls its transport state and its metadata, caches both, and forwards them to
the browsers connected over socket.io. The browsers render two screens:
"Now Playing" and "WiiM Display".

This project models the logic of that core in Dafny and proves what it
promises:

- **WiimApi** (`server/lib/wiim.js`, copied verbatim into
  `server/lib/upnpClient.js`) models three things:
  - the `msToTime` clock text;
  - the mapping of status words onto UPnP transport states;
  - the `updateDeviceState` and `updateDeviceMetadata` updates of the cached
    device information.

  The HTTPS fetch itself becomes an input, the fetched text or an error.
- **UpnpClient** (`server/lib/upnpClient.js`) models:
  - the action gate of `callDeviceAction` (which actions a device accepts,
    and the `Speed` argument for `Play`);
  - what a successful reply triggers;
  - the lazily created client;
  - `getServiceDescription`, which records a device and selects the first
    WiiM one.
- **Sockets** (`server/lib/sockets.js`) models `getDevices` and `setDevice`.
  `setDevice` selects by location and drops the previous device's client,
  state and metadata.
- **Settings** (`server/lib/lib.js`) models:
  - `loadSettings`, with the default server address it fills in;
  - the dotted-path `getSetting` / `setSetting` walks over the settings
    object, including JavaScript's silent sloppy-mode writes into
    primitives;
  - `selectPage`.
- **Server** (`server/index.js`) models:
  - the polling lifecycle: polls run exactly while a socket client is
    connected;
  - the `/jsonrpc` route: quote replacement, request checks, dispatch and
    status codes.
- **NowPlaying** (`client/src/js/wnp.js`) models:
  - the time conversions `convertToSeconds` and `convertToMinutes`;
  - the progress read-out;
  - the album-art address rewrite through the proxy;
  - the source and quality badges;
  - the device list split into WiiM and other devices;
  - the "state" and "metadata" socket handlers, with their change cursors
    as a class.
- **WiimDisplay** (`client/src/js/wiimd.js`) models what that client does
  differently: its `convertToSeconds` with an early exit, its
  `getPlayerProgress`, and its "device-state" and "album-changed" handlers.
  The helpers it shares with the Now Playing client are reused, not
  duplicated.

Shared foundations:

- **JsValues** gives the JavaScript values the code handles: `undefined`,
  `null`, booleans, integral numbers, strings, arrays and objects. It also
  gives truthiness, `String()` and `Number()` conversion, `===`, `==` against
  a string, and property reads and writes.
- **Text** gives the string helpers: decimal digits, two-digit padding,
  `split`/`join`, `parseInt`, and the ASCII `toLowerCase`.
- **DeviceModel** holds the cached state and metadata records and the
  server's `deviceInfo` object.
- **Wrappers** holds `Option`.

Facts about the code that shape the model:

- the status words it maps are `stop`, `play`, `loading` and `pause`;
- an unknown status word keeps the previous transport state;
- mute stays the device's text (`"1"`);
- positions are not clamped to the track duration;
- change detection is done by the clients, against their own cursors.

## Model

| member | source | states |
|---|---|---|
| Text.Pad2 | server/lib/wiim.js:42-44 | the two-character zero-padded decimal text of a number below 100, whose value reads back |
| Text.NatToString | server/lib/wiim.js:45 | `String(n)` of a natural number: a non-empty digit string, one digit exactly below 10, no leading zero |
| Text.DecimalValueOfNatToString | server/lib/wiim.js:45 | reading the decimal text of a number gives the number back |
| Text.ToLower | client/src/js/wnp.js:560-634 | `toLowerCase` keeps the length and lowers each character: ASCII capitals and the Kelvin sign, nothing else |
| Text.ToLowerIdempotent | client/src/js/wnp.js:560-634 | lower-casing twice is lower-casing once |
| Text.ContainsAt | server/lib/upnpClient.js:299-300 | a text contains every text it has at some position (the basis of the `includes` test) |
| Text.Split | client/src/js/wnp.js:476 | `split` always gives at least one piece; `SplitJoin` is its inverse |
| Text.SplitJoin | client/src/js/wnp.js:476 | splitting the join of separator-free pieces gives the pieces back |
| Text.ParseInt | client/src/js/wnp.js:481 | `parseInt` skips leading white space; a result needs a non-blank text, a negative one a leading '-', and a text that starts with a digit (and no "0x") always gives a non-negative number |
| Text.ParseIntDigits | client/src/js/wnp.js:481 | `parseInt` of a text that starts with digits, followed by anything that is not a digit or a hex marker, is the value of those digits |
| Text.ParseIntOfNatToString | client/src/js/wnp.js:481 | `parseInt(String(n))` is `n` |
| JsValues.IndexKey | server/lib/lib.js:86-88 | a property name denotes an array index only when it is the canonical decimal text of that index, and the index is below 2^32 - 1 |
| JsValues.CanonicalDigits | server/lib/lib.js:86-88 | a digit text without a leading zero is the decimal text of its value, so it denotes an index |
| JsValues.StringToNumber | server/lib/wiim.js:38-41 | `Number(s)` of a text: a blank text is 0, and a negative result needs a leading '-' once white space is trimmed |
| JsValues.NumericLiteral | server/lib/wiim.js:38-41 | the value of a trimmed numeric literal (decimal with fraction and exponent, "0x", "0b" and "0o"): the empty literal is 0, a negative value has a leading '-' |
| JsValues.NumberOfIntToString | server/lib/wiim.js:38-41 | `Number(String(i))` is `i` for every integer |
| JsValues.ExponentLiteral | server/lib/wiim.js:38-41 | the exponent form "me" followed by e, such as "1e3", converts to m times 10 to the e |
| JsValues.ToNumber | client/src/js/wnp.js:282 | `Number(v)`: a number is itself and agrees with converting its text, a string converts as `StringToNumber`, `undefined` is NaN |
| JsValues.LooseEqualsString | server/lib/wiim.js:109-116 | `v == t` for a string `t`: a string is equal exactly when it is `t`, `undefined` and `null` never are, a number is equal to its own text (also server/index.js:77) |
| JsValues.NamedKeyOnlyOnObjects | server/lib/lib.js:57-60 | a defined property under a name that is neither an index nor `length` is found only on an object |
| JsValues.Put | server/lib/lib.js:91 | assignment throws on `undefined` and `null`, keeps the kind of an object or array, and leaves every other primitive unchanged; an array keeps an undefined element, and the holes a write past its end leaves, as null, the way the saved file's `JSON.stringify` writes them (also server/lib/lib.js:92) |
| JsValues.Stored | server/lib/lib.js:91-92 | what a container holds for a written value once the file is saved: the value itself, except that `undefined` becomes null in an array and stays `undefined` in an object |
| JsValues.PropAfterPut | server/lib/lib.js:91 | after storing into a value that stores the property, reading it gives the value written, except that `undefined` written into an array reads back as null |
| JsValues.PropOtherAfterPut | server/lib/lib.js:91 | storing one property of an object, or one element of an array within its bounds, leaves every other property unchanged |
| DeviceModel.DefaultMetadata | server/lib/wiim.js:138-146 | the metadata a first poll starts from: network song-list medium, empty texts, zero depth and rate, no volume, the given time stamp |
| DeviceModel.DeviceInfo.constructor | server/index.js:42-45 | the server starts with no state, no metadata and no client |
| WiimApi.ClockText | server/lib/wiim.js:42-45 | the `hh:mm:ss.t` text is 10 characters, with the separators at places 2, 5 and 8, two-digit hours, minutes and seconds, and a tenths digit |
| WiimApi.MsToTime | server/lib/wiim.js:37-46 | for a non-negative count, `msToTime` is the clock text of hours modulo 24, minutes and seconds modulo 60, and tenths (also server/lib/upnpClient.js:44-53) |
| WiimApi.Clock2IsPad2 | server/lib/wiim.js:42-44 | the code's padding, a prefix "0" below 10, is `Pad2` |
| WiimApi.MsToTimeOf | server/lib/wiim.js:118-119 | the duration text of a value is the NaN text exactly when the value does not convert to a number |
| WiimApi.MsToTimeWrapsDaily | server/lib/wiim.js:41 | the clock text repeats every 24 hours because the hours are taken modulo 24 |
| WiimApi.ClockDecomposition | server/lib/wiim.js:38-41 | hours modulo 24, minutes and seconds recompose a count of seconds modulo a day |
| WiimApi.MsToTimeFields | server/lib/wiim.js:38-41 | the hour, minute and second fields read back as the time of day in seconds, and the last digit as the tenths of the second |
| WiimApi.TransportStateFor | server/lib/wiim.js:109-116 | a changed transport state is always the image of a status word the status is `==` to; `undefined`, `null` and unknown words keep the previous state; a known word maps to the state it is recovered from |
| WiimApi.DeviceStatusOf | server/lib/wiim.js:109-116 | the inverse of the status mapping: a transport state it recognises comes from one of the four mapped status words |
| WiimApi.TransportStateRoundTrip | server/lib/wiim.js:109-116 | each of `play`, `stop`, `pause` and `loading` maps to a transport state from which the inverse recovers it, so the mapping is one-to-one |
| WiimApi.UnknownStatusKeepsPrevious | server/lib/wiim.js:109-116 | an unmapped status word leaves the transport state as it was |
| WiimApi.WordIsNotNumber | server/lib/wiim.js:109-116 | no status word converts to a number |
| WiimApi.NumberNeverEqualsWord | server/lib/wiim.js:109-116 | a numeric status is never `==` to a status word |
| WiimApi.NonStringStatusKeepsPrevious | server/lib/wiim.js:109-116 | a numeric status keeps the previous transport state |
| WiimApi.UpdateDeviceState | server/lib/wiim.js:97-124 | the new cache: a failed fetch changes nothing; otherwise a missing state is initialised; an unparsable body, null JSON or missing metadata then throws; otherwise the mapped status, volume, vendor and the position and duration texts are stored and emitted (also server/lib/upnpClient.js:137-164) |
| WiimApi.WithTrackInfo | server/lib/wiim.js:148-153 | the metadata takes artist, album, title, album art, sample rate and bit depth from the reply, and keeps every other field |
| WiimApi.UpdateDeviceMetadata | server/lib/wiim.js:132-156 | the new cache: a failed fetch changes nothing, an unparsable body throws before any write; otherwise missing metadata starts from the defaults and takes the reply's track fields, or throws when `metaData` is missing (also server/lib/upnpClient.js:173-197) |
| UpnpClient.ActionNames | server/lib/upnpClient.js:306 | the names of a service's actions, in order |
| UpnpClient.SelectionOf | server/lib/upnpClient.js:301-307 | the selected-device record carries the device's location, description fields and action names |
| UpnpClient.EnsureClient | server/lib/upnpClient.js:73-79 | an existing client is kept, otherwise one is created for the selected location; nothing else changes |
| UpnpClient.ActionRequest | server/lib/upnpClient.js:210-214 | a request is made exactly when a device is selected and offers the action; the instance is 0 and `Play` alone carries speed 1 |
| UpnpClient.CallDeviceAction | server/lib/upnpClient.js:207-240 | a call is made exactly when the request is allowed, through the existing or a new client, and leaves state and metadata alone |
| UpnpClient.OnActionReply | server/lib/upnpClient.js:221-232 | a successful reply is emitted to the clients and refreshes metadata and state once each; an error does nothing |
| UpnpClient.GetServiceDescription | server/lib/upnpClient.js:280-313 | a device with a service is appended, otherwise nothing changes; it becomes the selection and the settings are saved only when nothing was selected and it is a WiiM device |
| UpnpClient.LinkplayIsWiim | server/lib/upnpClient.js:299-300 | a manufacturer containing "Linkplay" makes a WiiM device |
| Sockets.GetDevices | server/lib/sockets.js:20-30 | one summary per device, in order |
| Sockets.GetDevicesAppend | server/lib/sockets.js:22-28 | the summaries of two lists joined are the joined summaries |
| Sockets.WithLocation | server/lib/sockets.js:43 | the devices with the given location: every one kept has it and comes from the list, every device of the list that has it is kept, and the result is empty exactly when none has it |
| Sockets.FirstWithLocation | server/lib/sockets.js:43-58 | the device picked is the first in the list with the location |
| Sockets.SetDevice | server/lib/sockets.js:41-68 | an unknown location changes nothing; a known one selects the first device there, clears client, state and metadata, announces the selection and saves it |
| Sockets.SelectionHasLocation | server/lib/sockets.js:52-58 | the device selected has the requested location |
| Settings.DefaultServer | server/lib/lib.js:60-66 | a display server without an address becomes address 127.0.0.1; a falsy port becomes 8080; every other entry is kept |
| Settings.DefaultServerIdempotent | server/lib/lib.js:60-66 | filling in the default twice is filling it in once |
| Settings.LoadSettings | server/lib/lib.js:53-74 | settings exist exactly when the file was read and names a streamer address (otherwise the process ends); they are the file with the display-server defaults filled in |
| Settings.WalkFromPrimitive | server/lib/lib.js:84-89 | walking a path from a primitive value ends at a primitive |
| Settings.AssignThenWalk | server/lib/lib.js:84-91 | after assigning by a path into a container that stores the key, walking the same path reaches a container that holds the assigned value as stored (null for `undefined` in an array) |
| Settings.AssignFrame | server/lib/lib.js:84-91 | assigning through objects and array elements within bounds leaves every path that diverges from the assigned one resolving as before |
| Settings.AssignDefined | server/lib/lib.js:84-91 | assigning into a defined value never makes it undefined |
| Settings.AssignToNonContainer | server/lib/lib.js:91 | assigning below a value that does not store the key changes nothing |
| Settings.SettingsFile.GetSetting | server/lib/lib.js:105-129 | the reply is the setting at the dotted path: 400 without exactly one parameter, 500 for an unreadable file, a missing intermediate segment or a read through null, otherwise 200 with the value, which is `undefined` for a missing last segment |
| Settings.SettingsFile.SetSetting | server/lib/lib.js:76-103 | the new content and the reply are the path assignment's outcome: 200 with the new value stored and announced, 400 without two parameters, 500 for an unreadable file or a bad path; a failed request changes nothing |
| Settings.GetAfterSet | server/lib/lib.js:76-119 | when the walk ends at an object, or at an array and the last segment is an index, reading a setting just set gives the value set; `undefined` set into an array reads back as null, as the re-read file holds it |
| Settings.SetFrame | server/lib/lib.js:82-92 | when every container on the path is an object, or an array indexed within its bounds, setting one path leaves every diverging path resolving as before |
| Settings.SetIntoPrimitive | server/lib/lib.js:88-94 | setting below a primitive answers 200 and changes nothing |
| Settings.SelectPage | server/lib/lib.js:131-139 | one page parameter gives a 200 reply announcing the page, whose message starts with "Page selection request '"; otherwise the handler returns nothing (`undefined`, then read as `result.content` at server/index.js:83, which throws) |
| Server.StepActions | server/index.js:105-138 | polls start only on the first connection and stop only on the last disconnection, and the bookkeeping stays consistent |
| Server.RunConsistent | server/index.js:105-138 | over any run of socket events polling tracks the client count, which is connections minus disconnections |
| Server.PollingWhileConnected | server/index.js:111-137 | from start-up the polls run exactly while more clients have connected than left |
| Server.Lifecycle.constructor | server/index.js:47-49 | no clients and no polls at start-up |
| Server.Lifecycle.OnConnect | server/index.js:105-119 | the connection handler counts the client and starts the polls or sends the cache |
| Server.Lifecycle.OnDisconnect | server/index.js:126-138 | the disconnection handler uncounts the client and stops the polls when it was the last |
| Server.ReplaceQuotes | server/index.js:76 | every single quote becomes a double quote and every other character stays |
| Server.ReplaceQuotesIdempotent | server/index.js:76 | no single quote is left, so replacing again changes nothing |
| Server.CheckRequest | server/index.js:74-94 | a request is dispatched exactly when it parses to version 2.0 with a known method; a missing parameter is rejected; a body that does not parse throws |
| Server.NumericVersionAccepted | server/index.js:77 | `==` lets a numeric version 2 pass as "2.0" |
| Server.HandleJsonRpc | server/index.js:74-95 | 400 for a rejected request, 500 for one that throws, otherwise the dispatched handler's reply; only SetSetting changes the settings |
| NowPlaying.ConvertToSeconds | client/src/js/wnp.js:475-484 | the loop's total is the base-60 value of the sections, NaN when one is not a number |
| NowPlaying.TwoSectionText | client/src/js/wnp.js:475-484 | "mm:ss" is worth 60 minutes plus seconds |
| NowPlaying.SumSections | client/src/js/wnp.js:477-482 | the summing loop computes the weighted section sum |
| NowPlaying.SectionSumNaN | client/src/js/wnp.js:477-482 | one section that is not a number makes the sum NaN |
| NowPlaying.SecondsOfJoin | client/src/js/wnp.js:476-483 | the seconds of joined sections are their section sum |
| NowPlaying.SectionSumTwo | client/src/js/wnp.js:478-481 | two sections weigh 60 and 1 |
| NowPlaying.SectionSumThree | client/src/js/wnp.js:478-481 | three sections weigh 3600, 60 and 1 |
| NowPlaying.ThreeSections | client/src/js/wnp.js:475-484 | "hh:mm:ss" is worth 3600 hours plus 60 minutes plus seconds |
| NowPlaying.ParseIntPad2 | client/src/js/wnp.js:481 | `parseInt` reads a padded two-digit field back as its number |
| NowPlaying.ConvertToMinutes | client/src/js/wnp.js:492-497 | `mm:ss`: five characters, two digits, a colon and two digits (also client/src/js/wiimd.js:269-274) |
| NowPlaying.TwoSections | client/src/js/wnp.js:475-497 | the seconds of a padded "mm:ss" text are 60 minutes plus seconds |
| NowPlaying.MinutesRoundTrip | client/src/js/wnp.js:475-497 | converting to minutes and back to seconds gives the seconds within the hour (also client/src/js/wiimd.js:250-274) |
| NowPlaying.MinutesDropHours | client/src/js/wnp.js:492-497 | whole hours do not show in the minute text |
| NowPlaying.ProgressAt | client/src/js/wnp.js:442-467 | inside a track the minute texts and the fraction played; otherwise "Live" at 100 exactly for a playing stream of zero duration, else "Paused" at 0, with empty left and total texts; the left text is non-empty exactly inside a track |
| NowPlaying.GetPlayerProgress | client/src/js/wnp.js:439-468 | the left text is non-empty exactly when the position (seconds of `relTime` plus the time-stamp difference) is before a positive duration, and then the minute texts and fraction are those of position and duration; a zero duration shows "Live" at 100 when playing and "Paused" at 0 otherwise; a duration that is not a number shows "Paused" at 0; a position that is not a number never shows a left text |
| NowPlaying.TimeStampDiff | client/src/js/wnp.js:280-283 | 0 unless the state is "PLAYING" and both time stamps are truthy; then NaN exactly when a stamp is not a number, otherwise the difference in milliseconds rounded to the nearest second, halves upwards (`Math.round`) |
| NowPlaying.LocPort | client/src/js/wnp.js:11 | the port the page reaches the server on: "80" exactly for no port, 80 or the development port 1234, otherwise the page's port (also client/src/js/wiimd.js:11) |
| NowPlaying.RndAlbumArt | client/src/js/wnp.js:539-541 | the random fallback is an image under "./img/" with the given prefix, never an "http" address |
| NowPlaying.InitialIsFirstRandom | client/src/js/wnp.js:12 | the fallback before the first draw is image 1 of the random ones |
| NowPlaying.CheckAlbumArtURI | client/src/js/wnp.js:506-521 | https addresses go through the server's proxy with the time stamp, http ones are kept, anything else becomes the current fallback image `rndAlbumArtUri` (also client/src/js/wiimd.js:283-298) |
| NowPlaying.ProxyPortOmitted | client/src/js/wnp.js:509-514 | a proxied address starts with "http://", the page's host name, the port part and "/proxy?url=" |
| NowPlaying.CheckAlbumArtIdempotent | client/src/js/wnp.js:506-521 | with a local fallback image, rewriting an already rewritten address gives the same address |
| NowPlaying.MediumIdent | client/src/js/wnp.js:564-601 | the badge of a known play medium, always an image under the sources directory |
| NowPlaying.TrackSourceIdent | client/src/js/wnp.js:603-632 | the badge of a known streaming service, always an image under the sources directory |
| NowPlaying.GetSourceIdent | client/src/js/wnp.js:560-634 | a known track source decides the badge, else a known medium, else none; both are compared in lower case (also client/src/js/wiimd.js:328-402) |
| NowPlaying.SourceIdentIgnoresCase | client/src/js/wnp.js:560-634 | the badge does not depend on the case of the names |
| NowPlaying.QualityKeyIdent | client/src/js/wnp.js:677-704 | every known quality key gives a non-empty badge |
| NowPlaying.GetQualityIdent | client/src/js/wnp.js:665-706 | a known quality key decides; without one, "CD" exactly when the CD test passes, "Hi-Res" exactly when only the high-resolution test passes, else none (also client/src/js/wiimd.js:433-474) |
| NowPlaying.TextFiguresNeverGuessCd | client/src/js/wnp.js:670-672 | a bit depth given as text never passes the strict CD test |
| NowPlaying.TidalFlac | client/src/js/wnp.js:686-690 | quality "4" with actual quality HI_RES_LOSSLESS shows "FLAC" |
| NowPlaying.NumericZeroQuality | client/src/js/wnp.js:388-390 | a numeric quality 0 with actual quality LOSSLESS shows "HIGH" |
| NowPlaying.Filtered | client/src/js/wnp.js:232-250 | the devices kept are exactly those with the wanted Linkplay flag, all from the list |
| NowPlaying.DeviceGroupsPartition | client/src/js/wnp.js:232-250 | the WiiM and the other devices together are the list, without loss or overlap |
| NowPlaying.NoDevicesFound | client/src/js/wnp.js:268-270 | both groups are empty exactly when the list is |
| NowPlaying.PlayButton | client/src/js/wnp.js:296-317 | busy exactly while transitioning; "Stop" for playing radio, "Pause" for playing anything else, "Play" when paused or stopped |
| NowPlaying.StateView | client/src/js/wnp.js:275-332 | the "state" handler ignores a falsy message and fails on one without readable time texts; otherwise it shows the progress of the message's times and state, updates the play button only when the state or medium changed (`!==`) and then to `PlayButton`, and enables skipping except for radio |
| NowPlaying.DisplayCursors.OnState | client/src/js/wnp.js:275-332 | the handler shows `StateView` and stores the new state and medium exactly when they changed; the other cursors stay |
| NowPlaying.RepeatedStateKeepsButton | client/src/js/wnp.js:295-320 | the same message twice does not touch the button the second time |
| NowPlaying.ZeroTimeText | client/src/js/wnp.js:284-285 | "00:00:00" is worth 0 seconds |
| NowPlaying.NoDurationShowsLiveOrPaused | client/src/js/wnp.js:284-288 | without a duration the read-out shows "Live" exactly when playing, with empty left and total texts |
| NowPlaying.TrackOf | client/src/js/wnp.js:358-363 | the title shows "No Music Selected" exactly for a stopped, empty network song list or when the title says so |
| NowPlaying.TrackKeyInjective | client/src/js/wnp.js:365-367 | for fields without `\|`, two tracks have the same change key exactly when they are equal |
| NowPlaying.TrackKeyCollision | client/src/js/wnp.js:365-367 | fields containing `\|` can give two different tracks the same change key |
| NowPlaying.DisplayCursors.constructor | client/src/js/wnp.js:12-27 | all change cursors start as null and the fallback image is "./img/fake-album-1.jpg" |
| NowPlaying.DisplayCursors.RefreshAlbumArt | client/src/js/wnp.js:60-64 | the draw at start-up and every three minutes makes the fallback image number n of 1 to 16 (`rndNumber(1, 16)`), keeps it local and changes no cursor (also client/src/js/wnp.js:549-551) |
| NowPlaying.DisplayCursors.RememberSource | client/src/js/wnp.js:343-355 | reports a change exactly when the badge differs (`!==`) from the remembered one, which it then replaces; nothing else changes |
| NowPlaying.DisplayCursors.RememberTrack | client/src/js/wnp.js:365-371 | reports a change exactly when the key differs (`!==`) from the remembered one, which it then replaces; nothing else changes (also client/src/js/wiimd.js:162-168) |
| NowPlaying.DisplayCursors.OnMetadata | client/src/js/wnp.js:335-411 | the "metadata" handler ignores a falsy message and fails on one without readable source fields or album art; otherwise it shows the source badge, the track and the quality figures, flags the badge and the track as changed exactly when they differ from the cursors, rewrites the album art against the current fallback image when the track changed (given that the fallback is a local image, the class invariant `Valid`, the shown address passes a second rewrite unchanged), and the cursors take the new badge and track key (also client/src/js/wiimd.js:132-209) |
| WiimDisplay.SecondsOfZero | client/src/js/wiimd.js:251-252 | the text "0" is worth 0 seconds, so the early exit agrees with the sum |
| WiimDisplay.ConvertToSeconds | client/src/js/wiimd.js:250-261 | undefined gives 0, any text gives its section sum |
| WiimDisplay.GetPlayerProgress | client/src/js/wiimd.js:214-243 | inside a track the minute texts and fraction; "Live Stream" at 100 exactly for a stream without duration that is playing; otherwise the state at 0 |
| WiimDisplay.PausedExactly | client/src/js/wiimd.js:217-219 | the played text starts with "Paused " exactly when the state is "paused", and ends with the minute text |
| WiimDisplay.DeviceState | client/src/js/wiimd.js:85-90 | the volume, or "mute" when `mute` is the text "1"; the name line "name / model"; no update for an unreadable message |
| WiimDisplay.AlbumChanged | client/src/js/wiimd.js:92-100 | a set album art goes through the rewrite without a time stamp, an unset one gives the fallback image; unreadable or non-text art throws |
| WiimDisplay.AlbumChangedAddress | client/src/js/wiimd.js:92-100 | the image set is always an http address or the fallback, and a proxied one ends in "&ts=undefined" |

## Left out

- The HTTPS requests to the streamer (`getJsonFromHttps`), its certificate handling and its timeouts are left out. Their outcome, the text fetched or an error, is an input to the update methods.
- The UPnP library is left out: `createClient`, the device-description fetch (`getDeviceDescription`), SOAP calls and the AVTransport service lookup. Its results are inputs.
- The interval timers (`startState`, `startMetadata`, `stopPolling`) are modelled only as the start/stop actions of the polling lifecycle. Timing and reentrancy are left out.
- `callDeviceAction` in `server/lib/wiim.js` only logs, so it is left out.
- SSDP discovery (`scanDevices`), `getServerSettings`, the album-art proxy route, static file serving and `server.listen` are I/O and are left out.
- `lib.saveSettings` is called but not defined in `server/lib/lib.js`. Saving is modelled as an effect the setting handler returns.
- Express's `res.send(body, status)` overload that treats a numeric body as a status is not modelled. The reply keeps the code and the body as given.
- `loadSettings` on an unreadable file, or on one without a streamer address, is modelled as no settings. Its catch block calls `Console.console.log`, but `server/lib/lib.js` binds neither `Console` nor `exit`, so a ReferenceError escapes the call at server/index.js:59 and ends the process before `exit(1)` is reached.
- Express's query parser turns a repeated `json` parameter (`?json=a&json=b`) or a bracketed one (`?json[x]=1`) into an array or an object. `replaceAll` then throws at server/index.js:76 and the framework answers 500. The model takes the `json` parameter as absent or a string, so it cannot express that input.
- Numbers are integers. `toFixed`, the floating-point percentage and bitrate texts, and non-integral numbers are left out. A non-integral numeric text converts as NaN.
- JsValues.StringToNumber: "Infinity" (with or without a sign) converts as NaN, because the model has no infinite numbers. A literal too large for a double ("1e400") converts to its exact integer, not to Infinity.
- WiimApi.MsToTimeOf: a fractional duration such as "1500.5" gives the NaN text in the model but a clock text in JavaScript. A value too large for a double ("1e400") gives a clock text in the model but the NaN text in JavaScript. Above 2^53 JavaScript also rounds the count, the model does not.
- JsValues.Prop: objects are plain maps of their own properties. Members inherited from `Object.prototype` ("constructor", "toString", "hasOwnProperty" and the rest), the `__proto__` accessor, and the methods of strings and arrays are not modelled. Reading such a name gives `undefined` in the model, but a function or the prototype in JavaScript. Arrays carry no named properties besides `length`. A string's `length` and its index reads count Unicode characters, where JavaScript counts UTF-16 code units, so a text with a character outside the Basic Multilingual Plane (an emoji) has a different `length`.
- JsValues.Put: writing `__proto__` replaces the prototype in JavaScript; the model stores it as an ordinary property. Writing `length` on an array truncates or extends it in JavaScript; the model does not store it. A named (non-index) property is not stored on an array. The saved file's JSON is modelled only for array elements: an object property whose value is `undefined` is kept in the model, where `JSON.stringify` drops it, and either way reading it gives `undefined`.
- Settings.SetFrame: a write past the end of an array is not covered. It fills the holes up to the new index with null, so a diverging path to such a hole changes from `undefined` to null, as the saved file does.
- JsValues.NamedKeyOnlyOnObjects: holds of the model's values only. In JavaScript an inherited name such as "toString" is defined on every readable value.
- JsValues.PropAfterPut: holds of the model's plain-map objects. In JavaScript it fails for `__proto__` set to a primitive, and for `length` on an array.
- JsValues.PropOtherAfterPut: holds of the model's plain-map objects. In JavaScript writing `__proto__` can change what an inherited name reads.
- Settings.SettingsFile.GetSetting: a path through an inherited name ("constructor", "toString", "__proto__") is a missing key in the model and answers 500. In JavaScript it finds the inherited member and answers 200.
- Settings.SettingsFile.SetSetting: a path through `__proto__` (such as "__proto__.x") is an ordinary key in the model, so on a file without that key it answers 500 ("Invalid setting key!"). In JavaScript it writes into `Object.prototype` and answers 200. A write of `length` on an array in the settings truncates the array in JavaScript; in the model it changes nothing.
- NowPlaying.ProgressAt: the percentage is kept as the exact ratio of position to duration, not its rounded `toFixed(1)` text.
- WiimDisplay.GetPlayerProgress: the percentage is kept as the exact ratio, as in ProgressAt.
- The DOM is left out: how `innerText` normalises text, and the `albumArt.src != uri` comparison, which the browser makes against an absolute address.
- The sorting of the device list and its "selected" marking in the "devices-get" handler are left out.
- The "track-progress" handler of `client/src/js/wiimd.js` is left out because it divides `trackPos / 1000` in floating point.
- The "state" handler of `client/src/js/wiimd.js` (lines 111-129) is left out. It calls `getPlayerProgress` with four arguments against a three-argument definition, so it is not a meaningful operation to model.
- `getDate`, `getTimeStamp` and `getOS` are left out. The clock becomes a parameter `now`.
- WiimDisplay.ConvertToSeconds: only `undefined` and text arguments are modelled. Any other value has no `split` and would throw.
- WiimApi.UpdateDeviceState: the exception thrown for a missing metadata object, an unparsable body or JSON `null` is caught by `getJsonFromHttps` (server/lib/wiim.js:22-27), which calls back with the error; that call returns at `if (error) return`. The model records this as a `Threw` outcome that emits nothing, and does not model the second call itself.
- NowPlaying.ConvertToMinutes: the model is the browser in a zone with a fixed offset of whole hours, such as UTC. `setSeconds` works in local time and converts back with the offset in force at the new instant, so in a zone whose offset at the epoch is not a whole number of minutes (Africa/Monrovia in 1970, at -0:44:30) or whose offset later changed by a part of an hour (Asia/Kathmandu, from +5:30 to +5:45 in 1986) the text differs from the model's. The model also gives the minutes and seconds for every integer. The code does so only for years 0 to 9999, that is from -62167219200 up to 253402300800 seconds (about 2.5e11). Outside those years `toISOString` writes a six-digit signed year, so `substring(14, 19)` picks out "HH:MM" instead. Beyond 8.64e12 seconds either way `toISOString` throws.
- Text.ToLower: letters outside ASCII (except the Kelvin sign) are kept as they are. Every comparison after lowering is against an ASCII name, which such a letter never matches either way.
- Concurrency between the socket handlers and the polls is not modelled. Each handler runs to completion.
