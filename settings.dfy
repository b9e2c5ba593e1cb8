/**
 * The settings logic of the server's utility module: filling in defaults
 * when the settings file is loaded, and the JSON-RPC handlers that read and
 * write one entry of the settings tree by a dotted key, or ask the clients
 * to show a page. The settings file is a field holding its parsed content;
 * reading, parsing and writing the file are not modelled.
 */
module Settings {
  import opened Wrappers
  import opened Text
  import opened JsValues

  // ---------------------------------------------------------------------
  // loadSettings

  /** `settings["streamer-device"]` and its `address` are both truthy. */
  predicate StreamerAddressSet(settings: Value) {
    match Prop(settings, "streamer-device")
    case Some(device) => Truthy(device) && Truthy(Field(device, "address"))
    case None => false
  }

  /** `settings["display-server"]` and its `address` are both truthy. */
  predicate DisplayAddressSet(server: Value) {
    Truthy(server) && Truthy(Field(server, "address"))
  }

  /**
   * The display-server entry after the defaults: an entry without an address
   * is replaced by one that only has address "127.0.0.1"; a missing or falsy
   * port becomes 8080; everything else is kept.
   */
  function DefaultServer(server: Value): (r: Value)
    ensures r.Obj?
    ensures Field(r, "address") == if DisplayAddressSet(server) then Field(server, "address") else Str("127.0.0.1")
    ensures Field(r, "port") ==
      if DisplayAddressSet(server) && Truthy(Field(server, "port")) then Field(server, "port") else Num(8080)
    ensures DisplayAddressSet(server) ==>
      server.Obj? && r.fields.Keys == server.fields.Keys + {"port"}
      && forall k :: k in server.fields && k != "port" ==> r.fields[k] == server.fields[k]
    ensures !DisplayAddressSet(server) ==> r.fields.Keys == {"address", "port"}
  {
    var base :=
      if DisplayAddressSet(server) then NamedKeyOnlyOnObjects(server, "address"); server
      else Obj(map["address" := Str("127.0.0.1")]);
    if Truthy(Field(base, "port")) then base else Obj(base.fields["port" := Num(8080)])
  }

  /** Applying the defaults a second time changes nothing: a loaded file loads to itself. */
  lemma DefaultServerIdempotent(server: Value)
    ensures DefaultServer(DefaultServer(server)) == DefaultServer(server)
  {
  }

  /**
   * `loadSettings` on the parsed content of the settings file (None when it
   * cannot be read or parsed). Without a streamer address the server does not
   * start: None. Otherwise the display-server entry gets its defaults and
   * every other entry is kept.
   */
  method LoadSettings(file: Option<Value>) returns (settings: Option<Value>)
    ensures settings.Some? <==> file.Some? && StreamerAddressSet(file.value)
    ensures settings.Some? ==>
      file.value.Obj? && settings.value == Obj(file.value.fields["display-server" := DefaultServer(Field(file.value, "display-server"))])
  {
    if file.None? {
      return None;
    }
    var s := file.value;
    var device := Prop(s, "streamer-device");
    if device.None? || !Truthy(device.value) || !Truthy(Field(device.value, "address")) {
      return None;
    }
    NamedKeyOnlyOnObjects(s, "streamer-device");
    var server := Field(s, "display-server");
    if !Truthy(server) || !Truthy(Field(server, "address")) {
      s := Put(s, "display-server", Obj(map[])).value;
      s := Put(s, "display-server", Put(Field(s, "display-server"), "address", Str("127.0.0.1")).value).value;
    } else {
      NamedKeyOnlyOnObjects(server, "address");
    }
    server := Field(s, "display-server");
    if !Truthy(server) || !Truthy(Field(server, "port")) {
      s := Put(s, "display-server", Put(server, "port", Num(8080)).value).value;
    }
    return Some(s);
  }

  // ---------------------------------------------------------------------
  // Dotted key paths

  /** Where walking the intermediate segments of a key path ends. */
  datatype Walk = Reached(container: Value) | InvalidKey | TypeFault

  /**
   * The handlers' walk over the segments before the last one: an undefined
   * segment is an invalid key, reading through null or undefined a TypeError.
   */
  function WalkPath(v: Value, path: seq<string>): Walk
    decreases |path|
  {
    if path == [] then Reached(v)
    else
      match Prop(v, path[0])
      case None => TypeFault
      case Some(child) => if child.Undefined? then InvalidKey else WalkPath(child, path[1..])
  }

  /**
   * The tree after `container[key] = x`, where `container` is where the walk
   * along `path` ends. The objects on the path are shared with the tree, so
   * the write shows through every ancestor.
   */
  function Assign(v: Value, path: seq<string>, key: string, x: Value): Value
    decreases |path|
  {
    if path == [] then
      match Put(v, key, x)
      case Some(w) => w
      case None => v
    else
      match Prop(v, path[0])
      case None => v
      case Some(child) =>
        match Put(v, path[0], Assign(child, path[1..], key, x))
        case Some(w) => w
        case None => v
  }

  /** Plain reads along a whole path. */
  function Resolve(v: Value, path: seq<string>): Option<Value>
    decreases |path|
  {
    if path == [] then Some(v)
    else
      match Prop(v, path[0])
      case None => None
      case Some(child) => Resolve(child, path[1..])
  }

  /**
   * Every container along `segs` is an object, or an array the next segment
   * indexes within its bounds, so that a write along them changes entries
   * in place and adds none.
   */
  predicate InPlacePath(v: Value, segs: seq<string>)
    decreases |segs|
  {
    segs != [] ==> InPlace(v, segs[0]) && (|segs| > 1 ==> InPlacePath(Prop(v, segs[0]).value, segs[1..]))
  }

  /** Two paths neither of which is a prefix of the other. */
  predicate Diverge(p: seq<string>, q: seq<string>) {
    !(p <= q) && !(q <= p)
  }

  /** Strings, numbers and booleans only have primitive properties, all the way down. */
  lemma {:induction false} WalkFromPrimitive(v: Value, path: seq<string>)
    requires !IsObject(v) && WalkPath(v, path).Reached?
    ensures !IsObject(WalkPath(v, path).container)
    decreases |path|
  {
    if path != [] {
      WalkFromPrimitive(Prop(v, path[0]).value, path[1..]);
    }
  }

  /** A write into a container that stores the key is read back, as stored, at the end of the same walk. */
  lemma {:induction false} AssignThenWalk(v: Value, path: seq<string>, key: string, x: Value)
    requires WalkPath(v, path).Reached? && Stores(WalkPath(v, path).container, key)
    ensures WalkPath(Assign(v, path, key, x), path).Reached?
    ensures Prop(WalkPath(Assign(v, path, key, x), path).container, key) == Some(Stored(WalkPath(v, path).container, x))
    decreases |path|
  {
    if path == [] {
      PropAfterPut(v, key, x);
    } else {
      var child := Prop(v, path[0]).value;
      if !Stores(v, path[0]) {
        assert !IsObject(child);
        WalkFromPrimitive(child, path[1..]);
        assert false;
      }
      AssignThenWalk(child, path[1..], key, x);
      var child' := Assign(child, path[1..], key, x);
      PropAfterPut(v, path[0], child');
      assert Prop(Assign(v, path, key, x), path[0]) == Some(child');
      AssignDefined(child, path[1..], key, x);
    }
  }

  /** A write never turns a defined value into `undefined`. */
  lemma AssignDefined(v: Value, path: seq<string>, key: string, x: Value)
    requires !v.Undefined?
    ensures !Assign(v, path, key, x).Undefined?
  {
  }

  /** Writing back a value just read leaves a container as it was. */
  lemma PutBack(v: Value, key: string)
    requires Readable(v) && !Field(v, key).Undefined?
    ensures Put(v, key, Field(v, key)) == Some(v)
  {
    if v.Obj? {
      assert key in v.fields;
      assert v.fields[key := v.fields[key]] == v.fields;
    } else if v.Arr? && IndexKey(key).Some? {
      var i := IndexKey(key).value;
      assert key != "length";
      assert i < |v.items|;
      assert v.items[i := v.items[i]] == v.items;
    }
  }

  /**
   * When the walk ends at a container that does not store the key (a string,
   * number or boolean, or an array given a key that is not an index), the
   * write is silently dropped and the tree is unchanged.
   */
  lemma {:induction false} AssignToNonContainer(v: Value, path: seq<string>, key: string, x: Value)
    requires WalkPath(v, path).Reached?
    requires Readable(WalkPath(v, path).container) && !Stores(WalkPath(v, path).container, key)
    ensures Assign(v, path, key, x) == v
    decreases |path|
  {
    if path != [] {
      var child := Prop(v, path[0]).value;
      AssignToNonContainer(child, path[1..], key, x);
      PutBack(v, path[0]);
    }
  }

  /**
   * A write through objects and in-bounds array elements changes no entry at
   * a path that neither leads to the written entry nor lies beneath it.
   */
  lemma {:induction false} AssignFrame(v: Value, path: seq<string>, key: string, x: Value, q: seq<string>)
    requires InPlacePath(v, path + [key]) && Diverge(path + [key], q)
    ensures Resolve(Assign(v, path, key, x), q) == Resolve(v, q)
    decreases |path|
  {
    assert [] <= path + [key];
    var head := if path == [] then key else path[0];
    assert (path + [key])[0] == head;
    if q[0] != head {
      if path == [] {
        PropOtherAfterPut(v, key, q[0], x);
      } else {
        PropOtherAfterPut(v, head, q[0], Assign(Prop(v, head).value, path[1..], key, x));
      }
      assert Prop(Assign(v, path, key, x), q[0]) == Prop(v, q[0]);
    } else {
      assert path == [] ==> [key] <= q;
      assert path != [];
      assert path + [key] == [q[0]] + (path[1..] + [key]);
      assert q == [q[0]] + q[1..];
      assert Diverge(path[1..] + [key], q[1..]) by {
        assert path[1..] + [key] <= q[1..] ==> path + [key] <= q;
        assert q[1..] <= path[1..] + [key] ==> q <= path + [key];
      }
      var child := Prop(v, path[0]).value;
      assert InPlacePath(child, path[1..] + [key]);
      AssignFrame(child, path[1..], key, x, q[1..]);
      AssignDefined(child, path[1..], key, x);
      PropAfterPut(v, path[0], Assign(child, path[1..], key, x));
      assert Prop(Assign(v, path, key, x), q[0]) == Some(Assign(child, path[1..], key, x));
    }
  }

  // ---------------------------------------------------------------------
  // The JSON-RPC handlers

  /** What a handler returns as `content`. */
  datatype Content =
    | Message(text: string)
    | Setting(value: Value)
      /** A caught TypeError, rendered by the engine after `prefix`. */
    | EngineError(prefix: string)

  datatype Reply = Reply(code: int, content: Content)

  /** Events the handlers broadcast to every socket client. */
  datatype Emit = SettingChanged(key: Value, value: Value) | PageSelected(page: Value)

  /** `params && params.length === n`. */
  predicate ParamCount(params: Value, n: nat) {
    Truthy(params) && Prop(params, "length") == Some(Num(n))
  }

  /** `params[i]` for params that passed the count check. */
  function Param(params: Value, i: nat): Value
    requires Truthy(params)
  {
    Field(params, NatToString(i))
  }

  function Init(parts: seq<string>): seq<string>
    requires |parts| >= 1
  {
    parts[..|parts| - 1]
  }

  function Last(parts: seq<string>): string
    requires |parts| >= 1
  {
    parts[|parts| - 1]
  }

  const GetPrefix := "Error getting setting: "
  const SetPrefix := "Error updating setting: "
  const InvalidKeyText := "Invalid setting key!"

  /** The reply of `jsonRPC_GetSetting` on the file content `file`. */
  function GetReply(file: Option<Value>, params: Value): Reply {
    if !ParamCount(params, 1) then Reply(400, Message("Invalid parameters for GetSetting."))
    else if file.None? || !Param(params, 0).Str? then Reply(500, EngineError(GetPrefix))
    else
      var parts := Split(Param(params, 0).s, '.');
      match WalkPath(file.value, Init(parts))
      case InvalidKey => Reply(500, Message(GetPrefix + InvalidKeyText))
      case TypeFault => Reply(500, EngineError(GetPrefix))
      case Reached(c) =>
        match Prop(c, Last(parts))
        case None => Reply(500, EngineError(GetPrefix))
        case Some(value) => Reply(200, Setting(value))
  }

  /** The result of `jsonRPC_SetSetting` on the file content `file`. */
  datatype SetResult = SetResult(reply: Reply, file: Option<Value>, emit: Option<Emit>)

  function SetOutcome(file: Option<Value>, params: Value): SetResult {
    if !ParamCount(params, 2) then SetResult(Reply(400, Message("Invalid parameters for SetSetting.")), file, None)
    else if file.None? || !Param(params, 0).Str? then SetResult(Reply(500, EngineError(SetPrefix)), file, None)
    else
      var parts := Split(Param(params, 0).s, '.');
      match WalkPath(file.value, Init(parts))
      case InvalidKey => SetResult(Reply(500, Message(SetPrefix + InvalidKeyText)), file, None)
      case TypeFault => SetResult(Reply(500, EngineError(SetPrefix)), file, None)
      case Reached(c) =>
        if !Readable(c) then SetResult(Reply(500, EngineError(SetPrefix)), file, None)
        else
          SetResult(Reply(200, Message("Setting updated successfully.")),
                    Some(Assign(file.value, Init(parts), Last(parts), Param(params, 1))),
                    Some(SettingChanged(Param(params, 0), Param(params, 1))))
  }

  /** The settings file as the handlers see it: its parsed content, or None when it cannot be read. */
  class SettingsFile {
    var content: Option<Value>

    constructor (content: Option<Value>)
      ensures this.content == content
    {
      this.content := content;
    }

    /** `jsonRPC_GetSetting`: walks the dotted key and reads its last segment. */
    method GetSetting(params: Value) returns (reply: Reply)
      ensures reply == GetReply(content, params)
    {
      if !ParamCount(params, 1) {
        return Reply(400, Message("Invalid parameters for GetSetting."));
      }
      if content.None? || !Param(params, 0).Str? {
        return Reply(500, EngineError(GetPrefix));
      }
      var parts := Split(Param(params, 0).s, '.');
      var setting := content.value;
      var i := 0;
      while i < |parts| - 1
        invariant 0 <= i <= |parts| - 1
        invariant WalkPath(content.value, Init(parts)) == WalkPath(setting, Init(parts)[i..])
      {
        assert Init(parts)[i..][0] == parts[i] && Init(parts)[i..][1..] == Init(parts)[i + 1..];
        var next := Prop(setting, parts[i]);
        if next.None? {
          return Reply(500, EngineError(GetPrefix));
        }
        if next.value.Undefined? {
          return Reply(500, Message(GetPrefix + InvalidKeyText));
        }
        setting := next.value;
        i := i + 1;
      }
      var value := Prop(setting, Last(parts));
      if value.None? {
        return Reply(500, EngineError(GetPrefix));
      }
      return Reply(200, Setting(value.value));
    }

    /**
     * `jsonRPC_SetSetting`: walks the dotted key, writes `params[1]` under its
     * last segment and stores the tree; on any failure the file is untouched.
     */
    method SetSetting(params: Value) returns (reply: Reply, emit: Option<Emit>)
      modifies this
      ensures var r := SetOutcome(old(content), params); reply == r.reply && content == r.file && emit == r.emit
      ensures reply.code != 200 ==> content == old(content) && emit == None
    {
      if !ParamCount(params, 2) {
        return Reply(400, Message("Invalid parameters for SetSetting.")), None;
      }
      if content.None? || !Param(params, 0).Str? {
        return Reply(500, EngineError(SetPrefix)), None;
      }
      var parts := Split(Param(params, 0).s, '.');
      var obj := content.value;
      var i := 0;
      while i < |parts| - 1
        invariant 0 <= i <= |parts| - 1
        invariant WalkPath(content.value, Init(parts)) == WalkPath(obj, Init(parts)[i..])
      {
        assert Init(parts)[i..][0] == parts[i] && Init(parts)[i..][1..] == Init(parts)[i + 1..];
        var next := Prop(obj, parts[i]);
        if next.None? {
          return Reply(500, EngineError(SetPrefix)), None;
        }
        if next.value.Undefined? {
          return Reply(500, Message(SetPrefix + InvalidKeyText)), None;
        }
        obj := next.value;
        i := i + 1;
      }
      if !Readable(obj) {
        return Reply(500, EngineError(SetPrefix)), None;
      }
      content := Some(Assign(content.value, Init(parts), Last(parts), Param(params, 1)));
      emit := Some(SettingChanged(Param(params, 0), Param(params, 1)));
      reply := Reply(200, Message("Setting updated successfully."));
    }
  }

  /** Reading a key back after a successful write of it gives the written value. */
  lemma GetAfterSet(file: Option<Value>, setParams: Value, getParams: Value)
    requires ParamCount(setParams, 2) && ParamCount(getParams, 1)
    requires Param(setParams, 0).Str? && Param(getParams, 0) == Param(setParams, 0)
    requires SetOutcome(file, setParams).reply.code == 200
    requires Stores(WalkPath(file.value, Init(Split(Param(setParams, 0).s, '.'))).container,
                    Last(Split(Param(setParams, 0).s, '.')))
    ensures var parts := Split(Param(setParams, 0).s, '.');
      GetReply(SetOutcome(file, setParams).file, getParams)
        == Reply(200, Setting(Stored(WalkPath(file.value, Init(parts)).container, Param(setParams, 1))))
  {
    var parts := Split(Param(setParams, 0).s, '.');
    AssignThenWalk(file.value, Init(parts), Last(parts), Param(setParams, 1));
  }

  /**
   * A successful write leaves every entry off the written path as it was,
   * when the path runs through objects and array elements within bounds.
   */
  lemma SetFrame(file: Option<Value>, params: Value, q: seq<string>)
    requires ParamCount(params, 2) && Param(params, 0).Str?
    requires SetOutcome(file, params).reply.code == 200
    requires InPlacePath(file.value, Split(Param(params, 0).s, '.'))
    requires Diverge(Split(Param(params, 0).s, '.'), q)
    ensures Resolve(SetOutcome(file, params).file.value, q) == Resolve(file.value, q)
  {
    var parts := Split(Param(params, 0).s, '.');
    assert Init(parts) + [Last(parts)] == parts;
    AssignFrame(file.value, Init(parts), Last(parts), Param(params, 1), q);
  }

  /** A write whose walk ends at a string, number or boolean reports success and stores nothing. */
  lemma SetIntoPrimitive(file: Option<Value>, params: Value)
    requires ParamCount(params, 2) && Param(params, 0).Str? && file.Some?
    requires var c := WalkPath(file.value, Init(Split(Param(params, 0).s, '.')));
      c.Reached? && (c.container.Bool? || c.container.Num? || c.container.Str?)
    ensures SetOutcome(file, params).reply.code == 200 && SetOutcome(file, params).file == file
  {
    var parts := Split(Param(params, 0).s, '.');
    AssignToNonContainer(file.value, Init(parts), Last(parts), Param(params, 1));
  }

  // ---------------------------------------------------------------------
  // jsonRPC_SelectPage

  datatype PageRequest = PageRequest(reply: Reply, emit: Emit)

  /**
   * `jsonRPC_SelectPage`: with exactly one parameter the page request is
   * broadcast and acknowledged; otherwise the handler returns nothing.
   */
  function SelectPage(params: Value): (r: Option<PageRequest>)
    ensures r.Some? <==> ParamCount(params, 1)
    ensures r.Some? ==> r.value.reply.code == 200 && r.value.emit == PageSelected(Param(params, 0))
    ensures r.Some? ==> r.value.reply.content.Message?
    ensures r.Some? ==> StartsWith(r.value.reply.content.text, "Page selection request '")
  {
    if ParamCount(params, 1) then
      var page := Param(params, 0);
      Some(PageRequest(Reply(200, Message("Page selection request '" + ToJsString(page) + "' sent.")), PageSelected(page)))
    else None
  }
}
