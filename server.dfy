/**
 * The server entry point: device polling runs while at least one socket
 * client is connected, and the `/jsonrpc` route checks a request before
 * handing it to one of the settings handlers. The timers themselves, the
 * web server and the album-art proxy are not modelled.
 */
module Server {
  import opened Wrappers
  import opened Text
  import opened JsValues
  import opened Settings

  // ---------------------------------------------------------------------
  // Polling lifecycle

  datatype SocketEvent = Connect | Disconnect

  /** What a connection handler does besides counting. */
  datatype LifecycleAction =
    | StartPolling   // start the metadata and the state poll
    | SendCached     // send the cached state and metadata to the new client only
    | StopPolling    // stop both polls
    | NoAction

  /** The number of connected sockets and whether the two polls are running. */
  datatype LifeState = LifeState(clients: nat, polling: bool)

  const Idle := LifeState(0, false)

  predicate Consistent(s: LifeState) {
    s.polling == (s.clients > 0)
  }

  /**
   * One socket event. The count is the socket count the handler sees: it
   * already includes a connecting socket and no longer includes a leaving one.
   */
  function Step(s: LifeState, e: SocketEvent): (r: (LifeState, LifecycleAction))
    requires e == Disconnect ==> s.clients > 0
  {
    match e
    case Connect =>
      var n := s.clients + 1;
      if n == 1 then (LifeState(n, true), StartPolling) else (LifeState(n, s.polling), SendCached)
    case Disconnect =>
      var n := s.clients - 1;
      if n == 0 then (LifeState(n, false), StopPolling) else (LifeState(n, s.polling), NoAction)
  }

  /** Polls are started only when they are not running and stopped only when they are. */
  lemma StepActions(s: LifeState, e: SocketEvent)
    requires Consistent(s) && (e == Disconnect ==> s.clients > 0)
    ensures Consistent(Step(s, e).0)
    ensures Step(s, e).1 == StartPolling <==> e == Connect && s.clients == 0
    ensures Step(s, e).1 == StartPolling ==> !s.polling
    ensures Step(s, e).1 == StopPolling <==> e == Disconnect && s.clients == 1
    ensures Step(s, e).1 == StopPolling ==> s.polling
  {
  }

  function Count(events: seq<SocketEvent>, e: SocketEvent): nat {
    if events == [] then 0 else (if events[0] == e then 1 else 0) + Count(events[1..], e)
  }

  /** A run of socket events; None when a disconnect would leave more sockets than connected. */
  function Run(s: LifeState, events: seq<SocketEvent>): Option<LifeState>
    decreases |events|
  {
    if events == [] then Some(s)
    else if events[0] == Disconnect && s.clients == 0 then None
    else Run(Step(s, events[0]).0, events[1..])
  }

  /**
   * Over any run from a consistent state, polling is active exactly when at
   * least one client is connected, and the count is connects minus disconnects.
   */
  lemma {:induction false} RunConsistent(s: LifeState, events: seq<SocketEvent>)
    requires Consistent(s) && Run(s, events).Some?
    ensures Consistent(Run(s, events).value)
    ensures Run(s, events).value.clients == s.clients + Count(events, Connect) - Count(events, Disconnect)
    decreases |events|
  {
    if events != [] {
      StepActions(s, events[0]);
      RunConsistent(Step(s, events[0]).0, events[1..]);
    }
  }

  /** From start-up, every run keeps polling tied to the presence of clients. */
  lemma PollingWhileConnected(events: seq<SocketEvent>)
    requires Run(Idle, events).Some?
    ensures Run(Idle, events).value.polling <==> Count(events, Connect) > Count(events, Disconnect)
  {
    RunConsistent(Idle, events);
  }

  /** The server's socket bookkeeping, updated by the connection and disconnection handlers. */
  class Lifecycle {
    var clients: nat
    var polling: bool

    predicate Valid()
      reads this
    {
      polling == (clients > 0)
    }

    constructor ()
      ensures clients == 0 && !polling && Valid()
    {
      clients := 0;
      polling := false;
    }

    method OnConnect() returns (action: LifecycleAction)
      requires Valid()
      modifies this
      ensures Valid()
      ensures (LifeState(clients, polling), action) == Step(LifeState(old(clients), old(polling)), Connect)
    {
      clients := clients + 1;
      if clients == 1 {
        polling := true;
        action := StartPolling;
      } else {
        action := SendCached;
      }
    }

    method OnDisconnect() returns (action: LifecycleAction)
      requires Valid() && clients > 0
      modifies this
      ensures Valid()
      ensures (LifeState(clients, polling), action) == Step(LifeState(old(clients), old(polling)), Disconnect)
    {
      clients := clients - 1;
      if clients == 0 {
        polling := false;
        action := StopPolling;
      } else {
        action := NoAction;
      }
    }
  }

  // ---------------------------------------------------------------------
  // The /jsonrpc route

  /** `replaceAll("'", "\"")`. */
  function ReplaceQuotes(s: string): (r: string)
    ensures |r| == |s|
    ensures forall i :: 0 <= i < |s| ==> r[i] == if s[i] == '\'' then '"' else s[i]
  {
    if s == [] then [] else [if s[0] == '\'' then '"' else s[0]] + ReplaceQuotes(s[1..])
  }

  /** After the replacement no single quote is left, so a second replacement changes nothing. */
  lemma ReplaceQuotesIdempotent(s: string)
    ensures forall i :: 0 <= i < |s| ==> ReplaceQuotes(s)[i] != '\''
    ensures ReplaceQuotes(ReplaceQuotes(s)) == ReplaceQuotes(s)
  {
  }

  /** The methods the utility module has a `jsonRPC_<method>` handler for. */
  predicate KnownMethod(name: string) {
    name == "SetSetting" || name == "GetSetting" || name == "SelectPage"
  }

  /** How the route classifies a request before any handler runs. */
  datatype Route =
    | Rejected              // 400, malformed or unknown command
    | Crashed               // an exception escapes the route: the framework answers 500
    | Dispatch(handler: string, params: Value)

  /** The `json` query parameter parses (after quote replacement) to a readable value. */
  predicate Parses(json: Option<string>, parse: string -> Option<Value>) {
    json.Some? && parse(ReplaceQuotes(json.value)).Some? && Readable(parse(ReplaceQuotes(json.value)).value)
  }

  /** The parsed request names version 2.0, a method, and a method that has a handler. */
  predicate WellFormed(request: Value)
    requires Readable(request)
  {
    LooseEqualsString(Field(request, "jsonrpc"), "2.0")
    && !Field(request, "method").Undefined?
    && KnownMethod(ToJsString(Field(request, "method")))
  }

  /**
   * The request checks. `parse` is JSON.parse, None where it throws. A missing
   * `json` parameter is rejected; a body that does not parse, or parses to
   * null, throws out of the route.
   */
  function CheckRequest(json: Option<string>, parse: string -> Option<Value>): (r: Route)
    ensures r.Dispatch? <==> Parses(json, parse) && WellFormed(parse(ReplaceQuotes(json.value)).value)
    ensures r.Crashed? <==> json.Some? && !Parses(json, parse)
    ensures r.Dispatch? ==> KnownMethod(r.handler)
    ensures r.Dispatch? ==> r.params == Field(parse(ReplaceQuotes(json.value)).value, "params")
  {
    match json
    case None => Rejected
    case Some(text) =>
      match parse(ReplaceQuotes(text))
      case None => Crashed
      case Some(request) =>
        if !Readable(request) then Crashed
        else if LooseEqualsString(Field(request, "jsonrpc"), "2.0") && !Field(request, "method").Undefined? then
          var name := ToJsString(Field(request, "method"));
          if KnownMethod(name) then Dispatch(name, Field(request, "params")) else Rejected
        else Rejected
  }

  /** `==` lets a numeric version through: `{"jsonrpc": 2}` passes the version check. */
  lemma NumericVersionAccepted()
    ensures LooseEqualsString(Num(2), "2.0")
  {
    assert TrimStart("2.0") == "2.0";
    assert TrimEnd("2.0") == "2.0";
    assert DigitPrefix("2.0") == "2";
    assert "2.0"[1..] == ".0";
    assert DecimalValue("2") == 2 by {
      assert "2"[..0] == "";
    }
  }

  /** What the route sends back. */
  datatype Response = Response(status: int, body: Content)

  const MalformedText := "Malformed or unknown JSON-RPC command received!"

  /**
   * The `/jsonrpc` route against the settings file. A dispatched handler's
   * code and content become the response; a handler that returns nothing
   * makes reading its result throw, which the route answers with 500.
   */
  method HandleJsonRpc(file: SettingsFile, json: Option<string>, parse: string -> Option<Value>)
    returns (response: Response, emit: Option<Emit>)
    modifies file
    ensures var route := CheckRequest(json, parse);
      && (route.Rejected? ==> response == Response(400, Message(MalformedText)) && emit == None)
      && (route.Crashed? ==> response.status == 500 && emit == None)
      && (!(route.Dispatch? && route.handler == "SetSetting") ==> file.content == old(file.content))
    ensures var route := CheckRequest(json, parse);
      route.Dispatch? && route.handler == "SetSetting" ==>
        var r := SetOutcome(old(file.content), route.params);
        response == Response(r.reply.code, r.reply.content) && file.content == r.file && emit == r.emit
    ensures var route := CheckRequest(json, parse);
      route.Dispatch? && route.handler == "GetSetting" ==>
        var r := GetReply(old(file.content), route.params);
        response == Response(r.code, r.content) && emit == None
    ensures var route := CheckRequest(json, parse);
      route.Dispatch? && route.handler == "SelectPage" ==>
        match SelectPage(route.params)
        case Some(p) => response == Response(p.reply.code, p.reply.content) && emit == Some(p.emit)
        case None => response == Response(500, EngineError("Error processing JSON-RPC command: ")) && emit == None
  {
    var route := CheckRequest(json, parse);
    match route
    case Rejected =>
      response, emit := Response(400, Message(MalformedText)), None;
    case Crashed =>
      response, emit := Response(500, EngineError("")), None;
    case Dispatch(name, params) =>
      if name == "SetSetting" {
        var reply;
        reply, emit := file.SetSetting(params);
        response := Response(reply.code, reply.content);
      } else if name == "GetSetting" {
        var reply := file.GetSetting(params);
        response, emit := Response(reply.code, reply.content), None;
      } else {
        var result := SelectPage(params);
        if result.None? {
          response, emit := Response(500, EngineError("Error processing JSON-RPC command: ")), None;
        } else {
          response, emit := Response(result.value.reply.code, result.value.reply.content), Some(result.value.emit);
        }
      }
  }
}
