/** The RTMP client protocol handler: the connection parameters it sends, the
    shared objects and per-stream data it keeps, the replies it writes to the
    server's control messages, and the calls it issues for the application.
    The decisions that depend only on their inputs are functions; the handler
    itself is a class whose methods update its tables and its connection. */
module RtmpClient {
  import opened JavaLang
  import opened RtmpValues
  import opened RtmpConnection

  /** The local read and write bandwidth windows; the handler never changes them. */
  const BYTES_READ_WINDOW: int32 := 2500000
  const BYTES_WRITTEN_WINDOW: int32 := 2500000

  const FLASH_VERSION: string := "WIN 11,2,202,235"

  /** The limit type carried by the client-bandwidth reply. */
  const CLIENT_BW_LIMIT_TYPE: int := 2

  /** The SWF verification response is a zeroed buffer of this many bytes. */
  const SWF_RESPONSE_SIZE: nat := 42

  const PLAY_STOP: string := "NetStreamPlayTransitions.STOP"
  const PLAY_RESET: string := "NetStreamPlayTransitions.RESET"

  // ---------------------------------------------------------------------------
  // Channels

  /** The data channel of a stream. Java computes it in `int`, so it wraps. */
  function ChannelForStreamId(streamId: int32): (channel: int32)
    ensures -429496729 <= streamId <= 429496729 ==> channel == (streamId - 1) * 5 + 4
    ensures (channel - ((streamId - 1) * 5 + 4)) % TWO32 == 0
  {
    Wrap32((streamId - 1) * 5 + 4)
  }

  /** Distinct streams never share a channel, even where the formula wraps:
      5 is odd, so multiplying by 5 is a bijection on 32-bit integers. */
  lemma {:induction false} ChannelForStreamIdInjective(s1: int32, s2: int32)
    requires ChannelForStreamId(s1) == ChannelForStreamId(s2)
    ensures s1 == s2
  {
    var a, b := (s1 - 1) * 5 + 4, (s2 - 1) * 5 + 4;
    var qa, qb := (a + 0x8000_0000) / TWO32, (b + 0x8000_0000) / TWO32;
    assert a + 0x8000_0000 == qa * TWO32 + (a + 0x8000_0000) % TWO32;
    assert b + 0x8000_0000 == qb * TWO32 + (b + 0x8000_0000) % TWO32;
    var d, k := s1 - s2, qa - qb;
    assert 5 * d == k * TWO32;
    // 0xCCCCCCCD is the inverse of 5 modulo 2^32: 5 * 0xCCCCCCCD == 4 * 2^32 + 1
    assert d == 0xCCCCCCCD * (5 * d) - 4 * TWO32 * d;
    assert d == TWO32 * (0xCCCCCCCD * k - 4 * d);
  }

  lemma FirstStreamChannels()
    ensures ChannelForStreamId(1) == 4 && ChannelForStreamId(2) == 9
  {
  }

  // ---------------------------------------------------------------------------
  // Connection parameters

  /** The parameters `connect` sends when the application gives none. */
  function DefaultConnectionParams(server: string, port: int32, application: string): (params: map<string, Value>)
    ensures params.Keys == {"app", "objectEncoding", "fpad", "flashVer", "audioCodecs", "videoFunction",
                            "pageUrl", "path", "capabilities", "swfUrl", "videoCodecs"}
    ensures params["app"] == params["path"] == VStr(application)
    ensures params["objectEncoding"] == VInt(0) && params["fpad"] == VBool(false)
    ensures params["flashVer"] == VStr(FLASH_VERSION)
    ensures params["audioCodecs"] == VInt(3575) && params["videoFunction"] == VInt(1)
    ensures params["capabilities"] == VInt(15) && params["videoCodecs"] == VInt(252)
    ensures params["pageUrl"] == VNull && params["swfUrl"] == VNull
  {
    map[
      "app" := VStr(application),
      "objectEncoding" := VInt(0),
      "fpad" := VBool(false),
      "flashVer" := VStr(FLASH_VERSION),
      "audioCodecs" := VInt(3575),
      "videoFunction" := VInt(1),
      "pageUrl" := VNull,
      "path" := VStr(application),
      "capabilities" := VInt(15),
      "swfUrl" := VNull,
      "videoCodecs" := VInt(252)
    ]
  }

  lemma DefaultConnectionParamsSize(server: string, port: int32, application: string)
    ensures |DefaultConnectionParams(server, port, application)| == 11
  {
    // the keys are pairwise distinct: count them in groups that differ in length
    var short := {"app", "fpad", "path"};
    var mid := {"swfUrl", "pageUrl", "flashVer"};
    var long := {"audioCodecs", "videoCodecs", "capabilities", "videoFunction", "objectEncoding"};
    assert |short| == 3 && |mid| == 3 && |long| == 5;
    assert short !! mid && (short + mid) !! long;
    assert DefaultConnectionParams(server, port, application).Keys == short + mid + long;
  }

  /** What `connect` keeps as its parameters: the caller's map, with an AMF0
      `objectEncoding` added when the key is absent. */
  function WithDefaultEncoding(params: map<string, Value>): (r: map<string, Value>)
    ensures r.Keys == params.Keys + {"objectEncoding"}
    ensures forall k :: k in params ==> r[k] == params[k]
    ensures "objectEncoding" !in params ==> r["objectEncoding"] == VInt(0)
  {
    if "objectEncoding" in params then params else params["objectEncoding" := VInt(0)]
  }

  /** Adding the default encoding twice is adding it once. */
  lemma WithDefaultEncodingIdempotent(params: map<string, Value>)
    ensures WithDefaultEncoding(WithDefaultEncoding(params)) == WithDefaultEncoding(params)
  {
  }

  /** The default parameters already carry an encoding, so connecting with
      them sends them unchanged. */
  lemma DefaultParamsHaveEncoding(server: string, port: int32, application: string)
    ensures WithDefaultEncoding(DefaultConnectionParams(server, port, application)) == DefaultConnectionParams(server, port, application)
  {
  }

  // ---------------------------------------------------------------------------
  // Control messages

  datatype Ping = Ping(eventType: PingType, value2: int32, value3: int32)

  /** The control message written in reply to a ping, given the clock in milliseconds. */
  function PingReply(eventType: PingType, clock: int): (reply: Option<Packet>)
    ensures (eventType.PingClient? || eventType.StreamBegin? || eventType.RecordedStream? || eventType.PlaybufferClear?)
            <==> (reply.Some? && reply.value.PingPacket?)
    ensures reply.Some? && reply.value.PingPacket? ==>
              reply.value.eventType == PongServer && (reply.value.value2 - clock) % TWO32 == 0
    ensures eventType.SwfVerify? <==> (reply.Some? && reply.value.SwfResponse?)
    ensures eventType.SwfVerify? ==> reply.value.bytes == seq(SWF_RESPONSE_SIZE, _ => 0)
    ensures (eventType.StreamDry? || eventType.ClientBuffer? || eventType.PongServer? || eventType.OtherPing?)
            <==> reply.None?
  {
    match eventType
    case PingClient | StreamBegin | RecordedStream | PlaybufferClear =>
      Some(PingPacket(PongServer, Wrap32(clock)))
    case SwfVerify =>
      Some(SwfResponse(seq(SWF_RESPONSE_SIZE, _ => 0)))
    case _ => None
  }

  /** The reply to a server-bandwidth message: a client-bandwidth message that
      echoes the announced bandwidth, unless it equals the read window. */
  function ServerBandwidthReply(announced: int32): (reply: Option<Packet>)
    ensures reply.Some? <==> announced != BYTES_READ_WINDOW
    ensures reply.Some? ==> reply.value == ClientBW(announced, CLIENT_BW_LIMIT_TYPE)
  {
    if announced != BYTES_READ_WINDOW then Some(ClientBW(announced, CLIENT_BW_LIMIT_TYPE)) else None
  }

  /** The reply to a client-bandwidth message: a server-bandwidth message that
      echoes the announced bandwidth, unless it equals the write window. */
  function ClientBandwidthReply(announced: int32): (reply: Option<Packet>)
    ensures reply.Some? <==> announced != BYTES_WRITTEN_WINDOW
    ensures reply.Some? ==> reply.value == ServerBW(announced)
  {
    if announced != BYTES_WRITTEN_WINDOW then Some(ServerBW(announced)) else None
  }

  /** The writes a reply makes on `channel`. */
  function WritesOf(channel: int, reply: Option<Packet>): (w: seq<Outbound>)
    ensures |w| <= 1
    ensures reply.Some? ==> w == [Outbound(channel, reply.value)]
    ensures reply.None? ==> w == []
  {
    if reply.Some? then [Outbound(channel, reply.value)] else []
  }

  // ---------------------------------------------------------------------------
  // Shared objects

  /** A client shared object; there is at most one per name, so the name identifies it. */
  datatype SharedObject = SharedObject(name: string, persistent: bool)

  datatype SharedObjectMessage = SharedObjectMessage(name: string, persistent: bool, events: seq<nat>)

  /** A request for a shared object against the registry (name to persistence
      flag): the object returned or the error raised, and the new registry. */
  function SharedObjectRequest(registry: map<string, bool>, name: string, persistent: bool)
    : (r: (Result<SharedObject>, map<string, bool>))
    ensures name in registry && registry[name] == persistent ==> r == (Ok(SharedObject(name, persistent)), registry)
    ensures name in registry && registry[name] != persistent ==> r == (Err(PersistenceConflict), registry)
    ensures name !in registry ==> r == (Ok(SharedObject(name, persistent)), registry[name := persistent])
    ensures r.1.Keys == registry.Keys + {name}
  {
    if name in registry then
      (if registry[name] == persistent then Ok(SharedObject(name, persistent)) else Err(PersistenceConflict), registry)
    else
      (Ok(SharedObject(name, persistent)), registry[name := persistent])
  }

  /** Asking twice with the same flag gives the same object and leaves the
      registry as the first request left it; asking again with the other flag
      fails and changes nothing. */
  lemma SharedObjectRequestTwice(registry: map<string, bool>, name: string, persistent: bool)
    ensures var (first, after) := SharedObjectRequest(registry, name, persistent);
            first.Ok? ==> SharedObjectRequest(after, name, persistent) == (first, after)
    ensures var (first, after) := SharedObjectRequest(registry, name, persistent);
            first.Ok? ==> SharedObjectRequest(after, name, !persistent) == (Err(PersistenceConflict), after)
  {
  }

  // ---------------------------------------------------------------------------
  // Streams and onStatus routing

  /** Per-stream private data: the application's event handler, the output
      stream and the connection consumer (both identified by the stream id). */
  datatype StreamData = StreamData(handler: Option<nat>, outputStream: Option<int>, consumer: Option<int>)

  /** The data installed when the server reports a new stream. */
  function NewStreamData(streamId: int): (d: StreamData)
    ensures d.handler.None? && d.outputStream == Some(streamId) && d.consumer == Some(streamId)
  {
    StreamData(None, Some(streamId), Some(streamId))
  }

  /** Looking up a value in the stream-data map, whose keys are Integers: only
      an Integer that is a key finds anything. */
  function LookupStreamData(streamData: map<int, StreamData>, key: Value): (r: Option<StreamData>)
    ensures r.Some? <==> key.VInt? && key.i in streamData
    ensures r.Some? ==> r.value == streamData[key.i]
  {
    if key.VInt? && key.i in streamData then Some(streamData[key.i]) else None
  }

  /** The client id an onStatus event is for: its "clientid" entry, or the
      stream id of the message header when there is none (or it is null). */
  function ResolveClientId(status: map<string, Value>, headerStreamId: int32): (id: Value)
    ensures Get(status, "clientid") != VNull ==> id == status["clientid"]
    ensures Get(status, "clientid") == VNull ==> id == VInt(headerStreamId)
    ensures id != VNull
  {
    var clientId := Get(status, "clientid");
    if clientId != VNull then clientId else VInt(headerStreamId)
  }

  /** The stream data an onStatus event is routed to: the client id's, or else stream 1's. */
  function StatusStreamData(streamData: map<int, StreamData>, status: map<string, Value>, headerStreamId: int32)
    : (r: Option<StreamData>)
    ensures LookupStreamData(streamData, ResolveClientId(status, headerStreamId)).Some? ==>
              r == LookupStreamData(streamData, ResolveClientId(status, headerStreamId))
    ensures LookupStreamData(streamData, ResolveClientId(status, headerStreamId)).None? ==>
              r == LookupStreamData(streamData, VInt(1))
  {
    var direct := LookupStreamData(streamData, ResolveClientId(status, headerStreamId));
    if direct.Some? then direct else LookupStreamData(streamData, VInt(1))
  }

  /** The three steps of the routing, each taken only when the earlier ones find nothing. */
  lemma StatusRoutingOrder(streamData: map<int, StreamData>, status: map<string, Value>, headerStreamId: int32)
    ensures Get(status, "clientid").VInt? && Get(status, "clientid").i in streamData ==>
              StatusStreamData(streamData, status, headerStreamId) == Some(streamData[Get(status, "clientid").i])
    ensures Get(status, "clientid") == VNull && headerStreamId in streamData ==>
              StatusStreamData(streamData, status, headerStreamId) == Some(streamData[headerStreamId])
    ensures Get(status, "clientid") == VNull && headerStreamId !in streamData ==>
              StatusStreamData(streamData, status, headerStreamId) == LookupStreamData(streamData, VInt(1))
    // a client id that is not an Integer (a Double, a String) skips the header id and goes to stream 1
    ensures Get(status, "clientid") != VNull && !Get(status, "clientid").VInt? ==>
              StatusStreamData(streamData, status, headerStreamId) == LookupStreamData(streamData, VInt(1))
  {
  }

  // ---------------------------------------------------------------------------
  // play2

  /** `(String) o`: a string, null, or a ClassCastException. */
  function StringCast(o: Value): (r: Result<Option<string>>)
    ensures o.VStr? ==> r == Ok(Some(o.s))
    ensures o.VNull? ==> r == Ok(None)
    ensures !(o.VStr? || o.VNull?) ==> r == Err(ClassCast)
  {
    match o
    case VStr(s) => Ok(Some(s))
    case VNull => Ok(None)
    case _ => Err(ClassCast)
  }

  /** `o instanceof Integer ? (Integer) o : Integer.valueOf((String) o)`, with
      `parse` standing for `Integer.valueOf` on strings (None: not a number). */
  function IntegerOption(o: Value, parse: string -> Option<int32>): (r: Result<int32>)
    ensures o.VInt? ==> r == Ok(o.i)
    ensures o.VStr? && parse(o.s).Some? ==> r == Ok(parse(o.s).value)
    ensures o.VStr? && parse(o.s).None? ==> r == Err(NumberFormat)
    ensures o.VNull? ==> r == Err(NumberFormat)
    ensures !(o.VInt? || o.VStr? || o.VNull?) ==> r == Err(ClassCast)
  {
    match o
    case VInt(i) => Ok(i)
    case VStr(s) => if parse(s).Some? then Ok(parse(s).value) else Err(NumberFormat)
    case VNull => Err(NumberFormat)
    case _ => Err(ClassCast)
  }

  /** A call that play2 sends on the stream's channel. */
  datatype StreamCall = StreamCall(methodName: string, args: seq<Value>)

  /** The call play2 sends for a transition (already cast to a string), or
      none, or the exception it raises while building the arguments. `show`
      stands for `toString` on a stream name that is not a String. */
  function Play2Call(transition: Option<string>, options: map<string, Value>,
                     parse: string -> Option<int32>, show: Value -> string): (r: Result<Option<StreamCall>>)
    ensures transition == Some(PLAY_STOP) ==> r == Ok(Some(StreamCall("play", [VBool(false)])))
    ensures transition == Some(PLAY_RESET) ==> r == Ok(None)
    ensures transition != Some(PLAY_STOP) && transition != Some(PLAY_RESET) ==>
              (r.Err? <==> Get(options, "streamName") == VNull
                             || IntegerOption(Get(options, "start"), parse).Err?
                             || IntegerOption(Get(options, "len"), parse).Err?)
    ensures transition != Some(PLAY_STOP) && transition != Some(PLAY_RESET) && r.Ok? ==>
              r.value.Some? && r.value.value.methodName == "play2" && |r.value.value.args| == 6
              && r.value.value.args[0] == VStr(var n := Get(options, "streamName"); if n.VStr? then n.s else show(n))
              && r.value.value.args[1] == VInt(IntegerOption(Get(options, "start"), parse).value)
              && r.value.value.args[2] == VInt(IntegerOption(Get(options, "len"), parse).value)
              && r.value.value.args[3] == (if transition.Some? then VStr(transition.value) else VNull)
              && r.value.value.args[4] == Get(options, "offset")
              && r.value.value.args[5] == Get(options, "oldStreamName")
  {
    if transition == Some(PLAY_STOP) then
      Ok(Some(StreamCall("play", [VBool(false)])))
    else if transition == Some(PLAY_RESET) then
      Ok(None)
    else
      var name := Get(options, "streamName");
      if name == VNull then Err(NullPointer)
      else
        var start := IntegerOption(Get(options, "start"), parse);
        if start.Err? then Err(start.failure)
        else
          var len := IntegerOption(Get(options, "len"), parse);
          if len.Err? then Err(len.failure)
          else
            var args := [VStr(if name.VStr? then name.s else show(name)), VInt(start.value), VInt(len.value),
                         if transition.Some? then VStr(transition.value) else VNull,
                         Get(options, "offset"), Get(options, "oldStreamName")];
            Ok(Some(StreamCall("play2", args)))
  }

  /** The exception play2 raises while building its arguments, in the order it builds them. */
  lemma Play2FailureOrder(transition: Option<string>, options: map<string, Value>,
                          parse: string -> Option<int32>, show: Value -> string)
    requires transition != Some(PLAY_STOP) && transition != Some(PLAY_RESET)
    ensures Get(options, "streamName") == VNull ==> Play2Call(transition, options, parse, show) == Err(NullPointer)
    ensures Get(options, "streamName") != VNull && IntegerOption(Get(options, "start"), parse).Err? ==>
              Play2Call(transition, options, parse, show) == Err(IntegerOption(Get(options, "start"), parse).failure)
    ensures Get(options, "streamName") != VNull && IntegerOption(Get(options, "start"), parse).Ok?
            && IntegerOption(Get(options, "len"), parse).Err? ==>
              Play2Call(transition, options, parse, show) == Err(IntegerOption(Get(options, "len"), parse).failure)
  {
  }

  // ---------------------------------------------------------------------------
  // Inbound invokes

  /** An inbound invoke or notify: `isInvoke` when its call is a pending service
      call (an Invoke), `isStreamData` when it is a notify of type stream data. */
  datatype InboundCall = InboundCall(isInvoke: bool, isStreamData: bool, invokeId: int, methodName: string, args: seq<Value>)

  /** What the reflective service invoker leaves in a call: its status, its
      result, and whether that result is a deferred result. */
  datatype ServiceReply = ServiceReply(status: CallStatus, result: Value, deferred: bool)

  /** What a result or error message does to the call it completes: the first argument, if any, becomes its result. */
  function CompletedCall(call: PendingCall, args: seq<Value>): (c: PendingCall)
    ensures c.methodName == call.methodName && c.args == call.args && c.callback == call.callback && c.status == call.status
    ensures c.result == if |args| > 0 then args[0] else call.result
  {
    if |args| > 0 then call.(result := args[0]) else call
  }

  /** The call as it stands after local dispatch: "method not found" when no
      service provider is registered, else what the service invoker left in it. */
  function DispatchedCall(msg: InboundCall, hasProvider: bool, service: ServiceReply): (c: PendingCall)
    ensures c.methodName == msg.methodName && c.args == Some(msg.args) && c.callback.None?
    ensures !hasProvider ==> c.status == MethodNotFound && c.result == VNull
    ensures hasProvider ==> c.status == service.status && c.result == service.result
  {
    if hasProvider then PendingCall(msg.methodName, Some(msg.args), service.status, service.result, None)
    else PendingCall(msg.methodName, Some(msg.args), MethodNotFound, VNull, None)
  }

  /** What follows local dispatch of an inbound call. */
  datatype Reply = SendReply | RegisterDeferred | MarkBandwidthDone | NoReply

  /** A notify gets nothing back; an invoke whose result is deferred is
      registered for later; onStatus gets no reply; onBWDone only marks the
      bandwidth check done; everything else, onBWCheck included, gets a reply. */
  function ReplyFor(isInvoke: bool, methodName: string, deferred: bool): (r: Reply)
    ensures r == SendReply <==> isInvoke && !deferred && methodName != "onStatus" && methodName != "onBWDone"
    ensures r == RegisterDeferred <==> isInvoke && deferred
    ensures r == MarkBandwidthDone <==> isInvoke && !deferred && methodName == "onBWDone"
    ensures r == NoReply <==> !isInvoke || (!deferred && methodName == "onStatus")
  {
    if !isInvoke then NoReply
    else if deferred then RegisterDeferred
    else if methodName == "onStatus" then NoReply
    else if methodName == "onBWDone" then MarkBandwidthDone
    else SendReply
  }

  lemma BandwidthCheckReplies(deferred: bool)
    ensures ReplyFor(true, "onBWCheck", false) == SendReply
    ensures ReplyFor(true, "onBWDone", false) == MarkBandwidthDone
    ensures ReplyFor(false, "onBWCheck", deferred) == NoReply
  {
  }

  /** Application-side effects: calls the handler makes into collaborators whose code is not modelled. */
  datatype Effect =
    | ConnectorStarted(server: string, port: int32)
    | CallbackInvoked(callback: nat, call: PendingCall)
    | SharedObjectEventDispatched(soMessage: SharedObjectMessage)
    | StreamEventForwarded(handler: nat, invoke: InboundCall)
    | MessagePushed(consumer: int, message: nat)
    | ServiceInvoked(methodName: string, args: seq<Value>)
    | ExceptionHandled(throwable: nat)

  // ---------------------------------------------------------------------------
  // Pending-call results and callbacks

  /** A result for the "connect" call switches the wire encoding to AMF3 when
      the connection parameters asked for it: Ok(true) switches, Ok(false)
      leaves the encoding, an error is what the lookup and the cast raise. */
  function ConnectResultEncoding(params: Option<map<string, Value>>): (r: Result<bool>)
    ensures params.None? ==> r == Err(NullPointer)
    ensures params.Some? && Get(params.value, "objectEncoding").VNull? ==> r == Ok(false)
    ensures params.Some? && Get(params.value, "objectEncoding").VInt? ==> r == Ok(Get(params.value, "objectEncoding").i == 3)
    ensures params.Some? && !(Get(params.value, "objectEncoding").VNull? || Get(params.value, "objectEncoding").VInt?) ==>
              r == Err(ClassCast)
  {
    if params.None? then Err(NullPointer)
    else
      match Get(params.value, "objectEncoding")
      case VNull => Ok(false)
      case VInt(e) => Ok(e == 3)
      case _ => Err(ClassCast)
  }

  /** Default connection parameters never switch the encoding; an explicit 3 does. */
  lemma ConnectResultEncodingCases(server: string, port: int32, application: string, params: map<string, Value>)
    ensures ConnectResultEncoding(Some(DefaultConnectionParams(server, port, application))) == Ok(false)
    ensures ConnectResultEncoding(Some(params["objectEncoding" := VInt(3)])) == Ok(true)
  {
  }

  /** Whether delivering `call` to `cb` throws: the createStream wrapper casts the result to Integer. */
  function DeliveryOutcome(cb: Callback, call: PendingCall): (o: Outcome)
    ensures o.Thrown? <==> cb.CreateStreamCallback? && !(call.result.VInt? || call.result.VNull?)
    ensures o.Thrown? ==> o.failure == ClassCast
  {
    if cb.CreateStreamCallback? && !(call.result.VInt? || call.result.VNull?) then Thrown(ClassCast) else Done
  }

  /** The call a callback receives when there is no connection. */
  function NotConnectedCall(methodName: string, params: Option<seq<Value>>): (c: PendingCall)
    ensures c.methodName == methodName && c.args == params && c.status == NotConnected
    ensures c.result == VNull && c.callback.None?
  {
    NewCall(methodName, params, None).(status := NotConnected)
  }

  /** A call refused for want of a connection reaches its callback without throwing. */
  lemma NotConnectedDeliveryNeverThrows(cb: Callback, methodName: string, params: Option<seq<Value>>)
    ensures DeliveryOutcome(cb, NotConnectedCall(methodName, params)) == Done
  {
  }

  /** What an onStatus event does: the handler of the stream it routes to, if
      any, receives the event; a status argument that is missing, null or not
      a map raises the exception the cast or the lookup raises. */
  function OnStatusEffects(streamData: map<int, StreamData>, msg: InboundCall, headerStreamId: int32)
    : (r: Result<seq<Effect>>)
    ensures |msg.args| == 0 ==> r == Err(IndexOutOfBounds)
    ensures |msg.args| > 0 && msg.args[0].VNull? ==> r == Err(NullPointer)
    ensures |msg.args| > 0 && !(msg.args[0].VNull? || msg.args[0].VObjectMap?) ==> r == Err(ClassCast)
    ensures |msg.args| > 0 && msg.args[0].VObjectMap? ==>
              var target := StatusStreamData(streamData, msg.args[0].entries, headerStreamId);
              && r.Ok?
              && (target.Some? && target.value.handler.Some? ==> r.value == [StreamEventForwarded(target.value.handler.value, msg)])
              && (!(target.Some? && target.value.handler.Some?) ==> r.value == [])
  {
    if |msg.args| == 0 then Err(IndexOutOfBounds)
    else
      match msg.args[0]
      case VNull => Err(NullPointer)
      case VObjectMap(status) =>
        var target := StatusStreamData(streamData, status, headerStreamId);
        if target.Some? && target.value.handler.Some? then Ok([StreamEventForwarded(target.value.handler.value, msg)])
        else Ok([])
      case _ => Err(ClassCast)
  }

  /** `_result` and `_error` complete a pending call. */
  predicate IsResultMethod(methodName: string) {
    methodName == "_result" || methodName == "_error"
  }
}
