/** The RTMP client handler itself: the state it keeps between messages (the
    connection parameters and callback of the next "connect", the registered
    collaborators, the shared objects, the per-stream data and the connection)
    and the operations that update it. Application-side effects (callbacks,
    stream handlers, the service provider, the connector) are appended to
    `effects` in the order the handler makes them. */
module RtmpClientHandler {
  import opened JavaLang
  import opened RtmpValues
  import opened RtmpConnection
  import opened RtmpClient

  class ClientHandler {
    var connectionParams: Option<map<string, Value>>
    var connectArguments: Option<seq<Value>>
    var connectCallback: Option<Callback>
    var hasServiceProvider: bool
    var hasExceptionHandler: bool
    /** The client shared objects by name, each with its persistence flag. */
    var sharedObjects: map<string, bool>
    var streamDataMap: map<int, StreamData>
    var conn: Connection?
    var bandwidthCheckDone: bool
    var effects: seq<Effect>

    constructor ()
      ensures connectionParams.None? && connectArguments.None? && connectCallback.None?
      ensures !hasServiceProvider && !hasExceptionHandler
      ensures sharedObjects == map[] && streamDataMap == map[]
      ensures conn == null && !bandwidthCheckDone && effects == []
    {
      connectionParams, connectArguments, connectCallback := None, None, None;
      hasServiceProvider, hasExceptionHandler := false, false;
      sharedObjects, streamDataMap := map[], map[];
      conn := null;
      bandwidthCheckDone := false;
      effects := [];
    }

    method SetConnection(c: Connection?)
      modifies this`conn
      ensures conn == c
    {
      conn := c;
    }

    method SetServiceProvider(present: bool)
      modifies this`hasServiceProvider
      ensures hasServiceProvider == present
    {
      hasServiceProvider := present;
    }

    method SetExceptionHandler(present: bool)
      modifies this`hasExceptionHandler
      ensures hasExceptionHandler == present
    {
      hasExceptionHandler := present;
    }

    // -------------------------------------------------------------------------
    // Frame predicates

    /** Neither the connection's stream table nor its remembered buffers changed. */
    twostate predicate StreamTablesUnchanged()
      reads this, conn
    {
      conn == old(conn) && (conn != null ==> conn.streams == old(conn.streams) && conn.rememberedBuffers == old(conn.rememberedBuffers))
    }

    /** What one delivery of `call` to `cb` did: a delivery that throws changes
        nothing; otherwise the application's callback received the call, after
        the createStream wrapper installed the new stream when the result is a
        stream id and there is a connection. */
    twostate predicate DeliveredTo(cb: Callback, call: PendingCall)
      reads this, conn
    {
      if DeliveryOutcome(cb, call).Thrown? then
        effects == old(effects) && streamDataMap == old(streamDataMap) && StreamTablesUnchanged()
      else
        && effects == old(effects) + [CallbackInvoked(cb.Target(), call)]
        && conn == old(conn)
        && if cb.CreateStreamCallback? && call.result.VInt? && conn != null then
             && streamDataMap == old(streamDataMap)[call.result.i := NewStreamData(call.result.i)]
             && conn.streams == old(conn.streams)[call.result.i := BufferFor(old(conn.rememberedBuffers), call.result.i)]
             && conn.rememberedBuffers == old(conn.rememberedBuffers) - {call.result.i}
           else
             streamDataMap == old(streamDataMap) && StreamTablesUnchanged()
    }

    /** The connection registered `call` under the next invocation id, wrote it
        on `channel`, and changed nothing else. */
    twostate predicate SentOn(call: PendingCall, channel: int)
      reads this, conn
    {
      && conn != null && conn == old(conn)
      && conn.ChangedOnly({PendingCalls, InvokeIds, Writes})
      && conn.lastInvokeId == old(conn.lastInvokeId) + 1
      && conn.pendingCalls == old(conn.pendingCalls)[conn.lastInvokeId := call]
      && conn.writes == old(conn.writes) + [Outbound(channel, InvokePacket(conn.lastInvokeId, call, None))]
    }

    /** The connection, if any, is as it was. */
    twostate predicate ConnUnchanged()
      reads this, conn
    {
      conn == old(conn) && (conn != null ==> conn.ChangedOnly({}))
    }

    // -------------------------------------------------------------------------
    // Connecting

    /** Keeps the parameters, arguments and callback of the "connect" call and
        starts the connector. Null parameters fail on first use, before
        anything is kept. */
    method Connect(server: string, port: int32, params: Option<map<string, Value>>, callback: Option<Callback>,
                   args: Option<seq<Value>>) returns (outcome: Outcome)
      modifies this`connectionParams, this`connectArguments, this`connectCallback, this`effects
      ensures params.None? ==>
                && outcome == Thrown(NullPointer)
                && connectionParams == old(connectionParams) && connectArguments == old(connectArguments)
                && connectCallback == old(connectCallback) && effects == old(effects)
      ensures params.Some? ==>
                && outcome == Done
                && connectionParams == Some(WithDefaultEncoding(params.value))
                && connectArguments == args && connectCallback == callback
                && effects == old(effects) + [ConnectorStarted(server, port)]
    {
      if params.None? {
        return Thrown(NullPointer);
      }
      connectionParams := params;
      connectArguments := args;
      if "objectEncoding" !in params.value {
        connectionParams := Some(params.value["objectEncoding" := VInt(0)]);
      }
      connectCallback := callback;
      effects := effects + [ConnectorStarted(server, port)];
      outcome := Done;
    }

    /** Connects to an application with the default parameters and no "connect" arguments. */
    method ConnectToApplication(server: string, port: int32, application: string, callback: Option<Callback>)
      modifies this`connectionParams, this`connectArguments, this`connectCallback, this`effects
      ensures connectionParams == Some(DefaultConnectionParams(server, port, application))
      ensures connectArguments.None? && connectCallback == callback
      ensures effects == old(effects) + [ConnectorStarted(server, port)]
    {
      var _ := Connect(server, port, Some(DefaultConnectionParams(server, port, application)), callback, None);
      DefaultParamsHaveEncoding(server, port, application);
    }

    /** Once the connection is open: registers the "connect" call under
        invocation id 1 and writes it, with the connection parameters, on the
        invoke channel. */
    method ConnectionOpened(c: Connection)
      modifies c`pendingCalls, c`writes
      ensures c.pendingCalls == old(c.pendingCalls)[1 := NewCall("connect", connectArguments, connectCallback)]
      ensures c.writes == old(c.writes) + [Outbound(INVOKE_CHANNEL, InvokePacket(1, NewCall("connect", connectArguments, connectCallback), connectionParams))]
      ensures old(c.IdsIssued()) ==> c.IdsIssued()
    {
      var call := NewCall("connect", connectArguments, connectCallback);
      c.RegisterPendingCall(1, call);
      c.Write(INVOKE_CHANNEL, InvokePacket(1, call, connectionParams));
    }

    // -------------------------------------------------------------------------
    // Shared objects and control messages

    method GetSharedObject(name: string, persistent: bool) returns (r: Result<SharedObject>)
      modifies this`sharedObjects
      ensures (r, sharedObjects) == SharedObjectRequest(old(sharedObjects), name, persistent)
    {
      if name in sharedObjects {
        if sharedObjects[name] != persistent {
          return Err(PersistenceConflict);
        }
        return Ok(SharedObject(name, persistent));
      }
      sharedObjects := sharedObjects[name := persistent];
      r := Ok(SharedObject(name, persistent));
    }

    /** A shared-object message reaches the shared object of its name, unless
        there is none or its persistence differs. */
    method OnSharedObject(msg: SharedObjectMessage)
      modifies this`effects
      ensures msg.name in sharedObjects && sharedObjects[msg.name] == msg.persistent ==>
                effects == old(effects) + [SharedObjectEventDispatched(msg)]
      ensures !(msg.name in sharedObjects && sharedObjects[msg.name] == msg.persistent) ==> effects == old(effects)
    {
      if msg.name !in sharedObjects {
        return;
      }
      if sharedObjects[msg.name] != msg.persistent {
        return;
      }
      effects := effects + [SharedObjectEventDispatched(msg)];
    }

    /** The announced chunk size becomes both the read and the write chunk size. */
    method OnChunkSize(c: Connection, size: int32)
      modifies c`readChunkSize, c`writeChunkSize
      ensures c.readChunkSize == size && c.writeChunkSize == size
    {
      c.SetChunkSizes(size, size);
    }

    /** Answers a ping (`clock` is the time in milliseconds); a client-buffer
        ping sets the buffer of an existing stream, or else remembers it for
        the stream id. */
    method OnPing(c: Connection, ping: Ping, clock: int)
      modifies c`writes, c`streams, c`rememberedBuffers
      ensures c.writes == old(c.writes) + WritesOf(CONTROL_CHANNEL, PingReply(ping.eventType, clock))
      ensures ping.eventType.ClientBuffer? && ping.value2 != 0 && ping.value2 in old(c.streams) ==>
                c.streams == old(c.streams)[ping.value2 := ping.value3] && c.rememberedBuffers == old(c.rememberedBuffers)
      ensures ping.eventType.ClientBuffer? && !(ping.value2 != 0 && ping.value2 in old(c.streams)) ==>
                c.rememberedBuffers == old(c.rememberedBuffers)[ping.value2 := ping.value3] && c.streams == old(c.streams)
      ensures !ping.eventType.ClientBuffer? ==> c.streams == old(c.streams) && c.rememberedBuffers == old(c.rememberedBuffers)
    {
      match ping.eventType
      case PingClient | StreamBegin | RecordedStream | PlaybufferClear =>
        c.Ping(PingPacket(PongServer, Wrap32(clock)));
      case ClientBuffer =>
        var streamId, buffer := ping.value2, ping.value3;
        var found := false;
        if streamId != 0 {
          if streamId in c.streams {
            c.SetClientBufferDuration(streamId, buffer);
            found := true;
          }
        }
        if !found {
          c.RememberStreamBufferDuration(streamId, buffer);
        }
      case SwfVerify =>
        c.Ping(SwfResponse(seq(SWF_RESPONSE_SIZE, _ => 0)));
      case _ =>
    }

    method OnServerBandwidth(c: Connection, channel: int, bandwidth: int32)
      modifies c`writes
      ensures c.writes == old(c.writes) + WritesOf(channel, ServerBandwidthReply(bandwidth))
    {
      if bandwidth != BYTES_READ_WINDOW {
        c.Write(channel, ClientBW(bandwidth, CLIENT_BW_LIMIT_TYPE));
      }
    }

    method OnClientBandwidth(c: Connection, channel: int, bandwidth: int32)
      modifies c`writes
      ensures c.writes == old(c.writes) + WritesOf(channel, ClientBandwidthReply(bandwidth))
    {
      if bandwidth != BYTES_WRITTEN_WINDOW {
        c.Write(channel, ServerBW(bandwidth));
      }
    }

    // -------------------------------------------------------------------------
    // Calls to the server

    /** Delivers a completed call to a callback; the createStream wrapper casts
        the result to a stream id and, with a connection, installs the stream
        before passing the call on. */
    method Deliver(cb: Callback, call: PendingCall) returns (outcome: Outcome)
      modifies this`effects, this`streamDataMap, conn
      ensures outcome == DeliveryOutcome(cb, call)
      ensures DeliveredTo(cb, call)
      ensures conn != null ==> conn.ChangedOnly({Streams, RememberedBuffers})
    {
      if cb.UserCallback? {
        effects := effects + [CallbackInvoked(cb.id, call)];
        return Done;
      }
      if !(call.result.VInt? || call.result.VNull?) {
        return Thrown(ClassCast);
      }
      if conn != null && call.result.VInt? {
        var streamId := call.result.i;
        conn.AddClientStream(streamId);
        streamDataMap := streamDataMap[streamId := NewStreamData(streamId)];
      }
      effects := effects + [CallbackInvoked(cb.wrapped, call)];
      outcome := Done;
    }

    /** Invokes a method on the server; without a connection the callback
        receives the call marked "not connected", and there must be one. */
    method InvokeWithParams(methodName: string, params: Option<seq<Value>>, callback: Option<Callback>) returns (outcome: Outcome)
      modifies this`effects, this`streamDataMap, conn
      ensures conn == old(conn) && streamDataMap == old(streamDataMap)
      ensures conn != null ==> outcome == Done && effects == old(effects) && SentOn(NewCall(methodName, params, callback), INVOKE_CHANNEL)
      ensures conn == null && callback.None? ==> outcome == Thrown(NullPointer) && effects == old(effects)
      ensures conn == null && callback.Some? ==>
                outcome == Done && effects == old(effects) + [CallbackInvoked(callback.value.Target(), NotConnectedCall(methodName, params))]
    {
      if conn != null {
        var _ := conn.Invoke(NewCall(methodName, params, callback), INVOKE_CHANNEL);
        return Done;
      }
      if callback.None? {
        return Thrown(NullPointer);
      }
      outcome := Deliver(callback.value, NotConnectedCall(methodName, params));
    }

    /** Invokes a method with no parameters. */
    method InvokeMethod(methodName: string, callback: Option<Callback>) returns (outcome: Outcome)
      modifies this`effects, this`streamDataMap, conn
      ensures conn == old(conn) && streamDataMap == old(streamDataMap)
      ensures conn != null ==> outcome == Done && effects == old(effects) && SentOn(NewCall(methodName, None, callback), INVOKE_CHANNEL)
      ensures conn == null && callback.None? ==> outcome == Thrown(NullPointer) && effects == old(effects)
      ensures conn == null && callback.Some? ==>
                outcome == Done && effects == old(effects) + [CallbackInvoked(callback.value.Target(), NotConnectedCall(methodName, None))]
    {
      outcome := InvokeWithParams(methodName, None, callback);
    }

    /** Asks the server for a stream; the callback is wrapped so that the new
        stream is installed when the result arrives. A missing callback fails
        while the wrapper is built. */
    method CreateStream(callback: Option<nat>) returns (outcome: Outcome)
      modifies this`effects, this`streamDataMap, conn
      ensures conn == old(conn) && streamDataMap == old(streamDataMap)
      ensures callback.None? ==> outcome == Thrown(NullPointer) && effects == old(effects) && ConnUnchanged()
      ensures callback.Some? && conn != null ==>
                outcome == Done && effects == old(effects)
                && SentOn(NewCall("createStream", None, Some(CreateStreamCallback(callback.value))), INVOKE_CHANNEL)
      ensures callback.Some? && conn == null ==>
                outcome == Done && effects == old(effects) + [CallbackInvoked(callback.value, NotConnectedCall("createStream", None))]
    {
      if callback.None? {
        return Thrown(NullPointer);
      }
      outcome := InvokeWithParams("createStream", None, Some(CreateStreamCallback(callback.value)));
    }

    /** Publishes on a stream and, when a handler is given and the stream is
        known, makes it the stream's event handler. There must be a connection. */
    method Publish(streamId: int32, name: string, mode: string, handler: Option<nat>) returns (outcome: Outcome)
      modifies this`streamDataMap, conn
      ensures conn == old(conn)
      ensures conn == null ==> outcome == Thrown(NullPointer) && streamDataMap == old(streamDataMap)
      ensures conn != null ==>
                outcome == Done && SentOn(NewCall("publish", Some([VStr(name), VStr(mode)]), None), ChannelForStreamId(streamId))
      ensures conn != null && handler.Some? && streamId in old(streamDataMap) ==>
                streamDataMap == old(streamDataMap)[streamId := old(streamDataMap)[streamId].(handler := handler)]
      ensures !(conn != null && handler.Some? && streamId in old(streamDataMap)) ==> streamDataMap == old(streamDataMap)
    {
      if conn == null {
        return Thrown(NullPointer);
      }
      var _ := conn.Invoke(NewCall("publish", Some([VStr(name), VStr(mode)]), None), ChannelForStreamId(streamId));
      if handler.Some? && streamId in streamDataMap {
        streamDataMap := streamDataMap[streamId := streamDataMap[streamId].(handler := handler)];
      }
      outcome := Done;
    }

    /** Stops publishing on a stream. There must be a connection. */
    method Unpublish(streamId: int32) returns (outcome: Outcome)
      modifies conn
      ensures conn == old(conn)
      ensures conn == null ==> outcome == Thrown(NullPointer)
      ensures conn != null ==> outcome == Done && SentOn(NewCall("publish", Some([VBool(false)]), None), ChannelForStreamId(streamId))
    {
      if conn == null {
        return Thrown(NullPointer);
      }
      var _ := conn.Invoke(NewCall("publish", Some([VBool(false)]), None), ChannelForStreamId(streamId));
      outcome := Done;
    }

    /** Hands a message to the connection consumer of a stream, if it has one. */
    method PublishStreamData(streamId: int32, message: nat)
      modifies this`effects
      ensures streamId in streamDataMap && streamDataMap[streamId].consumer.Some? ==>
                effects == old(effects) + [MessagePushed(streamDataMap[streamId].consumer.value, message)]
      ensures !(streamId in streamDataMap && streamDataMap[streamId].consumer.Some?) ==> effects == old(effects)
    {
      if streamId in streamDataMap && streamDataMap[streamId].consumer.Some? {
        effects := effects + [MessagePushed(streamDataMap[streamId].consumer.value, message)];
      }
    }

    /** Plays a stream; without a connection it does nothing. */
    method Play(streamId: int32, name: string, start: int32, length: int32)
      modifies conn
      ensures conn == old(conn)
      ensures conn != null ==>
                SentOn(NewCall("play", Some([VStr(name), VInt(start), VInt(length)]), None), ChannelForStreamId(streamId))
    {
      if conn != null {
        var _ := conn.Invoke(NewCall("play", Some([VStr(name), VInt(start), VInt(length)]), None), ChannelForStreamId(streamId));
      }
    }

    /** Dynamic streaming play: null options fail at once (they are logged
        before anything else); the transition option is cast to a string next,
        connection or not; with a connection, the call built from the options,
        if any, is sent on the stream's channel. */
    method Play2(streamId: int32, playOptions: Option<map<string, Value>>, parse: string -> Option<int32>, show: Value -> string)
      returns (outcome: Outcome)
      modifies conn
      ensures conn == old(conn)
      ensures playOptions.None? ==> outcome == Thrown(NullPointer) && ConnUnchanged()
      ensures playOptions.Some? && StringCast(Get(playOptions.value, "transition")).Err? ==>
                outcome == Thrown(ClassCast) && ConnUnchanged()
      ensures playOptions.Some? && StringCast(Get(playOptions.value, "transition")).Ok? && conn == null ==> outcome == Done
      ensures playOptions.Some? && StringCast(Get(playOptions.value, "transition")).Ok? && conn != null ==>
                var options := playOptions.value;
                var built := Play2Call(StringCast(Get(options, "transition")).value, options, parse, show);
                && (built.Err? ==> outcome == Thrown(built.failure) && ConnUnchanged())
                && (built == Ok(None) ==> outcome == Done && ConnUnchanged())
                && (built.Ok? && built.value.Some? ==>
                      outcome == Done && SentOn(NewCall(built.value.value.methodName, Some(built.value.value.args), None), ChannelForStreamId(streamId)))
    {
      if playOptions.None? {
        return Thrown(NullPointer);
      }
      var options := playOptions.value;
      var transition := StringCast(Get(options, "transition"));
      if transition.Err? {
        return Thrown(transition.failure);
      }
      if conn == null {
        return Done;
      }
      var built := Play2Call(transition.value, options, parse, show);
      if built.Err? {
        return Thrown(built.failure);
      }
      if built.value.Some? {
        var _ := conn.Invoke(NewCall(built.value.value.methodName, Some(built.value.value.args), None), ChannelForStreamId(streamId));
      }
      outcome := Done;
    }

    /** Forgets the per-stream data and closes the connection, if there is one;
        the shared objects are kept. */
    method Disconnect()
      modifies this`streamDataMap, conn
      ensures conn == old(conn)
      ensures conn != null ==> streamDataMap == map[] && conn.closed
      ensures conn != null ==> conn.ChangedOnly({ClosedFlag, PendingCalls, Streams, RememberedBuffers})
      ensures conn != null && !old(conn.closed) ==>
                conn.pendingCalls == map[] && conn.streams == map[] && conn.rememberedBuffers == map[]
      ensures conn != null && old(conn.closed) ==> conn.ChangedOnly({})
      ensures conn == null ==> streamDataMap == old(streamDataMap)
    {
      if conn != null {
        streamDataMap := map[];
        conn.Close();
      }
    }

    /** Passes an exception to the exception handler, or rethrows it wrapped when there is none. */
    method HandleException(throwable: nat) returns (outcome: Outcome)
      modifies this`effects
      ensures hasExceptionHandler ==> outcome == Done && effects == old(effects) + [ExceptionHandled(throwable)]
      ensures !hasExceptionHandler ==> outcome == Thrown(Rethrown(throwable)) && effects == old(effects)
    {
      if hasExceptionHandler {
        effects := effects + [ExceptionHandled(throwable)];
        return Done;
      }
      outcome := Thrown(Rethrown(throwable));
    }

    // -------------------------------------------------------------------------
    // Inbound invokes. They arrive on a connection `c` of their own, which
    // need not be the connection the handler keeps in `conn`: only the
    // createStream wrapper, inside `Deliver`, uses that one.

    /** Whether the call pending on `c` under `invokeId` is the "connect" call. */
    predicate PendingIsConnect(c: Connection, invokeId: int)
      reads c
    {
      invokeId in c.pendingCalls && c.pendingCalls[invokeId].methodName == "connect"
    }

    /** What a result or error message on `c` did: when it completes the
        "connect" call, the encoding check may throw first and change nothing;
        otherwise the encoding is switched when asked for, the call is removed
        from the table, and its callback, if any, receives it completed (an
        exception the callback raises is swallowed). */
    twostate predicate CallResultHandled(c: Connection, msg: InboundCall, outcome: Outcome)
      reads this, c, conn
    {
      && conn == old(conn)
      && var isConnect := old(PendingIsConnect(c, msg.invokeId));
         var encoding := ConnectResultEncoding(old(connectionParams));
         if isConnect && encoding.Err? then
           && outcome == Thrown(encoding.failure)
           && effects == old(effects) && streamDataMap == old(streamDataMap)
           && c.ChangedOnly({}) && ConnUnchanged()
         else
           && outcome == Done
           && c.ChangedOnly({PendingCalls, WireEncoding, Streams, RememberedBuffers})
           && c.pendingCalls == old(c.pendingCalls) - {msg.invokeId}
           && c.encoding == (if isConnect && encoding == Ok(true) then AMF3 else old(c.encoding))
           && (c != conn ==> c.streams == old(c.streams) && c.rememberedBuffers == old(c.rememberedBuffers))
           && (conn != null && conn != c ==> conn.ChangedOnly({Streams, RememberedBuffers}))
           && if msg.invokeId in old(c.pendingCalls) && old(c.pendingCalls)[msg.invokeId].callback.Some? then
                DeliveredTo(old(c.pendingCalls)[msg.invokeId].callback.value, CompletedCall(old(c.pendingCalls)[msg.invokeId], msg.args))
              else
                effects == old(effects) && streamDataMap == old(streamDataMap) && StreamTablesUnchanged()
    }

    method OnCallResult(c: Connection, msg: InboundCall) returns (outcome: Outcome)
      modifies this`effects, this`streamDataMap, c, conn
      ensures CallResultHandled(c, msg, outcome)
    {
      if PendingIsConnect(c, msg.invokeId) {
        var encoding := ConnectResultEncoding(connectionParams);
        if encoding.Err? {
          return Thrown(encoding.failure);
        }
        if encoding.value {
          c.SetEncoding(AMF3);
        }
      }
      var pending := c.RetrievePendingCall(msg.invokeId);
      if pending.Some? && pending.value.callback.Some? {
        var _ := Deliver(pending.value.callback.value, CompletedCall(pending.value, msg.args));
      }
      outcome := Done;
    }

    /** Routes an onStatus event to the handler of its stream. */
    method RouteStatus(msg: InboundCall, headerStreamId: int32) returns (outcome: Outcome)
      modifies this`effects
      ensures var routed := OnStatusEffects(streamDataMap, msg, headerStreamId);
              && (routed.Err? ==> outcome == Thrown(routed.failure) && effects == old(effects))
              && (routed.Ok? ==> outcome == Done && effects == old(effects) + routed.value)
    {
      var routed := OnStatusEffects(streamDataMap, msg, headerStreamId);
      if routed.Err? {
        return Thrown(routed.failure);
      }
      effects := effects + routed.value;
      outcome := Done;
    }

    /** What follows local dispatch of an inbound call on `c`: a reply with the
        call, a deferred result registered for later, the bandwidth check
        marked done, or nothing. */
    twostate predicate ReplyWritten(c: Connection, reply: Reply, channel: int, invokeId: int, call: PendingCall)
      reads this, c
    {
      match reply
      case SendReply =>
        && c.ChangedOnly({Writes}) && bandwidthCheckDone == old(bandwidthCheckDone)
        && c.writes == old(c.writes) + [Outbound(channel, InvokePacket(invokeId, call, None))]
      case RegisterDeferred =>
        && c.ChangedOnly({DeferredResults}) && bandwidthCheckDone == old(bandwidthCheckDone)
        && c.deferredResults == old(c.deferredResults) + [DeferredResult(invokeId, call, channel)]
      case MarkBandwidthDone =>
        c.ChangedOnly({}) && bandwidthCheckDone
      case NoReply =>
        c.ChangedOnly({}) && bandwidthCheckDone == old(bandwidthCheckDone)
    }

    method Answer(c: Connection, reply: Reply, channel: int, invokeId: int, call: PendingCall)
      modifies this`bandwidthCheckDone, c
      ensures ReplyWritten(c, reply, channel, invokeId, call)
    {
      match reply
      case SendReply =>
        c.Write(channel, InvokePacket(invokeId, call, None));
      case RegisterDeferred =>
        c.RegisterDeferredResult(DeferredResult(invokeId, call, channel));
      case MarkBandwidthDone =>
        bandwidthCheckDone := true;
      case NoReply =>
    }

    /** An inbound invoke or notify arriving on connection `c` and `channel`,
        whose header carries `headerStreamId`; `service` is what the service
        invoker would leave in the call. Stream-data notifies are ignored;
        results complete pending calls; onStatus is routed to its stream
        first; every other call is dispatched locally and answered as
        `ReplyFor` says. */
    method OnInvoke(c: Connection, channel: int, headerStreamId: int32, msg: InboundCall, service: ServiceReply)
      returns (outcome: Outcome)
      modifies this`effects, this`streamDataMap, this`bandwidthCheckDone, c, conn
      ensures conn == old(conn)
      ensures msg.isStreamData ==>
                && outcome == Done && effects == old(effects) && streamDataMap == old(streamDataMap)
                && bandwidthCheckDone == old(bandwidthCheckDone) && c.ChangedOnly({}) && ConnUnchanged()
      ensures !msg.isStreamData && IsResultMethod(msg.methodName) ==>
                CallResultHandled(c, msg, outcome) && bandwidthCheckDone == old(bandwidthCheckDone)
      ensures !msg.isStreamData && !IsResultMethod(msg.methodName) ==>
                var routed := if msg.methodName == "onStatus" then OnStatusEffects(old(streamDataMap), msg, headerStreamId) else Ok([]);
                var deferred := hasServiceProvider && service.deferred;
                && streamDataMap == old(streamDataMap)
                && (conn != c ==> ConnUnchanged())
                && (routed.Err? ==>
                      && outcome == Thrown(routed.failure) && effects == old(effects)
                      && bandwidthCheckDone == old(bandwidthCheckDone) && c.ChangedOnly({}))
                && (routed.Ok? ==>
                      && outcome == Done
                      && effects == old(effects) + routed.value + (if hasServiceProvider then [ServiceInvoked(msg.methodName, msg.args)] else [])
                      && ReplyWritten(c, ReplyFor(msg.isInvoke, msg.methodName, deferred), channel, msg.invokeId,
                                      DispatchedCall(msg, hasServiceProvider, service)))
    {
      if msg.isStreamData {
        return Done;
      }
      if IsResultMethod(msg.methodName) {
        outcome := OnCallResult(c, msg);
        return;
      }
      if msg.methodName == "onStatus" {
        outcome := RouteStatus(msg, headerStreamId);
        if outcome.Thrown? {
          return;
        }
      }
      if hasServiceProvider {
        effects := effects + [ServiceInvoked(msg.methodName, msg.args)];
      }
      var call := DispatchedCall(msg, hasServiceProvider, service);
      Answer(c, ReplyFor(msg.isInvoke, msg.methodName, hasServiceProvider && service.deferred), channel, msg.invokeId, call);
      outcome := Done;
    }
  }

  /** On a new connection the "connect" call keeps invocation id 1: the first
      call invoked after it takes id 2 and leaves it pending. */
  method FirstInvokeAfterConnect(methodName: string, callback: Option<Callback>) returns (c: Connection)
    ensures c.pendingCalls.Keys == {1, 2}
    ensures c.pendingCalls[1].methodName == "connect"
    ensures c.pendingCalls[2] == NewCall(methodName, None, callback)
  {
    var h := new ClientHandler();
    c := new Connection();
    h.ConnectionOpened(c);
    h.SetConnection(c);
    var _ := h.InvokeWithParams(methodName, None, callback);
  }

  /** A result that arrives after the handler disconnected finds no pending
      call: the call invoked before the disconnect is never completed, and its
      callback is not run. */
  method LateResultAfterDisconnect(methodName: string, callback: nat, result: Value) returns (h: ClientHandler, outcome: Outcome)
    ensures outcome == Done && h.effects == []
  {
    h := new ClientHandler();
    var c := new Connection();
    h.ConnectionOpened(c);
    h.SetConnection(c);
    var _ := h.InvokeWithParams(methodName, None, Some(UserCallback(callback)));
    h.Disconnect();
    outcome := h.OnInvoke(c, INVOKE_CHANNEL, 0, InboundCall(true, false, 2, "_result", [result]), ServiceReply(Pending, VNull, false));
  }
}
