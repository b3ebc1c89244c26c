/** An abstract RTMP connection, as the client handler sees it: a table of
    pending calls, a table of client streams with their buffer durations, the
    buffer durations remembered for streams that do not exist yet, the wire
    encoding, the chunk sizes, the deferred results, and an append-only log of
    the messages written, each tagged with the channel it was written on. */
module RtmpConnection {
  import opened JavaLang
  import opened RtmpValues

  /** Pings and bandwidth messages travel on channel 2. */
  const CONTROL_CHANNEL: int := 2
  /** Connection-level invokes ("connect", and calls not bound to a stream) travel on channel 3. */
  const INVOKE_CHANNEL: int := 3

  /** Ping event subtypes. */
  datatype PingType =
    | PingClient | PongServer | StreamBegin | StreamDry | RecordedStream
    | ClientBuffer | PlaybufferClear | SwfVerify | OtherPing(code: int)

  datatype CallStatus = Pending | SuccessResult | MethodNotFound | NotConnected | OtherStatus(code: nat)

  /** A callback registered on a call: one of the application's, or the wrapper
      that `createStream` puts around the application's callback. */
  datatype Callback = UserCallback(id: nat) | CreateStreamCallback(wrapped: nat) {
    /** The application's callback that a delivery ends in. */
    function Target(): nat {
      match this
      case UserCallback(id) => id
      case CreateStreamCallback(w) => w
    }
  }

  datatype PendingCall = PendingCall(
    methodName: string,
    args: Option<seq<Value>>,
    status: CallStatus,
    result: Value,
    callback: Option<Callback>)

  /** A call as it is created: pending, with no result yet. */
  function NewCall(methodName: string, args: Option<seq<Value>>, callback: Option<Callback>): (c: PendingCall)
    ensures c.methodName == methodName && c.args == args && c.callback == callback
    ensures c.status == Pending && c.result == VNull
  {
    PendingCall(methodName, args, Pending, VNull, callback)
  }

  datatype Packet =
    | PingPacket(eventType: PingType, value2: int32)
    | SwfResponse(bytes: seq<bv8>)
    | ClientBW(bandwidth: int32, limitType: int)
    | ServerBW(bandwidth: int32)
    | InvokePacket(invokeId: int, call: PendingCall, connectionParams: Option<map<string, Value>>)

  datatype Outbound = Outbound(channel: int, packet: Packet)

  datatype DeferredResult = DeferredResult(invokeId: int, call: PendingCall, channel: int)

  datatype Encoding = AMF0 | AMF3

  /** The buffer duration a new stream starts with: the one remembered for its id, else 0. */
  function BufferFor(remembered: map<int, int>, streamId: int): (d: int)
    ensures streamId in remembered ==> d == remembered[streamId]
    ensures streamId !in remembered ==> d == 0
  {
    if streamId in remembered then remembered[streamId] else 0
  }

  /** The parts of a connection's state, for saying which of them an operation may change. */
  datatype Part = PendingCalls | Streams | RememberedBuffers | DeferredResults | WireEncoding | ChunkSizes | InvokeIds | Writes | ClosedFlag

  class Connection {
    var pendingCalls: map<int, PendingCall>
    /** Client streams by id, each with its client buffer duration in milliseconds. */
    var streams: map<int, int>
    var rememberedBuffers: map<int, int>
    var deferredResults: seq<DeferredResult>
    var encoding: Encoding
    var readChunkSize: int
    var writeChunkSize: int
    /** The last invocation id handed out; the next call gets the one after it.
        Id 1 belongs to the "connect" call, which the handler registers itself,
        so a new connection counts from 1. */
    var lastInvokeId: int
    var writes: seq<Outbound>
    var closed: bool

    constructor ()
      ensures pendingCalls == map[] && streams == map[] && rememberedBuffers == map[]
      ensures deferredResults == [] && writes == [] && encoding == AMF0
      ensures lastInvokeId == 1 && !closed
      ensures IdsIssued()
    {
      pendingCalls, streams, rememberedBuffers := map[], map[], map[];
      deferredResults, writes := [], [];
      encoding := AMF0;
      readChunkSize, writeChunkSize := 128, 128;
      lastInvokeId := 1;
      closed := false;
    }

    /** Every pending call sits under an id already handed out (id 1 included),
        so the next invocation id is one no pending call uses. */
    predicate IdsIssued()
      reads this
    {
      lastInvokeId >= 1 && forall id :: id in pendingCalls ==> id <= lastInvokeId
    }

    /** Every part of the state outside `parts` is as it was in the old state. */
    twostate predicate ChangedOnly(parts: set<Part>)
      reads this
    {
      && (PendingCalls !in parts ==> pendingCalls == old(pendingCalls))
      && (Streams !in parts ==> streams == old(streams))
      && (RememberedBuffers !in parts ==> rememberedBuffers == old(rememberedBuffers))
      && (DeferredResults !in parts ==> deferredResults == old(deferredResults))
      && (WireEncoding !in parts ==> encoding == old(encoding))
      && (ChunkSizes !in parts ==> readChunkSize == old(readChunkSize) && writeChunkSize == old(writeChunkSize))
      && (InvokeIds !in parts ==> lastInvokeId == old(lastInvokeId))
      && (Writes !in parts ==> writes == old(writes))
      && (ClosedFlag !in parts ==> closed == old(closed))
    }

    /** Writes a message on a channel. */
    method Write(channel: int, p: Packet)
      modifies this`writes
      ensures writes == old(writes) + [Outbound(channel, p)]
    {
      writes := writes + [Outbound(channel, p)];
    }

    /** Writes a control message on the control channel. */
    method Ping(p: Packet)
      modifies this`writes
      ensures writes == old(writes) + [Outbound(CONTROL_CHANNEL, p)]
    {
      Write(CONTROL_CHANNEL, p);
    }

    /** Registers `call` under a fresh invocation id and writes it on `channel`. */
    method Invoke(call: PendingCall, channel: int) returns (id: int)
      modifies this`lastInvokeId, this`pendingCalls, this`writes
      ensures id == old(lastInvokeId) + 1 && lastInvokeId == id
      ensures pendingCalls == old(pendingCalls)[id := call]
      ensures writes == old(writes) + [Outbound(channel, InvokePacket(id, call, None))]
      ensures old(IdsIssued()) ==> id !in old(pendingCalls) && IdsIssued()
    {
      id := lastInvokeId + 1;
      lastInvokeId := id;
      pendingCalls := pendingCalls[id := call];
      Write(channel, InvokePacket(id, call, None));
    }

    method RegisterPendingCall(id: int, call: PendingCall)
      modifies this`pendingCalls
      ensures pendingCalls == old(pendingCalls)[id := call]
    {
      pendingCalls := pendingCalls[id := call];
    }

    /** Removes and returns the call pending under `id`, if there is one. */
    method RetrievePendingCall(id: int) returns (r: Option<PendingCall>)
      modifies this`pendingCalls
      ensures id in old(pendingCalls) ==> r == Some(old(pendingCalls)[id])
      ensures id !in old(pendingCalls) ==> r == None
      ensures pendingCalls == old(pendingCalls) - {id}
      ensures old(IdsIssued()) ==> IdsIssued()
    {
      if id in pendingCalls {
        r := Some(pendingCalls[id]);
      } else {
        r := None;
      }
      pendingCalls := pendingCalls - {id};
    }

    method SetClientBufferDuration(streamId: int, duration: int)
      requires streamId in streams
      modifies this`streams
      ensures streams == old(streams)[streamId := duration]
    {
      streams := streams[streamId := duration];
    }

    method RememberStreamBufferDuration(streamId: int, duration: int)
      modifies this`rememberedBuffers
      ensures rememberedBuffers == old(rememberedBuffers)[streamId := duration]
    {
      rememberedBuffers := rememberedBuffers[streamId := duration];
    }

    /** Adds a client stream; a buffer duration remembered for its id is applied to it and forgotten. */
    method AddClientStream(streamId: int)
      modifies this`streams, this`rememberedBuffers
      ensures streams == old(streams)[streamId := BufferFor(old(rememberedBuffers), streamId)]
      ensures rememberedBuffers == old(rememberedBuffers) - {streamId}
    {
      streams := streams[streamId := BufferFor(rememberedBuffers, streamId)];
      rememberedBuffers := rememberedBuffers - {streamId};
    }

    method RegisterDeferredResult(dr: DeferredResult)
      modifies this`deferredResults
      ensures deferredResults == old(deferredResults) + [dr]
    {
      deferredResults := deferredResults + [dr];
    }

    method SetEncoding(e: Encoding)
      modifies this`encoding
      ensures encoding == e
    {
      encoding := e;
    }

    method SetChunkSizes(read: int, write: int)
      modifies this`readChunkSize, this`writeChunkSize
      ensures readChunkSize == read && writeChunkSize == write
    {
      readChunkSize, writeChunkSize := read, write;
    }

    /** Closes the connection: the streams, the buffer durations remembered
        for them and the pending calls go with it, so a call still pending is
        never completed. Closing a closed connection changes nothing. */
    method Close()
      modifies this`closed, this`pendingCalls, this`streams, this`rememberedBuffers
      ensures closed
      ensures !old(closed) ==> pendingCalls == map[] && streams == map[] && rememberedBuffers == map[]
      ensures old(closed) ==> pendingCalls == old(pendingCalls) && streams == old(streams)
                              && rememberedBuffers == old(rememberedBuffers)
      ensures old(IdsIssued()) ==> IdsIssued()
    {
      if !closed {
        pendingCalls, streams, rememberedBuffers := map[], map[], map[];
        closed := true;
      }
    }
  }
}
