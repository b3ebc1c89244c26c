# RTMP client handler, AMF serializer dispatch and FLV tag — a Dafny model

This project models three parts of a Java RTMP/AMF media library and proves what they promise.

- **The RTMP client protocol handler** (`BaseRTMPClientHandler`). It builds the connection parameters of the `connect` call. It keeps the client shared objects and the per-stream data. It answers the server's control messages (pings, bandwidth announcements, chunk sizes). It issues the application's calls (`invoke`, `createStream`, `publish`, `play`, `play2`). It dispatches inbound invokes: results of pending calls, `onStatus` events, and calls to the local service provider.
  - The pure decisions are functions in module `RtmpClient`.
  - The handler is the class `RtmpClientHandler.ClientHandler`. Its fields are the handler's fields, and its methods update them and the connection.
  - The connection it talks to is an abstract class, `RtmpConnection.Connection`. It holds a pending-call table, a stream table with buffer durations, the buffer durations remembered for streams that do not exist yet, the wire encoding, the chunk sizes, the deferred results, an append-only log of writes tagged with their channel, and a closed flag.
  - Calls into collaborators whose code is not modelled are appended to the handler's `effects` log. These are application callbacks, stream event handlers, the service invoker, shared-object dispatch, the connection consumer, the connector and the exception handler.
  - Java exceptions are values: `Outcome` (`Done` or `Thrown(failure)`) and `Result`.
- **The AMF serializer's type-directed dispatch** (`Serializer`), in module `AmfSerializer`.
  - A Java object is modelled by the set of classes and interfaces it is an instance of, its elements and its text.
  - The functions compute which `Output` operation is chosen and whether `enforceAMF3` is called first.
  - The vector census, the null count of `writeList` and the draining of an iterator are methods with loops, proved against those functions.
- **The FLV tag record** (`Tag`), as the class `FlvTag.Tag`. Its setters have exact per-field frames.

The Java vocabulary the three parts share is in module `JavaLang`: `Option`, `Result` and the exceptions (`Failure`). Java's `int` and `byte` are subset types there (`int32`, `int8`). The wrap-around of the stream-channel formula and the narrowing of the pong timestamp are written out with `Wrap32`.

In these places the model follows the code, not what its comments or names suggest:
- A bandwidth reply echoes the bandwidth the server announced, not the local window.
- `disconnect` clears the per-stream data but not the shared objects.
- An `onBWCheck` invoke gets a reply written back, like any other invoke.
- `getClassName` strips the prefix `org.red5.compatibility.` (23 characters), although the library lives under another package.

## Model

| member | source | states |
|---|---|---|
| JavaLang.Wrap32 | src/com/sms/server/net/rtmp/BaseRTMPClientHandler.java:297 | Java's narrowing to `int`: the result is congruent to the input modulo 2^32, and equals it when it is in range |
| RtmpValues.Get | src/com/sms/server/net/rtmp/BaseRTMPClientHandler.java:639 | `map.get`: a missing key reads as null, a present key as its value |
| RtmpConnection.NewCall | src/com/sms/server/net/rtmp/BaseRTMPClientHandler.java:584 | a new call carries the method name, arguments and callback given, is pending, and has no result |
| RtmpConnection.BufferFor | src/com/sms/server/net/rtmp/BaseRTMPClientHandler.java:848 | a stream added to the connection starts with the buffer duration remembered for its id, or 0 |
| RtmpConnection.Connection.constructor | src/com/sms/server/net/rtmp/BaseRTMPClientHandler.java:588-592 | a new connection has no pending calls, streams, remembered buffers, deferred results or writes; it uses AMF0 and is open; its invocation ids count from 1, the id the `connect` call is registered under, so every pending id has been handed out |
| RtmpConnection.Connection.Write | src/com/sms/server/net/rtmp/BaseRTMPClientHandler.java:594 | a write appends exactly one message, tagged with its channel, to the log |
| RtmpConnection.Connection.Ping | src/com/sms/server/net/rtmp/BaseRTMPClientHandler.java:298 | a ping appends one message on the control channel (2) |
| RtmpConnection.Connection.Invoke | src/com/sms/server/net/rtmp/BaseRTMPClientHandler.java:412 | an invoke takes the next invocation id, registers the call under it, and writes it on the given channel; on a connection whose pending ids have all been handed out, that id is one no pending call uses |
| RtmpConnection.Connection.RegisterPendingCall | src/com/sms/server/net/rtmp/BaseRTMPClientHandler.java:592 | the pending-call table maps the id to the call, and nothing else changes |
| RtmpConnection.Connection.RetrievePendingCall | src/com/sms/server/net/rtmp/BaseRTMPClientHandler.java:628 | it returns the call pending under the id, if any, and removes that id from the table |
| RtmpConnection.Connection.SetClientBufferDuration | src/com/sms/server/net/rtmp/BaseRTMPClientHandler.java:315 | the buffer duration of an existing stream is replaced |
| RtmpConnection.Connection.RememberStreamBufferDuration | src/com/sms/server/net/rtmp/BaseRTMPClientHandler.java:322 | the duration is remembered under the stream id |
| RtmpConnection.Connection.AddClientStream | src/com/sms/server/net/rtmp/BaseRTMPClientHandler.java:848 | the stream is added with its remembered buffer duration (or 0), and the remembered duration is forgotten |
| RtmpConnection.Connection.RegisterDeferredResult | src/com/sms/server/net/rtmp/BaseRTMPClientHandler.java:680 | the deferred result is appended to the connection's list |
| RtmpConnection.Connection.SetEncoding | src/com/sms/server/net/rtmp/BaseRTMPClientHandler.java:624 | the wire encoding becomes the one given |
| RtmpConnection.Connection.SetChunkSizes | src/com/sms/server/net/rtmp/BaseRTMPClientHandler.java:280-281 | the read and write chunk sizes become the ones given |
| RtmpConnection.Connection.Close | src/com/sms/server/net/rtmp/BaseRTMPClientHandler.java:447 | the connection is closed; closing an open connection drops its streams, remembered buffer durations and pending calls, and closing a closed one changes nothing |
| RtmpClient.ChannelForStreamId | src/com/sms/server/net/rtmp/BaseRTMPClientHandler.java:734-736 | the channel is `(s - 1) * 5 + 4` computed in 32-bit arithmetic: exact for stream ids up to about ±4.29·10^8, congruent modulo 2^32 everywhere |
| RtmpClient.ChannelForStreamIdInjective | src/com/sms/server/net/rtmp/BaseRTMPClientHandler.java:734-736 | distinct stream ids never share a channel, even where the formula wraps |
| RtmpClient.FirstStreamChannels | src/com/sms/server/net/rtmp/BaseRTMPClientHandler.java:734-736 | stream 1 uses channel 4 and stream 2 channel 9 |
| RtmpClient.DefaultConnectionParams | src/com/sms/server/net/rtmp/BaseRTMPClientHandler.java:177-191 | the default parameters have exactly the eleven keys, with `app` and `path` the application, encoding 0, `fpad` false, the flash version, the codec and capability numbers, and null page and SWF URLs |
| RtmpClient.DefaultConnectionParamsSize | src/com/sms/server/net/rtmp/BaseRTMPClientHandler.java:177-191 | the default parameters hold eleven distinct entries |
| RtmpClient.WithDefaultEncoding | src/com/sms/server/net/rtmp/BaseRTMPClientHandler.java:234-236 | `objectEncoding` = 0 is added only when the key is absent; every entry of the caller's map is kept |
| RtmpClient.WithDefaultEncodingIdempotent | src/com/sms/server/net/rtmp/BaseRTMPClientHandler.java:234-236 | adding the default encoding twice is adding it once |
| RtmpClient.DefaultParamsHaveEncoding | src/com/sms/server/net/rtmp/BaseRTMPClientHandler.java:177-191 | the default parameters already carry an object encoding, so adding the default encoding leaves them as they are |
| RtmpClient.PingReply | src/com/sms/server/net/rtmp/BaseRTMPClientHandler.java:289-333 | ping-client, stream-begin, recorded-stream and playbuffer-clear get one pong carrying the clock's low 32 bits; SWF verification gets one 42-byte zero response; stream-dry, client-buffer and unknown kinds get nothing |
| RtmpClient.ServerBandwidthReply | src/com/sms/server/net/rtmp/BaseRTMPClientHandler.java:338-346 | a client-bandwidth reply `(announced, 2)` exactly when the announced bandwidth differs from the read window 2500000 |
| RtmpClient.ClientBandwidthReply | src/com/sms/server/net/rtmp/BaseRTMPClientHandler.java:350-358 | a server-bandwidth reply echoing the announced bandwidth exactly when it differs from the write window 2500000 |
| RtmpClient.WritesOf | src/com/sms/server/net/rtmp/BaseRTMPClientHandler.java:342-345 | a reply, if there is one, becomes exactly one write on the given channel; no reply, no write |
| RtmpClient.SharedObjectRequest | src/com/sms/server/net/rtmp/BaseRTMPClientHandler.java:259-272 | the same name and flag return the object and keep the registry; the same name with the other flag fails and keeps it; a new name adds one entry with the requested flag |
| RtmpClient.SharedObjectRequestTwice | src/com/sms/server/net/rtmp/BaseRTMPClientHandler.java:259-272 | after a successful request, repeating it changes nothing, and asking with the other flag fails |
| RtmpClient.NewStreamData | src/com/sms/server/net/rtmp/BaseRTMPClientHandler.java:849-853 | a new stream's data has no handler, and its output stream and consumer for that stream |
| RtmpClient.LookupStreamData | src/com/sms/server/net/rtmp/BaseRTMPClientHandler.java:648 | only an Integer that is a key of the stream-data map finds anything |
| RtmpClient.ResolveClientId | src/com/sms/server/net/rtmp/BaseRTMPClientHandler.java:639-643 | the status's `clientid` when it is not null, else the stream id of the message header |
| RtmpClient.StatusStreamData | src/com/sms/server/net/rtmp/BaseRTMPClientHandler.java:646-653 | the stream data of the client id when there is one, else that of stream 1 |
| RtmpClient.StatusRoutingOrder | src/com/sms/server/net/rtmp/BaseRTMPClientHandler.java:639-653 | the integer client id wins; without one the header's stream id is used; a client id that is not an Integer (a Double, say) falls back to stream 1 |
| RtmpClient.StringCast | src/com/sms/server/net/rtmp/BaseRTMPClientHandler.java:550 | a String or null passes the cast; anything else throws ClassCastException |
| RtmpClient.IntegerOption | src/com/sms/server/net/rtmp/BaseRTMPClientHandler.java:561-564 | an Integer is taken as it is, a String is parsed (NumberFormatException when it is not a number), null throws NumberFormatException, anything else ClassCastException |
| RtmpClient.Play2Call | src/com/sms/server/net/rtmp/BaseRTMPClientHandler.java:552-571 | STOP sends `play(false)`; RESET sends nothing; any other transition sends `play2` with the six arguments name, start, len, transition, offset, oldStreamName, or throws exactly when the name is null or start or len cannot be converted |
| RtmpClient.Play2FailureOrder | src/com/sms/server/net/rtmp/BaseRTMPClientHandler.java:559-564 | a null stream name throws NullPointerException before start is looked at; start's exception comes before len's; with name and start fine, len's exception is the one thrown |
| RtmpClient.CompletedCall | src/com/sms/server/net/rtmp/BaseRTMPClientHandler.java:628 | the first argument of the result message, if any, becomes the result of the pending call; nothing else about the call changes |
| RtmpClient.DispatchedCall | src/com/sms/server/net/rtmp/BaseRTMPClientHandler.java:663-669 | without a service provider the call is marked "method not found"; with one it carries the status and result the service invoker left |
| RtmpClient.ReplyFor | src/com/sms/server/net/rtmp/BaseRTMPClientHandler.java:671-698 | a notify gets nothing; a deferred result is registered; onStatus gets no reply; onBWDone marks the check done; everything else, onBWCheck included, gets a reply (each case as an if-and-only-if) |
| RtmpClient.BandwidthCheckReplies | src/com/sms/server/net/rtmp/BaseRTMPClientHandler.java:682-689 | onBWCheck is answered, onBWDone only marks the check done, and a notify of either gets nothing |
| RtmpClient.ConnectResultEncoding | src/com/sms/server/net/rtmp/BaseRTMPClientHandler.java:620-626 | a result for `connect` switches to AMF3 exactly when `objectEncoding` is the Integer 3; null parameters throw NullPointerException, a non-Integer encoding ClassCastException |
| RtmpClient.ConnectResultEncodingCases | src/com/sms/server/net/rtmp/BaseRTMPClientHandler.java:620-626 | the default parameters never switch the encoding; an explicit 3 does |
| RtmpClient.DeliveryOutcome | src/com/sms/server/net/rtmp/BaseRTMPClientHandler.java:837-838 | a delivery throws exactly when the createStream wrapper gets a result that is neither an Integer nor null, and then with ClassCastException |
| RtmpClient.NotConnectedCall | src/com/sms/server/net/rtmp/BaseRTMPClientHandler.java:415-416 | the call handed to the callback without a connection has the method and parameters, status "not connected" and no result |
| RtmpClient.NotConnectedDeliveryNeverThrows | src/com/sms/server/net/rtmp/BaseRTMPClientHandler.java:415-417 | delivering a "not connected" call never throws, whichever callback receives it |
| RtmpClient.OnStatusEffects | src/com/sms/server/net/rtmp/BaseRTMPClientHandler.java:635-661 | an onStatus event reaches the handler of the stream it routes to, if that stream has one; a missing status argument throws IndexOutOfBounds, a null one NullPointer, a non-map ClassCast |
| RtmpClientHandler.ClientHandler.constructor | src/com/sms/server/net/rtmp/BaseRTMPClientHandler.java:122-125 | a new handler has no parameters, callback, collaborators, shared objects, stream data or connection |
| RtmpClientHandler.ClientHandler.SetConnection | src/com/sms/server/net/rtmp/BaseRTMPClientHandler.java:743-745 | the connection becomes the one given |
| RtmpClientHandler.ClientHandler.SetServiceProvider | src/com/sms/server/net/rtmp/BaseRTMPClientHandler.java:248-250 | whether a service provider is registered |
| RtmpClientHandler.ClientHandler.SetExceptionHandler | src/com/sms/server/net/rtmp/BaseRTMPClientHandler.java:131-133 | whether an exception handler is registered |
| RtmpClientHandler.ClientHandler.Connect | src/com/sms/server/net/rtmp/BaseRTMPClientHandler.java:201-241 | null parameters throw NullPointerException and keep nothing; otherwise the parameters (with the default encoding added), the arguments and the callback are kept and the connector is started once |
| RtmpClientHandler.ClientHandler.ConnectToApplication | src/com/sms/server/net/rtmp/BaseRTMPClientHandler.java:152-169 | connecting to an application keeps exactly the default parameters, no arguments, and the callback |
| RtmpClientHandler.ClientHandler.ConnectionOpened | src/com/sms/server/net/rtmp/BaseRTMPClientHandler.java:580-595 | the `connect` call with the kept arguments and callback is registered under id 1 and written once on channel 3 with the connection parameters; the connection's pending ids stay ones it has handed out |
| RtmpClientHandler.LateResultAfterDisconnect | src/com/sms/server/net/rtmp/BaseRTMPClientHandler.java:443-451 | a call invoked before `disconnect` is never completed: a `_result` for its id that arrives afterwards finds no pending call, runs no callback and records nothing |
| RtmpClientHandler.FirstInvokeAfterConnect | src/com/sms/server/net/rtmp/BaseRTMPClientHandler.java:588-592 | on a new connection, the call invoked after `connect` was registered takes id 2, and `connect` stays pending under id 1 |
| RtmpClientHandler.ClientHandler.GetSharedObject | src/com/sms/server/net/rtmp/BaseRTMPClientHandler.java:259-272 | the result and the new registry are those of `SharedObjectRequest` |
| RtmpClientHandler.ClientHandler.OnSharedObject | src/com/sms/server/net/rtmp/BaseRTMPClientHandler.java:362-375 | the event is dispatched exactly when the name is registered with the same persistence flag; otherwise nothing happens |
| RtmpClientHandler.ClientHandler.OnChunkSize | src/com/sms/server/net/rtmp/BaseRTMPClientHandler.java:276-283 | the announced size becomes both the read and the write chunk size |
| RtmpClientHandler.ClientHandler.OnPing | src/com/sms/server/net/rtmp/BaseRTMPClientHandler.java:287-334 | the control channel gets exactly `PingReply`'s message; a client-buffer ping sets the buffer of an existing non-zero stream id and otherwise remembers it under the id, 0 included |
| RtmpClientHandler.ClientHandler.OnServerBandwidth | src/com/sms/server/net/rtmp/BaseRTMPClientHandler.java:338-346 | the writes grow by exactly `ServerBandwidthReply`'s reply on the message's channel |
| RtmpClientHandler.ClientHandler.OnClientBandwidth | src/com/sms/server/net/rtmp/BaseRTMPClientHandler.java:350-358 | the writes grow by exactly `ClientBandwidthReply`'s reply on the message's channel |
| RtmpClientHandler.ClientHandler.Deliver | src/com/sms/server/net/rtmp/BaseRTMPClientHandler.java:829-858 | an application callback receives the call; the createStream wrapper first casts the result, and with a connection and a stream id adds the stream and its data before passing the call on |
| RtmpClientHandler.ClientHandler.InvokeWithParams | src/com/sms/server/net/rtmp/BaseRTMPClientHandler.java:428-438 | with a connection the call is sent on channel 3 and nothing else happens; without one the callback is invoked exactly once with a "not connected" call and nothing is written; a missing callback then throws NullPointerException |
| RtmpClientHandler.ClientHandler.InvokeMethod | src/com/sms/server/net/rtmp/BaseRTMPClientHandler.java:408-419 | the same for a call without parameters |
| RtmpClientHandler.ClientHandler.CreateStream | src/com/sms/server/net/rtmp/BaseRTMPClientHandler.java:453-457 | a missing callback throws before anything is sent; otherwise `createStream` is invoked with the wrapping callback |
| RtmpClientHandler.ClientHandler.Publish | src/com/sms/server/net/rtmp/BaseRTMPClientHandler.java:459-475 | `publish(name, mode)` is sent on the stream's channel, and a given handler is set on the stream's data when it exists; a missing connection throws NullPointerException |
| RtmpClientHandler.ClientHandler.Unpublish | src/com/sms/server/net/rtmp/BaseRTMPClientHandler.java:477-481 | `publish(false)` is sent on the stream's channel; a missing connection throws NullPointerException |
| RtmpClientHandler.ClientHandler.PublishStreamData | src/com/sms/server/net/rtmp/BaseRTMPClientHandler.java:483-495 | the message is pushed to the stream's consumer exactly when the stream and its consumer exist |
| RtmpClientHandler.ClientHandler.Play | src/com/sms/server/net/rtmp/BaseRTMPClientHandler.java:497-509 | with a connection, `play(name, start, length)` is sent on the stream's channel |
| RtmpClientHandler.ClientHandler.Play2 | src/com/sms/server/net/rtmp/BaseRTMPClientHandler.java:542-576 | null options throw NullPointerException first; the transition is cast before the connection is checked; with a connection, exactly the call `Play2Call` builds is sent on the stream's channel, or its exception is thrown and nothing is sent |
| RtmpClientHandler.ClientHandler.Disconnect | src/com/sms/server/net/rtmp/BaseRTMPClientHandler.java:443-451 | with a connection, the stream data is cleared and the connection closed, which empties its stream, remembered-buffer and pending-call tables if it was open; the connection's other fields and the handler's effects and shared objects do not change; without a connection nothing changes |
| RtmpClientHandler.ClientHandler.HandleException | src/com/sms/server/net/rtmp/BaseRTMPClientHandler.java:719-726 | the exception handler receives the throwable, or it is rethrown wrapped when there is none |
| RtmpClientHandler.ClientHandler.OnCallResult | src/com/sms/server/net/rtmp/BaseRTMPClientHandler.java:616-630 | on the connection the message came in on: for the `connect` call the encoding check runs first and may throw, changing nothing; otherwise the encoding is switched as asked, the call is removed from the table, and its callback receives it completed; the handler's own connection changes only when the createStream wrapper installs a stream on it |
| RtmpClientHandler.ClientHandler.RouteStatus | src/com/sms/server/net/rtmp/BaseRTMPClientHandler.java:635-661 | the effects or the exception are those of `OnStatusEffects` |
| RtmpClientHandler.ClientHandler.Answer | src/com/sms/server/net/rtmp/BaseRTMPClientHandler.java:671-698 | on the message's connection, a reply is written once on its channel, or a deferred result registered, or the bandwidth check marked done, or nothing, and no other part of that connection changes |
| RtmpClientHandler.ClientHandler.OnInvoke | src/com/sms/server/net/rtmp/BaseRTMPClientHandler.java:608-699 | on the connection the message came in on: stream-data notifies change nothing; results complete pending calls; onStatus is routed first and its exceptions stop the dispatch; the service provider is invoked when present; the answer is the one `ReplyFor` chooses; another connection the handler keeps is left alone |
| AmfSerializer.WriteBasic | src/com/sms/io/object/Serializer.java:126-143 | null, Boolean, Number, String, Enum (as its name) and Date in that order, and false for anything else; a Boolean never reaches the number writer |
| AmfSerializer.Classify | src/com/sms/io/object/Serializer.java:79-89 | an Integer counts as an int; a Long that is not an Integer as a long; any other Number as a double; null and every non-number as a non-number (each as an if-and-only-if) |
| AmfSerializer.CountOf | src/com/sms/io/object/Serializer.java:79-89 | a census counter never exceeds the vector's size |
| AmfSerializer.CountPositiveIff | src/com/sms/io/object/Serializer.java:91-105 | a counter is positive exactly when some element is of its class |
| AmfSerializer.CensusTotal | src/com/sms/io/object/Serializer.java:79-89 | every element increments exactly one counter |
| AmfSerializer.CensusOf | src/com/sms/io/object/Serializer.java:79-89 | the four counters add up to the vector's size |
| AmfSerializer.VectorCensus | src/com/sms/io/object/Serializer.java:74-89 | the counting loop yields the census of the vector |
| AmfSerializer.VectorChoice | src/com/sms/io/object/Serializer.java:90-105 | any non-number gives AMF3 plus vector-of-objects; only Integers (empty included) vector-of-ints; only Longs vector-of-uints; any other mix AMF3 plus vector-of-numbers (each as an if-and-only-if); the two AMF3 cases throw ClassCastException when the output is not an AMF3 output |
| AmfSerializer.SerializeVector | src/com/sms/io/object/Serializer.java:71-105 | the vector path with its loop chooses, or fails, as `VectorChoice` says |
| AmfSerializer.NullCount | src/com/sms/io/object/Serializer.java:210-215 | the null count never exceeds the list's size |
| AmfSerializer.NullCountExtremes | src/com/sms/io/object/Serializer.java:210-215 | the count is 0 exactly when no element is null, and the size exactly when every element is |
| AmfSerializer.ListChoice | src/com/sms/io/object/Serializer.java:200-224 | an empty list writes an empty object array; under 100 elements an array; otherwise a map exactly when 5·nulls > 4·size, else an array |
| AmfSerializer.LongListExtremes | src/com/sms/io/object/Serializer.java:208-220 | a long list of nulls only is written as a map; a long list without nulls as an array |
| AmfSerializer.CountNulls | src/com/sms/io/object/Serializer.java:210-215 | the null-counting loop yields the null count |
| AmfSerializer.WriteList | src/com/sms/io/object/Serializer.java:200-224 | the list writer with its loop chooses what `ListChoice` chooses |
| AmfSerializer.WriteListType | src/com/sms/io/object/Serializer.java:182-190 | exactly the Lists go to the list path |
| AmfSerializer.WriteArrayType | src/com/sms/io/object/Serializer.java:237-252 | Collection, Iterator, primitive array and object array in that order, and nothing else; null throws at the array test |
| AmfSerializer.ObjIterator.constructor | src/com/sms/io/object/Serializer.java:262-265 | an iterator starts with all of its elements remaining |
| AmfSerializer.ObjIterator.Next | src/com/sms/io/object/Serializer.java:267-268 | the iterator yields its first remaining element and moves past it |
| AmfSerializer.WriteIterator | src/com/sms/io/object/Serializer.java:262-272 | the iterator is drained and exactly its remaining elements, in order, are written as an array |
| AmfSerializer.WriteXmlType | src/com/sms/io/object/Serializer.java:284-305 | exactly the Documents are written as XML |
| AmfSerializer.WriteCustomType | src/com/sms/io/object/Serializer.java:354-362 | exactly the values the output calls custom are written as custom data |
| AmfSerializer.WriteObjectType | src/com/sms/io/object/Serializer.java:318-329 | ObjectMap or BeanMap as an object map, any other Map as a map, a RecordSet as a record set, anything else as an object (each as an if-and-only-if) |
| AmfSerializer.WriteComplex | src/com/sms/io/object/Serializer.java:155-170 | list, array, XML, custom, object in that order; every non-null value is written |
| AmfSerializer.PlainMapsReachObjectStep | src/com/sms/io/object/Serializer.java:318-329 | a map that no earlier step claims is written by the object step, as an object map or a map |
| AmfSerializer.SerializeChoice | src/com/sms/io/object/Serializer.java:43-113 | IExternalizable, ByteArray and Vector are checked before the basic and complex paths; only the vector path switches to AMF3, and only it can throw, with ClassCastException on an output that is not AMF3 |
| AmfSerializer.VectorsBypassBasicPath | src/com/sms/io/object/Serializer.java:65-106 | a vector is only ever written by a vector writer, whatever else it is, and on an AMF3 output it is always written |
| AmfSerializer.Serialize | src/com/sms/io/object/Serializer.java:43-113 | serializing, with the counting loops, chooses or fails as `SerializeChoice` says |
| AmfSerializer.PreProcessExtension | src/com/sms/io/object/Serializer.java:339-342 | the extension hook returns its argument unchanged |
| AmfSerializer.SerializeField | src/com/sms/io/object/Serializer.java:376-391 | false for the key "class" or when the field or the getter is marked `@DontSerialize`, true otherwise |
| AmfSerializer.GetClassName | src/com/sms/io/object/Serializer.java:400-420 | the alias wins; otherwise the 23-character compatibility prefix is stripped and the three extended message classes become DSA, DSC and DSK; other names are returned as they are |
| AmfSerializer.GetClassNameStripsPrefixOnly | src/com/sms/io/object/Serializer.java:405-408 | a stripped name that is not shortened gives back the class name when the prefix is put back |
| AmfSerializer.ShortNamesDistinct | src/com/sms/io/object/Serializer.java:409-417 | the three extended message classes, by full name, become DSA, DSC and DSK |
| FlvTag.Tag.Empty | src/com/sms/io/flv/impl/Tag.java:67-69 | every field zero and no body |
| FlvTag.Tag.constructor | src/com/sms/io/flv/impl/Tag.java:58-64 | data type, timestamp, body size, body and previous tag size as given; type and bit flags 0 |
| FlvTag.Tag.GetBitflags | src/com/sms/io/flv/impl/Tag.java:76-78 | the bit flags |
| FlvTag.Tag.SetBitflags | src/com/sms/io/flv/impl/Tag.java:85-87 | the bit flags change, and no other field |
| FlvTag.Tag.GetPreviuosTagSize | src/com/sms/io/flv/impl/Tag.java:94-96 | the previous tag size |
| FlvTag.Tag.SetPreviuosTagSize | src/com/sms/io/flv/impl/Tag.java:103-105 | the previous tag size changes, and no other field |
| FlvTag.Tag.GetData | src/com/sms/io/flv/impl/Tag.java:109-111 | always null, whatever the body |
| FlvTag.Tag.GetBody | src/com/sms/io/flv/impl/Tag.java:118-120 | the body |
| FlvTag.Tag.GetBodySize | src/com/sms/io/flv/impl/Tag.java:127-129 | the body size |
| FlvTag.Tag.GetDataType | src/com/sms/io/flv/impl/Tag.java:136-138 | the data type |
| FlvTag.Tag.GetTimestamp | src/com/sms/io/flv/impl/Tag.java:145-147 | the timestamp |
| FlvTag.Tag.GetPreviousTagSize | src/com/sms/io/flv/impl/Tag.java:154-156 | the previous tag size, the field the other spelling reads |
| FlvTag.Tag.GetType | src/com/sms/io/flv/impl/Tag.java:178-180 | the tag type |
| FlvTag.Tag.SetType | src/com/sms/io/flv/impl/Tag.java:187-189 | the tag type changes, and no other field |
| FlvTag.Tag.SetBody | src/com/sms/io/flv/impl/Tag.java:192-194 | the body changes, and no other field |
| FlvTag.Tag.SetBodySize | src/com/sms/io/flv/impl/Tag.java:197-199 | the body size changes, and no other field |
| FlvTag.Tag.SetDataType | src/com/sms/io/flv/impl/Tag.java:202-204 | the data type changes, and no other field |
| FlvTag.Tag.SetTimestamp | src/com/sms/io/flv/impl/Tag.java:207-209 | the timestamp changes, and no other field |
| FlvTag.Tag.SetData | src/com/sms/io/flv/impl/Tag.java:214-215 | nothing changes |
| FlvTag.Tag.SetPreviousTagSize | src/com/sms/io/flv/impl/Tag.java:218-220 | the previous tag size changes, and no other field |
| FlvTag.PreviousTagSizeGettersAgree | src/com/sms/io/flv/impl/Tag.java:154-156 | the two spellings of the previous-tag-size getter always agree |
| FlvTag.SettersRoundTrip | src/com/sms/io/flv/impl/Tag.java:202-220 | after the setters, each getter returns the value set and the untouched fields keep theirs; both previous-tag-size setters write the field both getters read |

## Left out

- Concurrency: the concurrent maps, `volatile` fields and `synchronized` methods. The handler is modelled sequentially.
- Logging throughout.
- The clock is the parameter `clock` of `OnPing`. Only the low 32 bits of the pong are stated.
- `Integer.valueOf` on strings and `toString` on a stream name that is not a String are the parameters `parse` and `show` of `Play2Call`. Those parameters stand in for the code.
- `out.isCustom` is the parameter `isCustom`. The `Output` implementation and what each write puts on the wire are not modelled; the model states only which operation is chosen.
- Reflection and annotations are booleans and aliases: the `@DontSerialize` flags of `SerializeField`, and the `RemoteClass` alias and class name of `GetClassName`.
- The `RTMPConnection` and `BaseRTMPHandler` classes are not part of this model. The connection operations are written from how the handler uses them:
  - `invoke` takes the next invocation id and sends on channel 3;
  - `handlePendingCallResult` removes the call, stores the first argument as its result, delivers it to the callback, and swallows the callback's exceptions;
  - `addClientStream` gives the new stream the buffer duration remembered for its id, or 0, and forgets the remembered duration (`AddClientStream`, `BufferFor`);
  - `close` drops the stream, remembered-buffer and pending-call tables, and closing twice is closing once.
- Writes and invokes on a closed connection are still recorded in its log, and inbound messages are still dispatched after `disconnect`. What the concrete connection does with them is not part of this model.
- RtmpClient.CompletedCall: it does not change the call's status, because the status update `PendingCall.setResult` may make is not part of this model.
- RtmpClient.DispatchedCall: the `MethodNotFoundException` attached to the call is not modelled; only its status is.
- Collaborators are entries of the `effects` log or opaque identities. These are the callbacks, stream event handlers, the service invoker, shared-object dispatch, the connection consumer, `startConnector`, the exception handler, byte buffers and messages. `NetStream`, `createOutputStream`, `ConnectionConsumer` and the stream event dispatcher are summarised by the stream data that `NewStreamData` installs.
- Inbound calls always carry an argument array. The exception that a null array would raise is not modelled, on any inbound path: onStatus, onBWCheck and onBWDone, and the result path.
- RtmpClientHandler.ClientHandler.GetSharedObject: the name is never null. The NullPointerException a null name raises in the concurrent map lookup is not modelled.
- RtmpClientHandler.ClientHandler.OnSharedObject: the message's name is never null, for the same reason.
- RtmpClientHandler.ClientHandler.Publish: the name and mode are strings and never null. A null passes through into the call's arguments in the code, and the model cannot express that.
- RtmpClientHandler.ClientHandler.Play: the same for the stream name.
- RtmpConnection.Connection.constructor: the connection is an abstract connection holding only what the handler uses. Its field values are those the handler's use implies: the `connect` call takes id 1, so later ids count from there. The concrete connection classes are not modelled.
- `connect` shares the caller's map with the handler, so a later change by the caller would show through. The model copies the map as a value.
- The handler's getters and setters of the codec factory, the SWF-verification flag, the subscription flag, the stream event dispatcher and the connection-closed handler are not modelled. Nor is `connectionClosed`. They only store or return a field.
- `Tag.toString` is not modelled: it formats the fields as text.
- `RTMPMinaConnection`, `IPersistenceStore` and `Constants` are context only and are not modelled: session plumbing, an interface, and constants the core does not use.
- The serialization of an iterator: `WriteArrayType` takes the iterator's remaining elements as a value. `WriteIterator` shows that the mutable iterator, once drained, writes the same array.
