# Snakepit Python bridge: a verified model

This project models the Python side of the Snakepit bridge and proves what its concurrent parts
promise: the streaming tool call, the telemetry stream, the heartbeat client and its registry, the
type serializer, the thread-safety checker and the connection backoff. The state that the bridge
changes in place is modelled by classes whose methods are proved against specification functions.
The concurrent protocols are state machines over the same functions, with one program counter per
party, and their theorems speak about every interleaving and every queue capacity.

`dafny verify dfyconfig.toml` checks the whole project.

## The modules

- `StreamQueue`, `StreamMachine`, `StreamInvariant`, `StreamSafety`, `StreamLiveness`: one streaming
  call as a producer, a drain thread, a disconnect watcher and a consumer over a bounded queue. An
  atomic step is the code between two awaits; on the drain thread, between two blocking calls. So
  the thread's check of `cancelled` and the later `build_chunk` on the loop are separate steps.
- `TelemetryStream`, `TelemetryMachine`, `TelemetrySafety`, `TelemetryOrder`, `TelemetryAdmission`,
  `TelemetryDelivery`: the telemetry stream and its cross-thread hand-offs.
- `HeartbeatClient`, `HeartbeatRegistry`: the count of misses, and the registry with its
  double-checked lock.
- `PyValues`, `GracefulEncoder`, `MarkerTelemetry`, `TypeUrls`, `TypedCodec`, `TypedWire`: the
  serializer; the last one spells out messages and round trips case by case.
- `ThreadSafety`, `Backoff`, `ToolSources`: the two-way index, the two wait loops, and the showcase
  generators that feed the streaming call.

## What does not always hold

Where the code keeps a promise only under a condition, the condition is proved exact.

- Two kinds of sources leave the consumer of a streaming call waiting for ever. A synchronous
  iterator with an item that is rejected, for its payload or its metadata: the drain thread swallows
  the failure and sets `cancelled`, the producer then sends no sentinel, and the watcher stops, so
  that not even a disconnect is noticed (`StreamLiveness.DeafToDisconnect`). And an iterator that
  ends by raising `CancelledError`: the producer takes it for its own cancellation and queues
  nothing. Calls that are left to themselves always complete if and only if, for a synchronous
  iterator, every item is accepted and it does not end in a cancellation; for an asynchronous one,
  it does not end in a cancellation or an earlier item is rejected (`StreamLiveness.CompletesIff`,
  and `StreamLiveness.HangingRun` for the run that hangs). The comments in the code say that the
  sentinel is always delivered; the model follows the code.
- When a response is closed early, the drain thread is left blocked if and only if the queue was
  full and the thread had a chunk in hand (`StreamLiveness.DrainThreadBlocksIff`);
  `StreamLiveness.DrainThreadCanBlock` constructs such a run for every capacity.
- `TelemetryStream.close` ends the stream if and only if the queue had room for the sentinel
  (`TelemetryOrder.CloseEndsStreamIffRoom`, and `TelemetryOrder.RemoteCloseEndsStreamIffRoom` for a
  close on another thread), and `TelemetryOrder.CloseCanFindQueueFull` constructs a run in which
  it has none. A close on another thread just before the flush of an attach gives two sentinels
  (`TelemetryOrder.CloseDuringAttach`). A stream that was closed before its first attach gets
  its sentinel if and only if the buffer was not full (`TelemetrySafety.FirstAttachFlushesAll`).
- The two wait loops agree if and only if `max_retries >= 1` (`Backoff.LoopsAgreeIff`).
- A bool under `integer` comes back as 0 or 1 (`TypedCodec.IntegerRoundTripIff`). With `orjson`, a
  float that is not finite becomes null outside of the type `float`
  (`TypedCodec.EmbeddingRoundTripIff`, `TypedCodec.PlainRoundTripIff`). A dictionary with a truthy
  zero-copy key comes back as a reference. An array comes back as that array if and
  only if it is small and clean (`TypedCodec.ArrayRoundTripIff`); a large one comes back as a
  dictionary, and a small dictionary under `tensor` as an array.
- A type name is recovered from its URL if and only if it has no dot and no slash
  (`TypeUrls.TypeNameRecovered`).

## Model

| member | source | states |
|---|---|---|
| StreamQueue.StreamCall.constructor | priv/python/grpc_server.py:764-770 | a call starts with an empty queue, no cancellation, counter 0 and nothing marked final |
| StreamQueue.StreamCall.BuildChunk | priv/python/grpc_server.py:781-796 | the counter moves even if the payload or the metadata is rejected; the chunk carries the new number; only a chunk that was built marks the call final |
| StreamQueue.StreamCall.PutNowait | priv/python/grpc_server.py:885-897 | a put without waiting appends if there is room and otherwise changes nothing |
| StreamQueue.StreamCall.GetNowait | priv/python/grpc_server.py:891-894 | the oldest item is taken, unless the queue is empty |
| StreamQueue.StreamCall.ForceSentinel | priv/python/grpc_server.py:876-898 | the eviction loop ends, sets `cancelled`, and leaves the queue as `Forced` says |
| StreamQueue.ForcedKeepsTheRest | priv/python/grpc_server.py:881-898 | eviction costs the oldest item and nothing else, puts the sentinel last and stays within the capacity |
| StreamQueue.ChunkCarriesItem | priv/python/grpc_server.py:772-817 | an item becomes a chunk unless its payload or metadata is rejected; the chunk has its number, and the bytes, flag and metadata of the item |
| StreamQueue.ChunkByKind | priv/python/grpc_server.py:772-817 | bytes, text and JSON payloads give their bytes; an object without attributes is its own payload, not final and without metadata |
| StreamInvariant.InitInv | priv/python/grpc_server.py:764-770 | the invariant holds at the start of every call |
| StreamInvariant.ProducerPullKeeps | priv/python/grpc_server.py:819-864 | pulling an item and building its chunk, or meeting any end of the source, keeps the invariant |
| StreamInvariant.ProducerJoinKeeps | priv/python/grpc_server.py:850-864 | the producer goes on as the drain thread ended: normally, with an error, or with a cancellation that the source raised |
| StreamInvariant.ProducerPutKeeps | priv/python/grpc_server.py:798-799 | completing a pending put keeps the invariant |
| StreamInvariant.ProducerFinishKeeps | priv/python/grpc_server.py:865-868 | deciding on the synthesized final chunk keeps the invariant |
| StreamInvariant.ProducerSealKeeps | priv/python/grpc_server.py:869-871 | deciding on the sentinel keeps the invariant |
| StreamInvariant.ProducerCancelledKeeps | priv/python/grpc_server.py:855-859 | a producer that the teardown cancels, and which sends no sentinel, keeps the invariant |
| StreamInvariant.ThreadPullKeeps | priv/python/grpc_server.py:827-831 | the thread's pull and its check of `cancelled` keep the invariant |
| StreamInvariant.ThreadBuildKeeps | priv/python/grpc_server.py:832-836 | the enqueue that the loop runs later keeps the invariant, although `cancelled` may have been set in between |
| StreamInvariant.ThreadFailKeeps | priv/python/grpc_server.py:838-843 | a failed enqueue, which sets `cancelled`, keeps the invariant |
| StreamInvariant.WatcherFireKeeps | priv/python/grpc_server.py:873-898 | the watcher's forced sentinel keeps the invariant |
| StreamInvariant.ConsumerTakeKeeps | priv/python/grpc_server.py:904-920 | reading an item keeps the invariant |
| StreamInvariant.EarlyCloseKeeps | priv/python/grpc_server.py:921-934 | a teardown from outside keeps the invariant |
| StreamInvariant.BuildConserves | priv/python/grpc_server.py:781-799 | a chunk that is built becomes the pending put, and the order of delivery is kept |
| StreamInvariant.PutConserves | priv/python/grpc_server.py:798-799 | a pending chunk joins the queue behind the others |
| StreamInvariant.TakeConserves | priv/python/grpc_server.py:904-920 | a chunk that is read moves from the head of the queue to the end of what was yielded |
| StreamInvariant.ForceConserves | priv/python/grpc_server.py:881-898 | the eviction leaves at most one gap, at the chunk that would have been yielded next |
| StreamSafety.InvKept | priv/python/grpc_server.py:819-938 | every step of every party keeps the whole invariant |
| StreamSafety.RunKeepsInv | priv/python/grpc_server.py:819-938 | the invariant holds in every state of every run |
| StreamSafety.QuitMeansUnannounced | priv/python/grpc_server.py:855-859 | a producer ends on the source's own cancellation only after items that were all accepted |
| StreamSafety.GivingUpMeansRejected | priv/python/grpc_server.py:838-843 | the drain thread gives up only on an item that was rejected |
| StreamSafety.NoLostWakeup | priv/python/grpc_server.py:845-938 | while the consumer reads and the producer has ended, a sentinel or a failure is queued, if the end of the source is announced |
| StreamSafety.DisconnectReachesConsumer | priv/python/grpc_server.py:873-899 | after the disconnect is seen, at most capacity - 1 further items are read before a sentinel, even from an endless source |
| StreamSafety.FailureIsNotEvicted | priv/python/grpc_server.py:860-864 | with a capacity of three or more the eviction never drops the tool's error |
| StreamSafety.Backpressure | priv/python/grpc_server.py:764-843 | the queue is bounded, one put is pending at a time, and after `cancelled` there is at most one more pull and one more chunk, none of the latter on the asynchronous path |
| StreamSafety.OrderedDelivery | priv/python/grpc_server.py:781-920 | yielded, queued, pending and abandoned chunks are the chunks built, numbered from 1, in order, without at most one that was evicted on a disconnect |
| StreamSafety.BuiltCarriesItems | priv/python/grpc_server.py:781-871 | in every reachable state, for finite and endless sources, chunk i carries item i, and after them there is at most the empty final chunk |
| StreamSafety.RefinesReference | priv/python/grpc_server.py:819-938 | an undisturbed call yields exactly what a sequential loop over the source would send, and ends as that loop does |
| StreamSafety.FinalChunkContract | priv/python/grpc_server.py:865-871 | one chunk per item, and one more, empty and final, exactly if no item was flagged |
| StreamLiveness.RankDecreases | priv/python/grpc_server.py:819-938 | every step on a finite source, and every step after a cancellation, decreases a natural number |
| StreamLiveness.FiniteCallsEnd | priv/python/grpc_server.py:819-938 | a call on n items takes at most 5 n + 20 steps, whatever the interleaving |
| StreamLiveness.CancelledCallsEnd | priv/python/grpc_server.py:819-938 | after a cancellation a call on an endless source takes at most capacity + 30 steps |
| StreamLiveness.Progress | priv/python/grpc_server.py:845-938 | until the consumer has ended some party can move, unless the drain thread gave up or the source raised a cancellation |
| StreamLiveness.RestMeansDone | priv/python/grpc_server.py:845-938 | no deadlock: when nobody can move the consumer has ended, or waits for ever on a source whose end is not announced |
| StreamLiveness.GoneClientsAreNoticed | priv/python/grpc_server.py:873-899 | when nobody can move and the client is gone, the consumer has ended, unless the drain thread has given up |
| StreamLiveness.ComesToRest | priv/python/grpc_server.py:845-938 | a call on a finite source, or a cancelled one, can run to rest without outside help |
| StreamLiveness.StoppingMeansAnnounced | priv/python/grpc_server.py:855-920 | the consumer stops reading by itself only if the end of the source is announced |
| StreamLiveness.UnannouncedHangs | priv/python/grpc_server.py:838-871 | otherwise it reads on in every reachable state, until the watcher sees a disconnect or the response is closed |
| StreamLiveness.DeafToDisconnect | priv/python/grpc_server.py:838-875 | once the drain thread has given up, a disconnect is not noticed, and nothing but closing the response ends the call |
| StreamLiveness.HangingRun | priv/python/grpc_server.py:838-871 | a run that comes to rest with the consumer waiting, for every source whose end is not announced |
| StreamLiveness.CompletesIff | priv/python/grpc_server.py:819-938 | calls on finite sources that are left to themselves always complete if and only if the end of the source is announced |
| StreamLiveness.DrainThreadBlocksIff | priv/python/grpc_server.py:832-838 | after the teardown the drain thread stays blocked if and only if the queue was full with a chunk in hand, which takes an early close |
| StreamLiveness.DrainThreadCanBlock | priv/python/grpc_server.py:832-838 | for every capacity there is a run that leaves the drain thread blocked |
| StreamLiveness.QueueCanBeFull | priv/python/grpc_server.py:764-770 | a run that fills the queue, for every capacity |
| StreamLiveness.ChunkCanBeEvicted | priv/python/grpc_server.py:881-898 | a run in which the watcher drops the first chunk, for every capacity |
| ToolSources.CountedStream | priv/python/snakepit_bridge/adapters/showcase/handlers/streaming_ops.py:23-59 | the chunks are exactly those of steps 1 to count, in order, and the last one is flagged |
| ToolSources.FibonacciStream | priv/python/snakepit_bridge/adapters/showcase/handlers/streaming_ops.py:61-70 | the chunks carry exactly the first count Fibonacci numbers, in order, and the last one is flagged |
| ToolSources.GenerateDataset | priv/python/snakepit_bridge/adapters/showcase/handlers/streaming_ops.py:72-89 | the sizes add up to the rows, all but the last are the chunk size, there are ceil(rows / size) of them, and it raises if and only if rows are wanted in chunks of less than one |
| ToolSources.OneFinalChunkAtTheEnd | priv/python/snakepit_bridge/adapters/showcase/handlers/streaming_ops.py:23-89 | what these generators yield reaches the client of an undisturbed call byte for byte, numbered from 1, with one final chunk, in last place, for every count including zero |
| TelemetryStream.TelemetryStream.constructor | priv/python/snakepit_bridge/telemetry/stream.py:33-51 | the initial state |
| TelemetryStream.TelemetryStream.IsEventAllowed | priv/python/snakepit_bridge/telemetry/stream.py:240-250 | an event is allowed if and only if no deny pattern matches and the allow list is empty or has one that does |
| TelemetryStream.TelemetryStream.Enqueue | priv/python/snakepit_bridge/telemetry/stream.py:252-257 | a slot is queued, or dropped and counted when the queue is full |
| TelemetryStream.TelemetryStream.BufferPreStream | priv/python/snakepit_bridge/telemetry/stream.py:259-269 | an event is buffered, ignored after the close, or dropped and counted when the buffer is full |
| TelemetryStream.TelemetryStream.FlushPreStreamEvents | priv/python/snakepit_bridge/telemetry/stream.py:271-282 | the loop moves the oldest events that fit, counts the others as drops, and adds the sentinel of a closed stream |
| TelemetryStream.TelemetryStream.Attach | priv/python/snakepit_bridge/telemetry/stream.py:72-73 | an attach sets the loop and flushes |
| TelemetryStream.TelemetryStream.HandleControl | priv/python/snakepit_bridge/telemetry/stream.py:178-198 | a control message changes admission and nothing else; the rate is clamped to 0 to 1 |
| TelemetryStream.TelemetryStream.Emit | priv/python/snakepit_bridge/telemetry/stream.py:123-176 | an event that is not admitted changes nothing; the four routes of one that is, with the drop that is counted when the loop is closed |
| TelemetryStream.TelemetryStream.Close | priv/python/snakepit_bridge/telemetry/stream.py:200-229 | the first close marks the stream and offers a sentinel; a second one changes nothing |
| TelemetrySafety.InvKept | priv/python/snakepit_bridge/telemetry/stream.py:72-282 | every step on any thread keeps the accounts and the bounds |
| TelemetrySafety.FlushStepHolds | priv/python/snakepit_bridge/telemetry/stream.py:271-282 | a flush neither loses nor duplicates an event |
| TelemetrySafety.Conservation | priv/python/snakepit_bridge/telemetry/stream.py:72-282 | every accepted event is in hand, buffered, scheduled, queued, yielded, dropped or ignored, exactly once; the counter is dropped events plus dropped sentinels; the buffers are bounded |
| TelemetrySafety.FirstAttachFlushesAll | priv/python/snakepit_bridge/telemetry/stream.py:271-282 | the first attach flushes the whole buffer without a drop, and queues a sentinel exactly if the stream is closed and the buffer was not full |
| TelemetryAdmission.AdmissionFollowsControls | priv/python/snakepit_bridge/telemetry/stream.py:123-198 | what is admitted after a run is decided by its control messages alone, in their order |
| TelemetryAdmission.RateWithinBounds | priv/python/snakepit_bridge/telemetry/stream.py:192-194 | the sampling rate stays within 0 to 1 in every run |
| TelemetryAdmission.MutedAcceptsNothing | priv/python/snakepit_bridge/telemetry/stream.py:123-124 | a stream that is switched off accepts nothing until it is switched on again |
| TelemetryAdmission.AdmissionIsExact | priv/python/snakepit_bridge/telemetry/stream.py:123-198 | after any run an event is accepted if and only if the last toggle switched the stream on, its sample is within the last rate, and its name passes the last filter |
| TelemetryAdmission.FilterGoverns | priv/python/snakepit_bridge/telemetry/stream.py:196-250 | from a filter message to the next one, every accepted event has a name that matches no deny pattern, and some allow pattern unless there is none |
| TelemetryDelivery.DropsOnlyWhenFull | priv/python/snakepit_bridge/telemetry/stream.py:172-176 | exactly how many events and sentinels each step drops: those that find a full queue or buffer, or a loop that has ended |
| TelemetryDelivery.SettledMeansDelivered | priv/python/snakepit_bridge/telemetry/stream.py:87-94 | when nothing is under way every accepted event has been yielded, but for dropped and ignored ones and those that wait for an attach |
| TelemetryDelivery.DetachedMeansBuffering | priv/python/snakepit_bridge/telemetry/stream.py:95-103 | the loop is set only while some stream is about to flush, yields, or has yet to detach |
| TelemetryDelivery.WithoutStreamBuffers | priv/python/snakepit_bridge/telemetry/stream.py:157-161 | without a stream, an event is buffered at the end, if there is room |
| TelemetryDelivery.LifeOfAStream | priv/python/snakepit_bridge/telemetry/stream.py:72-282 | a whole run, from an event before the attach to the end of the loop, in which every event is yielded |
| TelemetryOrder.OrderKept | priv/python/snakepit_bridge/telemetry/stream.py:72-282 | every step keeps the local events in line in the order of their emission |
| TelemetryOrder.LocalEventsKeepOrder | priv/python/snakepit_bridge/telemetry/stream.py:72-176 | events emitted on the loop thread are yielded in the order of their emission, across re-attaches, and all that is yielded was accepted |
| TelemetryOrder.OpenMeansNoSentinel | priv/python/snakepit_bridge/telemetry/stream.py:200-229 | before the close there is no sentinel anywhere |
| TelemetryOrder.NeverEnds | priv/python/snakepit_bridge/telemetry/stream.py:89-94 | with the close done and no sentinel in sight, a stream does not end by itself |
| TelemetryOrder.Drains | priv/python/snakepit_bridge/telemetry/stream.py:89-94 | a stream yields what is ahead of its sentinel, in order and nothing else, and the takes left until it has ended go down by one with each take |
| TelemetryOrder.SentinelOffered | priv/python/snakepit_bridge/telemetry/stream.py:252-257 | the only sentinel of a stream ends it, after exactly the queued items and one more take, if and only if it finds a free slot |
| TelemetryOrder.CloseEndsStreamIffRoom | priv/python/snakepit_bridge/telemetry/stream.py:200-257 | a close on the loop makes the stream yield what was queued and have ended after exactly that many takes and one more, if and only if a slot was free |
| TelemetryOrder.CloseCanFindQueueFull | priv/python/snakepit_bridge/telemetry/stream.py:200-257 | for every bound there is a run in which a close finds the queue full |
| TelemetryOrder.OneOnTheWayKept | priv/python/snakepit_bridge/telemetry/stream.py:200-229 | after a close on another thread, outside of an attach, at most one sentinel is on its way, and until it arrives the stream goes on |
| TelemetryOrder.RemoteCloseEndsStreamIffRoom | priv/python/snakepit_bridge/telemetry/stream.py:206-257 | the sentinel of a close on another thread ends the stream, after exactly what is queued ahead of it and one more take, if and only if a slot is free when its callback runs |
| TelemetryOrder.RemoteCloseArrives | priv/python/snakepit_bridge/telemetry/stream.py:206-257 | the sentinel of a close on another thread gets there while the loop lives: the stream has ended, or has it in its queue, or it was dropped and counted |
| TelemetryOrder.CloseDuringAttach | priv/python/snakepit_bridge/telemetry/stream.py:72-73 | a close on another thread between the setting of the loop and the flush gives two sentinels, one by the flush if it has room and one on its way |
| HeartbeatClient.HeartbeatClient.SendPing | priv/python/snakepit_bridge/heartbeat.py:255-292 | after each ping the counter is the trailing run of failures, and the handler has been called exactly as it had to be |
| HeartbeatClient.HeartbeatClient.RunLoop | priv/python/snakepit_bridge/heartbeat.py:213-220 | the same after a run of the loop |
| HeartbeatClient.FaithfulAfter | priv/python/snakepit_bridge/heartbeat.py:271-275 | one more ping adds the notice that it calls for, and leaves the earlier ones |
| HeartbeatClient.MissHistory | priv/python/snakepit_bridge/heartbeat.py:228-292 | for every sequence of pings the notices are exactly the failures whose run reached the threshold, with its length |
| HeartbeatRegistry.Clients.EnsureLocked | priv/python/grpc_server.py:1041-1052 | under the lock a client is created only if the session has none, and the one registered is returned |
| HeartbeatRegistry.Clients.PopLocked | priv/python/grpc_server.py:1061-1062 | the session's client, if any, is removed and returned |
| HeartbeatRegistry.Clients.TakeAllLocked | priv/python/grpc_server.py:1072-1074 | all clients are removed and returned |
| HeartbeatRegistry.InvKept | priv/python/grpc_server.py:1030-1077 | every step of every concurrent call keeps the invariant of the registry |
| HeartbeatRegistry.RegistryConservation | priv/python/grpc_server.py:1030-1077 | clients created for a session are those removed and the one registered, if any; a removed client was stopped or is owed a stop by its remover |
| HeartbeatRegistry.StoppedOnce | priv/python/grpc_server.py:1064-1077 | no client is stopped twice, and none is stopped while registered |
| HeartbeatRegistry.CallsReturn | priv/python/grpc_server.py:1030-1077 | the calls never lock each other out, and when all have returned every removed client has been stopped |
| HeartbeatRegistry.RankDecreases | priv/python/grpc_server.py:1030-1077 | every step of a call that is there decreases a natural number |
| HeartbeatRegistry.CallsAreBounded | priv/python/grpc_server.py:1030-1077 | so calls take a bounded number of steps, whatever their interleaving, and all of them return |
| HeartbeatRegistry.CheckEndsOnlyIfDone | priv/python/grpc_server.py:1034-1071 | the check without the lock ends a call if and only if there is nothing for it to do |
| HeartbeatRegistry.BodyEffect | priv/python/grpc_server.py:1041-1074 | what the body of each call does to the registered clients |
| HeartbeatRegistry.EnsuredAreRegistered | priv/python/grpc_server.py:1030-1052 | when calls to ensure a client have all returned, exactly the sessions asked for have one |
| HeartbeatRegistry.StoppedAreGone | priv/python/grpc_server.py:1054-1077 | when calls to stop clients have all returned, exactly the clients asked for are gone, and the others are as they were |
| HeartbeatRegistry.DisabledCreatesNone | priv/python/grpc_server.py:1034-1035 | with the heartbeat switched off no client is ever created |
| HeartbeatRegistry.LifeOfAClient | priv/python/grpc_server.py:1030-1077 | a run in which a client is registered, removed and stopped |
| PyValues.CountListElements | priv/python/snakepit_bridge/serialization.py:140-160 | the stack loop ends and returns min(leaves, max + 1) for every nested list |
| PyValues.LeavesLaws | priv/python/snakepit_bridge/serialization.py:140-160 | the laws that fix the leaf count |
| PyValues.LookupIsFirst | priv/python/snakepit_bridge/serialization.py:482-486 | a key is found if and only if it is there |
| PyValues.FalsyValues | priv/python/snakepit_bridge/serialization.py:482-486 | the values that count as false |
| GracefulEncoder.Default | priv/python/snakepit_bridge/serialization.py:265-307 | the handler returns the chosen conversion, or the marker |
| GracefulEncoder.ChosenIsFirst | priv/python/snakepit_bridge/serialization.py:310-358 | the chosen conversion is the first that succeeds in the fixed order; there is none only if all fail |
| GracefulEncoder.ChosenByMethod | priv/python/snakepit_bridge/serialization.py:265-307 | method by method: each is used if it succeeds and those before it do not |
| GracefulEncoder.ToListWithinLimit | priv/python/snakepit_bridge/serialization.py:278-299 | a list from `tolist` is used if and only if its size was not known to be too large and its leaves are within the limit |
| GracefulEncoder.PlainUnchanged | priv/python/snakepit_bridge/serialization.py:250-307 | the encoder is the identity on values without objects |
| GracefulEncoder.ReadIsPlain | priv/python/snakepit_bridge/serialization.py:250-307 | what is read back is plain, whatever went in, and is encoded as it was |
| GracefulEncoder.PositionsKept | priv/python/snakepit_bridge/serialization.py:250-307 | the encoding keeps the structure: only positions that hold an object change |
| GracefulEncoder.PathLaws | priv/python/snakepit_bridge/serialization.py:250-307 | what a position is |
| GracefulEncoder.EntersMeansPassesObject | priv/python/snakepit_bridge/serialization.py:250-307 | a position lies inside of an object exactly if the way to it passes one |
| GracefulEncoder.ObjectReplaced | priv/python/snakepit_bridge/serialization.py:265-307 | an object becomes the encoding of what the handler returns for it |
| GracefulEncoder.MarkerDetail | priv/python/snakepit_bridge/serialization.py:110-137 | a marker without detail says the type only; other details are bounded by the maximal length |
| GracefulEncoder.MarkerContents | priv/python/snakepit_bridge/serialization.py:110-226 | the entries of a marker under each policy; redaction is applied before the text is cut, and only under the redacting policy |
| GracefulEncoder.FailingObject | priv/python/snakepit_bridge/serialization.py:265-307 | an object whose conversions all fail is read back as its marker |
| MarkerTelemetry.MarkerTelemetry.Mark | priv/python/snakepit_bridge/serialization.py:204-247 | the emissions attempted are the different types in order of first occurrence, cut off at the cap, and the set holds them, even if the backend raises |
| MarkerTelemetry.AttemptsAreFirstDistinct | priv/python/snakepit_bridge/serialization.py:228-245 | the same for every sequence of markers from an empty set |
| MarkerTelemetry.DistinctByFirstOccurrence | priv/python/snakepit_bridge/serialization.py:231-234 | the specification has the same elements, each once, in order of first occurrence |
| TypeUrls.SplitJoins | priv/python/snakepit_bridge/serialization.py:412-421 | the parts of a URL, joined again, are the URL |
| TypeUrls.PartsOf | priv/python/snakepit_bridge/serialization.py:412-421 | no part contains the separator |
| TypeUrls.TypeNameRecovered | priv/python/snakepit_bridge/serialization.py:384-421 | a type name is recovered from its URL if and only if it has no dot and no slash |
| TypeUrls.BinaryTypeNameRecovered | priv/python/snakepit_bridge/serialization.py:671-675 | on the binary path it is recovered if and only if it has no dot |
| TypeUrls.UrlText | priv/python/snakepit_bridge/serialization.py:384-384 | the text of the URLs |
| TypeUrls.TypeIsLastPart | priv/python/snakepit_bridge/serialization.py:405-421 | in a URL of any form, the name is what follows the last separator |
| TypeUrls.BinaryTypeIsLastPart | priv/python/snakepit_bridge/serialization.py:671-675 | in the URL of any binary message, it is what follows the last dot before the end |
| TypedCodec.CleanSurvives | priv/python/snakepit_bridge/serialization.py:489-530 | a plain value goes through a JSON library unharmed if and only if it keeps all its numbers and accepts its nesting |
| TypedCodec.JsonPath | priv/python/snakepit_bridge/serialization.py:365-427 | on the JSON path the decoder gets the encoder's type name and the written value |
| TypedCodec.UntouchedRoundTrip | priv/python/snakepit_bridge/serialization.py:365-486 | under types that are not converted, the normalized value comes back if and only if it is clean, as a zero-copy reference exactly if it is marked |
| TypedCodec.FloatRoundTrip | priv/python/snakepit_bridge/serialization.py:435-438 | every number comes back as its float, NaN and the infinities included; everything else is rejected |
| TypedCodec.IntegerRoundTripIff | priv/python/snakepit_bridge/serialization.py:440-446 | the normalized integer comes back if and only if it is no bool and the library writes it; a bool comes back as 0 or 1 |
| TypedCodec.TextRoundTrip | priv/python/snakepit_bridge/serialization.py:448-460 | string, choice and module bring back `str(value)` |
| TypedCodec.BooleanRoundTrip | priv/python/snakepit_bridge/serialization.py:451-454 | bools come back, everything else is rejected |
| TypedCodec.EmbeddingRoundTripIff | priv/python/snakepit_bridge/serialization.py:462-467 | a list comes back as floats on both wire paths, with the exact condition for each |
| TypedCodec.BinaryPath | priv/python/snakepit_bridge/serialization.py:604-692 | on the binary path the data comes back as pickled, with the shape as JSON keeps it |
| TypedCodec.PlainRoundTripIff | priv/python/snakepit_bridge/serialization.py:479-486 | a plain list or map comes back if and only if it is clean and not marked as zero-copy |
| TypedCodec.ZeroCopyRoundTripIff | priv/python/snakepit_bridge/serialization.py:430-486 | a zero-copy reference comes back if and only if its payload is clean and carries a truthy key; also under tensor, unless the payload is one |
| TypedCodec.SecondTripIsIdentity | priv/python/snakepit_bridge/serialization.py:365-427 | what comes back once, objects in the input included, comes back unchanged from then on |
| TypedCodec.LargeTensorRoundTrip | priv/python/snakepit_bridge/serialization.py:604-692 | a large tensor comes back as shape and data, and unchanged if and only if it had no other entries |
| TypedCodec.SmallTensorRoundTrip | priv/python/snakepit_bridge/serialization.py:469-559 | a small tensor always comes back as an array, also if it was a dictionary |
| TypedCodec.LookupRead | priv/python/snakepit_bridge/serialization.py:489-530 | JSON keeps the keys of a dictionary |
| TypedCodec.ArrayRoundTripIff | priv/python/snakepit_bridge/serialization.py:469-477 | an array comes back as that array if and only if it is small enough for JSON, and its list and shape are clean |
| TypedWire.MessageForm | priv/python/snakepit_bridge/serialization.py:365-387 | the URL names the type, and the binary path is taken by lists of more than 1280 items under embedding and tensor, and by nothing else |
| TypedWire.FloatOnTheWire | priv/python/snakepit_bridge/serialization.py:497-510 | floats that JSON cannot express are sent as three strings, the others as numbers |
| TypedWire.EmbeddingMetadata | priv/python/snakepit_bridge/serialization.py:650-668 | the metadata and the data of a large embedding |
| TypedWire.FloatCases | priv/python/snakepit_bridge/serialization.py:435-438 | a float comes back as itself, an integer or bool as its float, and the rest is rejected |
| TypedWire.IntegerCases | priv/python/snakepit_bridge/serialization.py:440-446 | an integer comes back as itself, a bool as 0 or 1, a whole float as its integer, and the rest is rejected |
| TypedWire.TextCases | priv/python/snakepit_bridge/serialization.py:448-460 | a string comes back as itself, and other values as their text |
| TypedWire.NonFiniteCases | priv/python/snakepit_bridge/serialization.py:489-515 | under a type without a rule a float that is not finite becomes null with one library and itself with the other |
| TypedWire.EmbeddingCases | priv/python/snakepit_bridge/serialization.py:462-467 | a list of numbers comes back as the list of their floats in order, under the exact condition of each path |
| TypedWire.EmbeddingRejects | priv/python/snakepit_bridge/serialization.py:462-467 | an item that is no number, or a value that is no list, is an error |
| TypedWire.EmbeddedArray | priv/python/snakepit_bridge/serialization.py:462-464 | an array under embedding comes back as its list |
| TypedWire.ArrayAsList | priv/python/snakepit_bridge/serialization.py:479-480 | an array under a type without a rule comes back as its list |
| TypedWire.LargeTensorCases | priv/python/snakepit_bridge/serialization.py:604-692 | a large tensor, with other entries and in any order, comes back as exactly its shape and its data |
| TypedWire.LargeTensorUnchanged | priv/python/snakepit_bridge/serialization.py:604-692 | a large tensor without other entries comes back as it was if and only if the library writes its shape |
| TypedWire.LargeArrayCases | priv/python/snakepit_bridge/serialization.py:604-692 | a large array comes back as a dictionary of its shape and its list |
| TypedWire.LargeReferenceCases | priv/python/snakepit_bridge/serialization.py:624-644 | a reference with large data and no shape comes back with an empty one |
| TypedWire.TensorRejects | priv/python/snakepit_bridge/serialization.py:469-477 | what is no tensor is rejected |
| TypedWire.ForeignFloat | priv/python/snakepit_bridge/serialization.py:405-542 | the last part of any URL makes a number a float, and the three strings their floats |
| TypedWire.ForeignInteger | priv/python/snakepit_bridge/serialization.py:405-545 | a float under integer loses its fraction, towards zero |
| TypedWire.ForeignBinary | priv/python/snakepit_bridge/serialization.py:671-692 | binary data under a type without a binary form is rejected |
| TypedWire.ZeroCopyKey | priv/python/snakepit_bridge/serialization.py:482-486 | a dictionary counts as a reference if and only if it has the key with a value that counts as true |
| ThreadSafety.ThreadSafetyChecker.CheckMethodAccess | priv/python/snakepit_bridge/thread_safety_checker.py:107-151 | all tables index the log with the new access; strict mode raises exactly on the access that makes the method concurrent, with the tables updated |
| ThreadSafety.ThreadSafetyChecker.TrackExecution | priv/python/snakepit_bridge/thread_safety_checker.py:191-212 | only the thread's total time changes, also when the thread was not known |
| ThreadSafety.ThreadSafetyChecker.WarnLibrary | priv/python/snakepit_bridge/thread_safety_checker.py:168-187 | a library warning is recorded once, and cannot be taken for a concurrency warning |
| ThreadSafety.ThreadSafetyChecker.CheckLibrarySafety | priv/python/snakepit_bridge/thread_safety_checker.py:153-189 | every imported library of the list has its warning, unless strict mode raises, at the first one that is new |
| ThreadSafety.ThreadSafetyChecker.Reset | priv/python/snakepit_bridge/thread_safety_checker.py:277-284 | after a reset the tables index the empty log |
| ThreadSafety.ThreadSafetyChecker.Disable | priv/python/snakepit_bridge/thread_safety_checker.py:315-319 | switching the checker off keeps what was recorded |
| ThreadSafety.ThreadSafetyChecker.ConcurrentAccesses | priv/python/snakepit_bridge/thread_safety_checker.py:224-229 | the report has exactly the methods with more than one thread, which are those with a warning |
| ThreadSafety.KeysDiffer | priv/python/snakepit_bridge/thread_safety_checker.py:134-170 | the keys of warnings never clash |
| ThreadSafety.AccessKeepsTables | priv/python/snakepit_bridge/thread_safety_checker.py:122-129 | an access keeps the three tables indexes of the log |
| ThreadSafety.AccessKeepsWarnings | priv/python/snakepit_bridge/thread_safety_checker.py:131-136 | a concurrency warning is recorded if and only if more than one thread accessed the method |
| ThreadSafety.IndexesAreInverse | priv/python/snakepit_bridge/thread_safety_checker.py:122-129 | a thread is listed under a method if and only if the method is listed under the thread |
| ThreadSafety.TotalsAgree | priv/python/snakepit_bridge/thread_safety_checker.py:122-129 | calls by thread and times by method have the same total, the number of accesses |
| ThreadSafety.AccessesAreCounted | priv/python/snakepit_bridge/thread_safety_checker.py:122-129 | calls and times are as many as the accesses of the thread and of the method |
| ThreadSafety.TimesAreListed | priv/python/snakepit_bridge/thread_safety_checker.py:124-125 | the times of a method are those of its accesses, in order |
| Backoff.WaitWhile | priv/python/grpc_server.py:1080-1151 | the `while` loop gives the expected wait, also without a bound, and pings once when no retry is allowed |
| Backoff.WaitFor | priv/python/grpc_server_threaded.py:817-837 | the `for` loop gives the expected wait, and does not ping when no retry is allowed |
| Backoff.ExpectedIsUnique | priv/python/grpc_server.py:1099-1151 | there is one expected wait: attempts up to the first answer, and the delays between them |
| Backoff.LoopsAgreeIff | priv/python/grpc_server_threaded.py:817-837 | the loops agree if and only if at least one retry is allowed |
| Backoff.DelayIsCappedDoubling | priv/python/grpc_server.py:1149-1150 | the k-th sleep is min(initial * 2^k, 2) for initial delays of 0 to 2 seconds |
| Backoff.SleepsOfWait | priv/python/grpc_server.py:1099-1151 | a wait sleeps once before each further attempt, the k-th time for min(initial * 2^k, 2) seconds |
| Backoff.TotalSleepIsBounded | priv/python/grpc_server.py:1149-1150 | n sleeps take at most 2 n seconds, and no less than the initial delay if there are any |

## Left out

- gRPC channels, stubs, protobuf messages, port binding, signals, process groups and logging.
- The copy of the streaming call in `grpc_server_threaded.py` (lines 620-797): it has the same protocol, and one model stands for both.
- The execution of tools: a tool is any sequence of items, finite or endless, that ends normally or raises. Not modelled are a source that is pulled again after its end, a pull that never returns, an exception outside of `Exception` other than `CancelledError`, an item whose attributes raise when they are read (it acts like a source that raises there), and the closing of iterators.
- How often the adapter is cleaned up when a tool raises.
- A second cancellation of the call while its teardown waits for the two tasks.
- Wall-clock time, sleeps and jitter; polling of the watcher changes nothing and is no step. Random sampling is a parameter.
- `fnmatch`, the redaction patterns, JSON text, pickle bytes and NumPy's `reshape` are parameters, or stand for the values that they were made of.
- The rounding of integers to floats: `float(int)` is a parameter. Finite floats are reals.
- Telemetry: two threads that count a drop at the same moment (`_dropped_count += 1` is not atomic in Python), re-attaching on a different event loop, and the conversion of measurements.
- A cancellation of an ensure or stop call while it waits for the lock, and clients that are created after a stop-all took its snapshot.
- `HeartbeatConfig.from_mapping`, and `start` and `stop` of one heartbeat client, which only toggle its task.
- Serializer: tuples, keys that are not strings, lone surrogates, objects that `orjson` writes without a handler (dates, data classes), its limit on nested handlers, malformed messages, and `validate_constraints`. A zero-copy reference under `float` or `integer`, or with both keys of a tensor under `tensor`, is encoded and decoded by the model, but has no theorem of its own. The bounds of a JSON library on integers and nesting are parameters, taken to be the same for writing and reading.
- The reading of the encoder's settings from the environment: the policy is a parameter.
- Thread-safety checker: texts of messages, and the remaining fields of the report.
- The endless showcase stream has no model of its own: endless sources are covered by the streaming call. Payload data and timing of the generators are a parameter.
- The showcase compute cache, session contexts, tool discovery and request counters, which would add only easy members.
