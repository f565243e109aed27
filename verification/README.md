# AstraWatch: verified models of its stateful cores

A Dafny 4.11 model of the four places in AstraWatch where state is kept across
events, with proofs of what that state guarantees. `dafny verify dfyconfig.toml`
checks everything.

* **The agent's store-and-forward path** (`services/cxx-agent`). `RingBytes` and
  `RingBuffer` are the circular byte region with its length prefixes, split
  copies and offsets; `Decimal`, `LineText`, `Ordering` and `BatchCodec` are the
  line-based printer and parser of a batch; `Protocol` holds the wire messages
  and the seconds/nanos conversion; `Drain` is the backlog stream; `Agent`,
  `AgentContents`, `AgentLosses`, `AgentReadings` and `AgentLoop` are the main loop. The class methods are proved
  against functions on values (`Agent.Step`, `Drain.DrainFrom`,
  `BatchCodec.Deserialize`, ...), and the run properties are proved about those.
* **The realtime gateway** (`services/realtime`). `OrderedMaps` is JavaScript's
  `Map`; `EventCache` the dedup/TTL/size-capped cache with its unbounded
  reference; `DedupKeys` the keys records get; `Rooms` the room names; `Gateway`
  the broadcast and replay state machine; `GatewayReplay` what a replay sends after
  a whole run; `GatewayDelivery` who is subscribed to what and who gets what; `RealtimeGateway` the object itself; `RateLimiter` the per-socket
  limiter.
* **The analyzer's metric buffer** (`services/analyzer`). `AnalyzerBuffer` is the
  two tasks as atomic sections in any order; `Analyzer` is the same over shared
  list objects and refines it.
* **The telemetry generator's fault scheduler** (`services/telemetry-gen`):
  `FaultScheduler`.

Modelling choices:

* A byte is a Dafny `char`; no proof needs it to be below 256. The 32-bit length
  cast, 64-bit `stoll`/`stoul` ranges, truncating division and the wrap-around of
  the batch counter are written out.
* A sample value is any type `V` with a printer and a partial reader
  (`ValueText`): the C++ default precision loses digits and `std::stod` throws on
  subnormal numbers. Round trips say exactly what comes back.
* What comes from outside is a parameter: clock readings, send and write
  outcomes, the stop flag, the detector's verdict, random draws.
* In the analyzer model metrics may be consumed between any two turns of a round,
  not only while a publish is awaited; every schedule of the source is one of
  these.

Where code and comments disagree the model follows the code. These are proved:

* `DedupKeys.SuppressedByLogExactly`, `EmittedLogKeyIgnoresPartition`: the
  handler's comment relies on topic, partition and offset, but the consumer's `*`
  event carries no partition, so a log record is suppressed by another exactly when
  topic and offset agree within the window, whatever the partitions. With the
  partition the key is injective (`LogKeyInjective`).
* `DedupKeys.SuppressedByKeyExactly`: two different records of one type with one
  Kafka key, such as two updates of an incident, suppress each other within the
  window.
* `Gateway.IsolationExact`: rooms keep tenants apart exactly when no tenant name
  reads like another followed by a room kind; `ExtensionLeaks` is a run of three
  requests that crosses over otherwise.
* `Drain.MessageFaithful`, `AgentContents.DrainRepeatsSamples`: one batch object is
  reused for all pops of a drain and the parser only appends to it, so the k-th
  backlog message carries 6(k+1) points; only the first is the buffered batch.
* `Agent.BufferOutcome`: a batch above a quarter of the region costs the oldest
  buffered batch as well as itself (`LargerBatchCostsBoth` is such a state).
* `RingBytes.ReopenLosesOnlyFullAtZero`: reopening wipes a queue that exactly fills
  the region from offset 0 (`FullRingExample` and `MMapRingBuffer.ReopenFullRegion`
  reach it).
* `AnalyzerBuffer.PublishLosesExactlyLate`, `RunLosesExactly`: metrics that arrive while an anomaly is
  being published are discarded without analysis.
* `FaultScheduler`: episodes last 60 to 149 s, not 60 to 150.

## Model

| member | source | states |
|---|---|---|
| RingBuffer.MMapRingBuffer.Open | services/cxx-agent/src/ring_buffer.cpp:49-60 | A rejected header, such as one with an offset outside the region, gives an empty well-formed wiped ring; otherwise region and header are kept, and a region this class wrote stays a valid ring with the same queue; afterwards both offsets lie inside the region |
| RingBuffer.MMapRingBuffer.Push | services/cxx-agent/src/ring_buffer.cpp:69-111 | For every batch: true exactly when the entry takes at most a quarter of the region and fits the free space; then the queue gains the printed batch at its end, else nothing changes; the ring stays well-formed exactly unless an accepted payload is 2^32 bytes or more, whose stored prefix is the wrapped size; the oldest-timestamp field only ever drops |
| RingBuffer.MMapRingBuffer.AppendEntry | services/cxx-agent/src/ring_buffer.cpp:85-104 | Prefix and payload, each possibly split at the end of the region, follow the used bytes and leave every unread byte in place; the result is a well-formed ring exactly when the size fits the 32-bit prefix |
| RingBuffer.MMapRingBuffer.Write | services/cxx-agent/src/ring_buffer.cpp:86-103 | The two-part copy writes exactly the next bytes of the circle and no other byte |
| RingBuffer.MMapRingBuffer.Read | services/cxx-agent/src/ring_buffer.cpp:119-136 | The two-part copy returns the circular window at the read offset and advances it modulo capacity |
| RingBuffer.MMapRingBuffer.Pop | services/cxx-agent/src/ring_buffer.cpp:113-140 | On an empty ring false and nothing changes; else the oldest entry is removed, parsed onto the caller's batch, and removed also when it does not parse |
| RingBuffer.MMapRingBuffer.Clear | services/cxx-agent/src/ring_buffer.cpp:156-162 | Empties the queue of any ring, well-formed or not, leaves a well-formed one and resets the oldest timestamp |
| RingBuffer.MMapRingBuffer.Size | services/cxx-agent/src/ring_buffer.cpp:142-145 | The header count is the number of queued entries |
| RingBuffer.MMapRingBuffer.Empty | services/cxx-agent/src/ring_buffer.cpp:151-154 | True exactly when no entry is queued |
| RingBytes.FreeBytesExact | services/cxx-agent/src/ring_buffer.cpp:169-180 | In every well-formed ring the computed free space is capacity minus all queued prefixes and payloads; equal offsets mean empty or completely full, told apart by the count |
| RingBytes.OldestEntry | services/cxx-agent/src/ring_buffer.cpp:116-137 | The bytes at the read offset are the oldest entry's prefix and payload, for every split, and what remains is the ring of the other entries |
| RingBytes.EntryAppended | services/cxx-agent/src/ring_buffer.cpp:85-104 | A ring whose used window was extended by prefix and payload is the ring of one more entry |
| RingBytes.WindowAfterWrite | services/cxx-agent/src/ring_buffer.cpp:95-103 | Writing behind the used window extends it by the written bytes and keeps the unread ones |
| RingBytes.FramesInjective | services/cxx-agent/src/ring_buffer.cpp:85-101 | The byte layout determines the queue of entries |
| RingBytes.PrefixExact | services/cxx-agent/src/ring_buffer.cpp:85-92 | The stored 32-bit prefix is the size modulo 2^32, so it is the size exactly when that is below 2^32 |
| RingBytes.AdvanceIsModulo | services/cxx-agent/src/ring_buffer.cpp:93-103 | Moving an offset once around the region is the code's reduction modulo capacity |
| RingBytes.DropOldestMakesRoom | services/cxx-agent/src/main.cpp:294-299 | After dropping the oldest entry a push succeeds exactly when the entry fits a quarter of the region and the free bytes plus the oldest entry's |
| RingBytes.ReopenLosesOnlyFullAtZero | services/cxx-agent/src/ring_buffer.cpp:52-56 | Reopening loses a queue exactly when it fills the whole region and starts at offset 0 |
| RingBytes.FullRingExample | services/cxx-agent/src/ring_buffer.cpp:52-79 | A region four times the size of an entry accepts it four times, and the full ring is one whose header is rejected |
| RingBuffer.MMapRingBuffer.ReopenFullRegion | services/cxx-agent/src/ring_buffer.cpp:49-111 | Four pushes into such a region and opening it again give an empty queue |
| LineText.EscapeString | services/cxx-agent/src/ring_buffer.cpp:182-197 | The loop computes the escaped text |
| LineText.UnescapeString | services/cxx-agent/src/ring_buffer.cpp:199-222 | The index-skipping loop computes the unescaped text |
| LineText.UnescapeEscape | services/cxx-agent/src/ring_buffer.cpp:182-222 | Unescaping an escaped string gives it back, whatever it contains |
| LineText.UnescapeKeeps | services/cxx-agent/src/ring_buffer.cpp:199-222 | A backslash in front of any character but those of an escape, or at the end, stays as it is |
| LineText.EscapeHasNoLineBreak | services/cxx-agent/src/ring_buffer.cpp:182-197 | Escaped text has no newline and no carriage return |
| LineText.GetLineOfLine | services/cxx-agent/src/ring_buffer.cpp:254-263 | A terminated line is read back whole with the rest of the stream after it |
| LineText.GetLineOfLast | services/cxx-agent/src/ring_buffer.cpp:254-263 | A last line that is not terminated is read whole, and the end of the text fails |
| Decimal.StoLLOfShow | services/cxx-agent/src/ring_buffer.cpp:265-269 | A printed integer reads back as itself when it is a signed 64-bit one and fails otherwise |
| Decimal.StoULOfShow | services/cxx-agent/src/ring_buffer.cpp:277-294 | A printed count reads back as itself when it is below 2^64 and fails otherwise |
| Decimal.NumeralRead | services/cxx-agent/src/ring_buffer.cpp:265-294 | What both number readers make of any text with a numeral in front: white space before it, either sign and anything after it; out of range fails, and a minus sign wraps the unsigned one |
| BatchCodec.WriteLabels | services/cxx-agent/src/ring_buffer.cpp:239-241 | Labels are printed once each, in key order |
| BatchCodec.WriteSample | services/cxx-agent/src/ring_buffer.cpp:234-242 | One sample's lines are appended in front of what follows |
| BatchCodec.SerializeBatch | services/cxx-agent/src/ring_buffer.cpp:224-246 | The printing loops produce the batch text |
| BatchCodec.ReadLabels | services/cxx-agent/src/ring_buffer.cpp:296-301 | The label loop computes the label map or fails where the text ends |
| BatchCodec.ReadSample | services/cxx-agent/src/ring_buffer.cpp:280-301 | One sample is read, or the first failing line or number ends it |
| BatchCodec.ReadSamples | services/cxx-agent/src/ring_buffer.cpp:279-303 | Complete samples are appended one by one, also when a later one fails |
| BatchCodec.DeserializeBatch | services/cxx-agent/src/ring_buffer.cpp:248-309 | Field by field parsing with early returns, including what a failed parse leaves in the caller's batch |
| BatchCodec.RoundTrip | services/cxx-agent/src/ring_buffer.cpp:224-309 | For every batch, reading back its text succeeds exactly when each value reads back, gives all fields, and appends the samples to the caller's |
| BatchCodec.RoundTripExact | services/cxx-agent/src/ring_buffer.cpp:302 | The batch itself comes back exactly when the caller's batch had no samples |
| BatchCodec.ParseLabelText | services/cxx-agent/src/ring_buffer.cpp:238-301 | Any label map, printed in key order, is read back whole |
| BatchCodec.FieldsByLines | services/cxx-agent/src/ring_buffer.cpp:248-309 | For any text: each scalar field left in the target is that of its own line as far as the lines before were there and readable, samples are only appended, and success needs as many as the seventh line says |
| BatchCodec.SampleByLines | services/cxx-agent/src/ring_buffer.cpp:280-301 | For any text: a sample is read from its own lines and fails exactly when one is missing or does not read |
| Protocol.JoinSplit | services/cxx-agent/src/main.cpp:79-287 | Splitting a millisecond time into seconds and nanos and joining it again loses nothing, for negative times too |
| Protocol.SplitExact | services/cxx-agent/src/main.cpp:79-287 | The split is the one pair of seconds and nanos that denotes the time with both on the same side of zero |
| Protocol.BuildProtoBatch | services/cxx-agent/src/main.cpp:61-119 | The built message has the configured identity and six points: each reading under its own name, once, with the interval's time and the three base labels |
| Protocol.BuildLocalEntry | services/cxx-agent/src/main.cpp:274-292 | The saved batch has one sample per point with joined timestamps |
| Protocol.BuildBacklogMessage | services/cxx-agent/src/grpc_client.cpp:164-182 | The backlog message has the batch's header, its samples as points, the backlog flag and the queue depth |
| Protocol.EndToEnd | services/cxx-agent/src/grpc_client.cpp:164-182 | A message saved, printed, popped into an empty batch and re-encoded differs from the live one only in backlog flag, queue depth and value rounding |
| Protocol.LiveEndToEnd | services/cxx-agent/src/main.cpp:250-292 | The same for every message the agent builds, provided its six values read back |
| Drain.StreamBacklog | services/cxx-agent/src/grpc_client.cpp:150-195 | Over the byte ring the loop writes exactly the specified messages and leaves exactly the specified rest, for every pattern of outcomes |
| Drain.DrainLoop | services/cxx-agent/src/grpc_client.cpp:161-188 | The pop-check-write loop ends and refines the drain of the queue |
| Drain.DrainSplits | services/cxx-agent/src/grpc_client.cpp:163-188 | The queue is what was written, then at most one popped batch, then what is left, in order; with none lost it is empty |
| Drain.DrainCauses | services/cxx-agent/src/grpc_client.cpp:163-186 | Exactly the written batches were readable, wanted and accepted, and the first other one names its cause |
| Drain.DrainContents | services/cxx-agent/src/grpc_client.cpp:161-182 | The k-th message has the k-th batch's header and the samples of all batches sent before it, then its own |
| Drain.MessageFaithful | services/cxx-agent/src/grpc_client.cpp:161-182 | The k-th message is the k-th batch exactly when all batches sent before it were free of samples |
| Agent.BufferOutcome | services/cxx-agent/src/main.cpp:294-299 | From the sizes alone: when saving a batch costs nothing, the oldest, the new one, or both |
| Agent.LargerBatchCostsBoth | services/cxx-agent/src/main.cpp:294-299 | In a region four times the size of the one batch it holds, saving any larger batch loses both |
| Agent.LaterNumberIsLarger | services/cxx-agent/src/main.cpp:229-292 | All else equal, the tenth batch an agent saves is larger than the ninth |
| Agent.DropOldestKeepsNewest | services/cxx-agent/src/main.cpp:294-299 | With an entry no larger than the oldest one exactly one buffered batch is lost and never the new one |
| Agent.DrainNumbers | services/cxx-agent/src/grpc_client.cpp:163-188 | The numbers buffered before a drain are those written, then the lost one, then those left |
| Agent.StepKeeps | services/cxx-agent/src/main.cpp:229-306 | One iteration keeps every number accounted for once and the backlog order |
| Agent.StepOutcome | services/cxx-agent/src/main.cpp:244-299 | An iteration ends connected exactly when the live send succeeded, which acknowledges one message with the next number, its readings and the queue depth before the drain; a failed number is the newest buffered or the last lost; backlog is written only when it began connected |
| Agent.StepWrites | services/cxx-agent/src/grpc_client.cpp:150-188 | An iteration that began connected with an open stream writes the buffer up to the first batch that is unreadable, unwanted or refused, and loses that one; any other writes nothing |
| Agent.DrainWrites | services/cxx-agent/src/grpc_client.cpp:150-188 | The same of the drain, with what is left and the cause of the loss |
| Agent.RunKeeps | services/cxx-agent/src/main.cpp:229-306 | The same over every run |
| Agent.RunFromStart | services/cxx-agent/src/main.cpp:229-306 | From an empty buffer each number given out is in exactly one of acknowledged, written, buffered, lost; written and buffered numbers together increase |
| Agent.RunAccounts | services/cxx-agent/src/main.cpp:229-306 | Over every run from any state, such as a buffer left by an earlier process, and past the wrap-around of the counter, what was accounted for and each number given out is in exactly one of acknowledged, written, buffered, lost, counted with multiplicity |
| Agent.GivenOnce | services/cxx-agent/src/main.cpp:244 | The counter gives each of its 2^64 numbers once before it repeats any, across its wrap-around |
| AgentContents.RunKeepsSound | services/cxx-agent/src/main.cpp:273-299 | In every reachable state the buffer holds only batches this agent built and they fit the region |
| AgentContents.DrainRepeatsSamples | services/cxx-agent/src/grpc_client.cpp:161-182 | The k-th message of an agent's drain has 6(k+1) points; it is the buffered batch exactly for k = 0 |
| AgentReadings.RunCarriesReadings | services/cxx-agent/src/main.cpp:61-306 | After any run from an empty buffer every message acknowledged live, every buffered batch and the last six points of every backlog message hold, under each metric name, the reading of the iteration that gave it its number, with its time and identity |
| AgentLosses.LiveReadable | services/cxx-agent/src/main.cpp:273-292 | A saved batch reads back exactly when each of the six values of its interval does |
| AgentLosses.RunNeverUnreadable | services/cxx-agent/src/main.cpp:229-306 | A run whose own readings read back, from a buffer that reads back, never loses a batch to a failed parse |
| AgentLosses.RunLosesNothingExactly | services/cxx-agent/src/main.cpp:229-306 | A run adds no loss exactly when in every iteration each backlog batch is read, wanted and written and a failed live batch finds room |
| AgentLosses.SteadyRunLosesNothing | services/cxx-agent/src/main.cpp:229-306 | A run that is never stopped, whose writes succeed, whose readings read back and whose batches fit the region together loses nothing, whatever its sends do |
| AgentLoop.MainLoop.Save | services/cxx-agent/src/main.cpp:294-299 | Push, pop and push again over the byte ring have the specified outcome |
| AgentLoop.MainLoop.DrainBacklog | services/cxx-agent/src/main.cpp:259-262 | The guarded drain over the byte ring is the specified drain phase |
| AgentLoop.MainLoop.Iterate | services/cxx-agent/src/main.cpp:229-306 | One pass of the loop over the byte ring is one step of the protocol |
| AgentLoop.MainLoop.RunAll | services/cxx-agent/src/main.cpp:229-314 | From any buffer, any number of passes over the byte ring is a run of the protocol, provided no failed batch that the quarter rule lets through reaches 2^32 bytes |
| AgentLoop.SmallRegionStorable | services/cxx-agent/src/main.cpp:229-314 | In a region below 2^34 bytes that proviso holds of every run |
| EventCache.HandleTracks | services/realtime/src/index.js:249-341 | After every event both Maps hold the same keys in the same order, within the cap, each entry the last accepted event of its key and not outlived, and every missing key was capped or outlived |
| EventCache.RunTracks | services/realtime/src/index.js:249-341 | The same over every run on a clock that does not run backwards |
| EventCache.CapRemovesOldest | services/realtime/src/index.js:299-308 | The cap removes only the first inserted key, only with a full cache behind it, and never the event just cached |
| EventCache.AcceptedOrder | services/realtime/src/index.js:293-341 | The cache is ordered by first insertion: an accepted event leaves other keys in their order, its own where it was if still there, else last |
| EventCache.SuppressedOnlyWhenRepeated | services/realtime/src/index.js:325-341 | Only an event whose key was accepted less than the window ago is suppressed |
| EventCache.DedupExact | services/realtime/src/index.js:325-341 | An event is suppressed exactly when it is such a repetition and neither cap nor TTL removed its key |
| EventCache.DedupExactUpToCap | services/realtime/src/index.js:314-341 | With a TTL at least as long as the window only the cap makes a difference |
| EventCache.DecisionsAgreeOnKey | services/realtime/src/index.js:249-341 | Over a run in which the cap never removes a key, whatever others it evicts, each event of that key is decided as by the unbounded last-accepted-time map going by its own decisions |
| EventCache.DecisionsAgree | services/realtime/src/index.js:249-341 | Over a run with no more keys than the cache holds, all decisions are those of that map |
| EventCache.HistoryExact | services/realtime/src/index.js:249-341 | The time and value recorded for a key after a run are those of the last event of the run that was not suppressed |
| DedupKeys.LogKeyInjective | services/realtime/src/index.js:250-257 | With the partition, the log key is equal exactly for the same topic, partition and offset |
| DedupKeys.EmittedLogKeyIgnoresPartition | services/realtime/src/kafka/consumer.js:60-67 | As emitted, log keys are equal exactly for the same topic and offset |
| DedupKeys.SuppressedExactly | services/realtime/src/index.js:249-341 | Accepting one record makes the handler suppress another, which it would have taken, exactly when event type and dedup key agree, the key is not the text `undefined`, and the window has not passed |
| DedupKeys.SuppressedByLogExactly | services/realtime/src/index.js:249-260 | For log records that is when topic and offset agree, whatever their partitions |
| DedupKeys.SuppressedByKeyExactly | services/realtime/src/index.js:254-260 | For other records with a Kafka key it is when type and key agree, whatever they say |
| DedupKeys.KeylessKeyInjective | services/realtime/src/index.js:257 | Without a Kafka key, dedup keys are equal exactly for the same topic, offset and timestamp |
| DedupKeys.AcceptedThenRepeated | services/realtime/src/index.js:325-341 | After an accepted event the next check of its key suppresses exactly within the window of the acceptance |
| DedupKeys.CacheKeyInjective | services/realtime/src/index.js:294-328 | Cache keys of colon-free event types are equal only for equal type and key |
| DedupKeys.EventTypeWithoutColon | services/realtime/src/kafka/consumer.js:77-96 | Topics without colons map to event types without colons |
| DedupKeys.TopicTypes | services/realtime/src/kafka/consumer.js:77-96 | The event type of every subscribed topic, by its prefix and two exceptions |
| DedupKeys.LogTopic | services/realtime/src/kafka/consumer.js:42-86 | Of all subscribed topics exactly `raw-logs` brings log lines |
| Rooms.SharedRoomExact | services/realtime/src/index.js:122-194 | Two tenants share a room name exactly when one name extends the other by a room kind |
| Rooms.ColonFreeSeparable | services/realtime/src/index.js:122-194 | Tenant identifiers without colons never share a room |
| Gateway.RunIsolated | services/realtime/src/index.js:118-291 | Over every run each broadcast or replayed event reaching a socket belongs to the tenant it connected for |
| Gateway.ExtensionLeaks | services/realtime/src/index.js:119-289 | When one tenant name extends another, connecting, subscribing and one incident record bring the longer tenant's event to a socket of the shorter one |
| Gateway.IsolationExact | services/realtime/src/index.js:118-291 | From a fresh gateway every run of a set of tenants, with records of subscribed topics only, is isolated exactly when no name of the set extends another |
| Gateway.BroadcastIsolated | services/realtime/src/index.js:262-289 | Each broadcast reaches only sockets of the event's tenant |
| Gateway.DashboardReachesTenant | services/realtime/src/index.js:277-281 | An event that is no log line reaches, by its first emit, exactly the connected sockets of its tenant |
| Gateway.LogsNeedSubscription | services/realtime/src/index.js:264-275 | A socket gets a log line exactly when it is of the event's tenant and in that tenant's log room or in the named service's room |
| Gateway.StepSound | services/realtime/src/index.js:122-202 | Every handler keeps each socket in its tenant's dashboard room and in rooms of that tenant only |
| Gateway.ReplayExact | services/realtime/src/index.js:205-227 | Replay sends the cached events passing the time, tenant and type tests, all of them, each once and in cache order, whatever room is named |
| GatewayReplay.RunCacheOf | services/realtime/src/index.js:249-291 | The cache after a run of the gateway is that of its Kafka records, whatever the sockets do |
| GatewayReplay.ReplayAfterRun | services/realtime/src/index.js:205-341 | After any run on a forward clock a replay sends, once each, the last accepted event of exactly the keys that were neither capped nor outlived and pass the tests; never an older event or a placeholder |
| GatewayReplay.ReplayFromStart | services/realtime/src/index.js:118-341 | The same for the replay request of any connected socket after any run of a fresh gateway |
| GatewayReplay.ReplaySendsRecords | services/realtime/src/index.js:205-341 | Each replayed event has the type and value of the last record of its key that was not suppressed |
| GatewayDelivery.StepRooms | services/realtime/src/index.js:119-235 | Exactly what each handler does to the tenant and rooms of each socket |
| GatewayDelivery.MemberExactly | services/realtime/src/index.js:119-194 | Over every run a connected socket is in its tenant's dashboard room and exactly the rooms it subscribed to since it connected and did not leave since |
| GatewayDelivery.ConnectedExactly | services/realtime/src/index.js:119-238 | A socket is known exactly when it connected and has not disconnected since |
| GatewayDelivery.StepAnnounces | services/realtime/src/index.js:249-290 | A suppressed record changes nothing and is sent to nobody; an accepted one goes, under its type, to its log or dashboard room and to those of the service and incident it names, one emit each |
| GatewayDelivery.RecordInRun | services/realtime/src/index.js:249-290 | Over every run each record is announced once or not at all, as the cache decides on its arrival |
| GatewayDelivery.EveryEmissionHasCause | services/realtime/src/index.js:118-291 | Every emission of a run was sent by a replay request or by a record that the cache did not suppress |
| GatewayDelivery.LogLineArrives | services/realtime/src/index.js:184-275 | A client that connected and subscribed to logs gets every accepted log line of its tenant until it leaves |
| GatewayDelivery.EventArrives | services/realtime/src/index.js:119-281 | A connected client gets every other accepted record of its tenant without subscribing |
| GatewayDelivery.OfflineGetsNothing | services/realtime/src/index.js:118-291 | A client that has not connected or has disconnected since gets nothing |
| Gateway.EventTypeRecovered | services/realtime/src/index.js:218-219 | The type is recovered from a cache key exactly when it is not empty and has no colon |
| RealtimeGateways.RealtimeGateway.IsDuplicate | services/realtime/src/index.js:325-341 | The method decides and marks as specified |
| RealtimeGateways.RealtimeGateway.EvictExpiredEvents | services/realtime/src/index.js:314-323 | Deleting while iterating removes exactly the outlived keys from both Maps |
| RealtimeGateways.RealtimeGateway.CacheEventOf | services/realtime/src/index.js:293-309 | Evict, set and cap as specified |
| RealtimeGateways.RealtimeGateway.OnRecord | services/realtime/src/index.js:249-290 | The Kafka handler is one step of the gateway |
| RealtimeGateways.RealtimeGateway.OnReplayRequest | services/realtime/src/index.js:205-231 | The replay loop sends the specified events in cache order and counts them |
| RealtimeGateways.RealtimeGateway.OnRequest | services/realtime/src/index.js:119-238 | Every handler is one step of the gateway |
| RealtimeGateways.RealtimeGateway.OnRequests | services/realtime/src/index.js:119-291 | Any sequence of requests and records is a run of the gateway |
| RateLimiter.SocketLimiter.Use | services/realtime/src/index.js:138-147 | The filtering loop, the test and the append are one event of the limiter |
| RateLimiter.SocketLimiter.UseAll | services/realtime/src/index.js:136-147 | The events of a socket, one after the other, are a run of the limiter |
| RateLimiter.RejectedExactly | services/realtime/src/index.js:138-147 | An event is rejected exactly when the 120th last accepted one is less than a window ago |
| RateLimiter.EventKeeps | services/realtime/src/index.js:138-147 | The kept timestamps stay the recent end of all accepted ones |
| RateLimiter.KeptExactly | services/realtime/src/index.js:138-147 | On any clock the timestamps kept after an event are those less than a minute old, and its own if it passed |
| RateLimiter.RunExact | services/realtime/src/index.js:133-147 | Over every run each event passes exactly when the 120th last one accepted before it, if there is one, is at least a window old; the accepted events are a window apart 120 by 120, and the socket ends up remembering their recent end |
| RateLimiter.FreshSocketExact | services/realtime/src/index.js:133-147 | The same for every event of a socket from its connection on |
| AnalyzerBuffer.StepSafe | services/analyzer/app/__init__.py:69-158 | Every atomic section keeps conservation and order |
| AnalyzerBuffer.RunSafe | services/analyzer/app/__init__.py:69-158 | Under every interleaving the metrics that the events bring a service are, after those it had and in order, those of replaced lists then those buffered, and the detector was given the analysed part of each replaced list |
| AnalyzerBuffer.RunKeepsAll | services/analyzer/app/__init__.py:69-158 | From the start: the metrics the events bring a service are those of its replaced lists then those buffered |
| AnalyzerBuffer.TurnDiscardsOnlySeen | services/analyzer/app/__init__.py:97-158 | A turn that raises or finds an anomaly replaces nothing; a normal one replaces exactly the list the detector was given |
| AnalyzerBuffer.PublishLosesExactlyLate | services/analyzer/app/__init__.py:126-156 | A successful publish discards unanalysed exactly that service's metrics consumed while it was awaited |
| AnalyzerBuffer.RunLosesExactly | services/analyzer/app/__init__.py:69-158 | Over every run from the start, what is thrown away unanalysed is exactly what reaches a service during its own successful publishes; all that reached it is in analysed or live lists if and only if that is nothing |
| AnalyzerBuffer.RoundTakesAll | services/analyzer/app/__init__.py:97 | A round that is due takes every service with a list once, in the order of the dict |
| AnalyzerBuffer.RoundAnalyses | services/analyzer/app/__init__.py:97-156 | The turns of a round without anomalies give the detector the whole list of each of its services with at least two metrics once and empty it; every other list stays |
| AnalyzerBuffer.FailedPublishKeeps | services/analyzer/app/__init__.py:150-158 | A failed publish keeps the list |
| Analyzer.MetricsBuffer.Consume | services/analyzer/app/__init__.py:86 | Appending to the shared list object is the consume section |
| Analyzer.MetricsBuffer.StartRound | services/analyzer/app/__init__.py:97 | The snapshot of references is the round of services |
| Analyzer.MetricsBuffer.Turn | services/analyzer/app/__init__.py:97-156 | A turn through the snapshot's reference is a turn on the live list, which is what the detector is called with |
| Analyzer.MetricsBuffer.PublishDone | services/analyzer/app/__init__.py:150-158 | Resuming after the await clears the live list or keeps it |
| Analyzer.MetricsBuffer.RunSchedule | services/analyzer/app/__init__.py:69-158 | Any schedule over the shared objects is a run of the sections |
| FaultScheduler.TickEpisodes | services/telemetry-gen/main.go:305-325 | A tick keeps an episode that has not ended, drops one that has, and adds one only after the pick time, for the drawn service and 60 to 149 seconds |
| FaultScheduler.TickPicks | services/telemetry-gen/main.go:310-325 | The pick time moves by 150 to 299 seconds at a pick and stays otherwise |
| FaultScheduler.PickAlwaysStarts | services/telemetry-gen/main.go:305-325 | A pick finds every episode over, so it always starts one |
| FaultScheduler.EpisodeLastsAsDrawn | services/telemetry-gen/main.go:267-330 | After any ticks, the service of a pick is reported faulty exactly until its drawn length has passed, whatever ticks come before its end |
| FaultScheduler.QuietStart | services/telemetry-gen/main.go:300-325 | In the first minute no service is faulty |
| FaultScheduler.AtMostOneFault | services/telemetry-gen/main.go:267-330 | After any ticks with any draws and any clock at most one service is in an episode |
| FaultScheduler.Engine.SchedulerTick | services/telemetry-gen/main.go:300-327 | Pruning while iterating and picking are one tick of the schedule |
| FaultScheduler.Engine.SchedulerTicks | services/telemetry-gen/main.go:300-327 | Any sequence of ticks is a run of the schedule |

## Left out

- AgentLoop.MainLoop.RunAll: asks that no failed batch within a quarter of the region reaches 2^32 bytes, beyond which `RingBuffer.MMapRingBuffer.Push` leaves a ring that is not well-formed; `AgentLoop.SmallRegionStorable` gives that for regions below 2^34 bytes.
- Agent.RunFromStart: covers runs of fewer than 2^63 iterations of one process from an empty buffer; the counter restarts at 0 while the file persists, so numbers of different processes may repeat, and `Agent.RunAccounts` then counts them with multiplicity but says nothing about order.
- EventCache.DecisionsAgreeOnKey: asks for a clock that does not run backwards, as do `DecisionsAgree` and `RateLimiter.RunExact`; `SuppressedOnlyWhenRepeated` and `DedupExact` describe single decisions on any clock.
- EventCache.DecisionsAgree: speaks of runs in which the cap never acts; `DecisionsAgreeOnKey` covers those in which it does.
- RingBuffer.MMapRingBuffer.Open: a file written with another capacity or corrupted in its framing is accepted by the source and gives no guarantee here either.
- The memory map, file and mutex calls, 64-bit overflow of offset sums, and the byte order of the prefix (least significant first here).
- gRPC channels, deadlines, compression and response contents; an error status with an empty message counts as success in the source, hence as `sendOk`.
- How the six readings are computed from events and procfs, the retry delay and its jitter.
- JSON values that are not objects with string fields, NaN configuration values, invalid `since` dates, the sockets' own rooms, `clientSubscriptions`, the `_meta` field.
- Socket authentication, token refresh, Redis, HTTP and API-key synchronisation.
- The detectors, log mining, event payload and tenant choice of the analyzer.
- The generator's value models and emission; collector, frontend and documentation.
