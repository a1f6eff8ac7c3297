# A verified model of the back-office platform

Seven components keep state, or transform data, under failures and interleavings. Each is modelled in the
form its source has and its promises are proved for every input, every run or every reachable state.

* **Audit pipeline** (`audit_consumer`). `Wire`, `CanalCodec` and `CanalRoundTrip` model the hand-written
  protobuf reader and the decoders of Canal packets, `CanalAcceptance` says exactly which bytes they accept; `AuditMapper` the masking, the before/after diff and the
  dedup key; `AuditPipeline` is a state machine of fetching, decoding, inserting and committing with failures
  and crashes, and `AuditConsumer` the consume loop, which runs only steps of that machine;
  `DeadLetterTrim` is the loop that removes old dead-letter files.
* **WebSocket gateway** (`ws_gateway`). `GatewayObjects` holds the store, the hub and the connections as
  classes; `GatewayProtocol` is the machine of all instances, workers, handshakes and clients with its invariant,
  which `GatewayConsumerSteps` and `GatewayConnectionSteps` prove kept; `GatewayTheorems` has its theorems;
  `GatewayProcesses` are the methods of the stream consumer and the handshake, each with all others running
  between any two of its steps; `GatewayLateSave` and `GatewayNamesake` are runs that mark the limits of the delivery promise.
* **Single sign-on** (`sso/server`). `SsoStore` models the Lua scripts and token loops over the stored maps;
  `SsoProtocol` is the machine of concurrent logins, refreshes, logouts, checks, revocations and expiries with
  its invariant, which `SsoStoreSteps` and `SsoRequestSteps` prove kept; `SsoTheorems` has its theorems;
  `SsoCalls` says what the store calls of one request must find and do, `SsoRequests` are the service methods
  proved against that, `SsoChecks` says what a check that passed has seen and what reuse of a token costs, and
  `SsoStaleTouch` and `SsoLateReplay` are runs that mark limits.
* **Agent server** (`agent_server`). `AgentPlanning` models the preview and the comparison before a write;
  `AgentStore` the status updates and the recovery; `AgentProtocol` is the machine in which every stretch
  between two awaits is a step, and an error of the store or a crash can follow any transaction; `AgentTransactions`,
  `AgentSections` and `AgentRecovery` prove its invariant kept; `AgentTheorems` has its theorems,
  `AgentVerdicts` what plans and tasks end as, `AgentServer` the handlers and the execution, `AgentGaps` the runs that mark limits.
* **Event streams**. `SseParser` models the incremental parser of the workbench, `SseGrammar` says what it makes of
  every stream of its format, and `SseStream` models the printing server, the broken connections and the client that resumes from a cursor.
* **RBAC enforcer** (`oa/backend`). `RbacPolicy` is the nested index against the plain rows; `RbacEnforcer`
  the two caches among concurrent requests.
* **Client dedup** (`wsClient.ts`). `DedupWindow` is the bounded FIFO of handled ids and the client around it.

How the machines are built: a state and an action are datatypes, `Step` is a total function (an action that the
state does not allow changes nothing), `Exec` folds it over any sequence of actions, and the theorems speak of
every such run. A call to a store can succeed, fail, or fail although it took effect; in the agent machine an error can
follow any transaction of a section, and of the `fail` that answers it. The classes run the same
steps: a class holds the state and an arbitrary schedule, lets the schedule run between any two of its own
steps, and its contracts hold whatever the schedule is. Fields marked as histories (tokens ever issued, ids
acknowledged, events expired) are there to state theorems and are read by no step.

Where a promise does not hold of the code, the model keeps the code and says exactly when it does hold:

* The diff misses a column that only the after row has and that is null there, and only then
  (`AuditMapper.DiffIsExactIff`). For the UPDATE records the mapper really builds, it is exact.
* The dedup key joins its parts with a separator and does not escape it; it is unique exactly when no text
  part holds the separator (`AuditMapper.KeyIsUniqueIffNoSeparator`). A committed record is lost exactly when
  another record of the log has its key and is in the table first (`AuditPipeline.RecordIsLostIff`).
* Past the size cap the events depend on how the text was split (`SseParser.TooLargeIff`,
  `SseParser.PastTheCapSplittingMatters`).
* Several instances save the same event, so it can be stored again after its acknowledgement, and the present
  connection need not be handed it (`GatewayLateSave.SavedAgainAfterAck`); and an event whose id another event
  of its session bears can lose its field to that one (`GatewayNamesake.NamesakeTakesThePlace`). The wake-up
  theorem excludes these events, and no others.
* Extending a session reads and writes its record apart, so a replaced session can be recorded as active again.
  That happens in exactly one kind of step (`SsoTheorems.OnlyStaleTouchReopens`), and such an id still
  passes no check (`SsoTheorems.NeverAgain`).
* A rotated token that comes again ends its session exactly when that is still open at the revocation
  (`SsoChecks.ReuseCostsTheSession`); of a session whose record has expired it leaves the tokens as they are
  (`SsoLateReplay.ExpiredSessionKeepsItsToken`), and they are of no use without the record.
* Where `fail` gets no further than its first transaction, by a crash or an error of the store, a task can wait
  for a plan that has ended; and a job cancelled before its first step, or an error of the store before a job is
  launched or while it fails, leaves a queued or running task without a job. The coupling of tasks and plans
  holds exactly outside these cases (`AgentTheorems.TasksAndPlansCoupled`, with the conditions in
  `AgentProtocol.Tears` and `AgentProtocol.Strands` and witnesses in `AgentGaps`).
* A final task status is overwritten exactly when its report cannot be written (`AgentTheorems.OverwrittenIff`).
* Invalidating the policy inside the still open transaction reads the old rows, and they answer until the policy
  is due. The next check is right for the new rows exactly when the change committed first or does not matter
  for it (`RbacEnforcer.CheckAfterChange`).

## Model

| member | source | states |
|---|---|---|
| `Wire.VarintIsGroupSum` | audit_consumer/internal/canal/wire.go:23-42 | where the first byte below 0x80 is the n-th, reading a varint succeeds exactly when n is at most 10 and the sum of the 7-bit groups times 128^i is below 2^64, and then gives that sum; every value that does not fit is rejected |
| `Wire.VarintRoundTrip` | audit_consumer/internal/canal/wire.go:23-42 | reading inverts the canonical base-128 encoder on every uint64, whatever bytes stand before and after it |
| `Wire.OrShifted` | audit_consumer/internal/canal/wire.go:29-37 | one or-and-shift of the loop loses no bit: in 64 bits it adds the group at its place, up to the tenth group of at most 1 |
| `Wire.Reader.Varint` | audit_consumer/internal/canal/wire.go:23-42 | the or-and-shift loop over at most ten bytes returns the recursive reading; the offset never goes back or past the end |
| `Wire.Reader.Bytes` | audit_consumer/internal/canal/wire.go:44-55 | a length-delimited payload, with the length checked against what is left before anything is cut |
| `Wire.Reader.Skip` | audit_consumer/internal/canal/wire.go:57-80 | an unknown field is passed over by its wire type 0, 1, 2 or 5; every other wire type is an error |
| `Wire.Reader.NextField` | audit_consumer/internal/canal/wire.go:82-88 | a tag is split into number and wire type and the offset advances |
| `Wire.FieldRoundTrip` | audit_consumer/internal/canal/wire.go:44-88 | any well-formed field, known or unknown, printed anywhere in a buffer is read back with its number, its payload and the offset just behind it |
| `Wire.FoldRoundTrip` | audit_consumer/internal/canal/wire.go:82-88 | folding a decoder over the printed bytes of any field list is folding it over the fields themselves, to the same result or the same first error |
| `CanalCodec.FoldMessage` | audit_consumer/internal/canal/codec.go:79-148 | the field loop the seven message decoders share, written imperatively over the reader, equals the fold and ends on every byte string |
| `CanalCodec.RowOfKeys` | audit_consumer/internal/canal/codec.go:451-465 | a row has a key for exactly the names of its columns |
| `CanalCodec.RowOfCell` | audit_consumer/internal/canal/codec.go:451-465 | when a name occurs more than once the last column wins, with null for a null column |
| `CanalCodec.RowsAreCounted` | audit_consumer/internal/canal/codec.go:431-446 | an event has one image per row, and old images for exactly the rows of an UPDATE |
| `CanalCodec.RowKeepsItsImages` | audit_consumer/internal/canal/codec.go:431-446 | row i of an event is row i of the change (before image for DELETE, after image otherwise), and in an UPDATE it is paired with its own before image |
| `CanalCodec.BuildRow` | audit_consumer/internal/canal/codec.go:451-465 | the loop over columns builds that row; no column at all gives a nil row |
| `CanalCodec.FillTypes` | audit_consumer/internal/canal/codec.go:468-481 | the type maps gather the columns of the after image, or of the before image when there is no after image |
| `CanalCodec.TypesAreFirst` | audit_consumer/internal/canal/codec.go:468-481 | for every column name the type number and the type text are those of its first column in the image the types come from |
| `CanalCodec.ConversionsWrap` | audit_consumer/internal/canal/codec.go:431-446 | kinds 1, 2 and 3 are INSERT, UPDATE and DELETE and nothing else is a row event; a null column reads as null and any other as its value; integers wrap as in Go |
| `CanalCodec.AppendRow` | audit_consumer/internal/canal/codec.go:431-446 | one row change is appended to data, and to old for an UPDATE |
| `CanalCodec.BuildFlat` | audit_consumer/internal/canal/codec.go:391-448 | an entry that is not row data, holds no change, or is no INSERT, UPDATE or DELETE yields nothing; otherwise one flat event with all its rows |
| `CanalCodec.DecodeValue` | audit_consumer/internal/canal/codec.go:356-388 | packet, messages and entries are decoded in order; an empty value or a packet of another type yields no event, a compressed body or any decoding error is an error |
| `CanalCodec.EntryErrorIsFinal` | audit_consumer/internal/canal/codec.go:356-388 | the first entry that does not decode makes the whole message an error, whatever follows it |
| `CanalRoundTrip.ColumnRoundTrip` | audit_consumer/internal/canal/codec.go:162-241 | decoding a printed column gives the last value of each known field; unknown fields anywhere are ignored |
| `CanalRoundTrip.HeaderRoundTrip` | audit_consumer/internal/canal/codec.go:79-148 | the same for an entry header |
| `CanalRoundTrip.RowRoundTrip` | audit_consumer/internal/canal/codec.go:250-283 | the before and after columns of a row come back in order, with other fields interleaved anywhere |
| `CanalRoundTrip.ChangeRoundTrip` | audit_consumer/internal/canal/codec.go:294-350 | the same for a row change and its rows |
| `CanalRoundTrip.EntryRoundTrip` | audit_consumer/internal/canal/codec.go:34-76 | a printed entry tree decodes to its flat event, spelled out field by field from the tree, or to nothing where it is to be passed over; the store may hold any bytes where it is not read |
| `CanalRoundTrip.FlatIsBuilt` | audit_consumer/internal/canal/codec.go:431-446 | the event the row loop builds is the one read off the tree: its images, its old images for an UPDATE alone, its types and its header fields |
| `CanalRoundTrip.OtherEntriesAreSkipped` | audit_consumer/internal/canal/codec.go:391-403 | an entry of another type, such as the begin or end of a transaction, yields nothing, whatever bytes its store holds |
| `CanalRoundTrip.DecodeMessageRoundTrip` | audit_consumer/internal/canal/packet.go:6-80 | decoding the bytes of any packet tree, with unknown well-formed fields interleaved at every level and any bytes in bodies and stores that are not read, gives exactly the row events of the tree in order |
| `CanalAcceptance.FoldAccepts` | audit_consumer/internal/canal/wire.go:44-88 | for every byte string: the field loop succeeds if and only if the bytes are fields one after another up to the end, each with a complete tag and payload, the wire type its number demands, and contents its step takes |
| `CanalAcceptance.ColumnAccepted` | audit_consumer/internal/canal/codec.go:162-241 | so a column is accepted exactly when numbers 2, 4, 5, 6 come as varints and 3, 8, 10 as bytes, whatever else stands between |
| `CanalAcceptance.HeaderAccepted` | audit_consumer/internal/canal/codec.go:79-148 | the same for a header |
| `CanalAcceptance.RowAccepted` | audit_consumer/internal/canal/codec.go:250-283 | a row, with every column in it accepted |
| `CanalAcceptance.ChangeAccepted` | audit_consumer/internal/canal/codec.go:294-350 | a row change, with every row in it accepted |
| `CanalAcceptance.EntryAccepted` | audit_consumer/internal/canal/codec.go:34-76 | an entry, whose store is read as bytes whatever its wire type says |
| `CanalAcceptance.MessageAccepted` | audit_consumer/internal/canal/codec.go:356-388 | a message value is an error exactly when it is no packet, or holds messages that are compressed, do not parse, or have an entry that does not parse or whose row change does not |
| `AuditMapper.Sanitizer.MaskRow` | audit_consumer/internal/sanitize/sanitize.go:20-33 | a configured column reads the replacement, null or not; every other keeps its value; nil stays nil and no key is added or lost |
| `AuditMapper.RebuildBeforeRow` | audit_consumer/internal/mapper/snapshot.go:32-38 | a column of the old image has its old value, a column only the current row has keeps that, and there are no others |
| `AuditMapper.DiffChangedColumns` | audit_consumer/internal/mapper/snapshot.go:49-65 | the two loops produce the diff the lemmas below speak of |
| `AuditMapper.DiffIsExactIff` | audit_consumer/internal/mapper/snapshot.go:49-65 | the diff lists precisely the non-technical columns on which the rows differ if and only if every column that only the after row has is not null; a null column only the after row has is missed |
| `AuditMapper.ReplayGivesAfter` | audit_consumer/internal/mapper/snapshot.go:49-65 | replaying the diff on the before row gives the after row on every non-technical column, when the before row has all columns of the after row |
| `AuditMapper.TakeSnapshot` | audit_consumer/internal/mapper/snapshot.go:15-29 | detail and before data per kind of change, as one function of the event |
| `AuditMapper.UpdateDiffIsExact` | audit_consumer/internal/mapper/snapshot.go:15-65 | in every UPDATE record the diff is exact on the masked rows and replays to the masked after row, whatever columns the old image reported |
| `AuditMapper.SnapshotIsMaskIndependent` | audit_consumer/internal/mapper/snapshot.go:15-29 | two events that agree on all unmasked columns give the same detail and before data |
| `AuditMapper.KeyIsUniqueIffNoSeparator` | audit_consumer/internal/mapper/dedup.go:12-17 | the hashed text names one row change of all events if and only if none of its text parts holds the separator character; the source joins the parts without escaping |
| `AuditMapper.RowsOfAnEventHaveOwnKeys` | audit_consumer/internal/mapper/dedup.go:12-17 | two rows of one event never share a key, separators or not |
| `AuditMapper.UpdateRecordUsesItsOwnRow` | audit_consumer/internal/mapper/mapper.go:49-84 | from decoded change to record: the record of row i of an UPDATE holds the diff and before data of row i of the change and of no other row |
| `AuditMapper.UpdateRecordShowsTheChange` | audit_consumer/internal/mapper/snapshot.go:15-65 | column by column, without naming the mapper’s own functions: in the record of row i of an UPDATE an unmasked column of the old image shows its old value, one only the after image has shows that value; the diff lists an unmasked, non-technical column that differs with exactly these two values |
| `AuditMapper.RecordSays` | audit_consumer/internal/mapper/mapper.go:68-84 | table, kind, key and row of a record are those of its event and its own index |
| `AuditMapper.RecordsAreInRowOrder` | audit_consumer/internal/mapper/mapper.go:49-65 | the k-th record is of the k-th row that is there |
| `AuditMapper.Mapper.Build` | audit_consumer/internal/mapper/mapper.go:49-65 | one record per non-nil row of a configured table, in order, each from its own index; nothing for other tables |
| `AuditPipeline.InsertRowsIsIdempotentUnion` | audit_consumer/internal/store/store.go:63-76 | inserting rows appends, adds no key twice, and leaves exactly the keys of the table and the rows |
| `AuditPipeline.ReplayIsNoOp` | audit_consumer/internal/store/store.go:63-76 | a batch whose keys are all in the table is written again without any effect |
| `AuditPipeline.StepKeepsInv` | audit_consumer/internal/consumer/consumer.go:83-143 | every step (fetch, decode, dead-letter, chunk write, commit, each with success, failure and failure after taking effect, and a crash) keeps the invariant |
| `AuditPipeline.Reachable` | audit_consumer/internal/consumer/consumer.go:83-143 | so it holds after every run |
| `AuditPipeline.CommittedExactlyOnce` | audit_consumer/internal/consumer/consumer.go:83-143 | after every run, a message below a committed offset was written to the dead letters or has the key of each of its records in the table exactly once |
| `AuditPipeline.CommittedRecordsAreInTable` | audit_consumer/internal/consumer/consumer.go:83-143 | where no two different records of the log share a key, every record of a committed message is in the table, whole |
| `AuditPipeline.RecordIsLostIff` | audit_consumer/internal/store/store.go:63-76 | a record of a committed message is missing if and only if another record of the log with its key is in the table in its place |
| `AuditPipeline.AllRecordsIffKeysTell` | audit_consumer/internal/store/store.go:63-76 | once the whole log is committed, the table holds all its records if and only if no two different records share a key |
| `AuditConsumer.KeysTellIff` | audit_consumer/internal/mapper/dedup.go:12-17 | in a log whose names hold no separator, keys tell all records apart if and only if a row change that occurs twice maps to the same record both times |
| `AuditPipeline.TableIsSound` | audit_consumer/internal/store/store.go:63-76 | the table never holds a key twice, and every row is a record some message of the log maps to |
| `AuditPipeline.RunsOnlyAppend` | audit_consumer/internal/consumer/consumer.go:83-143 | as a run goes on rows are only appended and committed offsets never go back |
| `AuditConsumer.Consumer.FetchBatch` | audit_consumer/internal/consumer/consumer.go:177-208 | the first message, then more up to the batch size; what was fetched before an error is kept |
| `AuditConsumer.Consumer.BuildMessageRecords` | audit_consumer/internal/consumer/consumer.go:235-259 | records of all auditable events of one message, or its dead letter, as a step of the machine |
| `AuditConsumer.Consumer.BuildRecords` | audit_consumer/internal/consumer/consumer.go:223-233 | the loop over the batch; it succeeds only with all messages built, and a failed dead letter starts it over |
| `AuditConsumer.Consumer.BatchInsert` | audit_consumer/internal/store/store.go:63-76 | chunks of at most 500 rows until all are written or the first error, as steps of the machine |
| `AuditConsumer.Consumer.Process` | audit_consumer/internal/consumer/consumer.go:212-221 | success leaves the batch ready to commit, and any error leaves it to be built again |
| `AuditConsumer.Consumer.CommitBatch` | audit_consumer/internal/consumer/consumer.go:164-170 | offsets move only here, from a processed batch |
| `AuditConsumer.Consumer.Run` | audit_consumer/internal/consumer/consumer.go:83-143 | the loop with its pending batch and processed flag runs only steps of the machine: below its committed offsets every record is in the table, or another record with its key is; and in a log without separators that tells each row change one way, every record is |
| `DeadLetterTrim.TotalSize` | audit_consumer/internal/consumer/deadletter.go:102-130 | the running total before the removals is the sum of the sizes |
| `DeadLetterTrim.ShortestIsUnique` | audit_consumer/internal/consumer/deadletter.go:102-130 | there is only one shortest prefix whose removal meets both limits |
| `DeadLetterTrim.Directory.Trim` | audit_consumer/internal/consumer/deadletter.go:102-130 | today's file is never removed and nothing else changes; when today's file sorts last and removals succeed, what is removed is the shortest oldest-first prefix that meets both limits, or all but today's when none does |
| `DeadLetterTrim.Directory.RemoveOldest` | audit_consumer/internal/consumer/deadletter.go:102-130 | the same for the loop with its running total |
| `SseParser.FirstSeparatorIsStable` | workbench/frontend/src/api.ts:15-17 | a block separator once seen is not moved or lengthened by later text, not even by one that starts with a line feed |
| `SseParser.DrainAppend` | workbench/frontend/src/api.ts:15-30 | draining a text is draining a prefix and then what is left with the rest |
| `SseParser.PiecesMeanTheWhole` | workbench/frontend/src/api.ts:11-31 | whatever the pieces, as long as no call finds the buffer too large, the events and the left-over text are those of the whole text at once |
| `SseParser.TooLargeIff` | workbench/frontend/src/api.ts:11-31 | a feed fails on size if and only if at some piece the undelivered rest and that piece exceed the cap |
| `SseParser.ChunkIndependence` | workbench/frontend/src/api.ts:11-31 | for texts within the cap, all splittings (inside a CR LF CR LF too) give the events of the text in one piece, and the same final error if any |
| `SseParser.SplittingsAgree` | workbench/frontend/src/api.ts:11-31 | two splittings of one text within the cap cannot be told apart |
| `SseParser.PastTheCapSplittingMatters` | workbench/frontend/src/api.ts:13 | one character past the cap this fails: a text that is refused in one piece passes in two |
| `SseGrammar.StreamReads` | workbench/frontend/src/api.ts:11-31 | any stream of the format (fields in any order and number, with or without the space, ignored lines, LF or CR LF anywhere) gives the events its blocks say: last id or 0, last event name or message, all data joined by line feeds; up to the first block whose data is no JSON, and it throws if and only if there is one |
| `SseGrammar.PiecesRead` | workbench/frontend/src/api.ts:11-31 | the same in any pieces of at most two million characters together |
| `SseParser.SSEParser.Feed` | workbench/frontend/src/api.ts:11-31 | the loop that cuts off blocks refines the specification, with the buffer it leaves behind when parsing throws |
| `SseParser.SSEParser.ReadBlock` | workbench/frontend/src/api.ts:18-28 | the line loop of one block |
| `SseStream.FrameParses` | agent_server/app/main.py:303-311 | a printed event frame is read back as its id, kind and payload; a heartbeat as nothing |
| `SseStream.PrintParse` | agent_server/app/main.py:287-312 | parsing everything that was printed gives back the event list, heartbeats vanished |
| `SseStream.BrokenOffStream` | agent_server/app/main.py:287-312 | text that breaks off anywhere, fed in any pieces, gives a prefix of the printed events |
| `SseStream.Query` | agent_server/app/main.py:293-300 | the rows with an id above the cursor, in order, at most 200 |
| `SseStream.Stream` | agent_server/app/main.py:287-312 | whatever it polls, the stream sends consecutive events of the log from the cursor on |
| `SseStream.Emit` | agent_server/app/main.py:303-305 | a batch is sent event by event with the cursor on the last one |
| `SseStream.Transfer` | workbench/frontend/src/api.ts:50-67 | the text arrives in arbitrary pieces up to where the connection breaks |
| `SseStream.Watcher.Receive` | workbench/frontend/src/main.ts:250-252 | an event at or below the cursor is dropped, any other moves the cursor |
| `SseStream.Watcher.Offer` | workbench/frontend/src/main.ts:250-263 | of a consecutive stretch of the log, none is dropped as old |
| `SseStream.Watcher.Connect` | workbench/frontend/src/main.ts:245-278 | one connection from the cursor, broken anywhere, extends the accepted prefix |
| `SseStream.Watcher.Watch` | workbench/frontend/src/main.ts:245-278 | over any number of connections the accepted events are an exact prefix of the task log |
| `GatewayObjects.PipeStaysValid` | ws_gateway/internal/conn/connection.go:116-243 | what was handed over is what was written, is held, or is queued, in order, with the queue within its capacity |
| `GatewayObjects.UnregisterSparesNewer` | ws_gateway/internal/hub/hub.go:46-52 | an older connection that unregisters late removes nothing of its successor or of other sessions |
| `GatewayObjects.Store.Pending` | ws_gateway/internal/delivery/store.go:44-57 | every field of the session’s hash, nothing else, and as many payloads as fields, in some order |
| `GatewayObjects.PendingOnce` | ws_gateway/internal/delivery/store.go:44-57 | where every field holds the payload of its own event, no event comes out twice |
| `GatewayObjects.Connection.Send` | ws_gateway/internal/conn/connection.go:116-128 | queued, refused as full, or refused as closed, without ever blocking |
| `GatewayObjects.Connection.Close` | ws_gateway/internal/conn/connection.go:131-153 | only the first close acts, and it leaves a successor in the hub alone |
| `GatewayObjects.Connection.WriteNext` | ws_gateway/internal/conn/connection.go:194-243 | the write loop writes in queue order; a failed write closes and unregisters |
| `GatewayObjects.Hub.Register` | ws_gateway/internal/hub/hub.go:34-43 | the newer connection takes the place and the one it displaced is returned |
| `GatewayObjects.Hub.Unregister` | ws_gateway/internal/hub/hub.go:46-52 | removes the entry only if it is that connection |
| `GatewayObjects.Hub.CloseAll` | ws_gateway/internal/hub/hub.go:70-82 | the map is emptied and exactly the connections that were in it are closed |
| `GatewayObjects.Accept` | ws_gateway/internal/server/server.go:150-203 | without interleaving: the displaced connection is closed, and the new one has been handed all pending payloads, or is closed and out of the hub because they exceed its queue |
| `GatewayConnectionSteps.StepKeepsInv` | ws_gateway/internal/stream/consumer.go:72-251 | every interleaved step (read, claim, save, acknowledge, look up, send, close, handshake, replay, write, client acknowledgement, trim, expiry, crash, new instance; each with its failures) keeps the invariant |
| `GatewayConnectionSteps.Reachable` | ws_gateway/internal/stream/consumer.go:72-251 | so it holds after every run |
| `GatewayTheorems.NoEventLost` | ws_gateway/internal/stream/consumer.go:155-184 | after every run, for each instance, a well-formed event is unread, pending, stored, acknowledged by a client, expired or trimmed |
| `GatewayTheorems.NoLostWakeUp` | ws_gateway/internal/server/server.go:150-203 | the session’s registered open connection whose replay is over has been handed, with its id, kind and reason, every event the instance saved and no worker has in hand, unless the event was acknowledged or has expired, or another event of the session bears its id |
| `GatewayTheorems.QuietMeansDelivered` | ws_gateway/internal/stream/consumer.go:72-251 | an instance that has read everything, has nothing pending and no worker busy owes no current connection any untrimmed event; what was handed over is the event itself, or bears its id together with a namesake |
| `GatewayTheorems.ConnectionsKeepOrderAndSession` | ws_gateway/internal/conn/connection.go:116-243 | each payload a connection is handed, or is still to be handed by its replay, tells id, kind and reason of an event published for its session; and payloads reach the socket in the order handed |
| `GatewayTheorems.SavePutsTheEvent` | ws_gateway/internal/stream/consumer.go:155-184 | a save puts the event’s id, kind and reason under its session and id, and changes no other field |
| `GatewayTheorems.PushHandsOver` | ws_gateway/internal/stream/consumer.go:187-217 | a push appends the event itself to what the looked-up connection was handed when it is open with room in its queue, and nothing otherwise |
| `GatewayTheorems.ReplayHandsOver` | ws_gateway/internal/server/server.go:185-203 | a replay hands over the next pending payload under the same conditions |
| `GatewayTheorems.AckTakesItsOwn` | ws_gateway/internal/conn/connection.go:170-189 | an acknowledgement removes the field of its own session and id, and no other |
| `GatewayTheorems.ConnectRegisters` | ws_gateway/internal/server/server.go:150-185 | a new connection takes its session’s place in its instance, other sessions keep theirs |
| `GatewayTheorems.UnregisterForgets` | ws_gateway/internal/hub/hub.go:46-52 | a closed connection loses its place, a newer one of the session keeps it |
| `GatewayTheorems.AckedWasReceived` | ws_gateway/internal/conn/connection.go:170-189 | if clients acknowledge only what they received, an acknowledged event was written to a connection of its session |
| `GatewayTheorems.AtLeastOnce` | ws_gateway/internal/delivery/store.go:34-62 | then an event an instance has read, has no longer pending or stored, and that is neither trimmed nor expired, was received by its session |
| `GatewayLateSave.SavedAgainAfterAck` | ws_gateway/internal/stream/consumer.go:155-184 | a run where a second instance saves an event again after its acknowledgement: the event is in the hash though acknowledged, and the current connection was not handed it, so the acknowledged case of the wake-up claim cannot be dropped |
| `GatewayNamesake.NamesakeTakesThePlace` | ws_gateway/internal/delivery/store.go:34-43 | a run where two events of a session bear one id: the later one takes the field, and the current connection was never handed the earlier one, so the namesake case cannot be dropped |
| `GatewayProcesses.Cluster.Handle` | ws_gateway/internal/stream/consumer.go:155-184 | save, acknowledge, push, with all others running in between: acknowledged only after a save or for a malformed entry; a saved event, with its id, kind and reason, is delivered or left to a replay |
| `GatewayProcesses.Cluster.Deliver` | ws_gateway/internal/stream/consumer.go:187-217 | the connection is looked up after the acknowledgement, the event itself is what it is handed, and one whose queue is full is closed |
| `GatewayProcesses.Cluster.HandleBatch` | ws_gateway/internal/stream/consumer.go:72-109 | every entry of a batch is off the pending list or reported as left |
| `GatewayProcesses.Cluster.ReadOnce` | ws_gateway/internal/stream/consumer.go:72-109 | one read moves over the next unread entries, as many as asked for or as there are, and handles them all |
| `GatewayProcesses.Cluster.ScanPending` | ws_gateway/internal/stream/consumer.go:126-152 | one claim page covers the pending entries up to the cursor it returns: claimed, gone from the stream, or too young |
| `GatewayProcesses.Cluster.ClaimPending` | ws_gateway/internal/stream/consumer.go:126-152 | when the cursor comes round to zero, everything that was pending at the start is handled, left after a failure, or too young |
| `GatewayProcesses.Cluster.HandleWS` | ws_gateway/internal/server/server.go:150-185 | register, close the displaced one, replay, with all others running in between: the displaced connection ends closed and never returns to the hub, and the replay covers every saved event |
| `GatewayProcesses.Cluster.ReplayPending` | ws_gateway/internal/server/server.go:185-203 | the pending payloads in turn; a full queue closes the connection, a failed read does not |
| `GatewayProcesses.Cluster.ReadHash` | ws_gateway/internal/delivery/store.go:44-57 | the values of the session’s hash at that moment |
| `SsoStore.Store.WithdrawFamily` | sso/server/internal/cache/scripts/revoke_session.lua:51-83 | the loop over one family withdraws its usable tokens and touches no other token |
| `SsoStore.Store.RevokeSessionTokens` | sso/server/internal/cache/session.go:177-203 | the same loop outside a script, with hashes of lost records dropped from the index |
| `SsoStore.Store.EndAll` | sso/server/internal/cache/scripts/revoke_user.lua:44-92 | the loop over a user’s sessions ends exactly those open and withdraws the tokens of all whose records exist |
| `SsoStore.Store.LoginReplace` | sso/server/internal/cache/scripts/login_replace.lua:64-137 | refused, with nothing changed, exactly when in reject mode the current session is open; otherwise the new state is one replacement step |
| `SsoStore.Store.RevokeAll` | sso/server/internal/cache/scripts/revoke_user.lua:44-92 | one step that ends all the user’s open sessions, with one event for each |
| `SsoStore.Store.RevokeOne` | sso/server/internal/cache/scripts/revoke_session.lua:51-83 | one step on an open session, and nothing on any other |
| `SsoTheorems.LoginLeavesOneOpen` | sso/server/internal/cache/scripts/login_replace.lua:78-137 | after the replacement the user has one session in the index, it is current and open with one token; every indexed older session is closed as replaced with one event each and no usable token, and other users, sessions and tokens are as before |
| `SsoTheorems.LoginIssues` | sso/server/internal/service/session_service.go:81-134 | a login is refused exactly when in reject mode the current session is recorded active; otherwise a new id comes into office with a record and one token that live for their times |
| `SsoTheorems.RevokingTheUserEndsAll` | sso/server/internal/cache/scripts/revoke_user.lua:44-92 | every open indexed session is revoked with one event each, their tokens are withdrawn, the user has no current session, and others are as before |
| `SsoTheorems.RevokingSparesTheNewer` | sso/server/internal/cache/session_lua.go:189-221 | revoking an open session gives it the status, one event with the reason, and no usable token; it leaves current_session alone when that names a newer one, and other sessions and tokens as they are; a closed session is left alone |
| `SsoRequestSteps.StepKeepsInv` | sso/server/internal/service/auth_service.go:92-299 | every interleaved step of logins, refreshes, logouts, checks, revocations and expiries, with each store call failing, succeeding or taking effect unseen, keeps the invariant |
| `SsoRequestSteps.Reachable` | sso/server/internal/service/auth_service.go:92-299 | so it holds after every run |
| `SsoRequestSteps.OthersKeepTheirTip` | sso/server/internal/service/auth_service.go:165-230 | two refreshes that hold locks are never rotating in the same session |
| `SsoRequestSteps.SaveKeepsBorn` | sso/server/internal/service/session_service.go:141-166 | a rotation adds one token behind the newest of its family, and no token gets a second child |
| `SsoTheorems.OnlyTheCurrentIdPasses` | sso/server/internal/service/token_validator.go:63-91 | in every interleaving, an id that is not current passes no check that had not yet read current_session, now or ever again |
| `SsoTheorems.NeverAgain` | sso/server/internal/service/token_validator.go:63-91 | an id that stopped being current never passes validation again, even where its record is put back to active |
| `SsoTheorems.PassedWasCurrent` | sso/server/internal/service/token_validator.go:63-91 | a check that passed saw its id current at some moment after it began |
| `SsoChecks.PassedSawLive` | sso/server/internal/service/token_validator.go:78-91 | a check that passed saw at some moment after it began the record of its session, active and expiring later than that moment; or found in the cache the answer of a check that did |
| `SsoChecks.CachedWasLive` | sso/server/internal/service/token_validator.go:108-150 | every cached answer goes back to a check that saw the record active and unexpired |
| `SsoChecks.ReuseCostsTheSession` | sso/server/internal/service/auth_service.go:174-220 | in every run: a refresh that reads its token rotated, at first or under the lock, ends the token’s session with its next call that takes effect, whatever others do in between; exactly when the session is still open, that revokes it with an event, withdraws its family and takes it out of office |
| `SsoChecks.EndedForGood` | sso/server/internal/service/session_service.go:169-184 | a session so ended is out of office in every later state, and no token it had is ever usable again |
| `SsoTheorems.FamiliesAreLinear` | sso/server/internal/service/auth_service.go:165-230 | after every run a session has at most one usable token, the newest; each token is parent of at most one; and records tell their true family and parent |
| `SsoTheorems.SpentStaysSpent` | sso/server/internal/cache/session.go:163-174 | no run makes a token usable again that was not, not even by writing back an older copy |
| `SsoTheorems.EventsMatchClosings` | sso/server/internal/cache/session_lua.go:37-47 | for every step and session, an event is written exactly when the step closes the session, except where a touch writes an old record back |
| `SsoTheorems.SilentClosingIff` | sso/server/internal/cache/session.go:78-111 | a step’s event and its closing of a session go together except exactly when a touch writes back, over an open record, a copy read while the session was closed |
| `SsoTheorems.NoClosedSessionWithoutEvent` | sso/server/internal/cache/session_lua.go:37-47 | after every run, a session recorded as closed has had its event |
| `SsoTheorems.OnlyStaleTouchReopens` | sso/server/internal/cache/session.go:78-111 | a closed session opens again in a step if and only if that step is a touch writing back a copy it read while the session was open |
| `SsoStaleTouch.ReplacedSessionReopens` | sso/server/internal/cache/session.go:78-111 | a run where this happens: a session replaced by a newer login is recorded as active again, while it is not current |
| `SsoLateReplay.ExpiredSessionKeepsItsToken` | sso/server/internal/service/session_service.go:169-184 | a run where a rotated token comes again after its session’s record has expired: the revocation finds nothing to end, and the newer token is still usable |
| `SsoRequests.Service.ValidateAccessToken` | sso/server/internal/service/token_validator.go:26-61 | step by step with others in between, it passes if and only if both reads answer, the first names this session as current and the second finds its record active and unexpired; otherwise the refusal is the one for what was found; an id out of office at the start is refused |
| `SsoRequests.Service.VerifySession` | sso/server/internal/service/token_validator.go:64-91 | current_session first, then the record: not current or replaced, missing, logged out, revoked, expired and unreadable are each refused as that, and only an active unexpired record passes |
| `SsoRequests.Service.Introspect` | sso/server/internal/service/token_validator.go:108-150 | a cached answer passes if and only if the session is still current then; without one, or when it is not, the full check decides as above, and a pass is cached |
| `SsoRequests.Service.RefreshToken` | sso/server/internal/service/auth_service.go:157-253 | a new token comes out if and only if every call was answered and found the token usable and unexpired, its session active and unexpired, the lock free, the token still usable, and the session still there to be extended; then the old token is marked, the new one is its only child, usable and in its family, the session lives on, and the old token is spent for good; a rotated token, at the first read or under the lock, costs its session; an expired one is marked; a lock taken is released |
| `SsoRequests.Service.RotateLocked` | sso/server/internal/service/auth_service.go:200-253 | under the lock the token is read again: rotated meanwhile it costs its session, usable it is rotated, and otherwise nothing is written |
| `SsoRequests.Service.RotateRefreshToken` | sso/server/internal/service/session_service.go:141-166 | mark, save, touch, in this order, and a new token if and only if each was answered and found its record |
| `SsoRequests.Service.MarkRotated` | sso/server/internal/cache/session.go:163-174 | the read and the write of the old token’s status, apart |
| `SsoRequests.Service.SaveAndTouch` | sso/server/internal/service/session_service.go:141-166 | the new token is saved with its parent before the session is touched, and comes out only if both went through |
| `SsoRequests.Service.LogOutToken` | sso/server/internal/service/auth_service.go:276-296 | the refresh token part: if it is read usable it is marked withdrawn, and only without an access token its session is ended |
| `SsoRequests.Service.LogOut` | sso/server/internal/service/auth_service.go:258-299 | each call that takes effect does its part whatever the others do: the session of the access token is ended as logged out, the refresh token is withdrawn and spent for good, and a session this request ended is out of office for good |
| `AgentPlanning.SortedDistinct` | agent_server/app/graph.py:208 | the selection in ascending order without repetition |
| `AgentPlanning.Preview` | agent_server/app/graph.py:205-264 | refused exactly without the permission, for an employee not seen before, or for the listed reasons; a plan names the fresh employee and exactly the selected roles the employee lacks, 1 to 20 distinct ones, each enabled and with its permissions |
| `AgentPlanning.Unchanged` | agent_server/app/graph.py:320-334 | the accumulated comparison of person, roles and permissions says exactly whether all reads match the preview |
| `AgentPlanning.MatchingReadsLackTheRoles` | agent_server/app/graph.py:320-334 | when the reads match, no role to add is held, and each is still enabled |
| `AgentStore.Store.EndPlans` | agent_server/app/runtime.py:104-112 | pending and approved plans of the task are cancelled, executing ones become unknown, others stay |
| `AgentStore.Store.Fail` | agent_server/app/runtime.py:104-112 | the plans first, then the task, in two transactions |
| `AgentStore.Store.RecoverInterruptedRuns` | agent_server/app/store.py:109-121 | queued and running tasks fail with their open plans cancelled, and every executing plan becomes unknown |
| `AgentRecovery.StepKeepsInv` | agent_server/app/runtime.py:27-118 | every section between awaits, an error of the store after any of its transactions and of those of fail, and a crash at any of these points, keep the invariant |
| `AgentRecovery.Reachable` | agent_server/app/runtime.py:27-118 | so it holds after every run |
| `AgentSections.IssueKeepsInv` | agent_server/app/graph.py:338-347 | the write goes out for an approved plan no write went out for |
| `AgentRecovery.UntilLeavesBase` | agent_server/app/runtime.py:93-112 | whatever a section and the fail after it had committed when they broke off, the tables are in order, and a waiting task is torn only where fail got no further than its plans |
| `AgentRecovery.FaultKeepsInv` | agent_server/app/runtime.py:93-112 | an error of the store keeps the invariant: a queued or running task left without a job is on record as abandoned |
| `AgentRecovery.RecoverRestores` | agent_server/app/store.py:109-121 | recovery turns any such store into a valid state with no job |
| `AgentTheorems.AtMostOneWritePerPlan` | agent_server/app/graph.py:295-376 | over every run of decisions, cancels, errors, crashes and restarts the external write goes out at most once for a plan |
| `AgentTheorems.NeverWrittenAgain` | agent_server/app/graph.py:295-376 | a plan past its write is never written again, and earlier writes stay recorded |
| `AgentTheorems.CaughtMidWriteIsUnknown` | agent_server/app/store.py:109-121 | a plan executing when the process crashes, its job stops or fails, or its job answers an error of the store and the first transaction of fail goes through, becomes unknown |
| `AgentTheorems.FinishedStaysFinished` | agent_server/app/runtime.py:85-112 | from one await to the next, finished plans and finished tasks keep their status through every run, errors of the store and crashes included; within a section see OverwrittenIff |
| `AgentTheorems.OverwrittenIff` | agent_server/app/runtime.py:85-112 | transaction by transaction: a finished task is never made active again, and its status is overwritten exactly when its job had just set it, could not report it, and fail makes it failed |
| `AgentTheorems.WritesAreSanctioned` | agent_server/app/graph.py:298-347 | every write carries exactly the previewed employee and 1 to 20 distinct roles, was approved by the plan’s actor before expiry, was entered before expiry, and saw person, roles and permissions as in the preview, the roles enabled and not held |
| `AgentTheorems.SucceededMeansWritten` | agent_server/app/runtime.py:85-92 | a task that succeeded with a plan has that plan done and written exactly once |
| `AgentVerdicts.SettledWasAnswered` | agent_server/app/graph.py:346-377 | over every run, a plan that is done had its write confirmed by a read-back, and one that is refused had an answer 400, 401, 403 or 404 |
| `AgentVerdicts.OnlyAnswersSettle` | agent_server/app/graph.py:346-377 | no other step, error or crash makes a plan done or refused |
| `AgentVerdicts.LastStatus` | agent_server/app/runtime.py:85-92 | a job that finishes leaves its task succeeded for a done plan, cancelled for a rejected one, failed for every other |
| `AgentVerdicts.AnswerSucceeds` | agent_server/app/runtime.py:85-92 | an answer without a plan is a success |
| `AgentVerdicts.EndedEarly` | agent_server/app/runtime.py:93-112 | a job that is stopped or fails leaves its task cancelled or failed, an executing plan unknown, a pending or approved one dropped, and finished and other tasks’ plans as they are |
| `AgentVerdicts.Recovered` | agent_server/app/store.py:109-121 | status by status, what a restart makes of tasks and plans |
| `AgentVerdicts.ShutdownStops` | agent_server/app/runtime.py:114-118 | a shutdown asks every job that has not ended to stop, and changes nothing else |
| `AgentVerdicts.PreviewSays` | agent_server/app/graph.py:205-264 | a new plan is pending, for the previewing actor, with that payload and time to live, and no other plan changes |
| `AgentTheorems.OneActiveTask` | agent_server/app/main.py:187-212 | at most one task of a conversation is active |
| `AgentTheorems.TasksAndPlansCoupled` | agent_server/app/runtime.py:85-112 | a finished task has no live plan; a waiting task has a pending plan exactly when it is not torn; a queued or running task has a job exactly when it is not abandoned; a task has at most one plan |
| `AgentTheorems.RecoveryRepairs` | agent_server/app/store.py:109-121 | after any crash and restart nothing is queued, running, approved or executing, and every pending plan belongs to a waiting task |
| `AgentTheorems.CancelRepairs` | agent_server/app/main.py:254-269 | a torn or abandoned task without a job is ended, with its plans, by one more cancel |
| `AgentGaps.TornTaskWaitsForNothing` | agent_server/app/runtime.py:104-112 | a run where a crash between the two transactions of fail leaves a task waiting with no pending plan |
| `AgentGaps.RestartsDoNotRepair` | agent_server/app/store.py:109-121 | no restart repairs such a task |
| `AgentGaps.TornWithoutCrash` | agent_server/app/runtime.py:104-112 | a run without a crash with the same end: the store raises an error between the two transactions |
| `AgentGaps.DecidedButNotLaunched` | agent_server/app/main.py:232-251 | a run where an error after the decision’s commit leaves its task queued and its plan approved, with no job |
| `AgentGaps.RunningWithoutJob` | agent_server/app/runtime.py:85-112 | a run where errors of the store leave a running task without a job |
| `AgentGaps.SuccessOverwritten` | agent_server/app/runtime.py:91-102 | a run where a task set succeeded ends failed |
| `AgentGaps.AbandonedTaskStaysQueued` | agent_server/app/runtime.py:27-39 | a run where a job cancelled before its first step leaves its task queued and its plan approved, with no job |
| `AgentServer.Server.SendMessage` | agent_server/app/main.py:187-212 | 422, 503, 404 and 409 exactly when, 409 for an active task in the conversation; otherwise one queued task and its job, or after an error of the store the task without its job or nothing |
| `AgentServer.Server.DecidePlan` | agent_server/app/main.py:226-252 | 404, 409 and the rest exactly when, what a decision changes, and what an error of the store can leave of it |
| `AgentServer.Server.CancelTask` | agent_server/app/main.py:254-269 | a finished task is left alone; an active one is asked to stop, or without a job fails here with its plans; and how far an error of the store lets that get |
| `AgentServer.Server.Execute` | agent_server/app/graph.py:295-381 | with others running at every await and errors of the store at every step, the plan ends with the status its way through prescribes (rejected, expired, in conflict, or the answer to its write), or its task is on record as abandoned; it is past its write exactly when the method marked it for its write, which needs approval, permission, the plan’s own actor and unchanged reads |
| `AgentServer.Server.WritePlan` | agent_server/app/graph.py:315-345 | the second reading, the mark, the write; without errors of the store the plan’s status is exactly the one the readings and the answer prescribe |
| `AgentServer.Server.ReadAnswer` | agent_server/app/graph.py:346-377 | when nothing broke off, the plan is done if and only if the write was accepted and the check confirmed it, refused if and only if the answer was an error 400, 401, 403 or 404, and unknown otherwise |
| `RbacPolicy.SplitInvertsJoin` | oa/backend/internal/service/shared/permission_code.go:8-14 | splitting object:action gives the two back if and only if neither is empty and the action has no colon |
| `RbacPolicy.JoinInvertsSplit` | oa/backend/internal/service/shared/permission_code.go:8-14 | joining what was split gives the code back, a code without a usable colon being an object without action |
| `RbacPolicy.BuildIndex` | oa/backend/internal/service/rbac/enforcer.go:196-228 | the nested maps hold exactly the permissions of the rows, and the code lists exactly their codes |
| `RbacPolicy.MatchRoles` | oa/backend/internal/service/rbac/enforcer.go:88-133 | the lookup over held roles says exactly whether some row of some held role covers object and action, by name or by * |
| `RbacEnforcer.CachedEnforcer.ReloadPolicy` | oa/backend/internal/service/rbac/enforcer.go:196-228 | a query that succeeds installs a policy read during this call or later; one that fails changes nothing of it |
| `RbacEnforcer.CachedEnforcer.EnsurePolicy` | oa/backend/internal/service/rbac/enforcer.go:252-261 | true only with a policy installed less than the TTL before the call or during it; false only when a reload failed |
| `RbacEnforcer.CachedEnforcer.Enforce` | oa/backend/internal/service/rbac/enforcer.go:88-105 | a grant equals the plain check on the rows the installed policy was read from, installed within the TTL; a denial without failure equals its negation; a failed reload only denies |
| `RbacEnforcer.CachedEnforcer.CachedRoles` | oa/backend/internal/service/rbac/enforcer.go:264-276 | an entry is used until its time and dropped after it |
| `RbacEnforcer.CachedEnforcer.LoadRoles` | oa/backend/internal/service/rbac/enforcer.go:136-151 | the answer is the user’s roles at a moment of this call, or those of a cached entry still within its time |
| `RbacEnforcer.CachedEnforcer.HasRole` | oa/backend/internal/service/rbac/enforcer.go:154-165 | whether the user had that role then |
| `RbacEnforcer.CachedEnforcer.PermissionCodes` | oa/backend/internal/service/rbac/enforcer.go:168-193 | exactly the codes of the rows of the user’s roles, once each |
| `RbacEnforcer.CachedEnforcer.InvalidatePolicy` | oa/backend/internal/service/rbac/enforcer.go:239-249 | no cached role is older than the call; a policy read during the call or later is installed; after a failed reload the policy stays marked as not loaded, unless another request has loaded one since |
| `RbacEnforcer.CheckAfterInvalidation` | oa/backend/internal/service/rbac/enforcer.go:239-261 | for all rows before and after: the next check shows the rows of the moment of the invalidation for one whole TTL and then the latest, and after a failed reload the latest |
| `RbacEnforcer.CheckAfterChange` | oa/backend/internal/service/role/service.go:147-152 | for all rows, roles, object and action: the check after a change is right for the new rows if and only if the change committed before the invalidation, or both sets of rows agree on what is asked; inside the open transaction the old rows answer |
| `RbacEnforcer.GrantOutlivesInvalidation` | oa/backend/internal/service/role/service.go:151-152 | an instance: a permission no row gives any more is still granted |
| `DedupWindow.WindowIsLastHandled` | oa/fronted/apps/admin/src/realtime/wsClient.ts:199-211 | after any arrivals the window is the last handled ids, at most the limit, none twice |
| `DedupWindow.HandledAgainOnlyFarApart` | oa/fronted/apps/admin/src/realtime/wsClient.ts:161-211 | the handler runs twice for one id only with at least limit other distinct ids handled in between |
| `DedupWindow.RealtimeClient.WindowIsBounded` | oa/fronted/apps/admin/src/realtime/wsClient.ts:203-211 | the FIFO of a client object never holds an id twice or more ids than the limit |
| `DedupWindow.RealtimeClient.HandleMessage` | oa/fronted/apps/admin/src/realtime/wsClient.ts:161-191 | a message of type event with an id is acknowledged even when a duplicate and handled exactly when not in the set; session_replaced and session_terminated end the session |
| `DedupWindow.RealtimeClient.RememberEventId` | oa/fronted/apps/admin/src/realtime/wsClient.ts:203-211 | set and FIFO stay the same ids while the overflow is shifted out |
| `DedupWindow.RealtimeClient.Start` | oa/fronted/apps/admin/src/realtime/wsClient.ts:64-69 | ignored while running and after the session has ended |
| `DedupWindow.RealtimeClient.Stop` | oa/fronted/apps/admin/src/realtime/wsClient.ts:72-87 | no socket and no timer are left |
| `DedupWindow.RealtimeClient.Connect` | oa/fronted/apps/admin/src/realtime/wsClient.ts:95-143 | a socket is opened exactly while not stopped and without one; one that cannot be opened is tried again |
| `DedupWindow.RealtimeClient.OnClose` | oa/fronted/apps/admin/src/realtime/wsClient.ts:127-142 | code 4001, 4002 or 4003 ends a running client for good; any other close is followed by a reconnect |

## Left out

- GatewayTheorems.NoLostWakeUp: excepts events a client acknowledged or that expired, because a second instance may save them again late (`GatewayLateSave.SavedAgainAfterAck`), and promises an event that shares its id with another of its session only up to that id (`GatewayNamesake.NamesakeTakesThePlace`).
- GatewayTheorems.AtLeastOnce: assumes that clients acknowledge only what they received, which the gateway does not check.
- SsoTheorems.FamiliesAreLinear: assumes that the refresh lock is exclusive; its five-second expiry and the degraded mode without Redis are not modelled.
- SsoTheorems.EventsMatchClosings: excepts the step that writes an old session record back; `OnlyStaleTouchReopens` and `SilentClosingIff` say exactly what that step does. The trimming of the event stream is not modelled.
- AgentTheorems.TasksAndPlansCoupled: a waiting task that is torn, and a queued or running task that is abandoned, are named as exceptions; all occur.
- AuditMapper.Mapper.Build: the record's operator, action name and event time are not modelled, because they are read from the row by tables and time formats that decide nothing else.
- RbacEnforcer.CheckAfterChange: assumes that no other request touches the caches in between; with others, `Enforce` says what a check can show.
- RbacEnforcer.CachedEnforcer.Enforce: the age of the rows is bounded by the TTL and the duration of the query that read them; that duration is not bounded, as in the source.
- DeadLetterTrim.Directory.Trim: which prefix is removed is stated for the case that today's file sorts last and removals succeed; with a failing removal the source's running total no longer matches the directory, and only "today's file stays, nothing else changes" is stated.
- SseStream.PrintParse: `Number` and `JSON.parse` are parameters that invert the server's printing; ids are assumed below 2^53, where `Number` is exact.
- SseStream.Watcher.Watch: events are taken to become visible in id order; out-of-order commits are not modelled.
- AuditMapper.KeyIsUniqueIffNoSeparator: the hash over the joined text is taken as injective.
- CanalCodec.FoldMessage: the seven field loops of the source are one generic loop with seven step functions.
- Audit records: the action name, operator and event time taken from the row, JSON marshalling and its error branch, and the text of the SQL statement and its arguments.
- The audit consumer's cancellation by its context is the machine's crash; sleeping, backoff, Kafka rebalances and the contents of a dead-letter line are left out.
- The decoding of the SSE body from UTF-8 bytes to text; the parser starts from text.
- The SSE stream's 60-second deadline, the task status query and the delays between reconnects are nondeterministic stops.
- The gateway's presence records, ping and pong timers, the grace period before a session is terminated, and the token and device checks of the handshake; a missing stream field is the empty string; stream trimming and hash expiry are explicit steps.
- The SSO server's passwords and password versions (a check that would also refuse a token of an older password), signatures, rate limits and reason texts; key expiry is a step that may happen at any time; identifiers are taken as fresh; the user lookup of a refresh is part of its locking step.
- The agent's language model and read-only tools are nondeterministic choices; events, audit lines, messages, the slot semaphore's order and the per-conversation lock are left out; the several reads before a write are one await; a timeout is an exception of the job.
- The order of `PermissionCodes`, the permission tree and platform access codes.
- The client's backoff delays, jitter and callbacks.
