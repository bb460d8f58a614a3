# The message paths of the `wt` daemon

`wt` connects installs of a coordination daemon. This project models its two message paths and the
byte-stream codecs under them, and proves what they promise over every run.

**Durable delivery between installs.** A sent message is a row of an outbox table. Every peer with
pending rows has one lazily spawned delivery task, woken through a channel of capacity one, which
drains the outbox in batches of 64 over framed streams. Streams break and are refused, tasks fail,
retry, panic and are stopped, installs crash and restart, and an old stream may still be read beside
its successor. The receiving side records a frame under its primary key and broadcasts it if the
key was free. `Messages` gives the SQL statements as functions on maps, `Delivery` is the transition
system over any number of installs, and `DeliveryWake`, `DeliveryIntegrity`, `DeliveryEmission` and
`DeliveryFifo` prove what every run keeps. `DeliveryReach` says exactly when a row can still be
delivered: the one thing that ends that is a frame over the limit, its own or one listed before it
(`DeliveryLimits`). `DeliveryOrigin` traces every row and broadcast back to the send it came from.
`Drain`, `Wakers` and `Inbound` are the code itself, with its loops and mutable
maps. The drain and the consumer of a stream return the steps of the transition system they take, the
drain with messages enqueued by other code at any of its awaits, and the wake handles change as the
`Notify` step says.

**The local bus and the supervisor.** Agents of one machine exchange messages over a sequenced,
retention-trimmed log per session with consume-on-read. A supervisor races its child's output
against broadcasts and a timer, feeds it pending turn inputs and reports to its prime. `BusTable`
is the table, `BusMachine` the transition system (every commit, broadcast, write and mark a step of
its own), `BusFacts`, `BusTurns`, `BusIndependence`, `BusPrompt` and `BusReaders` its invariants,
and `BusOrigin` says that the log is what was posted.
`LocalBus` and `Supervision` are the code, and `Utterances` what a supervisor says. A whole run of a supervisor, with everything others do at
its awaits, is a run of the transition system (`Surroundings`), and `SupervisedOutput` says in terms
of the lines a child printed what its supervisor reported. `Spawn` and `SpawnSession` show that a
session gets at most one supervisor, ever.

**Codecs and the handshake.** `Framing` is the length-prefixed frame reader and writer over a stream
that may be cut anywhere. `LineStream` and `Harness` are the cancel-safe newline framer of a child's
stdout, `StreamJson` the meaning of one line. `Tokens` shows that a token a sender selects is one
its target accepts in spite of skewed clocks.

A "crash" of a receiver between recording and broadcasting, a stream cut inside a frame, a dropped
`select!` branch, a failed read and a lagging broadcast are all ordinary steps here.

## Assumptions

- Each store call is one atomic step. Failures are nondeterministic steps; where a result needs
  marks to succeed it says so in terms of the rows whose mark failed (`BusMachine.Bus.skipped`).
  A method that can fail for reasons outside the model also says what it does when nothing of that
  kind fails (`healthy`, `reliable`, `stays`).
- Sender and receiver are different installs: `Messages.SelfSendIsSwallowed` shows why they must be.
- First-in-first-out holds per stream only, and needs the outbox clock not to run backwards between
  enqueues of one channel id and ties of `ORDER BY enqueued_at_ms` broken by sequence number (`DeliveryFifo.OrderlyRun`);
  `DeliveryFifo.QueryInSeqOrderIffClockForward` is the exact condition for one query.
- A stream the receiver refuses loses what was written to it, like a broken one.
- The write step of `Delivery` takes frames of any size, and its queries break ties of
  `enqueued_at_ms` in any way. What depends on the limit is stated over the runs of the code
  (`DeliveryLimits.CodeRun`): the frame writer accepts every frame written, and ties are broken by a
  strict order of the keys that is a parameter (`DeliveryLimits.Code`), since the SQL leaves it open:
  the primary key, if the database happens to list rows by it, or the empty order if nothing is known.
- Other agents may do anything to the bus at the awaits of a supervisor. Its own results hold whatever
  they do; that the whole is a run of `BusMachine` holds unless one of them did something that no
  actor could have done at that moment (`Surroundings.Impossible`).
- `channel_id` is an arbitrary function of the channel name. Signatures are ideal and token ids
  unique (`Tokens.UniqueIds`); CBOR, base32, UTF-8 and JSON decoding are arbitrary functions, the
  message encoding undone by its decoder.

## What the code does not do

- The outline in the repository's own `README.md:359-379` shows a single delivery worker. The code has
  one task per peer (`crates/wt-daemon/src/state.rs:4-6`), and so has the model.
- A panicking delivery task strands its peer's rows until the next notify (`DeliveryWake.PanicNeedsNotify`).
- A row whose frame is over the frame limit is never sent, and every row for the same peer that is
  listed after it, on whatever channel, is blocked for good unless it was underway already
  (`DeliveryLimits.OversizeBlocks`): those of a later timestamp, and those of the same one that come
  later in the order of ties. A row stamped earlier, by a clock that stepped back, can still pass
  (`DeliveryReach.CanArriveIffFits`). The size of a payload is not checked when it is enqueued
  (`DeliveryLimits.HugePayloadIsOversize`).
- The rollback after a refused `session_create` is dead code (`Spawn.CreateNeverRefused`), and a name
  once registered is taken for good even if the spawn then fails (`Spawn.NameStaysTaken`).
- A prompt need not be the first message of its session, since the session accepts messages before
  `start` records the prompt; so a turn input with a smaller number may be written to the child after
  it (`BusPrompt.PromptCanComeLate`), exactly if one waits when the prompt is posted
  (`BusPrompt.InOrderIffNoneWaiting`).
- The sender offers the eligible token that expires last. If the target has revoked exactly that one,
  the handshake fails although another token would pass (`Tokens.RevokedShadowsOlder`). A lifetime that
  pushes the expiry beyond 2^63 makes a token unusable at once (`Tokens.SelectableIff`). A failed lookup
  of a token counts as "not revoked" (`crates/wt-core/src/auth.rs:169-173`, `Tokens.RevokedIsRefused`).

## Model

| member | source | states |
|---|---|---|
| Framing.WriteFrame | crates/wt-core/src/framing.rs:26-34 | refuses exactly the bodies over 16 MiB, leaving the stream untouched; otherwise what reaches the stream is the whole frame or, if it breaks, the prefix it had room for |
| Framing.ReadFrame | crates/wt-core/src/framing.rs:38-54 | each read result and what is left of the stream are those of one frame, a clean end, an oversize length or a truncated read, in terms of the bytes alone |
| Framing.RoundTrip | crates/wt-core/src/framing.rs:26-54 | reading a finished stream of written frames yields those frames and then the clean end |
| Framing.PrefixYieldsWholeFrames | crates/wt-core/src/framing.rs:36-54 | reading any byte prefix of written frames yields exactly the whole frames in it, and ends cleanly iff a finished stream was cut at a frame boundary |
| Framing.WriterAndReaderAgree | crates/wt-core/src/framing.rs:26-50 | the writer accepts a body iff the reader accepts its 32-bit length, for every body whose length fits in 32 bits, and the length survives the prefix |
| Framing.RunRecvLoop | crates/wt-core/src/services/msg.rs:33-50 | hands on the decoded frames in order, up to the end, a failed read, a body that does not decode, or the message its consumer went away at |
| Framing.ReceivedIsDecodedFrames | crates/wt-core/src/services/msg.rs:33-50 | what the loop hands on is the decoding of the frames in the stream, up to the first bad one |
| Framing.BrokenStreamDeliversPrefix | crates/wt-core/src/services/msg.rs:33-50 | a stream of messages cut anywhere delivers a prefix of them and nothing else |
| LineStream.LinesOfConcat | crates/wt-core/src/harness.rs:176-211 | the lines of a stream do not depend on where it is cut; only the unfinished line carries over |
| LineStream.NeverTripsIffShort | crates/wt-core/src/harness.rs:26 | the length guard stays quiet for every way of reading a stream iff no line is over the limit |
| LineStream.AlwaysTripsIffHuge | crates/wt-core/src/harness.rs:182-211 | some way of reading passes the guard iff no line has limit + 8192 bytes or more and the unfinished one is within the limit |
| HarnessProcess.Harness.SendTurn | crates/wt-core/src/harness.rs:162-175 | appends the turn to the child's stdin, or fails leaving at most a part of its line in the pipe and no turn added |
| HarnessProcess.Harness.DrainLines | crates/wt-core/src/harness.rs:182-199 | takes complete lines until one means something; with none left, everything printed so far has been told |
| HarnessProcess.Harness.NextEvent | crates/wt-core/src/harness.rs:182-211 | over any chunks and dropped calls, events told and events still buffered are exactly those printed; the end of stdout, as an exit or a read error, is reported only after all were told, and an over-long line only if the guard tripped |
| HarnessProcess.EventsOfSplit | crates/wt-core/src/harness.rs:176-211 | the events of a stream do not depend on where it is cut |
| StreamJson.ParseEvent | crates/wt-core/src/harness.rs:221-239 | which lines mean an assistant text, a completed turn, or nothing, by the fields of their JSON objects |
| StreamJson.ExtractAssistantText | crates/wt-core/src/harness.rs:242-253 | the joined text of the text blocks, in order, skipping other blocks |
| StreamJson.JoinsTextBlocks | crates/wt-core/src/harness.rs:242-253 | blocks are joined in order, a block of type `text` by its text, any other by nothing |
| Messages.NextKeyIsNew | crates/wt-core/src/store.rs:511-549 | an enqueued message gets a key never used before, one above all of its channel id |
| Messages.StatementsGrow | crates/wt-core/src/store.rs:503-651 | no statement loses or rewrites a message or takes a delivery mark back |
| Messages.SelfSendIsSwallowed | crates/wt-core/src/store.rs:630-648 | a message to oneself is dropped as a duplicate of its own outbox row |
| Drain.MessageStore.OutboxEnqueue | crates/wt-core/src/store.rs:503-549 | adds exactly one pending row, with the channel, payload, peer and time given, under the next number of its sender and channel id |
| Drain.MessageStore.OutboxPendingPeers | crates/wt-core/src/store.rs:553-568 | exactly the peers with pending rows |
| Drain.MessageStore.OutboxPendingForPeer | crates/wt-core/src/store.rs:572-593 | the oldest pending rows of the peer, up to the limit, and all of them below it |
| Drain.MessageStore.OutboxMarkDelivered | crates/wt-core/src/store.rs:596-614 | the outbox row of that key stops being pending; no message is lost or changed, no other row touched, and an inbox row is left alone |
| Drain.MessageStore.RecordInbound | crates/wt-core/src/store.rs:620-651 | stores an inbound message iff its key was free, and says so |
| Drain.PeerTask.DeliverRow | crates/wt-daemon/src/state.rs:573-603 | delivers and marks one row while other code may enqueue, or fails leaving it pending, by steps of the transition system; the stream looked up is always there |
| Drain.PeerTask.DrainPeer | crates/wt-daemon/src/state.rs:560-605 | with messages enqueued at any await: every query gets the oldest rows pending at its time, and exactly the first of these are marked, without a gap; success means nothing of the peer is left pending, and when nothing else fails it comes iff no row left pending is over the limit; ends once nothing more is enqueued; its trace is a run of the transition system |
| Drain.UndisturbedDrain | crates/wt-daemon/src/state.rs:560-605 | with nothing enqueued meanwhile, what a drain delivers over all its queries is a gapless run of the rows oldest at its start |
| Drain.PeerTask.PerPeerDelivery | crates/wt-daemon/src/state.rs:527-556 | drains and waits, with messages enqueued during both, and drains again until shutdown; every pass is a run of the transition system from where the wait before it left off, and after it nothing is pending for the peer unless something failed or a row is over the limit |
| Drain.BatchesRefineOneByOne | crates/wt-daemon/src/state.rs:560-605 | draining in batches can deliver exactly the sequences that one row at a time can |
| Drain.OnlyOwnRows | crates/wt-daemon/src/state.rs:560-605 | a drain leaves every other peer's rows as they were |
| Drain.OversizeRowBlocksPeer | crates/wt-daemon/src/state.rs:587-599 | in one drain, whatever is enqueued meanwhile, a row whose frame is over the limit of the frame writer stays pending and nothing stamped later is sent to its peer |
| Drain.LeadsIsARun | crates/wt-daemon/src/state.rs:560-605 | the trace of one task's code, with messages enqueued in between, is a run of the whole system |
| Wakers.Daemon.NotifyPeer | crates/wt-daemon/src/state.rs:199-216 | wakes the running task or replaces a missing or closed handle; afterwards the peer's task is alive and, unless shutdown was signalled, the peer is covered |
| Wakers.Daemon.SignalShutdown | crates/wt-daemon/src/state.rs:181-183 | every running task will see the signal; handles and histories stay as they were |
| Wakers.Daemon.ResumeDelivery | crates/wt-daemon/src/state.rs:187-196 | after startup every pending row is notified and, unless shutdown was signalled, its peer covered; a failed scan of the outbox changes nothing |
| DeliveryWake.SingleFlight | crates/wt-daemon/src/state.rs:199-216 | in every run at most one task of an install is alive for a peer |
| DeliveryWake.ExitRemovesOwnHandle | crates/wt-daemon/src/state.rs:553-555 | the handle an exiting task removes is its own, never its successor's |
| DeliveryWake.HandleNeverDropped | crates/wt-daemon/src/state.rs:540-552 | a running task's handle stays in the map, so its wake channel never closes under it |
| DeliveryWake.NoLostWakeup | crates/wt-daemon/src/state.rs:199-216 | outside shutdown a notified row that is still pending has a wake queued, a pass under way or a retry armed |
| DeliveryWake.NoLostBacklog | crates/wt-daemon/src/state.rs:187-196 | the same for every row the startup scan found, once the scan has notified its peers |
| DeliveryWake.HistoriesAreComplete | crates/wt-daemon/src/state.rs:187-216 | a notify covers every pending row of its peer and a startup scan every pending row |
| DeliveryWake.HistoriesStay | crates/wt-daemon/src/state.rs:527-556 | only a crash or a panic of the peer's own task ends that cover, for notified and for scanned rows |
| DeliveryWake.PanicNeedsNotify | crates/wt-daemon/src/state.rs:199-216 | a panic strands the peer's rows, and the next notify repairs it |
| DeliveryIntegrity.StepEvolves | crates/wt-daemon/src/state.rs:560-605 | no step loses or rewrites a message, takes back a mark or rewrites a stream |
| DeliveryEmission.InboxIntegrity | crates/wt-daemon/src/state.rs:325-363 | every inbox row is its sender's outbox row of the same key, in channel, payload, timestamp and addressee, even when channel ids collide |
| DeliveryEmission.WrittenAsSent | crates/wt-daemon/src/state.rs:573-603 | every frame on a stream is an outbox row of its sender for the stream's own channel and receiver |
| DeliveryEmission.DuplicateIsRedelivery | crates/wt-core/src/store.rs:630-648 | a frame dropped as a duplicate is the very message already in the inbox |
| DeliveryEmission.AtMostOnce | crates/wt-daemon/src/state.rs:332-369 | each message is broadcast at most once while recording succeeds |
| DeliveryEmission.EmissionIntegrity | crates/wt-daemon/src/state.rs:332-369 | every broadcast, recorded or not, is a message its sender addressed to this install |
| DeliveryEmission.RecordedIsBroadcast | crates/wt-daemon/src/state.rs:332-369 | every recorded message was broadcast, is about to be, or its receiver crashed in between |
| DeliveryEmission.Conservation | crates/wt-daemon/src/state.rs:560-605 | every outbox row is pending or fully written on a stream to its own peer and channel, where its fate is accounted for |
| DeliveryEmission.PendingSurvives | crates/wt-core/src/store.rs:596-614 | a pending row survives every failure and restart until the task of its own peer, holding it as its first row, marks it after writing it in full |
| DeliveryOrigin.OutboxIsSent | crates/wt-core/src/store.rs:503-549 | in every run each outbox row is, in channel, payload, peer and time, what its install was told to send |
| DeliveryOrigin.InboxIsSent | crates/wt-daemon/src/state.rs:325-363 | each inbox row is what its sender was told to send to this install |
| DeliveryOrigin.BroadcastIsSent | crates/wt-daemon/src/state.rs:332-369 | each broadcast, recorded or not, is what its sender was told to send to this install |
| DeliveryOrigin.SentIsKept | crates/wt-core/src/store.rs:503-549 | whatever an install was told to send is in its outbox at every later time, under a key that was free |
| DeliveryLimits.OversizeBlocks | crates/wt-daemon/src/state.rs:587-599 | over every run of the code, crashes and restarts included, a row over the frame limit stays pending and never arrives, and so does every row of its peer that is listed after it and was not underway |
| DeliveryReach.DeliveryWithinReach | crates/wt-daemon/src/state.rs:527-605 | from every reachable state a pending row of a covered peer can get to the inbox by steps of the peer's task and one receiver alone, if neither it nor a row of the peer listed before it is over the frame limit |
| DeliveryReach.CanArriveIffFits | crates/wt-daemon/src/state.rs:573-603 | under any strict order of ties, a pending row of a covered peer that is not underway can arrive in some run iff neither it nor a pending row of the peer listed before it is over the frame limit |
| DeliveryFifo.PerStreamFifo | crates/wt-daemon/src/state.rs:573-603 | the numbers written on one stream strictly increase, across batches, channels and concurrent enqueues, if the clock is steady on the stream's channel id |
| DeliveryFifo.QueryInSeqOrderIffClockForward | crates/wt-core/src/store.rs:572-593 | a full query lists each channel in sequence order iff the clock did not run backwards between its pending rows |
| Inbound.InboundStream.ConsumeFrames | crates/wt-daemon/src/state.rs:332-369 | the inbox and the broadcasts are those of the frames in order, frames whose record failed being broadcast too; its trace is a run of the transition system that ends with that inbox and those broadcasts |
| Inbound.BroadcastCount | crates/wt-daemon/src/state.rs:332-369 | over any frames a key is broadcast once if this run made its inbox row, plus once per failed record |
| BusTable.BusWindow | crates/wt-core/src/store.rs:945-970 | after any run each session holds exactly its last 5000 messages, unaltered, and each is consumed iff a consume came after its post |
| BusTable.NeverReissued | crates/wt-core/src/store.rs:945-951 | in spite of trimming a number is never given out twice and later posts get larger ones |
| BusTable.NumbersCountPosts | crates/wt-core/src/store.rs:945-951 | the next number is one more than the posts ever made to the session |
| BusTable.EnqueueKeepsWindow | crates/wt-core/src/store.rs:961-970 | an enqueue trims only its own session, to its window |
| BusOrigin.LogIsWhatWasPosted | crates/wt-daemon/src/state.rs:462-486 | in every run the log of a session is, message for message and in order, what was posted to it |
| BusOrigin.HandedIsPosted | crates/wt-daemon/src/supervisor.rs:231-246 | whatever is written to a reader or fed to a child is the message posted under that number, addressed to it |
| BusOrigin.BroadcastIsPosted | crates/wt-daemon/src/state.rs:462-486 | whatever is broadcast is the message posted under that number |
| LocalBus.BusStore.AgentMsgEnqueue | crates/wt-core/src/store.rs:931-984 | appends the message unaltered under the next number, drops what is more than 5000 numbers old, and leaves every other row alone |
| LocalBus.BusStore.AgentMsgPending | crates/wt-core/src/store.rs:1054-1077 | exactly the unconsumed rows of that kind for the agent, by number |
| LocalBus.BusStore.AgentMsgBacklog | crates/wt-core/src/store.rs:988-1029 | the earliest matching rows in time order up to the limit, and all of them below it |
| LocalBus.BusStore.AgentMsgMarkConsumed | crates/wt-core/src/store.rs:1031-1048 | marks the row of that key if it is still there |
| LocalBus.BusStore.BusEnqueue | crates/wt-daemon/src/state.rs:462-486 | commits and then publishes the message under its number, or does neither |
| LocalBus.BusStore.ServeBacklog | crates/wt-daemon/src/ipc.rs:596-635 | writes a prefix of the at most 10000 earliest messages asked for, in order, marking each row after its write if it consumes; its trace is a run of the transition system |
| LocalBus.BusStore.FollowTail | crates/wt-daemon/src/ipc.rs:640-668 | over any receives, lagging included, writes exactly the received broadcasts for the reader, in order, up to the first failed write, marking them if it consumes; its trace is a run of the transition system |
| LocalBus.BusStore.RecordPrompt | crates/wt-daemon/src/supervisor.rs:53-71 | the recorded prompt is left for the drain only if marking it failed, and nothing else becomes pending; its trace is a run of the bus |
| LocalBus.LeadsIsARun | crates/wt-daemon/src/supervisor.rs:224-249 | the trace of one actor's code is a run of the whole bus |
| BusFacts.NothingConsumedUnseen | crates/wt-daemon/src/ipc.rs:616-662 | in every run a consumed row was first written to a consuming reader of its addressee, fed to its addressee's child, or was that child's prompt |
| BusFacts.HandedAsPosted | crates/wt-daemon/src/supervisor.rs:231-246 | whatever is written or fed is the message logged under its key, addressed to who gets it |
| BusTurns.TurnsInOrder | crates/wt-daemon/src/supervisor.rs:224-249 | in each session the numbers a supervisor's drains feed strictly increase, but for rows whose mark failed, with concurrent readers and several sessions; the prompt is fed again only if its mark failed (its place in the order: `BusPrompt`) |
| BusTurns.FedAtMostOnce | crates/wt-daemon/src/supervisor.rs:53-71 | when marks succeed no turn input is fed twice, by anybody, and no prompt is fed by the drain |
| BusTurns.RefedIffUnmarked | crates/wt-daemon/src/supervisor.rs:231-246 | a fed row is handed out again iff its mark failed and it is still unconsumed and untrimmed |
| BusIndependence.BroadcastIndependence | crates/wt-daemon/src/supervisor.rs:108-127 | between drains the fed sequence equals the logged turn inputs up to the last query, in order and without the prompt, whatever broadcasts were lost |
| BusPrompt.PromptInOrder | crates/wt-daemon/src/supervisor.rs:53-71 | in every run in which no turn input waits when the prompt is posted, everything written to the child, the prompt first, comes in order of its numbers, but for rows whose mark failed |
| BusPrompt.InOrderIffNoneWaiting | crates/wt-daemon/src/supervisor.rs:53-71 | undisturbed and drained since the prompt, what was written to the child is in order iff no turn input waited when the prompt was posted |
| BusPrompt.PromptCanComeLate | crates/wt-daemon/src/supervisor.rs:53-71 | a run in which the child gets the prompt and then a turn input with a smaller number |
| BusReaders.DrainThenTail | crates/wt-daemon/src/ipc.rs:596-668 | a caught-up following reader was written a matching message once for awaiting it at the query plus once for its broadcast since subscribing |
| BusReaders.DrainThenTailSince | crates/wt-daemon/src/ipc.rs:596-668 | the same for a reader from its subscription on: once for awaiting the message and once if it was broadcast after the subscription |
| Supervision.Supervisor.DrainTurnInputs | crates/wt-daemon/src/supervisor.rs:224-249 | while others act, feeds all turn inputs pending at its query in order, or up to a failed write exactly a prefix of them, and marks each one fed unless the store fails; stdin holds exactly their texts and nothing is posted |
| Supervision.Supervisor.React | crates/wt-daemon/src/supervisor.rs:131-163 | one `turn_output` per completed turn, one `trace` per assistant text iff tracing, and no other row; only a completed turn ends the turn |
| Supervision.Supervisor.CheckIdle | crates/wt-daemon/src/supervisor.rs:190-213 | one idle notice iff the active turn has been silent for the timeout and none was given since, and no other row |
| Supervision.Supervisor.DrainOrDie | crates/wt-daemon/src/supervisor.rs:110-127 | drains everything pending; feeding anything starts a turn and resets the idle state; a failed write ends supervision with one last word |
| Supervision.Supervisor.WakeUp | crates/wt-daemon/src/supervisor.rs:179-213 | a broadcast, a lag and a tick each drain all turn inputs pending by then, and a tick then gives one idle notice iff due; only a closed bus breaks the loop |
| Supervision.Supervisor.OneTurn | crates/wt-daemon/src/supervisor.rs:129-215 | a turn reports the next event told, or, when the poll told nothing, has told everything printed so far and drains; each ending has its cause |
| Supervision.Supervisor.Tell | crates/wt-daemon/src/state.rs:462-486 | the bus gains exactly this one message, broadcast in the child's own session after everything said before, or nothing; nothing gets lost while the store works |
| Supervision.Supervisor.Run | crates/wt-daemon/src/supervisor.rs:90-220 | for every chunking, dropped poll and wakeup, and whatever others do at its awaits, the bus gains exactly what others posted and what the supervisor said, in the child's session and in order; if no commit fails, that is one `TurnOutput` row per completed turn and, if tracing, one `Trace` row per assistant text, from the child to the prime, and `Control` rows for the rest; every turn drains or reports; a child that exits has had everything it printed reported; the whole is a run of the transition system, so what was fed is in order |
| Supervision.Supervisor.FedInFull | crates/wt-daemon/src/supervisor.rs:108-127 | between two drains of such a run, undisturbed, the child has been fed exactly the turn inputs known to the last query, in order |
| Surroundings.OtherInSystem | crates/wt-daemon/src/supervisor.rs:224-249 | a step of others between two steps of an actor's code keeps the whole a run of the system, unless it was impossible |
| Surroundings.OthersAreFree | crates/wt-daemon/src/supervisor.rs:224-249 | whatever the system allows others to do counts as possible at an await |
| Utterances.NothingElseSaid | crates/wt-daemon/src/supervisor.rs:131-213 | what the child's session gained besides what others posted is the sequence of utterances that were committed, as said; every other session gained only what others posted |
| Utterances.PrimeHears | crates/wt-daemon/src/supervisor.rs:131-163 | if no commit failed, the rows other than `Control` that the child's session gained, but for what others posted, are exactly those of the events told, by kind and payload, in order |
| SupervisedOutput.WordsAreTheLines | crates/wt-daemon/src/supervisor.rs:131-163 | on the bytes printed, the reports are one `turn_output` per result line and, if tracing, one `trace` per assistant line with text, in order |
| SupervisedOutput.RowsAreTheLines | crates/wt-daemon/src/supervisor.rs:131-163 | on the bytes printed, the rows the prime is to get are one `TurnOutput` per result line and, if tracing, one `Trace` per assistant line with text, in order |
| Spawn.StartedOnce | crates/wt-daemon/src/ipc.rs:973-1083 | over all interleavings of spawns, kills, closes and restarts at most one call per session name reaches `supervisor::start` or succeeds |
| Spawn.PrimeIsNotChild | crates/wt-daemon/src/ipc.rs:1025-1046 | every session is between a registered prime of its group and a different agent bearing the session's name |
| Spawn.CreateNeverRefused | crates/wt-daemon/src/ipc.rs:1029-1052 | a call that registered its agent always finds the session name free |
| Spawn.NameStaysTaken | crates/wt-core/src/store.rs:734-756 | once registered a name is never registered or started again by another call |
| Spawn.RoutedToTheOther | crates/wt-daemon/src/ipc.rs:549-566 | a session message goes to the other participant and a reply comes back; strangers are refused |
| Spawn.KillIsClose | crates/wt-daemon/src/ipc.rs:751-830 | killing an agent and closing its session come to the same |
| SpawnSession.Registry.Spawn | crates/wt-daemon/src/ipc.rs:973-1095 | the child runs iff the call succeeds, which when nothing fails it does iff both names were free; a taken name changes nothing; no other agent or session is touched; its trace is a run of the transition system |
| Tokens.TokenStore.FindTokenWithCap | crates/wt-core/src/store.rs:460-486 | the eligible token that expires last, or none if none is eligible |
| Tokens.TokenStore.Insert | crates/wt-core/src/store.rs:407-427 | a new id gets its row; a known id keeps its columns but takes the raw token and the revocation mark, so that a re-import clears a revocation; other ids are unchanged |
| Tokens.TokenStore.Revoke | crates/wt-core/src/store.rs:488-498 | marks the token revoked and counts it |
| Tokens.InsertOk | crates/wt-core/src/store.rs:407-427 | with unique ids a re-imported token never makes a row disagree with its raw token |
| Tokens.HandshakeWithSkew | crates/wt-daemon/src/state.rs:380-394 | a token selected at the sender's time, signed with the target's key, decodes, and at any later point of the run the target accepts it up to 300 seconds later iff it knows of no revocation by then, and later iff the expiry still allows it |
| Tokens.VerifyToken | crates/wt-core/src/auth.rs:116-152 | what an install accepts was signed with its own key, for the initiator, with the capability asked for |
| Tokens.RefusalMeans | crates/wt-core/src/auth.rs:116-178 | which guard each refusal stands for |
| Tokens.RevocationSticks | crates/wt-core/src/store.rs:488-498 | no later grant, import or revocation takes back a revocation by the issuer of a token granted to somebody else |
| Tokens.RevokedIsRefused | crates/wt-core/src/auth.rs:153-178 | a token its issuer revoked is refused at every later point of the run, at every time and from anybody, exactly unless the issuer's lookup fails; then it is accepted from its subject until it expires |
| Tokens.RevokedShadowsOlder | crates/wt-core/src/store.rs:457-486 | a run after which the sender selects a token the target has revoked while it holds another the target would accept |
| Tokens.SelectableIff | crates/wt-core/src/auth.rs:25-29 | a granted token is selectable exactly until it expires, and never if its expiry exceeds a signed 64-bit number; one without a lifetime until 2100 |

## Left out

- QUIC, TLS, dialing, relays and mDNS: a stream is a byte sequence that delivers a prefix, opening and writing may fail.
- SQLite and the database actor: each store method is one atomic step on a map; migrations, peers and meta keys are not modelled.
- CBOR, base32, JSON text, UTF-8, hashing and Ed25519 internals: arbitrary or ideal functions, as stated above.
- Clocks: every reading is a parameter.
- `run_send_loop` (`crates/wt-core/src/services/msg.rs`) is not part of the delivery path.
- `RecvSubscribe` (`crates/wt-daemon/src/ipc.rs:361-434`) and `inbox_backlog`: the same subscribe, drain, tail shape as `AgentRecv`, without consuming.
- Supervision.Supervisor.Run: does not model the status column (`agent_set_status`, `agent_touch`), which nothing read by the bus depends on; others act at its awaits, but not between the commit and the broadcast of one utterance, which `BusMachine` separates.
- Supervision.Supervisor.Run: an abort of the task is modelled in `BusMachine` (an actor may leave at any step), not in the method.
- Drain.PeerTask.PerPeerDelivery: other code enqueues at any await; wakes, shutdowns and receivers between two steps of a drain are in `Delivery`.
- LocalBus.BusStore.ServeBacklog: one undisturbed reader, as in `FollowTail`; all interleavings are in `BusMachine`.
- SpawnSession.Registry.Spawn: one undisturbed call; all interleavings are in `Spawn`.
- BusReaders.DrainThenTail: says nothing about a reader that lagged, which has lost broadcasts for good.
- Termination of supervision and eventual delivery under fair scheduling: proved are safety, termination of each drain once enqueuing stops, and that delivery stays possible.
- Workspaces, git, paths, pidfile, signals and process handling; IPC framing, argument parsing, CLI, web gateway and presentation.
- End-to-end acknowledgement, order across replaced streams and rollback of a half-made session: the code does not promise them.
