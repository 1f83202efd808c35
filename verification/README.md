# The MQTT broker's router, modelled and proved

This project models the embedded MQTT broker in `devices_manager/src/protocol/mqtt/server/`: a
single-threaded router that appends publishes to segmented commit logs, one per subscription filter,
and serves every subscriber from a cursor into the log of its filter. `dafny verify dfyconfig.toml`
checks all of it.

There are three layers.

* **State machine.** The state of each part is a value and each of its operations a function: a log is
  everything ever appended plus where its segments start (`LogModel`), then the logs of all filters with
  their parked readers and topic cache (`DataLogModel`), the send side of a connection
  (`OutgoingModel`), trackers and ready queue (`SchedulerModel`), and the router itself with one function
  per event (`RouterModel`). `RouterModel.Run` folds a sequence of events; theorems about runs hold for
  every such sequence.
* **Classes.** The code that works in place is written in place, as classes with the fields of the
  original and loops where it has loops (`CommitLog`, `DataLogs`, `Outgoings`, `Schedulers`,
  `Graveyards`, `Aliases`, `Links`, `Routers`). Every method is proved to turn the state into what the
  state machine's function says. `Routers.Router.Handle` does this for a whole event.
* **Theorems** about the state machine: `Identity` (slabs, client ids), `Queue` (ready queue), `Window`
  (packet ids), `Requests` and `RequestRuns` (requests and logs), `Conservation` and `ConservationRuns`
  (one request per subscription), `Wakeups` and `Withheld` (no lost wake-up, and when acks wait),
  `Neighbours` (what an event leaves alone), `Flights`, `Missed`, `Delivery`, `DeliveryRuns`,
  `AtLeastOnce` and `Losses` (at-least-once delivery), `Sessions` (save and restore), `Inbound` (QoS 2),
  `Acceptance`, `RetainedStore` and `Wills` (which publishes are accepted, retained and left as wills),
  `Dialogue` and `DialogueRuns` (acks, topic aliases, order of packets), `Subscribing` and `Subscriptions`,
  `Dropping` (which packets cost a connection its life), `Inputs` (what brings in nothing),
  `LinkProtocol` and `LinkRuns` (the two-thread handshake, alone and composed with the router),
  `Streaming` (a reader of a log that grows and evicts), `Turns` (when the router blocks), `Releases`
  (outbound QoS 2), `RetainedOnce`, `Panics`, `Slices` and `PlainRuns` (every place where the code would
  panic), and `Witnesses` (concrete runs).

An *account* records, for the specification only, the history of one subscription: where it started and
which offsets were acknowledged, were evicted before they were read, or were dropped by an
acknowledgement that named another packet.

## Where the code does not do what one would expect

For each there are lemmas below that state the exact condition, and for most a run on which it happens.

* `register_ack` pops the window before it compares packet ids. The connection is dropped, but for a
  persistent session the popped entry is lost, exactly when the acknowledgement named another packet:
  `Losses.AckLosesExactly`. It is never sent again: `Losses.LostForGood`. A run on which it happens:
  `Witnesses.OutOfOrderAckLoses`. Over runs: `Losses.LossesExactly`.
* An entry evicted before a subscription reads it is skipped without notice. Over runs, exactly when some
  sweep finds its cursor evicted: `Losses.LossesExactly`. A run: `Witnesses.EvictionOvertakes`.
* A client that publishes to its own filter and unsubscribes from it in one batch leaves a request
  without a subscription behind: `ConservationRuns.BatchExact`, `LeaveConserved`,
  `PublishThenUnsubscribeStrays`. It costs that client the order of its window, and nobody else anything.
* A connection id that is still queued when it is handed out again is queued twice:
  `Queue.ConnectQueue`, `Witnesses.ReusedIdIsQueuedTwice`. The vacated id is always the next one handed
  out.
* A resumed session is not put back into the subscription map, so its Unsubscribe is ignored without an
  answer until it subscribes again: `Sessions.UnsubscribeWorksIff`, `ResumedIsNotListed`.
* Building a link takes one token but only the first notification, so what a resumed session was sent
  together with its ConnAck waits for the next push: `LinkProtocol.BuildKeepsInvIff`,
  `ResumedLinkWaits`.
* With `max_outgoing_packet_count` zero, QoS 0 readers are parked without having read:
  `Forwarding.ZeroLimitStopsReaders`; wake-up statements about them carry `Requests.CanRead`.
* Acks committed while a connection waits in front of a full window, a PingResp for instance, are not
  sent until the client acknowledges a publish or releases one: `Withheld.AcksGoOutIff`,
  `FullWindowOpensIff`, `AcksAreWithheld`. A run on which a ping stays unanswered:
  `Witnesses.PingGoesUnanswered`.
* `register_pubcomp` pops before it compares, too: a PubComp that names another packet takes the oldest
  release out of the session for good. `Releases.PubCompLosesIff`, `NoReleaseLostIff`.
* A retained publish that is in flight when a persistent client disconnects is not sent again: it has no
  cursor to go back to, and its subscription has read the retained store.
  `RetainedOnce.ResumedReadsRetainedIff`, `RetainedIsLost`.
* The router blocks with connections queued if, after the hundred turns of a round, the front of the queue
  is an id without a tracker: exactly if that id was at position 100. `Turns.BlocksBehindIff`. A run on
  which a connected client waits for its ConnAck: `Turns.NewcomerStarves`.
* Two things end the router thread with a panic, if the configured segment limits are ones that
  `CommitLog::new` accepts: `Panics.PanicsIff`, `SurvivesIff`. (Outside the model a Shadow request for a
  connection that is gone does, too.)
  * A Ready event for a connection that is gone: `Panics.DroppedLinkPanics`.
  * Comparing a topic or a filter with a filter if its first character takes more than one byte, because
    `matches` slices the first byte: a publish that has to be looked up, also a released one or a will; a
    first subscription to a filter while segment limits are overridden; the first sweep of a subscription
    while such a topic is retained. `PlainRuns.UnsliceablePublishPanics`; a run: `AccentedTopicPanics`. It
    does not happen if clients use only names that start with an ASCII character: `PlainRunsSurvive`.

  `RouterModel.Step` goes on after either, so a theorem about runs speaks of the real router on every run
  it survives. `Routers.Router.Handle` ends in a panic where the code does.

Where code and comments disagree the code is followed: `CommitLog::new` panics for zero segments though
its comment gives that case a meaning, and the active segment counts towards `max_mem_segments` though
the field's comment says otherwise; `DataLog::matches` never returns `None`, so the branch for dynamic
filters is dead.

## Model

| member | source | states |
|---|---|---|
| CommitLogs.Segment.Readv | devices_manager/src/protocol/mqtt/server/log.rs:803-840 | the chunk it appends to the output is the requested slice of the segment, tagged with positions, and whether the segment was exhausted |
| CommitLogs.CommitLog.constructor | devices_manager/src/protocol/mqtt/server/log.rs:543-561 | a new log satisfies every retention rule and is empty |
| CommitLogs.CommitLog.NextOffset | devices_manager/src/protocol/mqtt/server/log.rs:565-568 | the position one past the last entry ever appended |
| CommitLogs.CommitLog.Entries | devices_manager/src/protocol/mqtt/server/log.rs:600-602 | counts every entry ever appended, evicted ones included |
| CommitLogs.CommitLog.Last | devices_manager/src/protocol/mqtt/server/log.rs:644-646 | the last entry of the history, if there is one |
| CommitLogs.CommitLog.Append | devices_manager/src/protocol/mqtt/server/log.rs:616-622 | the deque becomes the one of the log with the message appended; the returned position is the new end |
| CommitLogs.CommitLog.ApplyRetention | devices_manager/src/protocol/mqtt/server/log.rs:624-641 | seals a full active segment, evicting the oldest only at the limit, and changes nothing otherwise |
| CommitLogs.CommitLog.Readv | devices_manager/src/protocol/mqtt/server/log.rs:651-746 | the loop over segments computes the closed form of a read of the full history, for any cursor, without underflow or bad index |
| CommitLogs.CommitLog.ReadSealed | devices_manager/src/protocol/mqtt/server/log.rs:686-720 | what the loop has read when it stops early and when it reaches the active segment |
| CommitLogs.CommitLog.ReadSegment | devices_manager/src/protocol/mqtt/server/log.rs:686-720 | one sealed segment adds exactly its slice; a short one moves the cursor to the start of the next |
| CommitLogs.CommitLog.ReadActive | devices_manager/src/protocol/mqtt/server/log.rs:722-745 | the active segment ends a read with Next or with Done at the end of the log |
| LogModel.AppendRetains | devices_manager/src/protocol/mqtt/server/log.rs:511-641 | segment count, contiguity, sealed and overflow sizes survive every append, which adds one entry at the end |
| LogModel.AppendKeepsCursors | devices_manager/src/protocol/mqtt/server/log.rs:616-641 | cursors and positions handed out earlier stay valid through appends and evictions |
| LogModel.WhereIsMonotone | devices_manager/src/protocol/mqtt/server/log.rs:651-746 | offset order and cursor order agree |
| LogModel.ReadFromCursor | devices_manager/src/protocol/mqtt/server/log.rs:651-746 | from any cursor of the log a read returns the surviving entries from max(cursor, head) in order under their true positions; Done iff the end was reached, Next iff exactly len entries were read |
| LogModel.ReadFromAnywhere | devices_manager/src/protocol/mqtt/server/log.rs:651-746 | from any cursor whatsoever a read returns a contiguous run of surviving entries |
| Streaming.StreamingReads | devices_manager/src/protocol/mqtt/server/log.rs:616-746 | for every interleaving of appends and reads a streaming reader sees increasing offsets, each surviving entry once, and misses exactly what was evicted before it came |
| Streaming.DrainReturnsTheRest | devices_manager/src/protocol/mqtt/server/log.rs:651-746 | without appends, reads of any positive lengths end in Done at the end of the log after at most one more than there are entries left, and return all of them in order |
| TopicMatch.MatchesLoop | devices_manager/src/protocol/mqtt/version/mod.rs:655-688 | the loop over both level iterators computes the matching relation; it panics, on the slice of the first byte, iff the first character takes more than one |
| TopicMatch.LevelsMatchMeaning | devices_manager/src/protocol/mqtt/version/mod.rs:663-687 | levels match iff the first n of them do one by one, a + for any and a # for none, and then a # follows or both sides end |
| TopicMatch.MatchesMeaning | devices_manager/src/protocol/mqtt/version/mod.rs:655-688 | a filter matches a topic iff the topic does not start with $ and their levels agree in this sense |
| TopicMatch.SplitJoins | devices_manager/src/protocol/mqtt/version/mod.rs:660-661 | the levels of a string have no slash in them and, joined by slashes, are the string |
| TopicMatch.SplitOnly | devices_manager/src/protocol/mqtt/version/mod.rs:660-661 | no other levels without slashes make up the string |
| DataLogModel.LimitsOk | devices_manager/src/protocol/mqtt/server/log.rs:383-403 | the limits chosen for a log are ones a log can be created with |
| DataLogModel.NewLogLimits | devices_manager/src/protocol/mqtt/server/log.rs:383-399 | a new log has the limits of the last override that matches its filter, or the defaults if none does |
| DataLogModel.LookupIsFullScan | devices_manager/src/protocol/mqtt/server/log.rs:188-206 | the topic cache, before and after a lookup, is duplicate-free and equal to a scan of all registered filters |
| DataLogModel.RegisterKeeps | devices_manager/src/protocol/mqtt/server/log.rs:208-234 | registering a filter keeps registry, cache, retention and fan-out, and gives the filter its own log |
| DataLogModel.AcceptEach | devices_manager/src/protocol/mqtt/server/router.rs:1304-1340 | the log of every matching filter gets the publish once and loses its waiters; no other log changes |
| DataLogModel.AcceptKeeps | devices_manager/src/protocol/mqtt/server/router.rs:1304-1340 | accepting a publish keeps registry, cache, retention and fan-out |
| RetainedStore.AcceptStores | devices_manager/src/protocol/mqtt/server/router.rs:1306-1310 | a publish without a payload clears its topic in the store, one to be retained replaces what its topic had, and no other publish changes it |
| RetainedStore.AcceptKeepsLast | devices_manager/src/protocol/mqtt/server/log.rs:319-331 | after any sequence of publishes the store has, for each topic, the last one to be retained, unless one without a payload came after |
| RetainedStore.RetainedForIs | devices_manager/src/protocol/mqtt/server/log.rs:364-368 | what is read for a filter is what matches it, with multiplicity and in the order of the store, and nothing else |
| RetainedStore.SweepSendsRetained | devices_manager/src/protocol/mqtt/server/router.rs:1520-1552 | the first sweep of a subscription puts the matching retained publishes, as many as may be sent, in front of the log entries, each as it is stored and without a position; later sweeps put none |
| DataLogs.PositionOf | devices_manager/src/protocol/mqtt/server/log.rs:90-99 | the first waiter of a connection |
| DataLogs.RemoveRequests | devices_manager/src/protocol/mqtt/server/log.rs:90-99 | the swap-remove loop takes out all requests of a connection |
| DataLogs.DataLog.constructor | devices_manager/src/protocol/mqtt/server/log.rs:128-152 | an empty data log satisfies every invariant |
| DataLogs.DataLog.Matches | devices_manager/src/protocol/mqtt/server/log.rs:188-206 | returns exactly the matching filters, each once, and remembers non-empty answers; panics iff the topic cannot be sliced, is not cached, and there is a filter to compare it with |
| DataLogs.DataLog.NextNativeOffset | devices_manager/src/protocol/mqtt/server/log.rs:208-234 | the log of the filter and its end; a new log joins every cached topic it matches; panics iff the filter is new and it, with overrides to compare it with, or a cached topic cannot be sliced |
| DataLogs.DataLog.NewLog | devices_manager/src/protocol/mqtt/server/log.rs:379-411 | an empty log with the limits of the last override that matches its filter; panics iff there are overrides and the filter cannot be sliced |
| DataLogs.DataLog.ExtendCache | devices_manager/src/protocol/mqtt/server/log.rs:223-228 | the loop over cached topics adds the new log where the filter matches and nowhere else; panics iff one of the topics cannot be sliced |
| DataLogs.DataLog.NativeReadv | devices_manager/src/protocol/mqtt/server/log.rs:236-254 | a read of the filter's log |
| DataLogs.DataLog.Park | devices_manager/src/protocol/mqtt/server/log.rs:299-307 | the request joins the waiters of its log, nothing else changes |
| DataLogs.DataLog.Clean | devices_manager/src/protocol/mqtt/server/log.rs:310-317 | the loop over all logs takes everything a connection has parked |
| DataLogs.DataLog.RemoveWaitersForId | devices_manager/src/protocol/mqtt/server/log.rs:165-184 | forgets one parked request of a connection on a filter |
| DataLogs.DataLog.RemoveFromRetainedPublishes | devices_manager/src/protocol/mqtt/server/log.rs:329-331 | forgets what was retained for a topic |
| DataLogs.DataLog.InsertToRetainedPublishes | devices_manager/src/protocol/mqtt/server/log.rs:319-327 | replaces what was retained for a topic |
| DataLogs.DataLog.ReadRetainedMessages | devices_manager/src/protocol/mqtt/server/log.rs:333-368 | the retained publishes whose topic matches; panics iff a retained topic cannot be sliced |
| DataLogs.DataLog.Append | devices_manager/src/protocol/mqtt/server/log.rs:413-428 | appends to one log and takes everything parked on it |
| DataLogs.DataLog.Accept | devices_manager/src/protocol/mqtt/server/router.rs:1304-1340 | retained store, lookup and one append per matching filter; keeps all data log invariants; panics iff the lookup does |
| Parking.RemoveAllIs | devices_manager/src/protocol/mqtt/server/log.rs:90-99 | removal by swaps takes only, and leaves nothing of, one connection |
| Parking.CleanIs | devices_manager/src/protocol/mqtt/server/log.rs:310-317 | cleaning changes waiters only, and returns only what the connection had parked |
| Parking.AppendAllWakes | devices_manager/src/protocol/mqtt/server/log.rs:413-428 | what a publish wakes was parked on a log it went to |
| OutgoingModel.WindowPkidsDistinct | devices_manager/src/protocol/mqtt/server/iobufs.rs:95-159 | inflight packet ids are distinct, between 1 and 100, and consecutive modulo 100 |
| OutgoingModel.PushForwardsKeepsWindow | devices_manager/src/protocol/mqtt/server/iobufs.rs:106-159 | pushing no more than the free slots keeps the window bounded and consecutively numbered |
| OutgoingModel.AckKeepsWindow | devices_manager/src/protocol/mqtt/server/iobufs.rs:161-171 | an acknowledgement keeps the window |
| OutgoingModel.PushForwardsSends | devices_manager/src/protocol/mqtt/server/iobufs.rs:106-159 | every QoS 1/2 publish enters window and buffer together, in order, under one packet id |
| OutgoingModel.PushForwardsQoS0 | devices_manager/src/protocol/mqtt/server/iobufs.rs:114-125 | QoS 0 publishes enter the buffer in order and leave the window alone |
| OutgoingModel.RetransmissionsAreLeast | devices_manager/src/protocol/mqtt/server/iobufs.rs:195-207 | in an ordered window the first cursor found for a filter is the least in flight |
| Outgoings.Outgoing.constructor | devices_manager/src/protocol/mqtt/server/iobufs.rs:67-88 | starts with an empty window |
| Outgoings.Outgoing.FreeSlots | devices_manager/src/protocol/mqtt/server/iobufs.rs:95-97 | free slots and window entries add up to 100 |
| Outgoings.Outgoing.PushNotification | devices_manager/src/protocol/mqtt/server/iobufs.rs:99-103 | one more notification at the back |
| Outgoings.Outgoing.PushForwards | devices_manager/src/protocol/mqtt/server/iobufs.rs:106-159 | both loops push every publish in order; the window invariant survives when they fit |
| Outgoings.Outgoing.RegisterAck | devices_manager/src/protocol/mqtt/server/iobufs.rs:161-171 | pops the head whatever is acknowledged, and says whether it was the one |
| Outgoings.Outgoing.RegisterPubRec | devices_manager/src/protocol/mqtt/server/iobufs.rs:173-177 | one more release to be answered |
| Outgoings.Outgoing.RegisterPubComp | devices_manager/src/protocol/mqtt/server/iobufs.rs:183-193 | pops the oldest release, and says whether it was the one |
| Outgoings.Outgoing.RetransmissionMap | devices_manager/src/protocol/mqtt/server/iobufs.rs:197-207 | the loop finds, for every filter in an ordered window, the least cursor |
| Schedulers.TryReady | devices_manager/src/protocol/mqtt/server/scheduler.rs:142-176 | which reason wakes which paused state; nothing but Init and Ready wakes a busy one |
| Schedulers.Scheduler.Add | devices_manager/src/protocol/mqtt/server/scheduler.rs:24-26 | hands out a key that was vacant |
| Schedulers.Scheduler.Remove | devices_manager/src/protocol/mqtt/server/scheduler.rs:28-30 | the tracker goes, the queue stays |
| Schedulers.Scheduler.Poll | devices_manager/src/protocol/mqtt/server/scheduler.rs:33-44 | hands out the requests of the front connection and moves it to the back, or drops an id without a tracker |
| Schedulers.Scheduler.Track | devices_manager/src/protocol/mqtt/server/scheduler.rs:46-49 | one more request at the back |
| Schedulers.Scheduler.Untrack | devices_manager/src/protocol/mqtt/server/scheduler.rs:51-54 | the retain loop drops exactly the requests of the filter |
| Schedulers.Scheduler.Trackv | devices_manager/src/protocol/mqtt/server/scheduler.rs:56-59 | requests go back to the tracker in order |
| Schedulers.Scheduler.Reschedule | devices_manager/src/protocol/mqtt/server/scheduler.rs:61-67 | queues a connection exactly when the reason wakes it; keeps the queue invariants |
| Schedulers.Scheduler.Pause | devices_manager/src/protocol/mqtt/server/scheduler.rs:69-80 | its assertion holds, one entry leaves the queue; keeps the queue invariants |
| Queue.PauseQueue | devices_manager/src/protocol/mqtt/server/scheduler.rs:69-80 | pausing the id at the back keeps both queue invariants |
| Queue.RotateQueue | devices_manager/src/protocol/mqtt/server/scheduler.rs:33-44 | a polled connection is at the back of the queue |
| Queue.ConnectQueue | devices_manager/src/protocol/mqtt/server/router.rs:343-476 | after a connect ids are queued exactly once iff the new id was not still queued |
| Witnesses.ReusedIdIsQueuedTwice | devices_manager/src/protocol/mqtt/server/router.rs:537-540 | a run, connect, disconnect, connect, after which one id is queued twice |
| Queue.StepQueue | devices_manager/src/protocol/mqtt/server/router.rs:310-341 | the same equivalence for every event |
| Queue.RunKeepsQueue | devices_manager/src/protocol/mqtt/server/scheduler.rs:33-80 | in every run each Ready connection is queued; exactly once, and only Ready ones, in every run without reuse of a queued id |
| Graveyards.Graveyard.Retrieve | devices_manager/src/protocol/mqtt/server/graveyard.rs:21-23 | takes the entry of a client out |
| Graveyards.Graveyard.SaveState | devices_manager/src/protocol/mqtt/server/graveyard.rs:26-49 | saves the session paused as busy |
| Graveyards.Graveyard.SaveMetrics | devices_manager/src/protocol/mqtt/server/graveyard.rs:52-60 | leaves an entry without a session |
| Graveyards.AckLog.PubRec | devices_manager/src/protocol/mqtt/server/log.rs:464-468 | records the publish with its PubRec; released then recorded equals received |
| Graveyards.AckLog.PubComp | devices_manager/src/protocol/mqtt/server/log.rs:475-479 | releases the oldest record, the next one in the order of receipt |
| Graveyards.AckLog.Readv | devices_manager/src/protocol/mqtt/server/log.rs:491-493 | hands out all committed acks and empties the log |
| Identity.AdmitKeysAgree | devices_manager/src/protocol/mqtt/server/router.rs:424-435 | the four assertions on connect hold, and the key is vacant |
| Identity.StepKeeps | devices_manager/src/protocol/mqtt/server/router.rs:310-341 | every event keeps slab lockstep, the client-to-connection bijection and the subscription map inclusion |
| Identity.RunKeepsIdentity | devices_manager/src/protocol/mqtt/server/router.rs:310-605 | those hold in every run |
| Window.ForwardFits | devices_manager/src/protocol/mqtt/server/router.rs:1516-1567 | retained publishes and log reads together never exceed the free slots |
| Window.RunKeepsWindows | devices_manager/src/protocol/mqtt/server/router.rs:1516-1567 | in every run every window is bounded and consecutively numbered |
| RequestRuns.RunKeepsRequests | devices_manager/src/protocol/mqtt/server/router.rs:310-1225 | in every run every request names an existing log and one of its cursors, parked requests are at the end of their log, and no woken request is held back between events |
| RequestRuns.LogsInEveryRun | devices_manager/src/protocol/mqtt/server/router.rs:1263-1344 | in every run each log is retained by the rules, its full history is the accepted publishes that match its filter since it was created, in order, and the cache is exact |
| Forwarding.PullReads | devices_manager/src/protocol/mqtt/server/router.rs:1516-1577 | a sweep reads the surviving entries from its cursor on, as many as there are slots left after retained publishes |
| Forwarding.ForwardMoves | devices_manager/src/protocol/mqtt/server/router.rs:1493-1702 | where a sweep leaves its request; caught up means at the end of the log for every reader that is given slots |
| Forwarding.ForwardFills | devices_manager/src/protocol/mqtt/server/router.rs:1606-1669 | the window afterwards: retained publishes without a cursor, then one entry per offset read, in order |
| Forwarding.ForwardDelivers | devices_manager/src/protocol/mqtt/server/router.rs:1610-1669 | each entry read goes to the link once, with its own topic and payload, in order |
| Forwarding.ForwardPairs | devices_manager/src/protocol/mqtt/server/iobufs.rs:128-143 | what a sweep adds to the window goes out under the packet id and position it has there |
| Forwarding.ForwardEnds | devices_manager/src/protocol/mqtt/server/router.rs:1513-1702 | the status of a sweep, the token it takes and the Unschedule it adds, from what it sent and whether it reached the end of the log |
| Forwarding.ZeroLimitStopsReaders | devices_manager/src/protocol/mqtt/server/router.rs:1525-1527 | with a packet limit of zero a QoS 0 reader is taken for caught up without moving |
| Conservation.AcceptCount | devices_manager/src/protocol/mqtt/server/log.rs:413-428 | a publish moves requests from parked to woken, losing and copying none |
| Conservation.CleanOwned | devices_manager/src/protocol/mqtt/server/log.rs:310-317 | cleaning takes exactly what one connection has parked |
| Conservation.LeaveConserved | devices_manager/src/protocol/mqtt/server/router.rs:786-836 | leaving a filter keeps the client's count exact iff its request has not been woken by the same batch; nobody else's changes |
| ConservationRuns.BatchExact | devices_manager/src/protocol/mqtt/server/router.rs:630-976 | after a batch each subscription owns exactly one request and nothing else owns any, iff no packet left a filter whose request the batch had woken; other clients' requests stay exact whatever the batch |
| ConservationRuns.PublishThenUnsubscribeStrays | devices_manager/src/protocol/mqtt/server/router.rs:786-836 | a concrete batch, publish then unsubscribe, that leaves such a request behind |
| ConservationRuns.OrderlyHasNoStray | devices_manager/src/protocol/mqtt/server/router.rs:630-976 | a batch without an Unsubscribe after a publish or release is never one of those |
| ConservationRuns.ConsumeOneCount | devices_manager/src/protocol/mqtt/server/router.rs:1098-1168 | a sweep moves a request, never loses or copies one |
| ConservationRuns.SavedOwned | devices_manager/src/protocol/mqtt/server/router.rs:573-603 | a saved session holds every request the connection owned, once |
| ConservationRuns.RunConserves | devices_manager/src/protocol/mqtt/server/router.rs:988-1168 | in every run each subscription, live or saved, owns at least one request; exactly one, and nothing else any, for every client that sent no such batch since its session began |
| ConservationRuns.OrderlyRunHasNoStrays | devices_manager/src/protocol/mqtt/server/router.rs:630-976 | a client whose batches never unsubscribe after publishing sends none |
| Wakeups.AwakeMeans | devices_manager/src/protocol/mqtt/server/scheduler.rs:142-176 | from the invariants: a connection with work is queued, busy, or has a full window |
| Wakeups.RunKeepsAwake | devices_manager/src/protocol/mqtt/server/router.rs:959-1169 | in every run a caught-up connection has no tracked request and no committed ack, and one waiting for acks has no free slot |
| Wakeups.NoLostWakeup | devices_manager/src/protocol/mqtt/server/router.rs:959-1169 | in every run a connection with something to send is queued, waits for its link, or has 100 in flight (what it then waits for: Withheld.FullWindowOpensIff); what is parked has nothing left to read |
| Turns.BlocksIff | devices_manager/src/protocol/mqtt/server/router.rs:274-280 | a turn finds nothing to serve iff the queue is empty or the id at its front has no tracker any more |
| Turns.ServeIs | devices_manager/src/protocol/mqtt/server/router.rs:302-305 | n turns take the first n ids off the queue; behind the rest of it there are only connections that exist |
| Turns.TurnEnds | devices_manager/src/protocol/mqtt/server/router.rs:1105-1168 | a turn sends the acks and then sweeps requests, a hundred at most; it stops before only at a full window or buffer, or, paused as caught up, with nothing left to sweep |
| Turns.SweepsInOrder | devices_manager/src/protocol/mqtt/server/router.rs:1105-1168 | the requests of a connection take turns: none is swept again in a turn before each has been swept once |
| Turns.BlocksBehindIff | devices_manager/src/protocol/mqtt/server/router.rs:274-305 | after n turns the router blocks with ids still queued iff the id that was at position n has no tracker |
| Turns.ShortQueueNeverStarves | devices_manager/src/protocol/mqtt/server/router.rs:274-305 | with at most a hundred ids queued, a round blocks only with an empty queue |
| Turns.NewcomerStarves | devices_manager/src/protocol/mqtt/server/scheduler.rs:32-43 | a run in which 102 clients connect and one leaves: the router blocks while the last one is queued and its ConnAck unsent |
| Neighbours.StepNudged | devices_manager/src/protocol/mqtt/server/router.rs:310-341 | an event that is not about a connection leaves its buffers, window and acks alone and can only give it woken requests and wake it if caught up |
| Withheld.HandlePacketsMoves | devices_manager/src/protocol/mqtt/server/scheduler.rs:142-176 | what a batch does to the status of its own connection: only acknowledgements open a full window, nothing makes a busy one ready |
| Withheld.AcksGoOutIff | devices_manager/src/protocol/mqtt/server/router.rs:956-961 | in every run, after a batch with acks to send, a connection that is not busy is queued iff its window was not full or the batch acknowledged or released something |
| Withheld.FullWindowOpensIff | devices_manager/src/protocol/mqtt/server/scheduler.rs:142-176 | whatever the event, a connection in front of a full window becomes Ready iff its client acknowledges or its link calls back |
| Withheld.AcksAreWithheld | devices_manager/src/protocol/mqtt/server/router.rs:956-961 | however long that does not happen, committed acks stay unsent and the connection unqueued |
| Witnesses.PingGoesUnanswered | devices_manager/src/protocol/mqtt/server/router.rs:937-944 | a run after which the answer to a ping is committed and its connection asleep |
| Flights.AckCovers | devices_manager/src/protocol/mqtt/server/iobufs.rs:161-171 | an acknowledgement settles the head's offset and keeps go-back-N coverage |
| Flights.SweepCovers | devices_manager/src/protocol/mqtt/server/router.rs:1493-1702 | a sweep keeps go-back-N coverage, counting what was evicted as missed |
| Flights.RetransmitsFirst | devices_manager/src/protocol/mqtt/server/iobufs.rs:197-207 | the retransmission map is the least offset in flight of every log that has one |
| Flights.RewindsToFirst | devices_manager/src/protocol/mqtt/server/router.rs:578-582 | a rewound request stands at exactly its first unacknowledged offset |
| Flights.RewindCovers | devices_manager/src/protocol/mqtt/server/router.rs:574-599 | after the rewind everything before the position is settled |
| RetainedOnce.SweepSendsRetainedOnce | devices_manager/src/protocol/mqtt/server/router.rs:1540-1552 | a sweep that reads anything clears the flag for retained publishes; only one that finds it set puts publishes without a cursor into the window |
| RetainedOnce.ResumedReadsRetainedIff | devices_manager/src/protocol/mqtt/server/router.rs:573-606 | after a disconnect and a reconnect of a persistent session the window is empty, and the retained store is read again for a log iff it had not been read before |
| RetainedOnce.RetainedIsLost | devices_manager/src/protocol/mqtt/server/iobufs.rs:197-207 | so a request that had read it puts only entries with a cursor into the new window |
| Missed.SkipAdds | devices_manager/src/protocol/mqtt/server/log.rs:668-684 | a sweep misses exactly the offsets between its cursor and the oldest entry held |
| Missed.RunIsPast | devices_manager/src/protocol/mqtt/server/router.rs:310-1702 | in every run whatever a subscription missed is no longer held by its log |
| DeliveryRuns.ConsumeOneDelivers | devices_manager/src/protocol/mqtt/server/router.rs:1098-1168 | a sweep keeps the guarantee of every subscription |
| DeliveryRuns.RunDelivers | devices_manager/src/protocol/mqtt/server/router.rs:310-1702 | every run keeps all invariants, and the delivery guarantee of every client that left no stray request |
| AtLeastOnce.SubscriptionHolds | devices_manager/src/protocol/mqtt/server/router.rs:1036-1059 | every subscription has a request |
| AtLeastOnce.DeliveredInEveryRun | devices_manager/src/protocol/mqtt/server/router.rs:574-1702 | in every run each subscription has a request and, unless its own client left a stray one since its session began, goes back N: before the first unacknowledged offset all is settled, from there to the request all is in flight or evicted, nothing in flight lies outside, nothing is counted twice |
| AtLeastOnce.WindowsOrderedInEveryRun | devices_manager/src/protocol/mqtt/server/iobufs.rs:195-207 | the assumption behind retransmission, cursors of one filter in increasing order, holds in every run for every client that left no stray request since its session began |
| AtLeastOnce.DisconnectRewinds | devices_manager/src/protocol/mqtt/server/router.rs:574-599 | a persistent session keeps every request, at exactly its first unacknowledged entry |
| Losses.ConsumeOneMisses | devices_manager/src/protocol/mqtt/server/router.rs:1493-1702 | a sweep leaves a subscription with nothing missed iff it had nothing missed and the sweep did not find its cursor evicted |
| Losses.LossesExactly | devices_manager/src/protocol/mqtt/server/router.rs:310-1702 | in every run a subscription has missed nothing since it began iff no sweep of it found its cursor evicted, and lost nothing to an acknowledgement iff none for another packet found one of its entries at the head |
| Witnesses.EvictionOvertakes | devices_manager/src/protocol/mqtt/server/log.rs:624-641 | a run, subscribe and publish twice what fills a segment, in which the first publish is evicted before it is read |
| Losses.AckLosesExactly | devices_manager/src/protocol/mqtt/server/router.rs:838-848 | after an acknowledgement and the disconnect, the saved session is past the unacknowledged head entry without its acknowledgement iff the packet id was not the head's |
| Losses.LostForGood | devices_manager/src/protocol/mqtt/server/iobufs.rs:161-207 | a dropped entry is never in flight again, never acknowledged, and never gone back to, in any continuation in which the subscription lasts |
| Losses.ContiguousExactly | devices_manager/src/protocol/mqtt/server/router.rs:1493-1702 | the acknowledged prefix and the contiguous range in flight meet iff nothing between start and request was missed or dropped |
| Witnesses.OutOfOrderAckLoses | devices_manager/src/protocol/mqtt/server/iobufs.rs:161-171 | a run, from connect to acknowledgement, that loses a publish of a persistent session |
| Losses.NothingIsSkipped | devices_manager/src/protocol/mqtt/server/router.rs:574-1702 | at-least-once in every run, whatever is evicted: a subscription no sweep of which was overtaken and none of whose entries was dropped has an acknowledged prefix and an exact contiguous range in flight |
| Sessions.SavesEverything | devices_manager/src/protocol/mqtt/server/router.rs:573-577 | a disconnect saves requests with the multiplicity they were tracked and parked with |
| Sessions.AdmitResumes | devices_manager/src/protocol/mqtt/server/router.rs:379-470 | session_present iff a session was saved and the connect is not clean; exactly then is it restored whole, with its releases after the ConnAck |
| Sessions.SessionRoundTrip | devices_manager/src/protocol/mqtt/server/router.rs:379-605 | a disconnect and the next connect restore subscriptions, rewound requests and unacknowledged releases |
| Sessions.SavedIff | devices_manager/src/protocol/mqtt/server/router.rs:573-606 | a session is saved iff its connection did not ask for a clean one |
| Sessions.TakeoverIsReconnect | devices_manager/src/protocol/mqtt/server/router.rs:358-372 | a second connect of a live client is a disconnect followed by a connect |
| Sessions.ReleasesAreResent | devices_manager/src/protocol/mqtt/server/router.rs:454-465 | the first turn sends the ConnAck and then every release, in order |
| Sessions.SessionSurvives | devices_manager/src/protocol/mqtt/server/graveyard.rs:21-49 | a saved session stays what it was through any events until its client connects |
| Sessions.UnsubscribeWorksIff | devices_manager/src/protocol/mqtt/server/router.rs:793-808 | an Unsubscribe takes effect iff the subscription map lists the connection |
| Sessions.ResumedIsNotListed | devices_manager/src/protocol/mqtt/server/router.rs:396-405 | a resumed connection is listed for no filter |
| Sessions.ResubscribedIsListed | devices_manager/src/protocol/mqtt/server/router.rs:999-1010 | subscribing again lists it |
| Subscribing.SubscribeStarts | devices_manager/src/protocol/mqtt/server/router.rs:1030-1058 | a new subscription adds one request, under the QoS asked for, that is to read the retained store and then the log from its present end, and queues a caught-up connection; subscribing again changes neither requests nor queue |
| Subscribing.ValidMeans | devices_manager/src/protocol/mqtt/server/router.rs:1819-1827 | a client id is refused iff it contains one of + $ # / |
| Subscribing.AdmissibleInEveryRun | devices_manager/src/protocol/mqtt/server/router.rs:343-376 | in every run no more clients are connected than configured, and only clients with a valid id |
| Subscriptions.PacketSigns | devices_manager/src/protocol/mqtt/server/router.rs:725-832 | what a packet changes in the subscriptions and listings of its connection, and that it changes nobody else's |
| Subscriptions.SubscriptionsInEveryRun | devices_manager/src/protocol/mqtt/server/router.rs:725-832 | in every run a connection is subscribed to, and listed for, what its packets since it was made say, beginning with the subscriptions of the session it resumed |
| LinkProtocol.MoveKeepsInv | devices_manager/src/protocol/mqtt/server/local.rs:391-411 | every step of either thread keeps: what is buffered is announced, and a busy connection has exactly one call back under way |
| LinkProtocol.RunsKeepInv | devices_manager/src/protocol/mqtt/server/link.rs:127-161 | so does every interleaving, also with a full channel |
| LinkProtocol.BusyProgresses | devices_manager/src/protocol/mqtt/server/link.rs:139-159 | a busy connection always has an enabled next step that brings it closer to Ready |
| LinkProtocol.BufferIsReachable | devices_manager/src/protocol/mqtt/server/local.rs:391-398 | the link can always get at what is buffered |
| LinkProtocol.BuildKeepsInvIff | devices_manager/src/protocol/mqtt/server/local.rs:117-127 | the handshake starts right iff the ConnAck was alone in the buffer or another token was sent; otherwise no link step is enabled |
| LinkProtocol.CleanLinkKeepsInv | devices_manager/src/protocol/mqtt/server/local.rs:117-134 | links of clean sessions keep the handshake through every interleaving |
| LinkProtocol.ResumedLinkWaits | devices_manager/src/protocol/mqtt/server/local.rs:117-134 | a resumed session with unanswered releases starts with all of them unannounced |
| LinkProtocol.SweepIsMoves | devices_manager/src/protocol/mqtt/server/router.rs:1658-1701 | a sweep of the router is a sequence of such steps, with the same buffer, tokens and status |
| LinkProtocol.AcksAreMoves | devices_manager/src/protocol/mqtt/server/router.rs:1445-1470 | so is sending acks |
| LinkRuns.TurnReaches | devices_manager/src/protocol/mqtt/server/router.rs:1073-1169 | a whole turn of the router is a sequence of handshake steps |
| LinkRuns.EventReaches | devices_manager/src/protocol/mqtt/server/router.rs:310-341 | so is every other event that leaves the connection in place |
| LinkRuns.ActKeeps | devices_manager/src/protocol/mqtt/server/link.rs:127-161 | every event of the router and every step of the link between two events keeps the invariants of both and of the handshake |
| LinkRuns.HandshakeInEveryRun | devices_manager/src/protocol/mqtt/server/local.rs:391-411 | in every run of the router with a link of a new session moving between its events, what is buffered is announced and a busy connection has exactly one call back under way |
| Links.Link.constructor | devices_manager/src/protocol/mqtt/server/local.rs:96-134 | a link takes over with the handshake intact iff the ConnAck was alone or another token was sent |
| Links.Link.Exchange | devices_manager/src/protocol/mqtt/server/local.rs:391-398 | takes a token and everything buffered |
| Links.Link.Drain | devices_manager/src/protocol/mqtt/server/link.rs:144-152 | the loop turns all but Unschedule into packets, in order, and remembers Unschedule |
| Links.Link.Wake | devices_manager/src/protocol/mqtt/server/local.rs:405-411 | answers with one Ready event |
| Links.PacketsAre | devices_manager/src/protocol/mqtt/server/mod.rs:128-143 | nothing but Unschedule is withheld from the network |
| Aliases.OfferedKey | devices_manager/src/protocol/mqtt/server/connection.rs:125-131 | the slab offers a number over the limit only when all up to it are in use |
| Aliases.NoneIffExhausted | devices_manager/src/protocol/mqtt/server/connection.rs:125-139 | no alias is given out iff all are assigned, whatever was tried or removed before |
| Aliases.RemoveForgets | devices_manager/src/protocol/mqtt/server/connection.rs:112-116 | a topic that goes loses its alias, which is the next one given out, and no other topic loses its own |
| Aliases.RunKeepsAliases | devices_manager/src/protocol/mqtt/server/connection.rs:96-139 | over any sequence of uses and removals aliases are distinct, within the limit, and the used numbers are 0 and the assigned ones |
| Aliases.BrokerAliases.constructor | devices_manager/src/protocol/mqtt/server/connection.rs:97-109 | number 0 is taken, nothing is assigned |
| Aliases.BrokerAliases.RemoveAlias | devices_manager/src/protocol/mqtt/server/connection.rs:112-116 | frees the number of a filter |
| Aliases.BrokerAliases.GetAlias | devices_manager/src/protocol/mqtt/server/connection.rs:119-121 | the alias of a filter, if it has one |
| Aliases.BrokerAliases.SetNewAlias | devices_manager/src/protocol/mqtt/server/connection.rs:125-139 | assigns a number not in use, or none iff all are |
| Inbound.ReleaseIsAccepted | devices_manager/src/protocol/mqtt/server/router.rs:875-921 | a PubRel hands the oldest record to the logs once and takes it off the record |
| Inbound.PacketsMoveRecords | devices_manager/src/protocol/mqtt/server/router.rs:668-921 | over a batch, waiting then recorded equals released then waiting |
| Inbound.ReleasedInOrder | devices_manager/src/protocol/mqtt/server/router.rs:668-921 | in every run and for every connection, released then waiting equals recorded, in order |
| Acceptance.PublishIsTaken | devices_manager/src/protocol/mqtt/server/router.rs:1263-1345 | a QoS 0 or 1 publish is refused, with the reason, iff it carries subscription ids, an alias out of range, or no topic and an unknown alias; else it is accepted under its topic, which its alias then stands for, or under the topic its alias stands for |
| Acceptance.ReleaseIsTaken | devices_manager/src/protocol/mqtt/server/router.rs:875-921 | a release takes the oldest record; it ends the batch iff there is none or the publish is refused |
| Acceptance.AcceptedInEveryRun | devices_manager/src/protocol/mqtt/server/router.rs:1263-1409 | in every run the logs were handed exactly the publishes that packets, releases and wills put up, each once and in order, and the store has the last one to be retained for each topic |
| Wills.PacketsWills | devices_manager/src/protocol/mqtt/server/router.rs:944-952 | a batch takes a will away iff it gets to a Disconnect packet, and only that of its own client |
| Wills.PublishWillOnce | devices_manager/src/protocol/mqtt/server/router.rs:1171-1215 | a will is accepted once, as it was given, and is gone then; without one nothing changes |
| Wills.WillInEveryRun | devices_manager/src/protocol/mqtt/server/router.rs:426-431 | in every run a client has a will iff one of its admitted connects brought it and since then no Disconnect packet of the client was handled, it was not published, and no other came |
| Dialogue.PacketTold | devices_manager/src/protocol/mqtt/server/router.rs:632-955 | each packet commits its acks, spelled out by packet, binds the topic alias it carries, and does neither for any other connection |
| Dialogue.SubscribeCodes | devices_manager/src/protocol/mqtt/server/router.rs:725-772 | a SubAck has the QoS asked for with each filter, up to the first that is barred |
| DialogueRuns.TurnSendsAcks | devices_manager/src/protocol/mqtt/server/router.rs:1445-1469 | the turn of a connection puts all its acks behind what is in its buffer, in order, and in front of what else it sends |
| DialogueRuns.DialogueInEveryRun | devices_manager/src/protocol/mqtt/server/router.rs:612-955 | in every run and for every connection, packets are taken in the order they arrived, an alias stands for the topic of its last binding, and acks sent followed by acks committed are the greeting and the acks of its packets, in order |
| Dropping.PacketDropsIff | devices_manager/src/protocol/mqtt/server/router.rs:632-955 | which packets mark their connection to be dropped, and which of them end the batch |
| Dropping.SubscribeDropsIff | devices_manager/src/protocol/mqtt/server/router.rs:733-755 | a Subscribe marks its connection iff one of its filters is barred; the reason is a protocol error iff the first is barred only by subscription identifier 0 |
| Dropping.ConnectionDropsIff | devices_manager/src/protocol/mqtt/server/router.rs:980-985 | a connection survives its batch iff the batch gets to no such packet |
| Releases.PubCompLosesIff | devices_manager/src/protocol/mqtt/server/iobufs.rs:183-193 | a PubComp takes the oldest release whatever it names; it names another iff the connection is dropped |
| Releases.ReleasesSettle | devices_manager/src/protocol/mqtt/server/router.rs:856-936 | in every run and for every client's session, live or saved, the releases taken followed by those pending are those owed, in order |
| Releases.NoReleaseLostIff | devices_manager/src/protocol/mqtt/server/iobufs.rs:183-193 | every release owed is completed or pending iff every PubComp that took one named it |
| Panics.PanicsIff | devices_manager/src/protocol/mqtt/server/scheduler.rs:46-80 | of all unwraps, slot removals, assertions and slices on the way of an event, those that can fail in a reachable state are two: waking a connection that is gone, and slicing a name whose first character is longer than a byte |
| Panics.SurvivesIff | devices_manager/src/protocol/mqtt/server/router.rs:310-341 | the router thread survives a run, in the state the state machine says, iff no Ready event of it comes for a connection that is gone and every name it compares with filters can be sliced |
| Panics.DroppedLinkPanics | devices_manager/src/protocol/mqtt/server/scheduler.rs:61-62 | a run, connect, disconnect, Ready, that it does not survive |
| PlainRuns.PlainRunsSurvive | devices_manager/src/protocol/mqtt/version/mod.rs:655-658 | if every topic, will and, with overrides, filter that clients send starts with an ASCII character, only a Ready event for a connection that is gone ends the thread |
| PlainRuns.CachedTopicsAreSliceable | devices_manager/src/protocol/mqtt/server/log.rs:188-228 | in a run that has compared only names that can be sliced, so can every cached topic; a subscription panics over its filter alone |
| PlainRuns.UnsliceablePublishPanics | devices_manager/src/protocol/mqtt/server/router.rs:1293-1316 | in every run with a filter registered, a QoS 0 or 1 publish to a topic that cannot be sliced ends the thread |
| PlainRuns.AccentedTopicPanics | devices_manager/src/protocol/mqtt/version/mod.rs:656-656 | a run, connect, subscribe, publish to a topic that starts with an accented letter, that it does not survive |
| Routers.Router.constructor | devices_manager/src/protocol/mqtt/server/router.rs:184-224 | starts empty |
| Routers.Router.Handle | devices_manager/src/protocol/mqtt/server/router.rs:310-341 | each event does what the state machine says and keeps identity, requests, windows and the empty notification queue, or it panics, and which of the two is said exactly |
| Routers.Router.HandleNewConnection | devices_manager/src/protocol/mqtt/server/router.rs:343-476 | is the connect of the state machine |
| Routers.Router.AdmitConnection | devices_manager/src/protocol/mqtt/server/router.rs:379-473 | restores or starts a session and schedules it |
| Routers.Router.RetrieveSession | devices_manager/src/protocol/mqtt/server/router.rs:379-413 | the saved session unless a clean one is asked for |
| Routers.Router.Enroll | devices_manager/src/protocol/mqtt/server/router.rs:424-435 | inserts into all five slabs, with its assertions proved |
| Routers.Router.HandleDisconnection | devices_manager/src/protocol/mqtt/server/router.rs:486-605 | is the disconnect of the state machine |
| Routers.Router.RemoveConnection | devices_manager/src/protocol/mqtt/server/router.rs:529-558 | removes a connection with all it has tracked and parked |
| Routers.RewindRequests | devices_manager/src/protocol/mqtt/server/router.rs:579-590 | the loop rewinds every request that has something in flight |
| Routers.Router.HandleDevicePayload | devices_manager/src/protocol/mqtt/server/router.rs:610-983 | is a batch of the state machine |
| Routers.Router.HandleBatch | devices_manager/src/protocol/mqtt/server/router.rs:634-952 | the loop handles packets in order until one ends the batch |
| Routers.Router.HandlePacket | devices_manager/src/protocol/mqtt/server/router.rs:635-951 | is one packet of the state machine |
| Routers.Router.FinishBatch | devices_manager/src/protocol/mqtt/server/router.rs:956-982 | flushes acks, wakes consumers, then drops the connection |
| Routers.Router.WakeWaiters | devices_manager/src/protocol/mqtt/server/router.rs:969-976 | the loop tracks every woken request and schedules its connection, which is always live |
| Routers.Router.AcknowledgePublish | devices_manager/src/protocol/mqtt/server/router.rs:656-683 | queues the ack its QoS asks for; records QoS 2 |
| Routers.Router.OnPublish | devices_manager/src/protocol/mqtt/server/router.rs:636-726 | is a Publish of the state machine |
| Routers.Router.AppendToCommitlog | devices_manager/src/protocol/mqtt/server/router.rs:1263-1344 | appends under the resolved topic, or changes nothing and says why |
| Routers.Router.AppendToLogs | devices_manager/src/protocol/mqtt/server/router.rs:1304-1340 | the logs take the publish and what it wakes is queued |
| Routers.Router.SubscribeTo | devices_manager/src/protocol/mqtt/server/router.rs:760-767 | is the subscription of one filter: its log, then its request |
| Routers.Router.PrepareFilter | devices_manager/src/protocol/mqtt/server/router.rs:988-1059 | given the log of the filter, is the subscription of the state machine |
| Routers.Router.SubscribeFilters | devices_manager/src/protocol/mqtt/server/router.rs:732-775 | the loop subscribes filter by filter until a bad one |
| Routers.Router.OnSubscribe | devices_manager/src/protocol/mqtt/server/router.rs:727-785 | is a Subscribe of the state machine |
| Routers.Router.UnsubscribeFrom | devices_manager/src/protocol/mqtt/server/router.rs:789-835 | takes effect only for a listed connection |
| Routers.Router.OnUnsubscribe | devices_manager/src/protocol/mqtt/server/router.rs:786-837 | is an Unsubscribe of the state machine |
| Routers.Router.LeaveFilter | devices_manager/src/protocol/mqtt/server/router.rs:806-833 | drops the subscription with its tracked and parked request |
| Routers.Router.RegisterAck | devices_manager/src/protocol/mqtt/server/router.rs:842-848 | the window head goes and its account is settled |
| Routers.Router.OnPubAck | devices_manager/src/protocol/mqtt/server/router.rs:838-851 | pops the window head, wakes the connection, or ends the batch |
| Routers.Router.OnPubRec | devices_manager/src/protocol/mqtt/server/router.rs:852-874 | the same, and answers with a PubRel |
| Routers.Router.ReleasePublish | devices_manager/src/protocol/mqtt/server/router.rs:864-873 | remembers the publish until its PubComp and answers with the PubRel |
| Routers.Router.StoreReleased | devices_manager/src/protocol/mqtt/server/router.rs:896-920 | a released publish is appended and the connection woken, or the batch ends |
| Routers.Router.OnPubRel | devices_manager/src/protocol/mqtt/server/router.rs:875-921 | releases the oldest record or ends the batch |
| Routers.Router.OnPubComp | devices_manager/src/protocol/mqtt/server/router.rs:922-936 | pops the oldest release or ends the batch |
| Routers.Router.AckDeviceData | devices_manager/src/protocol/mqtt/server/router.rs:1445-1470 | moves all committed acks into the buffer with one token |
| Routers.Router.Collect | devices_manager/src/protocol/mqtt/server/router.rs:1516-1577 | retained publishes, truncated, then the log read in the remaining slots |
| Routers.Router.ForwardDeviceData | devices_manager/src/protocol/mqtt/server/router.rs:1493-1702 | is a sweep of the state machine |
| Routers.Router.ServeOne | devices_manager/src/protocol/mqtt/server/router.rs:1123-1163 | one request: sent, then kept, parked, or a reason to pause |
| Routers.Router.ServeRequests | devices_manager/src/protocol/mqtt/server/router.rs:1096-1168 | the loop over the requests taken from the tracker does what sweeping them inside it would |
| Routers.Router.Consume | devices_manager/src/protocol/mqtt/server/router.rs:1073-1169 | is one turn of the state machine; the assertion in pause never fires |
| Routers.Router.HandleLastWill | devices_manager/src/protocol/mqtt/server/router.rs:1171-1226 | publishes the will and wakes consumers |

## Left out

- Shared subscriptions (`$share/group/filter`): a path is treated as a plain filter; their cursor and group upkeep makes the strong invariants conditional.
- Message expiry: no publish expires, so a read returns everything it finds.
- The order of hash maps: the retained store, the cache and the overrides of segment limits are gone through in the order of insertion or configuration; which of several matching retained publishes come first, or are dropped for want of slots, and which of several matching overrides is the last, is the map's choice in the code.
- Broker aliases and subscription identifiers on outgoing publishes: `Aliases` proves the allocation, forwarded publishes keep their topic.
- The Disconnect notification pushed to a connection that is being dropped: the buffer goes away with it; only the reason is kept, in `Batch.reason`.
- Shadow requests, which push Unschedule without pausing the connection and so can break the exactly-one property of the handshake, and which panic for a connection that is gone (`&mut self.obufs[id]`, router.rs:327); the in-process message processor, which ignores Unschedule.
- Status printing, which takes the saved session of an absent client out of the graveyard to print it (router.rs:1745).
- Meters, alerts, tracing, connection events and timestamps, and last-will timing: bookkeeping with easy or no properties.
- Sockets, TLS, websockets, authentication and packet codecs: packets are an abstract datatype.
- Tenant prefixes and UTF-8 checks of topics: topics are strings of characters, and none is refused.
- Warm-up filters: the data log starts empty.
- Overflow of the 64-bit offsets and counters: they are unbounded numbers.
- The slab crate: its reuse of the most recently vacated key is modelled in `Slabs`, its source is not part of this model.
- Assertions of debug builds only: that Init and Ready find a busy connection, and that no request is tracked twice.
- Object identity below the router: the data log holds abstract logs, to which `CommitLogs.CommitLog` is proved equal, and the slabs hold values of `Outgoing` and `AckLog` whose classes are proved equal to them; aliasing between those objects is not modelled. The router's methods use locks and channels of its links only through the values they protect.
- The number of times `run_inner` alternates between consuming and receiving: runs are arbitrary sequences of events and turns; `Turns` describes the hundred turns of a round.
- AtLeastOnce.DeliveredInEveryRun: says nothing about the windows of a client that has left a stray request behind and has not begun a new session since (`ConservationRuns.StrayClients`), because a second request for a filter breaks the order that retransmission relies on.
- LinkRuns.HandshakeInEveryRun: for sessions that begin anew, in runs in which no queued id is handed out again, and without Ready events left over from an earlier link of the same id. The link moves between two events of the router; its steps inside a turn, between a push and its token or before the pause, are interleaved in `LinkProtocol` only, where a turn is a sequence of steps on one buffer.
- LinkRuns.ActKeeps: covers link steps between events, not inside a turn, as above.
- AtLeastOnce.WindowsOrderedInEveryRun: excludes clients with a stray request in their current session, as above.
- Packet ids across inflight publishes and unanswered releases together: ids are freed on PubRec, so only the window is claimed to have distinct ids.
- DataLogs.DataLog.constructor: creates no logs for warm-up filters.
- DataLogs.DataLog.NativeReadv: returns expired publishes too.
- DataLogs.DataLog.InsertToRetainedPublishes: stores no publish properties and no timestamp.
- DataLogs.DataLog.ReadRetainedMessages: returns expired retained publishes too.
- Graveyards.Graveyard.SaveState: saves no connection events.
- Graveyards.Graveyard.SaveMetrics: leaves an entry for the client, without the metrics in it.
- Forwarding.ForwardDelivers: the topic is always sent; the code clears it when the filter has a broker alias.
- Routers.Router.HandleDisconnection: pushes no Disconnect notification and keeps no shared groups.
- Routers.Router.AppendToCommitlog: refuses no topic for its encoding or its tenant.
- Routers.Router.SubscribeTo: treats a shared path as a plain filter.
- Routers.Router.PrepareFilter: keeps no shared groups and no subscription identifiers.
- Routers.Router.SubscribeFilters: treats shared paths as plain filters.
- Routers.Router.OnSubscribe: treats shared paths as plain filters.
- Routers.Router.UnsubscribeFrom: removes no broker alias and no subscription identifier.
- Routers.Router.OnUnsubscribe: removes no broker alias and no subscription identifier.
- Routers.Router.LeaveFilter: removes no broker alias and no subscription identifier.
- Routers.Router.Collect: collects expired publishes too.
- Routers.Router.ForwardDeviceData: gives out no broker alias and no subscription identifiers, and drops nothing that has expired.
