# Verification of the reliable-delivery protocols

This project models, in Dafny, the parts of the repository that promise delivery, and proves what
they keep over whole runs.

* **The acknowledged TCP data channel** (`network/src/sender.rs`, `network/src/receiver.rs`). The two
  `ChannelHandler`s are classes whose nested loops are proved to be state machines
  (`SenderHandler.dfy`, `ReceiverHandler.dfy`); `SenderWindow.dfy` says how far the sender goes ahead.
  Two handlers with a lossless first-in first-out stream in each direction form a session
  (`Session.dfy`); every step of a session refines one operation of a small specification
  (`Pipeline.dfy`), and `SessionRuns.dfy` reads off what holds in every run. `FlushProgress.dfy` proves
  that a flush ends, that `run` settles what it took without a flush, and that the sender hears of an
  ended receiver. `Channel.dfy` adds the producer, the negotiation of channels and any number of lost and
  reopened connections; `ChannelQueues.dfy` bounds the queues, `ChannelRecovery.dfy` says exactly when
  the two ends can still meet, `ChannelEnds.dfy` what each way a handler can end does to the channel, and
  `ChannelClose.dfy` when closing a channel means that everything was delivered.
* **The UDP window protocol** (`external/BDSPro_UDP_Channel/src/lib.rs`). `UdpChannel.dfy` splits every
  operation at its awaits and interleaves the tasks freely over a network that loses, repeats and
  reorders datagrams; `UdpDelivery.dfy` and `UdpRecovery.dfy` prove what is conserved, what is never
  lost and what can always still be done. `UdpEndpoints.dfy` has the two endpoints as classes and
  shows that an undisturbed call is a run of the interleaved system. `UdpTimeouts.dfy` says when messages
  are sent again, `UdpRequests.dfy` how requests are answered. `UdpNumbers.dfy` and
  `UdpSafety.dfy` give the exact conditions on the numbers and payloads that callers choose.
* **The gap-detecting receiver** (`external/BDSPro_UDP_Channel/src/bin/receiver.rs`): `GapReceiver.dfy`, and
  `GapTimeouts.dfy` for the times of its requests.
* **`MissingSequenceTracker` and `NetworkSink`** (`test-node/src/main.rs`): `SequenceTracker.dfy`,
  `NetworkSink.dfy`.

`Protocol.dfy` holds the shared data, `Sequences.dfy` facts about sequences.

How runs are modelled: what an awaited operation may produce is an event, a run is a sequence of
events in any order, and an event the state does not wait for changes nothing. So a statement about
`After(start, run)` for every `run` is a statement about every reachable state, whatever the network,
the scheduler and the application do. Clocks, the answers of sockets and of `try_send`, and the winner
of every `select!` are chosen by the run.

Assumptions, all visible in the contracts: within one connection TCP is a lossless first-in first-out
stream; a channel is registered once on each side; the buffers given to a channel have distinct
`(sequence_number, chunk_number)` keys, because `wait_for_ack.insert` overwrites.

## What is false of the code, and exactly when

* A feed whose future is dropped by `select!` leaves its buffer in `wait_for_ack` with nothing on the
  stream. That can happen in the `run` loop while the writer holds frames, never inside a flush
  (`SessionRuns.FlushStrandsNothing`). Such a buffer is awaited for ever. A flush in progress can be
  completed exactly when no buffer was lost and, if the receiver has ended, all that is awaited is
  answered and nothing is left to send (`FlushProgress.FlushEndsIffNothingLost`; a run that gets stuck:
  `SessionRuns.LostFlushIsReachable`).
* A session that was closed delivered everything exactly when nothing was pending and nothing lost at
  `Terminate` (`SessionRuns.CloseDeliversAll`; a run that loses a buffer:
  `SessionRuns.CloseWithoutFlushLoses`).
* A channel that was closed delivered everything exactly when moreover its queue holds no buffer and no
  earlier connection took something down with it (`ChannelClose.CloseDeliversEverythingIff`). It can
  close silently short: after a reconnect a flush is reported done at once although a buffer is gone
  (`ChannelClose.ClosesSilentlyShort`).
* A grant can be wasted, and then the two ends never meet again (`ChannelRecovery.JoinsIffNotDead`). If
  the data connection is not made, the sender asks for ever and is always refused (`FailedDialIsFinal`).
  If the connection is looked up before the new task has published where to hand it, the receiver drops
  it and waits for ever; the sender, which was told that all is well, is over as soon as it reads the end
  of the stream, without an error, or asks in vain if the connection fails (`EarlyLookupIsFinal`,
  `AbandonedSenderEnds`; a whole run with the silent end: `EarlyLookupCanEndSilently`). Both happen at
  the first attempt (`WastedGrantsAreReachable`).
* UDP: every message whose `send_message` returned Ok is in flight under its own payload or received,
  in every run, exactly if the callers give one payload per number (or the configuration lets at most
  one message out): `UdpSafety.ConfirmedIsSafeIffOnePayload`. The slots of the window add up in every run
  exactly if no number is used twice (or there is no window): `UdpNumbers.SlotsAddUpIffNoRepeats`.
* `ENHANCED_RECEIVER_DOCUMENTATION.md:63` names 3 retry attempts. A timeout counts as an attempt but
  sends nothing, so a limit of 3 means at most 2 requests; requests reach the limit only if it is 1
  (`GapReceiver.LimitIsReachedIffOne`). The model follows the code.
* `MissingSequenceTracker::add` is documented to panic on a number already seen
  (`test-node/src/main.rs:107`). Over every run of accepted numbers it rejects exactly what is still in its
  set, so it errs exactly on numbers below the compacted mark that were added and are not in the set
  (`SequenceTracker.NumberIsRejectedAsDocumentedIff`). The query is right exactly when no gap was forgotten
  by a compaction, and no stale number, from below the mark, makes up the size of a set that looks full
  (`SequenceTracker.QueryIsRightIff`); a gap is forgotten exactly by a compaction that relies on a wrong
  answer (`GapIsForgottenIffMisled`). Misled runs: `RepeatedNumberMisleads`, `StaleNumbersMislead`.
* `NetworkSink::execute` passes each input on exactly once if and only if no call drained a backlog to
  its end (`NetworkSink.ExactlyOnceIffNeverDrained`; a doubled element: `DrainedBacklogDoubles`).

## Model

| member | source | states |
|---|---|---|
| `SenderHandler.ChannelHandler.constructor` | network/src/sender.rs:160-174 | every session starts with empty collections: nothing is carried over a reconnect |
| `SenderHandler.ChannelHandler.TakeResponse` | network/src/sender.rs:193-220 | an acknowledged key leaves `wait_for_ack`, a refused buffer goes to the back of the pending writes, an unknown key is a protocol error |
| `SenderHandler.ChannelHandler.SendFront` | network/src/sender.rs:222-258 | the three ends of `send_pending`: fed, failed with the buffer back in front, dropped with the buffer awaited but not written |
| `SenderHandler.ChannelHandler.FlushArm` | network/src/sender.rs:270-281 | one arm of a flush's `select!` is one step of the state machine and keeps the cap of 64 |
| `SenderHandler.ChannelHandler.FlushAll` | network/src/sender.rs:260-285 | the flush loop, for every script of events, reaches the state of the state machine, and signals done only at its end |
| `SenderHandler.ChannelHandler.Run` | network/src/sender.rs:287-308 | the nested loops are the state machine `After`, for every script of events; never more than 64 buffers are awaited |
| `SenderHandler.Conservation` | network/src/sender.rs:176-258 | against any peer, however it mixes Ack and NAck and however feeds end: buffers taken are, as a multiset, those pending, awaited and acknowledged; at most 64 are awaited |
| `SenderHandler.LedgerWatches` | network/src/sender.rs:287-308 | the history used to state conservation does not influence the sender |
| `SenderHandler.StreamIsFrames` | network/src/sender.rs:186-256 | what was written followed by what the writer holds is what was fed to it, in order, with `Close` where a terminating sender sent it, however and whenever the writer drains |
| `SenderWindow.SendsAhead` | network/src/sender.rs:293-305 | without reading an answer `run` sends its pending buffers in order as long as the window allows, each awaited under its own key |
| `SenderWindow.WindowFills` | network/src/sender.rs:132-132 | any 64 buffers with different keys are taken and sent before anything is answered; a further one is taken, and not sent |
| `SenderWindow.AnswerEffect` | network/src/sender.rs:193-220 | what Ack and NAck of an awaited and of an unknown key do to a running handler |
| `SenderWindow.RefusedIsSentLast` | network/src/sender.rs:199-208 | a refused buffer is sent again, after all that was pending |
| `SenderWindow.RefusedFeedIsUndone` | network/src/sender.rs:245-255 | a feed the writer refuses leaves its buffer in front and its key not awaited |
| `SenderWindow.FlushDefers` | network/src/sender.rs:260-281 | a flush takes nothing from the control queue, and until its writer is flushed no answer, end of stream or cancellation has any effect |
| `SenderWindow.FlushedSelects` | network/src/sender.rs:262-273 | once it is, everything held has been written, a cancellation is honoured and an answer is read |
| `SenderHandler.WritesComeFromOutbox` | network/src/sender.rs:186-189 | one step writes only frames the writer held, or the `Close` of a terminating sender as the last frame; a stopped sender writes nothing |
| `ReceiverHandler.ChannelHandler.DeliverPending` | network/src/receiver.rs:104-125 | enqueue first, then acknowledge; a full or closed queue and a failed write as in the code |
| `ReceiverHandler.ChannelHandler.Run` | network/src/receiver.rs:96-140 | the receiving loop is the state machine `After`, for every script of events |
| `ReceiverHandler.RepliesOnlyGrow` | network/src/receiver.rs:108-124 | this receiver never sends NAck and takes nothing back from its queue |
| `ReceiverHandler.OneBufferAtATime` | network/src/receiver.rs:103-138 | with a buffer in hand or unacknowledged nothing is read, and before its connection arrives the handler does nothing |
| `Session.StepRefines` | network/src/sender.rs:193-305 | every step of a pair of handlers, in any state reached so far, is one operation of the pipeline specification or leaves it unchanged |
| `Pipeline.StaysSound` | network/src/sender.rs:222-258 | every operation keeps order, conservation, distinct awaited keys and the cap, also through dropped feeds and a receiver that ends with a buffer in hand |
| `Pipeline.QuietMeansDelivered` | network/src/sender.rs:261-261 | nothing pending and nothing awaited means delivered equals taken, nothing is under way and nothing was lost |
| `Pipeline.UnconfirmedFitWindow` | network/src/sender.rs:132-132 | launched or unconfirmed buffers, together, never exceed the awaited ones, hence 64 |
| `SessionRuns.InvariantAfter` | network/src/sender.rs:287-308 | the invariant of a session in every reachable state |
| `SessionRuns.NothingLostMeansExactLine` | network/src/receiver.rs:102-139 | without a loss: taken == delivered ++ in the receiver's hand ++ on the stream ++ in the writer ++ pending, in that order |
| `SessionRuns.DeliveredInOrder` | network/src/receiver.rs:108-115 | with losses too, delivered is an ordered selection of taken |
| `SessionRuns.AcknowledgedMeansDelivered` | network/src/sender.rs:200-214 | acknowledgements under way and buffers under way have pairwise distinct keys, each awaited under its own key; an acknowledged buffer is in the receiver's queue; "Unknown Seq" is unreachable |
| `SessionRuns.WindowHolds` | network/src/sender.rs:270-293 | at most 64 buffers are between the two queues without being confirmed |
| `SessionRuns.FlushMeansDelivered` | network/src/sender.rs:182-185 | when a flush's `done` fires, what was taken by then is exactly what the receiver has enqueued, and stays its beginning whatever follows |
| `SessionRuns.CloseDeliversAll` | network/src/receiver.rs:131-135 | a receiver that read `Close` got everything if and only if the sender had nothing pending and nothing was lost |
| `SessionRuns.CloseWithoutFlushLoses` | network/src/sender.rs:186-189 | a run in which `Close` is read and the only buffer was never sent |
| `SessionRuns.GracefulClose` | network/src/sender.rs:186-189 | terminating with nothing pending and nothing awaited delivers exactly what was taken |
| `SessionRuns.FlushThenTerminate` | bridge-of-bridges/network/lib.rs:252-268 | flush, wait for done, terminate: a receiver that reads `Close` has received exactly the session's data, in order |
| `SessionRuns.FlushStrandsNothing` | network/src/sender.rs:260-285 | in every run, no step of the sender inside a flush loses a buffer, because its writer is empty whenever it feeds |
| `SessionRuns.LostBlocksFlush` | network/src/sender.rs:300-305 | after a dropped feed no later flush of the session is ever reported done |
| `SessionRuns.DroppedFeedLoses` | network/src/sender.rs:300-305 | such a run, for every two buffers with different keys: the first is fed, the feed of the second is dropped while the writer still holds the first |
| `SessionRuns.LostFlushIsReachable` | network/src/sender.rs:260-285 | a run that reaches a flush at work, its receiver reading, with one buffer lost |
| `FlushProgress.MoveIsProgress` | network/src/sender.rs:260-285 | while a flush is under way and nothing fails, every step of sender, receiver and application lowers a weighted sum |
| `FlushProgress.SomeMove` | network/src/receiver.rs:103-138 | while a flush is under way some step is enabled: no deadlock |
| `FlushProgress.FlushCompletes` | network/src/sender.rs:182-185 | a schedule of at most that weight ends with `done` fired and everything taken delivered |
| `FlushProgress.NoScheduleIsLonger` | network/src/sender.rs:260-285 | no schedule keeps the flush under way for more steps than that weight |
| `FlushProgress.FlushEndsIffNothingLost` | network/src/sender.rs:260-285 | any flush in progress, whatever its receiver does, can be completed if and only if no buffer was lost and, if the receiver has ended, every awaited key has its acknowledgement under way and nothing is pending |
| `FlushProgress.RunSettlesWhatItTook` | network/src/sender.rs:287-308 | from every state with the sender in `run`, the receiver not ended and nothing lost: without a flush and without taking anything, a schedule no longer than the weight ends with everything taken delivered and acknowledged, the sender still running |
| `FlushProgress.RunScheduleIsBounded` | network/src/sender.rs:287-308 | and no schedule of undisturbed steps is longer than that weight |
| `FlushProgress.FinishedIsHeard` | network/src/receiver.rs:116-121 | when the receiver ended because its application was gone, a sender still at work reads what is there and stops as closed by the other side |
| `Channel.RunInv` | network/src/sender.rs:413-456 | over any number of connections: one session at a time, delivered is the concatenation of the sessions' deliveries, produced is what the sessions took followed by the control queue |
| `Channel.StaysOneAtATime` | network/src/receiver.rs:224-247 | a grant is given only while the registry owns the queue, and everything still referring to a connection refers to the newest one |
| `Channel.DeliveredIsSelection` | network/src/receiver.rs:142-200 | across all reconnects the receiver's queue gets an ordered selection of what the producer sent, no key twice |
| `Channel.SessionsNeverOverlap` | network/src/receiver.rs:344-364 | a live sender and an open receiver are always on the same, newest connection |
| `Channel.EarlierSessionsAreOver` | network/src/receiver.rs:164-197 | once a later connection exists, the receiving handler of an earlier one has not begun or has returned its queue, and nothing in that session ever changes |
| `Channel.ReceiptsAreDelivered` | network/src/sender.rs:182-185 | what a completed flush covered stands in the delivered stream as one unbroken stretch, whatever later sessions do |
| `ChannelClose.AllDeliveredIff` | network/src/sender.rs:160-174 | in every state: all that was produced is delivered if and only if the queue holds no buffer and no session, lost ones included, has anything under way, pending or lost |
| `ChannelClose.CloseDeliversEverythingIff` | network/src/receiver.rs:131-135 | once `Close` was read the sender is over and the session is the last; everything produced was delivered if and only if the queue holds no buffer, the last session ended with nothing pending or lost, and every earlier one was complete |
| `ChannelClose.ClosesSilentlyShort` | bridge-of-bridges/network/lib.rs:252-268 | for every buffer a run in which the producer flushes, the flush is reported done, `Close` is read, and the buffer went down with an earlier connection |
| `ChannelRecovery.JoinsIffNotDead` | network/src/sender.rs:574-615 | from every reachable state the two ends can meet on a connection if and only if the sender is not done, the receiver kept its queue and no grant was wasted |
| `ChannelRecovery.DeadForEver` | network/src/receiver.rs:226-232 | in the excluded states they never meet again |
| `ChannelEnds.CancelledIsFinal` | network/src/receiver.rs:176-179 | an open receiver that is cancelled drops its queue: in every continuation the ends never meet and nothing more is delivered |
| `ChannelEnds.FinishedIsFinal` | network/src/receiver.rs:116-121 | so does one whose application is gone, after announcing it with its last reply |
| `ChannelEnds.DeregisteredIsFinal` | network/src/receiver.rs:344-350 | so does a registration that was cancelled |
| `ChannelEnds.DroppedConnectionIsFinal` | network/src/receiver.rs:277-283 | a data connection that fails before it is looked up wastes its grant |
| `ChannelEnds.FailureReturnsQueue` | network/src/receiver.rs:180-197 | after a failed read, a failed acknowledgement or a failed announcement one message registers the queue again |
| `ChannelEnds.ReadCloseReturnsQueue` | network/src/receiver.rs:183-197 | after a read `Close` too, with the queue closed |
| `ChannelEnds.SenderEndIsFinal` | network/src/sender.rs:337-343 | cancelled, queue dropped, end of stream, closed by the other side, terminated: in every continuation the sender is over, nothing is produced or taken any more, and the ends never meet |
| `ChannelEnds.SenderFailureAsksAgain` | network/src/sender.rs:344-349 | a failed read or a failed flush of the writer makes the sender ask again, its control queue untouched |
| `ChannelEnds.UnknownAnswerAsksAgain` | network/src/sender.rs:347-349 | so does an answer about a key it does not await |
| `ChannelQueues.QueuesAreBounded` | network/src/receiver.rs:419-419 | in every run at most 100 messages wait in the control queue, at most 10 delivered buffers wait for the application, and a receiver reports its queue gone only when it is |
| `ChannelQueues.ClosedQueueGetsNothing` | network/src/receiver.rs:116-121 | once the application closed its queue nothing is delivered any more |
| `ChannelQueues.ProducedIff` | network/src/sender.rs:626-626 | a message is accepted exactly while the sender is not over and fewer than 100 wait |
| `ChannelQueues.EnqueuedIff` | network/src/receiver.rs:106-115 | a buffer in hand is enqueued, and then to be acknowledged, exactly while the queue is open and the application is less than ten buffers behind |
| `ChannelRecovery.FailedDialIsFinal` | network/src/sender.rs:320-333 | after one failed connection attempt following a grant, whatever happens the ends never meet, the sender is asking or awaiting an answer, and a pending request can only be refused and followed by the next |
| `ChannelRecovery.EarlyLookupIsFinal` | network/src/receiver.rs:312-324 | after a data connection is looked up before the new task inserted its entry, whatever happens the receiver waits, nothing is delivered, and the sender is still on that connection, over, or asking in vain |
| `ChannelRecovery.AbandonedSenderEnds` | network/src/sender.rs:337-350 | such a sender is over when it reads the end of the stream, and asks in vain when the connection fails |
| `ChannelRecovery.EarlyLookupCanEndSilently` | network/src/sender.rs:449-451 | a whole run from the start: the sender took the only buffer and is over, the receiver never began |
| `ChannelRecovery.WastedGrantsAreReachable` | network/src/sender.rs:588-614 | both situations occur at a channel's first request |
| `UdpChannel.WindowConservation` | external/BDSPro_UDP_Channel/src/lib.rs:206-248 | in every interleaving: free permits + calls holding one + in flight + overwritten entries == window + failed writes; a repeated acknowledgement frees nothing |
| `UdpChannel.WindowHolds` | external/BDSPro_UDP_Channel/src/lib.rs:147-153 | without failed writes, held and occupied slots never exceed the window, whatever numbers are used |
| `UdpNumbers.DistinctNumbersConserveWindow` | external/BDSPro_UDP_Channel/src/lib.rs:206-248 | for distinct numbers, in every interleaving: free permits + calls holding one + in flight == window + failed writes |
| `UdpNumbers.SlotsAddUpIffNoRepeats` | external/BDSPro_UDP_Channel/src/lib.rs:231-245 | for calls with given numbers that equation holds in every interleaving if and only if no number occurs twice (or the window is 0) |
| `UdpNumbers.AutomaticNumbersAreDistinct` | external/BDSPro_UDP_Channel/src/lib.rs:251-259 | calls that draw their number from the shared counter get 1, 2, 3, ... in the order they are made, in every interleaving |
| `UdpDelivery.BufferConservation` | external/BDSPro_UDP_Channel/src/lib.rs:319-375 | free room + reserved and not pushed + buffered == room + failed acknowledgements; consumed ++ buffer is what was pushed, in order |
| `UdpDelivery.RetransmissionsAre` | external/BDSPro_UDP_Channel/src/lib.rs:181-191 | the timeout task resends exactly the collected numbers, each with its payload in flight |
| `UdpTimeouts.WalkResendsWhatIsOverdue` | external/BDSPro_UDP_Channel/src/lib.rs:164-192 | in every reachable state a walk sends again exactly the messages in flight for which more than the timeout has passed since they were put in flight or collected, by the recorded history, in the order of the walk; and there is no walk before the last one was sent out |
| `UdpTimeouts.CollectionsAreSpaced` | external/BDSPro_UDP_Channel/src/lib.rs:171-177 | with a clock that moves forward, a number is collected only more than the timeout after each time it was put in flight or collected before |
| `UdpTimeouts.RetransmitsAreCounted` | external/BDSPro_UDP_Channel/src/lib.rs:174-174 | the counter of a message in flight is the number of its collections |
| `UdpRequests.MemoryIsComplete` | external/BDSPro_UDP_Channel/src/lib.rs:225-228 | a number is remembered exactly if something was ever stored under it, with what was stored last |
| `UdpRequests.RequestIsAnswered` | external/BDSPro_UDP_Channel/src/lib.rs:133-146 | a request served writes exactly one datagram, with what was last stored under its number, or none if nothing ever was |
| `UdpRequests.InboxIsQueue` | external/BDSPro_UDP_Channel/src/lib.rs:129-131 | the worker serves what the socket reader queued in order, whatever else is interleaved |
| `UdpRequests.RequestIsServed` | external/BDSPro_UDP_Channel/src/lib.rs:110-146 | a request the socket reader takes is answered after as many steps of the worker as there were messages before it |
| `UdpRequests.AskingIsServed` | external/BDSPro_UDP_Channel/src/lib.rs:389-400 | and so is every request a receiver sends, if it arrives |
| `UdpRequests.InboxIsBounded` | external/BDSPro_UDP_Channel/src/lib.rs:108-108 | that queue holds at most 100 messages |
| `UdpRequests.AcknowledgementIsServed` | external/BDSPro_UDP_Channel/src/lib.rs:147-153 | an acknowledgement served takes its number out of flight and frees a slot if it was there, and changes nothing else |
| `UdpRequests.CollectedIsSent` | external/BDSPro_UDP_Channel/src/lib.rs:182-191 | what was collected is sent in order, each once; a write that fails sends nothing and the next is tried |
| `UdpDelivery.NoConfirmedNumberIsLost` | external/BDSPro_UDP_Channel/src/lib.rs:131-157 | every DATA datagram from any of the three places carries a payload given for its number; every ACK ever sent is for a pushed message; a number confirmed by `send_message` is in flight or received and pushed; also for repeated numbers |
| `UdpDelivery.NoConfirmedMessageIsLost` | external/BDSPro_UDP_Channel/src/lib.rs:163-193 | if the calls made so far give one payload per number, a confirmed message is in flight under its own payload or was pushed at the receiver |
| `UdpDelivery.ConfirmedMessageIsResent` | external/BDSPro_UDP_Channel/src/lib.rs:133-146 | and a retransmission request for it, at any later time, makes the sender write that very message once more |
| `UdpSafety.ConfirmedIsSafeIffOnePayload` | external/BDSPro_UDP_Channel/src/lib.rs:206-248 | for calls that give nothing but a set of (number, payload) pairs: every confirmed message is safe in every run if and only if the set has one payload per number, or at most one message can ever get out (no window; a window of one and no room) |
| `UdpRecovery.RecoverableIffRoom` | external/BDSPro_UDP_Channel/src/lib.rs:159-193 | whatever was lost so far, every message in flight can still be delivered and acknowledged, with a clock that only moves forward and no help from any call, if and only if the receiver has any room configured |
| `UdpEndpoints.SendIsRun` | external/BDSPro_UDP_Channel/src/lib.rs:206-248 | an undisturbed `send_message` is a run of the interleaved system |
| `UdpEndpoints.ReceiveIsRun` | external/BDSPro_UDP_Channel/src/lib.rs:312-363 | an undisturbed `receive_message` is a run of the interleaved system, with the reply it sends: acknowledgement, BUFFER_FULL or none |
| `UdpEndpoints.ReusedNumberLosesMessage` | external/BDSPro_UDP_Channel/src/lib.rs:147-153 | for every number and any two payloads: a run in which a confirmed message is neither in flight nor received and a slot is gone for good |
| `UdpEndpoints.UdpSender.SendMessage` | external/BDSPro_UDP_Channel/src/lib.rs:206-248 | full window, failed write and success, with the state each leaves |
| `UdpEndpoints.UdpSender.SendMessageAutoSeq` | external/BDSPro_UDP_Channel/src/lib.rs:251-259 | the number is used up whether or not the message is sent |
| `UdpEndpoints.UdpSender.HandleAck` | external/BDSPro_UDP_Channel/src/lib.rs:147-153 | permits plus messages in flight stay the same; only the first acknowledgement counts |
| `UdpEndpoints.UdpSender.HandleRequest` | external/BDSPro_UDP_Channel/src/lib.rs:133-146 | there is a reply exactly if the number was stored, with its stored payload; in every state of the interleaved system with this sender it is exactly what the worker writes for this request |
| `UdpEndpoints.UdpSender.CollectTimedOut` | external/BDSPro_UDP_Channel/src/lib.rs:167-179 | marks and collects exactly the timed-out entries, each once, in the order of the walk |
| `UdpEndpoints.UdpReceiver.ReceiveMessage` | external/BDSPro_UDP_Channel/src/lib.rs:312-363 | not DATA, no room, failed acknowledgement and success, with the state each leaves |
| `UdpEndpoints.UdpReceiver.ReceiveFromBuffer` | external/BDSPro_UDP_Channel/src/lib.rs:366-375 | the oldest message and its room, or nothing |
| `GapReceiver.RunInv` | external/BDSPro_UDP_Channel/src/bin/receiver.rs:34-122 | extremes, pending requests, attempts and requests sent stay in step in every run |
| `GapReceiver.RequestsAreBounded` | external/BDSPro_UDP_Channel/src/bin/receiver.rs:139-171 | each number is requested at most (M+1)/2 times and `attempts` never exceeds M (both 1 when M is 0) |
| `GapReceiver.TotalTraffic` | external/BDSPro_UDP_Channel/src/bin/receiver.rs:152-171 | all requests together are at most that many times the gaps ever opened, and those lie within the range |
| `GapReceiver.LimitIsReachedIffOne` | external/BDSPro_UDP_Channel/src/bin/receiver.rs:195-222 | with a clock that only moves forward the bound is reached by some run; M requests for one number happen if and only if M is 1 |
| `GapReceiver.ArrivalSettles` | external/BDSPro_UDP_Channel/src/bin/receiver.rs:56-79 | in every reachable state: an arrived number is received and not pending, its attempts are forgotten exactly if it was pending, and no other number is touched |
| `GapTimeouts.PendingUntilArrivalOrTimeout` | external/BDSPro_UDP_Channel/src/bin/receiver.rs:184-214 | in every reachable state: a pending request stays pending through a turn exactly if its number does not arrive and no more than the timeout has passed since it was sent, by the recorded history |
| `GapTimeouts.NewRequestIsPending` | external/BDSPro_UDP_Channel/src/bin/receiver.rs:166-168 | a request sent in a turn is pending after it unless the turn itself took longer than the timeout |
| `GapTimeouts.RequestsAreSpaced` | external/BDSPro_UDP_Channel/src/bin/receiver.rs:139-191 | with a clock that moves forward, two requests for one number are more than the timeout apart |
| `GapTimeouts.RequestsAreSent` | external/BDSPro_UDP_Channel/src/bin/receiver.rs:152-163 | the recorded requests are those the receiver sends, in order |
| `GapReceiver.DetectionIsComplete` | external/BDSPro_UDP_Channel/src/bin/receiver.rs:94-105 | after a pass every number in range is received, pending or out of attempts; extremes are true extremes; nothing received is pending |
| `GapReceiver.GapDetector.CollectMissing` | external/BDSPro_UDP_Channel/src/bin/receiver.rs:136-149 | the scan loop yields the wanted numbers in ascending order |
| `GapReceiver.GapDetector.DetectAndRequest` | external/BDSPro_UDP_Channel/src/bin/receiver.rs:126-174 | collect, then request each, with its time and one more attempt |
| `GapReceiver.GapDetector.CheckTimeouts` | external/BDSPro_UDP_Channel/src/bin/receiver.rs:177-225 | the timed-out requests are removed and counted as attempts below the limit, in whatever order they are walked |
| `GapReceiver.GapDetector.RecordArrival` | external/BDSPro_UDP_Channel/src/bin/receiver.rs:56-79 | range, received numbers and pending requests after a DATA message |
| `GapReceiver.GapDetector.HandleTurn` | external/BDSPro_UDP_Channel/src/bin/receiver.rs:34-122 | one turn of the loop is one step of the specification |
| `SequenceTracker.QueryIsLowestMissing` | test-node/src/main.rs:131-143 | for every stream of positive numbers without repetition `query` is the lowest positive number not added |
| `SequenceTracker.QueryAnswers` | test-node/src/main.rs:142-142 | `unreachable!()` is unreachable in every well-formed state, repeated numbers included |
| `SequenceTracker.AddIsExact` | test-node/src/main.rs:108-128 | a new number is accepted, the summary stays faithful, and the query is as without compaction |
| `SequenceTracker.CompactIsExact` | test-node/src/main.rs:123-127 | compaction cannot be observed by `query` |
| `SequenceTracker.RunStaysSmall` | test-node/src/main.rs:123-127 | the set has at most 1000 elements or fits between the answer and the highest number |
| `SequenceTracker.QueryIsRightIff` | test-node/src/main.rs:131-143 | over every run of accepted numbers, repeated ones included: the query is the lowest number never added if and only if no gap was forgotten and no stale number makes the set look full |
| `SequenceTracker.NextAnswerIsRightIff` | test-node/src/main.rs:108-128 | the same for one more number, fresh or repeated, compacting or not, decided by the state before |
| `SequenceTracker.CompactionKeepsRightAndWrong` | test-node/src/main.rs:123-127 | compaction keeps a right answer right and a wrong one wrong, in every state |
| `SequenceTracker.GapIsForgottenIffMisled` | test-node/src/main.rs:123-127 | a number never added is compacted away exactly by a compaction whose query was misled |
| `SequenceTracker.NumberIsRejectedAsDocumentedIff` | test-node/src/main.rs:106-115 | over every run: a number is rejected exactly if it is zero or in the set, and this differs from the documentation exactly for added numbers below the compacted mark that are not in the set |
| `SequenceTracker.FirstRepeatIsAcceptedIffCompacted` | test-node/src/main.rs:111-115 | in a stream without repetition so far, a repeated number is accepted exactly if it was compacted away |
| `SequenceTracker.FirstRepeatMisleadsIffOneGap` | test-node/src/main.rs:108-134 | after that first repetition, compacting or not, the query is wrong exactly when one gap was left |
| `SequenceTracker.CompactedRepeatIsAccepted` | test-node/src/main.rs:106-128 | such a repetition: 1 to 1001, then 5 |
| `SequenceTracker.RepeatedNumberMisleads` | test-node/src/main.rs:131-143 | a misled query: after 1 to 1001, 1003 and 5 it answers 1004, and 1002 is missing |
| `SequenceTracker.StaleNumbersMislead` | test-node/src/main.rs:131-143 | two gaps left, or a fresh number added last, and the query is wrong: 1 to 1001, 1004, 5, and then 6 or 1002 |
| `SequenceTracker.MissingSequenceTracker.Ask` | test-node/src/main.rs:131-143 | the size test and the search loop compute the specified query and never fail |
| `SequenceTracker.MissingSequenceTracker.Record` | test-node/src/main.rs:108-128 | insertion and compaction in place; rejected exactly for zero and numbers in the set |
| `NetworkSink.NothingLost` | test-node/src/main.rs:263-325 | while the channel is open, queued ++ backlog is the input in order, with an element doubled in place exactly when its call drained a backlog to its end |
| `NetworkSink.ExactlyOnceIffNeverDrained` | test-node/src/main.rs:282-315 | each input is passed on once if and only if no call did so |
| `NetworkSink.DrainedBacklogDoubles` | test-node/src/main.rs:282-315 | a run in which an element is passed on twice |
| `NetworkSink.ClosedSinkDropsAll` | test-node/src/main.rs:264-267 | a closed sink drops every later input and changes no more |
| `NetworkSink.PanicLosesOne` | test-node/src/main.rs:296-324 | a call panics exactly if it finds the queue closed while it drains, and then loses exactly the element in hand; found closed later, the sink closes and drops the input |
| `NetworkSink.QueuedInOrder` | test-node/src/main.rs:263-325 | in every run, closed and panicked ones included, what was queued is a beginning of the inputs in order with the doubled elements in place |
| `NetworkSink.NetworkSink.Drain` | test-node/src/main.rs:286-305 | the loop passes on the accepted beginning of the backlog and keeps the rest |
| `NetworkSink.NetworkSink.Run` | test-node/src/main.rs:263-325 | one call is one step of the specification |

## Left out

- Sockets, name resolution, the identification handshake, JSON and length-delimited framing, and the tokio runtime: streams are sequences, a UDP network is the set of datagrams ever sent.
- `external/BDSPro_UDP_Channel/src/lib.rs:111`: datagrams over 1024 bytes are cut by the reading buffer and then fail to parse; in the model that is a loss.
- Wall-clock sleeps, retry back-off and rate control: a retry may come at any time.
- Integer widths: sequence numbers and counters are unbounded; a `u64` would have to wrap for that to matter.
- `SenderHandler.Step`: a feed may be dropped whenever the writer holds a frame, also below the size at which the real writer makes a feed wait, and when no other arm of the `select!` is ready; the safety results hold for those runs as well.
- `FlushProgress.RunSettlesWhatItTook`: the writer may empty its buffer at any time; in the code, outside a flush, it does so only once it holds enough bytes, so the last frames may wait for more data or for a flush.
- `SessionRuns.DroppedFeedLoses`: sizes in bytes are not modelled; in the code the first buffer must be large enough to fill the writer to its limit. The same holds for `SessionRuns.LostFlushIsReachable`.
- `Session`: a `Close` or acknowledgement is written wholly or not at all.
- A connection that ends before everything written to it was read is a read failure at that moment; what was not read stays unread.
- `Channel.Step`: one channel, registered once on each side. Other channels share only the control connection, which can fail at any time here.
- Shutting the services down, and cancelling a connection by its token other than through the handlers' own cancellation.
- `UdpChannel.Step`: the concurrent tasks are modelled on values, because a method cannot be interrupted at its awaits; the classes in `UdpEndpoints` have the critical sections and the undisturbed calls in place. A cancelled `send_message` future (its permit is returned when dropped) is not modelled.
- `UdpChannel`: a serialization failure, which would return from `send_message` before the write, is treated as a failed write.
- `GapReceiver.Step`: the acknowledgement of each DATA message is not recorded; a failed socket write ends that program and with it the run.
- `NetworkSink`: calls of `execute` one after another; two threads in the same sink are not interleaved.
- `GeneratorSource`, `verify_tuple_buffer`, `QueryEngine`, the C++ bridge and logging: easier than the rest, or foreign code. Of the bridge only the order flush, wait, terminate matters here.
- `lib_simple.rs`, `bin/sender.rs` and the copies under `external/BDSPro_UDP_Channal`: reduced duplicates of the modelled code.
