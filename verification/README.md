# LiveKit server: signalling, data and subscription protocols

A Dafny model of the parts of the server that keep state across unreliable
transports, concurrent events and migrations, with proofs of what they guarantee.

Each section of the server that runs under one lock is one atomic step. Where the
source updates an object in place there is a class with the same fields; each of its
methods is proved to compute a function on the value of those fields, and the run
theorems are proved about state machines built from the same functions. Clocks appear
as `expired` bits, and results of the network, of the peer connection and of the track
resolver as parameters.

- **Signal relay** (`SignalRelay`, `SignalProtocol`, `SignalAcceptance`): a retrying
  batch sender and a sequence-checking reader over a stream that may lose, repeat or
  reorder envelopes and report a send as failed after it arrived. The reader delivers
  exactly a prefix of what was accepted; a message dropped on a timeout never goes
  unnoticed, and nothing is dropped otherwise. When a message is accepted and when the
  stream closes is characterised exactly.
- **Reliable data** (`ReliablePublisher`, `PublisherAcceptance`, `ReliableDelivery`,
  `ReliableHandover`, `ReliableMigration`, `ReliableEndToEnd`): sequence filtering at
  the publisher, with the cache that waits for a migration to catch up, and the handover
  of a subscriber from joining to live. Over every interleaving of caching, broadcast,
  replay and pruning, a live subscriber gets each message owed to it once and in order.
  A subscriber that joins with a migration state is sent a message from before that
  state exactly when one is broadcast to it after its replay. Put together, what the
  publisher accepts is what the room can cache and the subscriber is sent.
- **Negotiation** (`Negotiation`, `IceRestarts`, `OfferIds`, `IceCandidates`,
  `OfferCandidates`): the offer/answer machine with deferred ICE restarts, and local
  candidates from gathering to the client. In runs without a failure, more than one
  offer is unanswered exactly when an ICE restart was carried out during a negotiation,
  and a restart that was asked for is offered or stays recorded. In any run it is lost
  exactly at a step that carries it out without coming through: its offer is not
  created, not set or not sent, the last answer is not taken again, there is no local
  description to send again, or a deferred restart meets a closed or new peer
  connection. In every run the ids handed out increase exactly until the 32-bit counter
  wraps. Every candidate since a clear is forwarded exactly when the flush takes the
  whole cache and everything after it is accepted.
- **Subscriptions** (`SubscriptionManager`, `SubscriptionRuns`,
  `SubscriptionPublishers`, `SubscriptionRequests`, `SubscriptionConvergence`,
  `ReconcilerRounds`): capacity counters, the index of publishers subscribed to, and
  convergence: of any run without new requests, and of the reconcile worker repeated
  over all tracks. The worker sets, counts and marks a track in three lock sections, and
  a close releases, uncounts and unmarks it in three. The index is right after every
  step of a run if and only if every mark finds its track held or its close still to
  come, no unmark finds its track held and marked again, and no attempt renames a
  publisher whose entry a close has yet to remove. The code does not ensure the first
  two: a track may close between being set and being marked, `AddSubscriber` may answer
  that it is already subscribed for a subscription that holds nothing, and a close may
  unmark a track that was attached again meanwhile. The third holds when every track
  keeps its publisher.
- **Participant updates** (`ParticipantUpdates`, `JoinUpdates`, `JoinRuns`,
  `JoinStates`, `JoinCoverage`, `LruUses`, `JoinEviction`): which of two sessions is
  newer, coalescing in the room, and what is sent around a join response.
  `CompareParticipant` can be cyclic when some participants lack a `JoinedAtMs`, and the
  exact triples are characterised. No update precedes the join response, and none is
  lost however many sessions there are. Versions sent for a session go down only after
  at least 128 other sessions were moved in the cache in between, and that is exactly
  when the cache forgets one that is not used itself.
- **Agent workers** (`AgentRegistry`, `AgentJobs`): a registry whose counters and name
  lists mirror its keys, and the weighted choice of a worker for a job.
- **Small structures**: the nonce window (`UserPacketDeduper`), greedy chunking
  (`ChunkBatch`), loss accounting over wrapping sequence numbers (`DataTrackStats`), the
  loss shift register (`LossRegister`) and requests for media sections
  (`MediaRequirement`). The identity "received plus lost equals the span" of
  `DataTrackStats` fails exactly by the late packets that arrive while nothing is
  counted lost. The media requests delivered add up to what is needed exactly when none
  that failed asked for any.

`dafny verify dfyconfig.toml` checks the whole project.

## Model

| member | source | states |
|---|---|---|
| SignalRelay.SignalMessageSink.WriteMessage | pkg/routing/signal.go:365-381 | a message is accepted unless the sink drains or its stream is closed, is appended to the queue, and starts a writer when none runs |
| SignalRelay.SignalMessageSink.Close | pkg/routing/signal.go:282-304 | the sink drains; a writer is started to send the closing envelope when none runs |
| SignalRelay.SignalMessageSink.EnterLoop | pkg/routing/signal.go:310-330 | the writer leaves, or sends a snapshot of the whole queue under the current sequence number, closing if draining |
| SignalRelay.SignalMessageSink.SendReturned | pkg/routing/signal.go:330-363 | success drops the batch from the queue, a timeout drops the whole queue, and the sequence number advances by what was dropped; any other failure retries |
| SignalRelay.SignalMessageReader.Read | pkg/routing/signal.go:233-252 | returns the part of an envelope not read before, an end after a closing envelope, or the dropped-message error on a gap |
| SignalRelay.MessageChannel.WriteMessage | pkg/routing/messagechannel.go:56-71 | a bounded FIFO: appended, refused when full, refused when closed |
| SignalRelay.MessageChannel.Close | pkg/routing/messagechannel.go:77-90 | only the first close notifies; what is queued stays |
| SignalRelay.CopySignalStreamToMessageChannel | pkg/routing/signal.go:191-224 | the channel, open or closed, receives exactly what the specification of the copy loop puts in it, and the loop ends for the same reason and with the error of the channel if that is why |
| SignalProtocol.RunKeepsInv | pkg/routing/signal.go:258-381 | every step of every run keeps: one writer, queue = accepted messages from the sequence number on, every envelope cut from the accepted messages, every drop visible in later envelopes |
| SignalProtocol.PrefixDelivery | pkg/routing/signal.go:191-252 | in every run the delivered messages are a prefix of those WriteMessage accepted: no duplicate, no reordering, no gap |
| SignalProtocol.SinkConserves | pkg/routing/signal.go:310-381 | sequence number plus queue length equals the number accepted, and without a writer the queue is empty or the stream closed |
| SignalProtocol.CleanCloseIsComplete | pkg/routing/signal.go:200-224 | a reader that gets through the closing envelope has delivered everything accepted |
| SignalProtocol.DropsAreNeverSilent | pkg/routing/signal.go:233-252 | after a timeout drop the next envelope read reports the gap, unless the dropped messages had been delivered |
| SignalProtocol.ReadCatchesUp | pkg/routing/signal.go:233-252 | a batch that is read without error has been delivered to its end |
| SignalProtocol.CopyLoopDeliversPrefix | pkg/routing/signal.go:191-224 | the copy loop puts a contiguous run of the accepted messages in its channel for any stream of envelopes, in any order and with any repetition |
| SignalAcceptance.AcceptsExactlyWhileOpen | pkg/routing/signal.go:365-381 | in every run a message is accepted and queued if and only if the sink has not been closed and its stream is open, writer or not |
| SignalAcceptance.EverythingOfferedIsAccepted | pkg/routing/signal.go:365-381 | without a close, an end of the stream or a timeout that is to close it, everything offered is accepted, in order |
| SignalAcceptance.StreamClosesExactly | pkg/routing/signal.go:356-363 | the stream is closed if and only if it ended from outside, the closing envelope was acknowledged, or a send timed out on a sink that closes then or drains; a sink that drains ends with it closed |
| SignalAcceptance.AcceptedAreAccountedFor | pkg/routing/signal.go:322-354 | each accepted message was acknowledged, or dropped by a timeout, or is still queued |
| SignalAcceptance.SnapshotIsWhole | pkg/routing/signal.go:316-322 | an envelope holds all that is accepted and not yet numbered, and closes exactly when the sink drains |
| ReliablePublisher.MigrationDataCache.Add | pkg/rtc/migrationdatacache.go:36-55 | ignores what is not beyond the last number, is done on the continuing packet, keeps packets beyond the gap and times out |
| ReliablePublisher.ReliablePublisher.OnReceivedDataMessage | pkg/rtc/participant.go:2304-2359 | the packets let through, and the cache and the last number after them |
| ReliablePublisher.ReliablePublisher.HandleReceivedDataMessage | pkg/rtc/participant.go:2361-2373 | a numbered packet passes only when above the last number, which it becomes |
| ReliablePublisher.ReliablePublisher.SetMigrateState | pkg/rtc/participant.go:1577-1602 | completing a migration that was syncing arms the cache at the last number of the old node, when there is one; a completed migration never changes |
| ReliablePublisher.HandleAllIsRecords | pkg/rtc/participant.go:2346-2373 | handling the kept packets accepts exactly their running maxima above the last number |
| ReliablePublisher.AcceptedIncrease | pkg/rtc/participant.go:2318-2373 | over any run the accepted reliable numbers strictly increase and end at the remembered one |
| ReliablePublisher.StoppedAcceptsNothing | pkg/rtc/participant.go:4055-4060 | after migrating out nothing numbered is accepted and the number handed over stays |
| ReliablePublisher.AcceptedIncreaseAcrossMigration | pkg/rtc/participant.go:2318-2373 | the numbers accepted by the old node and then by the new one strictly increase together |
| ReliablePublisher.NothingAcceptedWhileArmed | pkg/rtc/migrationdatacache.go:36-55 | while the cache waits nothing is accepted and exactly the packets beyond the gap are kept |
| ReliablePublisher.DoneAcceptsNext | pkg/rtc/participant.go:2348-2357 | when the wait ends with the continuing packet, the first number accepted is the last one plus 1 |
| ReliablePublisher.TimeoutAcceptsRecords | pkg/rtc/participant.go:2332-2347 | when it ends by timeout, exactly the running maxima of the kept packets are accepted, all above the last number |
| PublisherAcceptance.PassesExactly | pkg/rtc/participant.go:2358-2373 | with no cache armed what passes is every unnumbered packet, and the numbered ones above all numbers before them and above where the publisher began, in arrival order |
| PublisherAcceptance.UnnumberedAlwaysPass | pkg/rtc/participant.go:2318-2363 | in every run, migrating or not, every unnumbered packet passes, in arrival order |
| ReliableDelivery.GetCachedReliableDataMessage | pkg/rtc/room.go:1882-1891 | exactly the cached messages of the given senders from the given numbers on, in cache order |
| ReliableDelivery.ReliableSubscriber.SetMigrateInfo | pkg/rtc/participant.go:1369-1373 | each receive state sets the first number wanted to one past the last received |
| ReliableDelivery.ReliableSubscriber.SendDataMessage | pkg/rtc/participant.go:3766-3797 | while joining only the first number of a sender is noted; afterwards a message is written unless the replay wrote it |
| ReliableDelivery.ReliableSubscriber.ReplayJoiningReliableMessages | pkg/rtc/participant.go:3869-3885 | writes the cached messages addressed to it and records the largest number of each sender |
| ReliableHandover.RunKeepsInv | pkg/rtc/room.go:1270-1285 | every interleaving of cache, broadcast, migrate, list, replay and prune keeps: what is written is what has arrived, in order |
| ReliableHandover.HandoverIsExactlyOnce | pkg/rtc/participant.go:3766-3885 | a live subscriber has been sent each message owed to it of every sender exactly once, in sequence order; only the one being broadcast may be missing |
| ReliableHandover.NothingWrittenWhileJoining | pkg/rtc/participant.go:3774-3781 | a joining subscriber has been sent no numbered message |
| ReliableHandover.StartIsFirstRouted | pkg/rtc/participant.go:3774-3781 | what is owed starts at the first message of the sender routed to the subscriber, and that never moves |
| ReliableHandover.RunKeepsStart | pkg/rtc/participant.go:3774-3781 | over any run without a migration state that start is the number of a message routed to the subscriber, and stays it |
| ReliableMigration.RepeatsExactlyAfterLateBroadcast | pkg/rtc/participant.go:3766-3885 | a subscriber that joins having received the messages of a sender up to a number is sent one numbered at most that if and only if one is broadcast to it after its replay |
| ReliableMigration.NothingAfterReportedIsMissed | pkg/rtc/participant.go:1369-1373 | once live it has been sent every later cached message of the sender that is for it, but for one just being broadcast; its exactly-once handover begins right after that number if and only if there is no such late broadcast |
| ReliableMigration.SentExactlyWhatIsForIt | pkg/rtc/room.go:2096-2104 | a live subscriber has been sent each cached message, from where it is owed the sender's on, that another participant sent to everybody or to its identity, but for one just being broadcast; and nothing else |
| ReliableMigration.LiveExactlyAfterReplay | pkg/rtc/participant.go:3869-3885 | a subscriber is live exactly once it has replayed |
| ReliableMigration.MigratedSubscriberMayRepeat | pkg/rtc/participant.go:3783-3794 | a run with such a broadcast |
| ReliableEndToEnd.RoomFollowsPublisher | pkg/rtc/room.go:1270-1285 | the room's history of a sender is what its publisher accepted, in order, as far as the room has come, and the next number can be cached once the broadcast before it is done |
| ReliableEndToEnd.AcceptedAreThosePassing | pkg/rtc/participant.go:2361-2373 | without a migration of the publisher the accepted numbers are those of the packets above where it began and above all numbers before them |
| ReliableEndToEnd.AcceptedReachesSubscriber | pkg/rtc/participant.go:2361-2373 | across migrations of the publisher, a live subscriber is sent only numbers the publisher accepted, in that order, and exactly those cached messages that are owed to it, each once, but for one just being broadcast |
| Negotiation.PCTransport.CreateAndSendOfferNow | pkg/rtc/transport.go:2543-2647 | an offer is put off in Remote and Retry, otherwise made with the next id, with a recorded restart folded in |
| Negotiation.PCTransport.HandleRemoteAnswerReceived | pkg/rtc/transport.go:2877-2909 | an answer settles the state, and in Retry makes a fresh offer |
| Negotiation.PCTransport.DoICERestartNow | pkg/rtc/transport.go:2911-2982 | a restart is deferred while gathering, re-sends the pending offer during a negotiation, and otherwise makes a restart offer |
| Negotiation.PCTransport.HandleICEGatheringCompleteOfferer | pkg/rtc/transport.go:2307-2315 | the end of gathering carries out a deferred restart |
| Negotiation.RunKeepsInv | pkg/rtc/transport.go:2543-2982 | the invariant that ties state, flags, unanswered offers and uncovered requests in every run |
| Negotiation.RequestsAreCovered | pkg/rtc/transport.go:2543-2560 | without failure every processed request is covered by an offer made at or after it, or the state is Retry with an unanswered offer |
| Negotiation.NextAnswerCovers | pkg/rtc/transport.go:2889-2909 | in Retry the next answer makes the one offer that covers every request so far |
| Negotiation.OneOfferInFlight | pkg/rtc/transport.go:2548-2560 | at most one offer was ever unanswered if and only if no ICE restart was carried out during a negotiation |
| Negotiation.RestartAlwaysHasLocalOffer | pkg/rtc/transport.go:2930-2950 | a restart during a negotiation always finds a local offer to send again |
| Negotiation.RestartIsNeverLost | pkg/rtc/transport.go:2911-2928 | once gathering has begun a requested restart stays recorded until a restart offer is made |
| Negotiation.RecordedRestartIsMade | pkg/rtc/transport.go:2307-2315 | the end of gathering, and else the next answer, makes the recorded restart |
| Negotiation.AnswersSettle | pkg/rtc/transport.go:2889-2909 | with no new requests each answer lowers the state by one, so two always reach None |
| IceRestarts.NextKeepsExactly | pkg/rtc/transport.go:2911-2982 | a step keeps a requested restart offered or recorded if and only if it does not lose it |
| IceRestarts.RestartKeptExactlyUnlessLost | pkg/rtc/transport.go:2307-2315 | in every run, failures and closure included, a requested restart is offered or recorded after every step if and only if no step loses it |
| IceRestarts.LossIsAFailure | pkg/rtc/transport.go:2562-2604 | in a run without failure so far, a step that loses a restart fails |
| IceRestarts.RefusedAnswerLosesRestart | pkg/rtc/transport.go:2970-2974 | a run in which a deferred restart is lost because the last answer is not taken again |
| OfferCandidates.TakenExactly | pkg/rtc/transport.go:2543-2646 | an attempt that is created, set and taken, and no other step, makes a new offer; it restarts ICE exactly when a restart is carried out, recorded or due to a previous answer, and consumes what asked for it |
| OfferCandidates.RestartHoldsCandidatesBack | pkg/rtc/transport.go:2582-2646 | in any run, from an attempt at a restart offer until the next such attempt nothing is forwarded before an offer is taken and what arrives is kept for its flush, which goes as far as OnICECandidate takes it |
| OfferCandidates.NothingHeldBackWithoutFailure | pkg/rtc/transport.go:2640-2646 | without a failure no candidate is held back between steps, and those forwarded are all unfiltered ones, in arrival order |
| OfferCandidates.SmoothRunsDoNotFail | pkg/rtc/transport.go:2543-2982 | a run in which everything the steps meet goes well is one without failure |
| OfferCandidates.RemoteExactlyWhenAnswered | pkg/rtc/transport.go:2877-2888 | there is a remote description exactly when some answer has been set |
| OfferIds.HandedIdsCount | pkg/rtc/transport.go:2640-2646 | in every run each id handed to OnOffer is the one after the last in 32 bits, whether or not the offer is taken |
| OfferIds.OfferIdsIncrease | pkg/rtc/transport.go:2640-2646 | in every run, failures included, the ids handed out strictly increase if and only if the 32-bit counter has not wrapped, and then so do those of the offers taken |
| IceCandidates.CandidateRelay.ClearLocalDescriptionSent | pkg/rtc/transport.go:2354-2358 | starts caching with an empty cache |
| IceCandidates.CandidateRelay.LocalDescriptionSent | pkg/rtc/transport.go:2335-2352 | forwards the cache in order up to the first failure |
| IceCandidates.CandidateRelay.HandleLocalICECandidate | pkg/rtc/transport.go:2360-2389 | a candidate is filtered, cached, forwarded, or refused with an error |
| IceCandidates.CandidateSlot.SendICECandidate | pkg/rtc/participant_signal.go:221-231 | the slot takes the new candidate and sends the old one, final before nil |
| IceCandidates.ForwardsSinceClear | pkg/rtc/transport.go:2335-2389 | from a clear on nothing is forwarded until the description is sent, then the cache up to the first failure and what is accepted afterwards, once and in arrival order |
| IceCandidates.OnlyTCPPasses | pkg/rtc/transport.go:2363-2374 | while TCP is preferred exactly the TCP candidates and the end of candidates pass |
| IceCandidates.AllForwardedExactly | pkg/rtc/transport.go:2335-2352 | every unfiltered candidate since the clear is forwarded, in arrival order, if and only if the first flush takes the whole cache and everything after it is accepted |
| IceCandidates.SlotMarksLastFinal | pkg/rtc/participant_signal.go:221-231 | each candidate of a stream ended by nil is sent exactly once, and only the last is marked final |
| IceCandidates.SignalledSinceClear | pkg/rtc/participant_signal.go:221-231 | both together: whatever was forwarded since a clear and ended by nil reaches the client once, in order, last one final, failures included |
| SubscriptionManager.NeedsPartition | pkg/rtc/subscriptionmanager.go:1509-1531 | the four needs and being settled are exhaustive and exclusive |
| SubscriptionManager.SubscriptionManager.SubscribeToTrack | pkg/rtc/subscriptionmanager.go:183-212 | unless the manager is closed the track is desired, other subscriptions unchanged |
| SubscriptionManager.SubscriptionManager.UnsubscribeFromTrack | pkg/rtc/subscriptionmanager.go:214-231 | a known track is no longer desired |
| SubscriptionManager.SubscriptionManager.HasCapacityForSubscription | pkg/rtc/subscriptionmanager.go:726-739 | a positive limit on the kind is not reached |
| SubscriptionManager.SubscriptionManager.SubscribeNow | pkg/rtc/subscriptionmanager.go:741-801 | the track is added under the limits, and its publisher marked only then |
| SubscriptionManager.SubscriptionManager.AddSubscriber | pkg/rtc/subscriptionmanager.go:833-894 | a new subscribed track is held and counted once |
| SubscriptionManager.SubscriptionManager.MarkSubscribedTo | pkg/rtc/subscriptionmanager.go:1153-1170 | the track joins its publisher's bucket; the first one reports subscribed |
| SubscriptionManager.SubscriptionManager.UnmarkSubscribedTo | pkg/rtc/subscriptionmanager.go:1172-1189 | the track leaves its bucket; the last one removes it and reports unsubscribed |
| SubscriptionManager.SubscriptionManager.HandleSubscribedTrackClose | pkg/rtc/subscriptionmanager.go:961-1046 | the track is released, uncounted and unmarked, and relief from a limit is reported |
| SubscriptionManager.SubscriptionManager.ReconcileSubscription | pkg/rtc/subscriptionmanager.go:482-589 | the one action each of the needs leads to |
| SubscriptionRuns.SubscribeIsItsSections | pkg/rtc/subscriptionmanager.go:741-801 | subscribing without interruption is setting, counting and marking in a row |
| SubscriptionRuns.CloseIsItsSections | pkg/rtc/subscriptionmanager.go:961-985 | closing without interruption is releasing, uncounting and unmarking in a row |
| SubscriptionRuns.CountersMatchHeld | pkg/rtc/subscriptionmanager.go:726-739 | in every state of every run each counter is the number of held tracks of its kind plus the closes yet to uncount less the count yet to be made, and neither passes a positive limit |
| SubscriptionRuns.RelievesExactlyWhenFull | pkg/rtc/subscriptionmanager.go:974-983 | a close asks for a full reconciliation exactly when uncounting makes room that was not there |
| SubscriptionRuns.NextExactly | pkg/rtc/subscriptionmanager.go:1153-1189 | a step keeps the index right if and only if it is safe |
| SubscriptionRuns.IndexExactExactlyWhenSafe | pkg/rtc/subscriptionmanager.go:785-801 | the index is the held tracks under their publishers after every step of a run, up to marks and unmarks on their way, if and only if every step is safe |
| SubscriptionRuns.NoBucketIsEmpty | pkg/rtc/subscriptionmanager.go:1172-1189 | no publisher is left with an empty bucket |
| SubscriptionRuns.LateUnmarkDropsHeld | pkg/rtc/subscriptionmanager.go:961-985 | a run in which a late unmark drops a held track from the index |
| SubscriptionRuns.ClosedBeforeMarkedStaysIndexed | pkg/rtc/subscriptionmanager.go:785-801 | a run in which a track closed before its mark stays indexed |
| SubscriptionRuns.StatusesAlternate | pkg/rtc/subscriptionmanager.go:1153-1189 | the status callbacks of each publisher strictly alternate, subscribed first |
| SubscriptionPublishers.IndexExactWhenMarksSafe | pkg/rtc/subscriptionmanager.go:785-801 | when every track keeps one publisher, the index is right after every step if and only if every mark and unmark is safe |
| SubscriptionRequests.DesiredIsLastRequest | pkg/rtc/subscriptionmanager.go:183-231 | in every run a track is desired if and only if the last request about it wanted it |
| SubscriptionRequests.HeldOnlyWithPermission | pkg/rtc/subscriptionmanager.go:741-801 | only an attempt by a participant that may subscribe, on a track found, permitted and with room, holds a track |
| ReconcilerRounds.RemovesExactlyUndesiredHeld | pkg/rtc/subscriptionmanager.go:547-559 | the drop of the subscriber is asked for exactly for an undesired held track |
| ReconcilerRounds.DropsExactlyExpired | pkg/rtc/subscriptionmanager.go:482-545 | the desire is dropped exactly when an attempt does not find the track and has not for too long; a subscription is removed exactly when neither desired nor held |
| ReconcilerRounds.HoldsExactlyWhenAllowed | pkg/rtc/subscriptionmanager.go:482-545 | a call comes to hold a track exactly when it is desired, allowed, permitted, has room and is added |
| ReconcilerRounds.ReconcileBringsCloser | pkg/rtc/subscriptionmanager.go:482-589 | on a quiet manager a call brings what is neither settled nor waiting for its bind one step closer, unless it is held and undesired, when its drop is asked for, or its limit is reached |
| ReconcilerRounds.RoundsSettle | pkg/rtc/subscriptionmanager.go:467-589 | repeating the call over all tracks, with the closes and binds it waits for, settles everything in at most rank rounds; what is left is what was desired |
| SubscriptionConvergence.ProductiveLowersRank | pkg/rtc/subscriptionmanager.go:482-589 | every productive attach, bind, close or cleanup lowers the rank by one |
| SubscriptionConvergence.UnproductiveKeepsRank | pkg/rtc/subscriptionmanager.go:482-589 | failed attempts, repeated binds and everything else without a request change no rank |
| SubscriptionConvergence.Progress | pkg/rtc/subscriptionmanager.go:482-589 | with tracks resolvable and capacity for what is desired, some productive step exists until everything is settled |
| SubscriptionConvergence.Converges | pkg/rtc/subscriptionmanager.go:467-589 | any run without new requests takes at most rank productive steps, has settled everything exactly when it took that many, and ends, once none is left, with every desired subscription bound and every undesired one gone |
| ParticipantUpdates.Room.PushAndDequeueUpdates | pkg/rtc/room.go:2198-2251 | the cache and the updates sent for each case of a push |
| ParticipantUpdates.Room.Flush | pkg/rtc/room.go:1536-1548 | the whole cache is sent and emptied |
| ParticipantUpdates.CompareAntisymmetric | pkg/rtc/room.go:2157-2184 | swapping the sessions negates the comparison, and distinct sids always compare |
| ParticipantUpdates.OlderIsStrictOrder | pkg/rtc/room.go:2157-2184 | with every JoinedAtMs set, being older is a strict total order |
| ParticipantUpdates.CyclesExactlyWhenStraddling | pkg/rtc/room.go:2167-2181 | three sessions form a cycle if and only if one without JoinedAtMs falls by sid between two joined in the opposite order |
| ParticipantUpdates.CycleExists | pkg/rtc/room.go:2167-2181 | a concrete cycle |
| ParticipantUpdates.LaterJoinIsNewer | pkg/rtc/room.go:2157-2184 | the session that joined later is the newer one: by second, then millisecond if both have one, else by sid |
| ParticipantUpdates.TakenSendsExactly | pkg/rtc/room.go:2198-2251 | an accepted update is sent at once exactly when it is immediate, of a publisher or over a cached session it replaces, and then after that one, disconnected and otherwise unchanged |
| ParticipantUpdates.LaterSessionReplaces | pkg/rtc/room.go:2217-2226 | over a cached session an update of one that joined later goes out with the disconnect of the cached one, and of one that joined earlier is dropped |
| ParticipantUpdates.CachedStandsForWaiting | pkg/rtc/room.go:2210-2248 | the cached update is the last of all accepted since the last send; they are of one session and their versions never decrease |
| ParticipantUpdates.LatestIsSentOrCached | pkg/rtc/room.go:2198-2251 | in every run of pushes and flushes the latest accepted update of an identity is the cached one or else the last one sent |
| ParticipantUpdates.EverySessionIsTold | pkg/rtc/room.go:2198-2251 | no accepted session vanishes: an update of it is sent or cached |
| ParticipantUpdates.DisconnectsPrecedeNewer | pkg/rtc/room.go:2217-2226 | every synthesized disconnect is followed at once by the newer session that replaced it |
| ParticipantUpdates.SessionsNeverGoBack | pkg/rtc/room.go:2227-2239 | with join times set and an up-to-date participant in the room, the sessions accepted for an identity never go back |
| ParticipantUpdates.VersionsMayDropAcrossFlush | pkg/rtc/room.go:2227-2248 | a run in which versions sent go down across a flush |
| JoinUpdates.ParticipantImpl.SendParticipantUpdate | pkg/rtc/participant_signal.go:81-129 | queued until ready, dropped once disconnected, otherwise filtered through the version cache |
| JoinUpdates.ParticipantImpl.SendJoinResponse | pkg/rtc/participant_signal.go:42-79 | versions are cached, the response written, the state settled and the queue replayed; a failed write leaves state and queue as they were |
| JoinUpdates.AddWithin | pkg/rtc/participant.go:424 | with at most 128 sessions in all, adding to the LRU cache never evicts |
| JoinRuns.SendJoinIsItsSections | pkg/rtc/participant_signal.go:42-79 | SendJoinResponse without interruption is its lock sections in a row |
| JoinRuns.ChooseIsSelect | pkg/rtc/participant_signal.go:94-125 | choosing through the LRU cache picks the same updates as comparing with everything told before |
| JoinRuns.RunKeepsInv | pkg/rtc/participant_signal.go:42-129 | with at most 128 sessions, in every run the cache is the last version told of each session |
| JoinRuns.VersionsNeverDecrease | pkg/rtc/participant_signal.go:98-111 | with at most 128 sessions the versions sent for a session never decrease |
| JoinRuns.NoUpdateBeforeJoinResponse | pkg/rtc/participant_signal.go:42-79 | in every run of a participant that does not migrate nothing is written before the join response, and only updates after it |
| JoinCoverage.NoUpdateIsLost | pkg/rtc/participant_signal.go:42-129 | however many sessions there are, each visible update offered waits for the replay, or a version at least as new was sent or is in the join response prepared for the client |
| JoinEviction.VersionDropsOnlyAfterEviction | pkg/rtc/participant_signal.go:94-125 | in every run a version lower than one sent before for its session is sent only after at least 128 other sessions were moved in the cache in between |
| JoinStates.OffersAreWrittenOnceReady | pkg/rtc/participant.go:542-554 | in every run an update offered before disconnecting is written at once if the participant migrates, has its join response settled or is active, and waits otherwise |
| JoinStates.NothingWaitsOnceSent | pkg/rtc/participant_signal.go:61-76 | nothing waits once the join response is sent and replayed, and never for a migrating participant |
| JoinStates.StatesOnlyAdvance | pkg/rtc/participant.go:2123-2135 | states never go back, and once disconnected a participant is sent no update |
| LruUses.RememberedExactly | pkg/rtc/participant.go:424 | while its own session is not used, an entry of the cache is remembered if and only if fewer than 128 other sessions follow it or have been moved since |
| JoinEviction.OlderVersionIsSent | pkg/rtc/participant_signal.go:94-125 | a run in which an older version of a session is sent after 128 other sessions |
| JoinRuns.HiddenNeverSent | pkg/rtc/participant_signal.go:112-115 | hidden participants other than the client itself are never sent |
| JoinRuns.JoiningQueuesEverything | pkg/rtc/participant_signal.go:88-93 | while joining, a non-migrating participant writes no update and keeps everything offered, in order |
| JoinRuns.SettlingReplaysAllOffered | pkg/rtc/participant_signal.go:61-76 | when the join response settles, what is replayed is all that was offered, in order, right after the response |
| JoinRuns.ReplayIsInOrder | pkg/rtc/participant_signal.go:74-129 | the replay sends the queue in order, less hidden and outdated updates |
| AgentRegistry.AgentHandler.RegisterWorker | pkg/service/agentservice.go:253-315 | the worker joins the list of its key; a first worker needs its topic and adds the key to counters and names |
| AgentRegistry.AgentHandler.DeregisterWorker | pkg/service/agentservice.go:317-366 | the worker leaves its list; the last one removes the key from counters and names |
| AgentRegistry.AgentHandler.CheckEnabled | pkg/service/agentservice.go:472-486 | exactly the distinct names of the keys in use, in order, and which job types have a key |
| AgentRegistry.RunMirrors | pkg/service/agentservice.go:253-366 | over any run no list is empty, the counters equal the keys of each type, and the name lists are sorted and equal, as multisets, to the names of the keys |
| AgentRegistry.ListsAreLiveWorkers | pkg/service/agentservice.go:253-366 | over any run each list is the live workers of its key in the order they registered |
| AgentRegistry.KnowsRegistered | pkg/service/agentservice.go:253-321 | over any run a worker is known by its id exactly from its registration until its id is registered again or deregistered |
| AgentRegistry.KeysAreLive | pkg/service/agentservice.go:472-486 | the keys in use are exactly those with a live worker |
| AgentJobs.LessLoadedWeighsMore | pkg/service/agentservice.go:514-518 | a worker weighs more in the draw the less loaded it is, and nothing when full |
| AgentJobs.SelectWorkerWeightedByLoad | pkg/service/agentservice.go:503-532 | an eligible worker at the point drawn on a walk over the free capacities, or none exactly when no eligible worker has capacity |
| AgentJobs.JobRequest | pkg/service/agentservice.go:382-428 | no worker is asked twice, the job goes to the first that takes it, and it fails only when all are exhausted or on an answer not to be retried |
| UserPacketDeduper.UserPacketDeduper.IsDuplicate | pkg/rtc/user_packet_deduper.go:41-66 | true exactly when the id is in the chain; a new id is pushed and the oldest beyond 100 dropped |
| UserPacketDeduper.LinksSize | pkg/rtc/user_packet_deduper.go:28-33 | the map encodes one acyclic chain of distinct ids, one link fewer than ids |
| UserPacketDeduper.WindowIsLastAccepted | pkg/rtc/user_packet_deduper.go:41-66 | after any run the chain is the last 100 accepted ids, the zero id counted first |
| UserPacketDeduper.AcceptedAgainOnlyAfterWindow | pkg/rtc/user_packet_deduper.go:41-66 | an id is accepted again only after at least 99 others in between |
| ChunkBatch.ChunkProtoBatch | pkg/rtc/utils.go:176-194 | the chunks concatenate to the batch, none is empty, each fits unless a single message, and no partition that fits has fewer |
| ChunkBatch.FullStaysAhead | pkg/rtc/utils.go:180-191 | the first k chunks reach at least as far as those of any partition that fits |
| DataTrackStats.DataTrackStats.Update | pkg/rtc/datatrack_stats.go:49-84 | the counters after a first, repeated, late or newer packet, in 16-bit arithmetic |
| DataTrackStats.HighestIsUnwrapped | pkg/rtc/datatrack_stats.go:62-79 | the highest sequence number is the unwrapped highest modulo 65536, in every run |
| DataTrackStats.CountsArrivals | pkg/rtc/datatrack_stats.go:57-83 | packets, late packets and frames count each arrival once, repeats of the highest apart |
| DataTrackStats.ReceivedPlusLost | pkg/rtc/datatrack_stats.go:57-79 | received plus lost is the span plus the late packets that came while nothing was counted lost |
| DataTrackStats.AddsUpExactly | pkg/rtc/datatrack_stats.go:67-72 | received plus lost equals the span if and only if there were no such packets |
| DataTrackStats.PrecedingPacketUnbalances | pkg/rtc/datatrack_stats.go:67-72 | a packet from before the first one breaks the identity |
| DataTrackStats.LostFallsShortBySkew | pkg/rtc/datatrack_stats.go:67-79 | the loss counter never exceeds what is missing, and falls short by exactly the skew that repeated and preceding packets leave |
| DataTrackStats.LostIsExact | pkg/rtc/datatrack_stats.go:67-79 | when no late packet repeats or precedes the first, the loss counter is the number of missing packets |
| LossRegister.TransportManager.OnMediaLossUpdate | pkg/rtc/transportmanager.go:935-959 | the register after a report, and whether media switches to TCP |
| LossRegister.TransportManager.ResetTransportConfigureLocked | pkg/rtc/transportmanager.go:638-643 | the register and the failure count are cleared |
| LossRegister.RegisterIsWindow | pkg/rtc/transportmanager.go:935-959 | in every run the register is the window of the last 32 reports since a reset or switch, and media switches exactly when the newest and at least 20 of them are unstable on healthy signalling |
| LossRegister.BitsAreReports | pkg/rtc/transportmanager.go:940-943 | bit i says whether the i-th most recent report since a reset or switch was unstable |
| LossRegister.OnesAreUnstable | pkg/rtc/transportmanager.go:943-944 | the ones of the register are the unstable reports in the sliding window of the last 32 |
| LossRegister.SwitchesAreApart | pkg/rtc/transportmanager.go:943-946 | a switch needs 20 reports since the previous one |
| MediaRequirement.UnmatchedMedia.SendUnmatchedMediaRequirement | pkg/rtc/transport.go:2523-2541 | asks for what is outstanding and not yet requested |
| MediaRequirement.UnmatchedMedia.AdjustNumOutstandingMedia | pkg/rtc/transport.go:2509-2521 | a transceiver without a section is one more outstanding |
| MediaRequirement.CountersAccount | pkg/rtc/transport.go:2523-2541 | since the last answer the counters are what was needed and what was requested, never more than needed |
| MediaRequirement.AsksExactly | pkg/rtc/transport.go:2527-2534 | a send asks exactly when forced or more is needed than was asked for, and then for just what is missing |
| MediaRequirement.DeliveredAddsUp | pkg/rtc/transport.go:2523-2541 | after a send the requests delivered since the last answer add up to what is needed if and only if none that failed asked for any |

## Left out

- psrpc streams: a stream delivers, loses, repeats or reorders envelopes; that the first close of a stream decides its error is assumed, since its source is not part of this model.
- Other users of the signal channel: in CopySignalStreamToMessageChannel nobody empties or closes the channel meanwhile; in SignalProtocol each read gets whatever room is left.
- onReceivedDataMessage is one step: the race of a packet being handled with GetLastReliableSequence on migrating out is not modelled.
- The rest of handleReceivedDataMessage: only sequence filtering; metadata, dispatch and metrics are not modelled.
- Reliable messages addressed by DestinationSids only, and messages dropped as duplicate nonces: the room cache does not see either restriction, so they are outside the handover theorem.
- The room's cache drops messages by age and size; the model lets it drop any message that no joining subscriber may still need.
- RepeatsExactlyAfterLateBroadcast: a last number of 2^32 - 1 is left out here and in NothingAfterReportedIsMissed; the first number wanted then wraps to 0, so that everything is.
- Failures of the data channel itself: SendDataMessage's transport error changes no state.
- The answerer's side of negotiation, SDP contents, negotiation timers, and ids of remote answers, which are only logged.
- What Negotiation does after a failed step (a full reconnect of the participant) is not modelled.
- A publisher's migration to another node keeps the room and its cache in ReliableEndToEnd; how rooms on several nodes share messages is not modelled.
- RestartIsNeverLost: runs without a failure only; RestartKeptExactlyUnlessLost states all runs.
- Synchronous and one-shot subscription, which bypass the index; data tracks; change and removal notifiers, attempt counts, telemetry and permission-update messages.
- SubscribeToTrack is one step, so two first subscriptions to one track at the same moment are not modelled.
- AddSubscriber: a close between registering OnClose and setting the subscribed track finds nothing to release and is dropped, which leaves a closed track held; registering and setting are one step here, and such a track is one whose close never comes.
- Reading the publisher of a subscription and unmarking it are one step, as are reading its subscribed track and releasing it.
- Status callbacks are recorded where they are decided; the one for an unsubscribe runs in its own goroutine and may be observed later.
- Names, sids and identities are numbers ordered as the strings are; 0 is the empty one where that matters.
- Participant updates are ordered by when they are chosen under the lock; two goroutines may write them in the other order.
- sendDisconnectUpdatesForReconnect and its use of the version cache; a lookup by VerifySubscribeParticipantInfo is a step of JoinRuns.
- That the transport of a participant connects only after its join response, because Join and StartSession start negotiation after sending it, is built into the events of JoinRuns.
- jobToWorker, job termination, affinity and draining of agent connections.
- Topic registration of agent workers is a boolean input; publishing of worker-registered events is not modelled.
- SelectWorkerWeightedByLoad: loads are exact reals and each worker is listed once, so the fallback to the first worker of the list, which only rounding reaches, is not modelled.
- RTT comparisons, in floating point, and the recency of signalling in onMediaLossUpdate are one boolean input.
- DataTrackStats: unwrapped numbers are at most half the number space apart from the highest, and arrival times are not zero, which the code reads as not started.
- Forwarding, selectors, dynacast, stream allocation, room and participant management outside the parts above.
