# A model of Bork's peer-to-peer logic

Bork is a peer-to-peer voice client. This project models the protocols it runs between peers and proves what they
keep over every run:

- **The reliable transport.** Fragmentation, a 64-entry selective acknowledgment window, reassembly under budgets,
  congestion control and retransmission. `Transports` says what each operation does to the state of one transport,
  `ReliableTransports.ReliableTransport` is the object that updates it in place, `Accounting` is what every
  operation keeps, and `SessionRuns` puts two ends and a network together that holds every packet ever sent and may
  drop, repeat and reorder.
- **File transfer**, a stop-and-wait machine on those channels, two whole clients with their workers and users.
- **The send-generation fence** from muting to the socket, with every interleaving of the threads that share the
  flow's and the endpoint's mutex, and the weighted **write scheduler** of four lanes.
- **The session handshake** with symbolic keys, and the promotion of network paths.
- **The fan-out planner**, the rewriting of its plan to active paths, and the topology table that feeds it.
- **Screen video** chunking and reassembly under a retention budget.
- **The audio path**: the lock-free frame queue, capture assembly, playback.
- **UPnP port mapping** against a router that answers anything.
- **Codecs**: bencoding and tracker responses, topology messages, Base58 and invites.

A class models an object that the program updates in place; its methods are proved to compute the functions beside
it, and the results over whole runs are about those functions. A `datatype` named `State`, `World` or `Side` is the
state of several threads or peers, and its actions are their atomic steps. `requires` on a whole-run result says that
the states are a run, and nothing else, except where the table below says so.

A program that does nothing would keep every safety property. What gets through, and when, is said by `MessageArrivals`
and `Progress` for the transport, `FileProgress` and `FileDelivery` for files, `HandshakeLiveness` for sessions,
`ScreenDelivery` for screen video, `SendFenceRuns` for voice behind the fence, `WriteSchedules.BoundedWait` for the
writer, `Playbacks.OnTimeIsPlayed` for playback, and the contract of `PortMappings.Mapper.Turn` for the router.

What the model found:

- `nextFragment` takes the first *eligible* fragment of a channel, so a small fragment can overtake a larger one that
  does not fit the congestion window. From then on the unsigned difference in the second guard blocks the overtaken
  fragment, however open the window is, until nothing ahead of it is in flight (`Overtaking.BehindIsBlocked`).
  `Overtaking.InOrderIffFirstPasses` says exactly when order is lost, and `OvertakingRun` gives runs in which it is.
- Being overtaken by fewer than 64 numbers is harmless: the receiver's window takes every transmitted fragment that
  waits as long as no first transmission comes 64 or more numbers late (`WindowCoupling.TransmittedStaysInWindow`).
  A later one is lost once the packet ahead is kept (`WindowCoupling.LateIsStranded`), and once a number is left behind by the window an ordered
  channel never delivers its message or any later one (`Stranding.NeverDelivered`). `OvertakingRun.StrandedRun` and
  `LateRun.StrandedHappens` reach such states. What is delivered is a prefix of what was queued in any case.
- Whoever finishes a transfer discards the retained file data of its direction. What is retained then is lost for
  good, be it part of another transfer's chunk (`Discarding.LostIffDiscarded`, `DiscardingRun.DiscardedRun`); what is
  delivered stays byte-exact all the same.
- A peer that claimed itself would be counted twice in its own candidate list and could be picked over a forwarder that
  covers more (`FanoutPlans.SelfClaimMisleads`). The topology table never records such a claim, and
  `FanoutRefreshes.RefreshFanout` rests on that.
- The write loop takes batches out of the queues without the endpoint's mutex, so a batch can overtake those that a
  generation change has taken out of its queue and not yet put back (`SendFences.TakeOvertakes`,
  `SendFences.OrderIsLost`). The fence holds all the same, because each datagram is checked when it is written.
- The receiver of screen video forgets what a stream delivered when it drops the stream's state, together with its replay
  window when too many streams are open. A late repeat is then delivered again (`ScreenVideos.RepeatedAfterEnd`);
  without such a drop identifiers rise (`ScreenVideos.IdentifiersRise`).
- A ring of frames whose capacity does not divide 2^64 would jump to a wrong slot when its counter wraps
  (`FrameQueues.WrapNeedsDivisor`); the capacities in use are 2.

## Model

| member | source | states |
|---|---|---|
| SequenceWindows.AcceptTracks | internal/peer/control_flow.go:15-39 | The window refines the set of accepted numbers: a number is accepted exactly when it is non-zero, new, and less than 64 behind the highest; the window then tracks the enlarged set |
| SequenceWindows.TrackedAckIsValid | internal/protocol/reliable.go:131-139 | Every acknowledgment read from such a window is well formed |
| SequenceWindows.TakenOnce | internal/peer/control_flow.go:15-39 | Over any run of offers no number is accepted twice, nor one accepted before |
| SequenceWindows.SequenceWindow.Accept | internal/peer/control_flow.go:15-39 | The object's new state and answer are the specified ones |
| SequenceWindows.SequenceWindow.MayAccept | internal/peer/control_flow.go:41-43 | Asking answers as accepting would and leaves the window as it was |
| ReliablePackets.BodyRoundTrip | internal/protocol/reliable.go:38-98 | Every packet passing the checks survives encoding and decoding |
| ReliablePackets.BodyDecodesOnce | internal/protocol/reliable.go:65-129 | A body that decodes is the one encoding of its packet, and the packet passes the checks |
| ReliablePackets.PacketFitsDatagram | internal/protocol/reliable.go:11-14 | Every valid packet fits a datagram of 1200 bytes even through an intermediary, and exactly those with the largest payload fill it |
| Accounting.EveryRunKeepsAccounting | internal/peer/reliable.go:98-482 | In every state of every run the queued, in-flight and reassembly counters equal the sums they cache, no budget is exceeded, cwnd and ssthresh lie in [2,64] MSS, in-flight bytes are at most 64 MSS and rto lies in [100 ms, 5 s] |
| Accounting.QueueInv | internal/peer/reliable.go:108-154 | Queueing keeps the accounting, the queue budget included |
| Accounting.ConsumeAckInv | internal/peer/reliable.go:405-434 | An acknowledgment, whatever it names, keeps the accounting and the congestion ranges |
| Accounting.UpdateRTTRange | internal/peer/reliable.go:436-450 | For any sample that is not negative, rto stays in [100 ms, 5 s] and the estimates stay non-negative |
| Accounting.CommitInv | internal/peer/reliable.go:362-389 | Committing a reservation the transport handed out keeps the accounting |
| Accounting.RejectInv | internal/peer/reliable.go:391-403 | Rejecting keeps it too |
| Accounting.CommitFields | internal/peer/reliable.go:362-403 | Apart from cursors and flags, committing marks fragments and rejecting changes nothing |
| Accounting.ReceiveInv | internal/peer/reliable.go:210-276 | Receiving keeps the accounting, the reassembly budgets included |
| Accounting.RemoveAssemblyInv | internal/peer/reliable.go:452-461 | Removing an assembly takes exactly its share out of the counters |
| Accounting.DeliverOrderedInv | internal/peer/reliable.go:463-482 | Delivering in order keeps the accounting |
| Accounting.DiscardOutboundInv | internal/peer/reliable.go:306-319 | Discarding a channel's outbound fragments keeps the accounting |
| Accounting.DiscardInboundInv | internal/peer/reliable.go:321-329 | Discarding a channel's assemblies keeps the accounting |
| Estimates.FirstSample | internal/peer/reliable.go:436-450 | The first sample R gives the estimate R, half of it as variation, and 3R within the limits as timeout, two nanoseconds of rounding aside |
| Estimates.LaterSample | internal/peer/reliable.go:436-450 | A later sample moves the estimate one eighth of the way to it and the variation one quarter of the way to its distance from the old estimate, rounded down; the timeout is the clamp of the estimate plus four variations |
| Estimates.ErrorShrinks | internal/peer/reliable.go:436-450 | After n equal samples the error of the estimate is (7/8)^n of what it was, to within seven nanoseconds |
| Estimates.VariationDecays | internal/peer/reliable.go:436-450 | After n equal samples the variation is (3/4)^n of what it was plus what the shrinking error fed into it, to within ten nanoseconds |
| Estimates.ResentIsNotSampled | internal/peer/reliable.go:413-434 | An acknowledgment that takes only fragments sent more than once leaves the estimate alone |
| Estimates.GrowsByAcked | internal/peer/reliable.go:420-434 | The window grows for exactly the bytes that an acknowledgment takes out of the queue |
| Estimates.SlowStart | internal/peer/reliable.go:425-434 | Below the threshold the window grows by exactly what is acknowledged, so that a window's worth doubles it, up to 64 segments |
| Estimates.AvoidanceAtMost | internal/peer/reliable.go:425-434 | Above it a window's worth of acknowledgments adds at most one segment, and a byte for each of them |
| Estimates.AvoidanceAtLeast | internal/peer/reliable.go:425-434 | And, unless the limit is reached, at least that much less what rounding and growing meanwhile take |
| ReliableTransports.ReliableTransport.Queue | internal/peer/reliable.go:108-132 | Queues exactly the fragments of the payload with consecutive numbers, or reports the first check that fails and changes nothing |
| ReliableTransports.ReliableTransport.CanQueue | internal/peer/reliable.go:134-154 | The error of the first failing check, none if the payload may be queued |
| ReliableTransports.ReliableTransport.NextSend | internal/peer/reliable.go:156-167 | The reservation the specification chooses, acknowledgments and data taking turns; nothing changes |
| ReliableTransports.ReliableTransport.NextPacket | internal/peer/reliable.go:169-195 | An expired fragment first, else a new one that fits the congestion window and the 64-fragment limit |
| ReliableTransports.ReliableTransport.OldestByChannel | internal/peer/reliable.go:175-184 | The lowest transmitted number waiting on each channel |
| ReliableTransports.ReliableTransport.NextFragment | internal/peer/reliable.go:197-208 | The first eligible fragment of the first channel in turn that has one |
| ReliableTransports.ReliableTransport.NextAck | internal/peer/reliable.go:278-295 | The first channel in turn with an acknowledgment due |
| ReliableTransports.ReliableTransport.Commit | internal/peer/reliable.go:362-389 | The new state is the specified one: back off once for a fresh timeout, freeze the rest of the wave, mark the fragment, move the cursors |
| ReliableTransports.ReliableTransport.FreezeExpired | internal/peer/reliable.go:369-375 | Every fragment expired at this instant becomes pending, no other changes |
| ReliableTransports.ReliableTransport.Reject | internal/peer/reliable.go:391-403 | Only cursors and the preference change |
| ReliableTransports.ReliableTransport.Receive | internal/peer/reliable.go:210-276 | The new state and the messages delivered are the specified ones, malformed and refused fragments included |
| ReliableTransports.ReliableTransport.Store | internal/peer/reliable.go:250-266 | The fragment enters its assembly and the window, and the counters grow by it |
| ReliableTransports.ReliableTransport.Assemble | internal/peer/reliable.go:495-501 | The fragments joined in index order |
| ReliableTransports.ReliableTransport.ConsumeFragmentAck | internal/peer/reliable.go:405-434 | Exactly the named fragments leave; round trips are sampled from fragments sent once; the window grows by slow start or congestion avoidance |
| ReliableTransports.ReliableTransport.UpdateRTT | internal/peer/reliable.go:436-450 | The estimator of RFC 6298 section 2, clamped |
| ReliableTransports.ReliableTransport.RemoveAssembly | internal/peer/reliable.go:452-461 | The assembly and its share of the counters are gone |
| ReliableTransports.ReliableTransport.DeliverOrdered | internal/peer/reliable.go:463-482 | Delivers complete messages from the head on while there are any |
| ReliableTransports.ReliableTransport.DiscardOutboundChannel | internal/peer/reliable.go:306-319 | Filters out the channel's fragments and their bytes |
| ReliableTransports.ReliableTransport.DiscardInboundChannel | internal/peer/reliable.go:321-329 | Removes the channel's assemblies one by one, in any order, and ends at the same state |
| MessageStreams.CompleteIsMessage | internal/peer/reliable.go:495-501 | A complete assembly whose fragments belong to one message is that message, byte for byte |
| MessageStreams.Locate | internal/peer/reliable.go:108-132 | Every sequence number lies in the range of one queued message and of no other |
| ReliableDelivery.CompleteAssembly | internal/peer/reliable.go:230-275 | A complete assembly is the queued message filed under its first number |
| ReliableDelivery.DeliverOrderedReceives | internal/peer/reliable.go:463-482 | Delivering in order extends the delivered prefix by whole messages and loses no fragment kept |
| ReliableDelivery.UnorderedDelivers | internal/peer/reliable.go:267-274 | A message completed on the unordered channel was not delivered before |
| SessionRuns.EveryStateLinked | internal/peer/reliable.go:98-482 | The two-party invariant holds in every state of every run over a network that drops, repeats and reorders |
| SessionRuns.OrderedDeliveryIsPrefix | internal/peer/reliable.go:210-276 | On an ordered channel the messages delivered are always a byte-exact prefix of those queued, in both directions |
| SessionRuns.UnorderedDeliveryIsOnceEach | internal/peer/reliable.go:210-276 | On the file-data channel what is delivered are different queued messages, byte for byte, even when either side discards |
| SessionRuns.NoFragmentIsLost | internal/peer/reliable.go:224-275 | In both directions every fragment ever queued on an ordered channel is waiting at the sender, retained by the receiver, or part of a delivered message |
| Discarding.LostIffDiscarded | internal/peer/reliable.go:321-329 | In every state of every run a file-data number once kept is retained or lies in a delivered message, unless the receiver discarded while it retained that number: then, and only then, it is neither |
| Discarding.LostForEver | internal/peer/reliable.go:224-276 | Once it is neither, its message is never delivered, however the run goes on |
| DiscardingRun.DiscardedRun | internal/peer/file.go:627-649 | A run in which both fragments of a file-data message are kept and yet it is not delivered, because the receiver discarded between them |
| SessionRuns.TakeLosesNothing | internal/peer/reliable.go:405-434 | A fragment leaves the sender only on an acknowledgment of its channel that names it, and the other end has kept it |
| SessionRuns.EverySentPacketIsValid | internal/protocol/reliable.go:100-129 | Every packet handed to the network passes the checks of the receiving end and decodes to itself |
| MessageArrivals.MessageArrives | internal/peer/reliable.go:210-276 | From any state that keeps the accounting: a message none of whose numbers is kept, next in turn on an ordered channel, with room in the budgets, is delivered whole and exactly once when all its fragments arrive in time, in any order and with repeats; on an ordered channel the messages complete behind it follow at once |
| MessageArrivals.GatheringEnds | internal/peer/reliable.go:224-276 | The same from any fragments already held on |
| MessageArrivals.QueuedMessageArrives | internal/peer/reliable.go:210-276 | So it is for every queued message, in both directions, in every state of every run of two ends |
| MessageArrivals.InsideIsInTime | internal/peer/control_flow.go:15-39 | The fragments arrive in time, whatever their order, if the message has at most 64 and its first is less than 64 behind the highest number kept |
| Progress.QueuedIff | internal/peer/reliable.go:108-154 | A payload is queued, all of it at the end, exactly when its channel exists and size, budget and numbers allow it |
| Progress.NeverStuck | internal/peer/reliable.go:156-208 | Whenever anything is outbound there is a data packet to send once all timeouts have passed, and at once if nothing was sent yet |
| Progress.NothingTooSoon | internal/peer/reliable.go:169-195 | Nothing is sent again before its timeout unless an earlier wave froze it, and nothing new beyond the congestion window |
| Progress.OwedIsFound | internal/peer/reliable.go:278-295 | Whenever a channel owes an acknowledgment, one is found |
| Progress.KindsAlternate | internal/peer/reliable.go:156-167 | An acknowledgment owed goes right after a data packet of another channel, and data right after an acknowledgment |
| Progress.NamedLeaves | internal/peer/reliable.go:405-434 | A fragment that was sent leaves as soon as an acknowledgment names it |
| Progress.KeptIsAcknowledged | internal/peer/reliable.go:405-434 | In every state of every run, in both directions: a sent fragment that the other end has kept, less than 64 behind its highest, leaves with the next report from there |
| SendSchedules.OneBackoffPerInstant | internal/peer/reliable.go:362-389 | However many fragments expired at one instant are sent again, in any order and with any failures, they halve the window and double the timeout at most once: exactly once if and only if an accepted send retransmits a fragment not frozen when its turn comes, and not at all if an earlier wave froze them |
| SendSchedules.ReservedWithinOneRound | internal/peer/reliable.go:197-208 | With n channels, one that keeps having a fragment to send again is reserved within n data reservations, whatever else happens |
| SendSchedules.CursorStays | internal/peer/reliable.go:395-403 | Only a data reservation moves the data cursor |
| WindowCoupling.EveryStateCoupled | internal/peer/reliable.go:169-195 | In every run whose first transmissions come in time, that is while every number already sent on the channel is less than 64 ahead, no number on the wire is 64 or more ahead of a transmitted fragment still waiting |
| WindowCoupling.TransmittedStaysInWindow | internal/peer/control_flow.go:15-43 | In such a run a transmitted fragment still waiting is acceptable to the receiver's window or already reported in its bitmap |
| WindowCoupling.LateIsStranded | internal/peer/control_flow.go:31-38 | Conversely, from any reachable state: a first transmission that comes too late, with the packet 64 or more ahead kept by the receiver, leaves a transmitted fragment that the window neither accepts nor reports |
| LateRun.LateHappens | internal/peer/reliable.go:169-195 | A run at whose end number 1 of a channel is about to go out for the first time although number 65 was sent and kept |
| LateRun.StrandedHappens | internal/peer/control_flow.go:31-38 | A run at whose end a transmitted fragment waits that the receiver's window neither accepts nor reports: without the condition on lateness the window coupling is false |
| Overtaking.InOrderIffFirstPasses | internal/peer/reliable.go:185-208 | A first transmission overtakes no earlier fragment exactly when the first unsent fragment of its channel passes both guards itself: it fits the congestion window, and its distance from the oldest in flight, as an unsigned difference, is less than 64 |
| Overtaking.BehindIsBlocked | internal/peer/reliable.go:185-192 | An unsent fragment behind the oldest in flight on its channel is blocked however open the congestion window is, since the difference wraps; only almost 2^64 behind it would pass |
| OvertakingRun.OvertakingHappens | internal/peer/reliable.go:185-208 | A run from the start at whose end the next packet carries number 2 of a channel, before number 1, which does not fit |
| OvertakingRun.BlockedThoughRoom | internal/peer/reliable.go:185-208 | A run at whose end the congestion window has room for a whole fragment, and yet number 3 goes out before number 1 |
| OvertakingRun.StrandedRun | internal/peer/reliable.go:185-208 | A run at whose end number 1 waits at the sender while the receiver's window has left it behind |
| OvertakingRun.TopologyStandsStill | internal/peer/reliable.go:227-229 | However such a run goes on, the ordered topology channel never delivers anything |
| Stranding.NeverDelivered | internal/peer/reliable.go:227-276 | Over every run: once the receiver's highest number is 64 or more ahead of one it has not kept, the message with that number is never delivered on an ordered channel, nor any after it |
| Stranding.BehindForEver | internal/peer/control_flow.go:31-38 | Over every run such a number stays behind and is never kept |
| Overtaking.RoomKeepsOrder | internal/peer/reliable.go:185-194 | As long as no unsent fragment is behind one in flight on its channel, room for a whole fragment in the congestion window keeps the order |
| Stranding.NeverTakenAgain | internal/peer/control_flow.go:31-38 | A number 64 or more behind the highest accepted is never accepted again, whatever arrives |
| FileMessages.ControlRoundTrip | internal/peer/file.go:512-550 | Every valid control message survives the wire |
| FileMessages.ControlDecodesOnce | internal/peer/file.go:525-550 | Only one byte string decodes to a message, and only valid messages are decoded |
| FileMessages.ChunkIff | internal/peer/file.go:552-569 | A payload decodes to a chunk exactly when it is that chunk written down, neither empty nor longer than 32 KiB |
| FileRuns.EveryStateSettled | internal/peer/file.go:288-495 | The agreement invariant holds for every transfer in every state of every run of two clients |
| FileRuns.CompletedMeansDelivered | internal/peer/file.go:421-433 | When the sender's record says completed, the receiver's already does and its file is the source file |
| FileRuns.ReceivedFileIsSource | internal/peer/file.go:348-387 | A completed receiver holds exactly the source file, whatever became of the sender |
| FileRuns.AtMostOneChunkApart | internal/peer/file.go:421-457 | The receiver is level with the sender or exactly one chunk ahead |
| FileRuns.NoChunkIsDropped | internal/peer/file.go:438-457 | A chunk under way is taken, not silently dropped, by a receiver that has not ended |
| FileRuns.NoControlIsDropped | internal/peer/file.go:393-434 | The next control message finds the record in the status it is meant for, unless the transfer has ended |
| FileRuns.NoDigestMismatch | internal/peer/file.go:322-371 | With an unchanging source file no transfer fails its digest |
| FileRuns.WorkingMeansWorker | internal/peer/file.go:273-300 | A live transfer has a worker exactly while it says so |
| FileRuns.EndedStaysEnded | internal/peer/file.go:623-649 | A terminal record never changes again, over any run |
| FileAgreement.SenderHearsAck | internal/peer/file.go:421-433 | An acknowledgment always finds the sender waiting and the receiver one chunk ahead; the last one finds the receiver completed with the source file |
| FileAgreement.ChunkRead | internal/peer/file.go:338-347 | A chunk goes out only when no other chunk and no message is under way and a receiver that has not given up is idle at its offset |
| FileAgreement.ReceiverWrote | internal/peer/file.go:348-374 | A written chunk makes the file the next longer prefix of the source, and after the last one its digest is the offered one |
| FileProgress.EveryStateFlows | internal/peer/file.go:288-495 | In every run in which the transport takes every message, nobody refuses or cancels, no clock runs out, nothing stops, no work fails and only files with good names and sizes are offered, no transfer is given up and no chunk goes missing |
| FileProgress.NoneFails | internal/peer/file.go:288-495 | In such a run no record, at either end, ever ends but by completing |
| FileProgress.QuietIsDone | internal/peer/file.go:288-495 | In such a run nothing gets stuck: a transfer with nothing under way has completed at both ends with the file whole, or its offer awaits an answer, or the other end had no room for it |
| FileProgress.HearsAcceptFlows | internal/peer/file.go:402-414 | An accepted sender reads the first chunk, or waits for the acknowledgment of an empty file |
| FileProgress.ClockEndsIff | internal/peer/file.go:662-684 | The clock ends a transfer exactly when its session is gone, or it is idle and overdue by ten minutes while offered, by two otherwise |
| FileProgress.OfferedIff | internal/peer/file.go:173-230 | A file is offered exactly when no other is on its way out and fewer than 32 transfers are live |
| FileProgress.OfferTakenIff | internal/peer/file.go:465-474 | A new offer is put before the user exactly when fewer than 32 transfers are live |
| FileDelivery.EveryFileCanBeSent | internal/peer/file.go:288-495 | For every file with a good name and size, of any number of chunks, there is a run at whose end both records have completed and the receiver has the file, with one chunk sent for every 32 KiB begun |
| FileTransferRecords.Record.HandleWorkResult | internal/peer/file.go:288-387 | The record, the messages queued and the work started are those the specification computes from the worker's report |
| FileTransferRecords.Record.HandleMeasured | internal/peer/file.go:303-313 | A measured file is offered, or the transfer fails |
| FileTransferRecords.Record.HandleCreated | internal/peer/file.go:314-337 | The created file is accepted, or closed again; an empty file goes straight on |
| FileTransferRecords.Record.HandleRead | internal/peer/file.go:338-347 | A chunk read is queued and the sender waits, or the transfer fails |
| FileTransferRecords.Record.HandleWritten | internal/peer/file.go:348-374 | A chunk written is counted and acknowledged; after the last one the digest is checked and the file closed instead |
| FileTransferRecords.Record.HandleSynced | internal/peer/file.go:375-384 | Completion together with the last acknowledgment |
| FileTransferRecords.Record.HandleControl | internal/peer/file.go:402-437 | Each control message does what its kind and the record's status call for |
| FileTransferRecords.Record.HandleChunk | internal/peer/file.go:438-457 | A chunk is taken only by a receiving, idle record it fits; else dropped |
| FileTransferRecords.Record.AcceptFile | internal/peer/file.go:232-249 | Accepting an offer starts creating the file; otherwise an error and no change |
| FileTransferRecords.Record.RejectFile | internal/peer/file.go:251-259 | Rejecting an offer ends it and tells the sender |
| FileTransferRecords.Record.CancelFile | internal/peer/file.go:261-271 | Cancelling ends a live transfer and tells the other end |
| FileTransferRecords.Record.Expire | internal/peer/file.go:662-684 | A transfer ends when its session is gone or its offer or progress is overdue |
| FileTransferRecords.Record.Finish | internal/peer/file.go:627-649 | Status, reason and time are set, the partial file and queued data of the transfer go |
| FileTransferRecords.OldestEnded | internal/peer/file.go:711-725 | How many records have ended, and one that ended first |
| FileTransferRecords.PruneTransfers | internal/peer/file.go:711-730 | At most 32 ended records stay; no live record is dropped, and none is dropped while an older ended one stays |
| SendFences.MuteFence | internal/media/flow.go:212-258 | After an invalidation has returned generation g with the invalidator registered, no datagram with a non-zero generation other than g is written until the next invalidation begins, across every interleaving |
| SendFences.NothingStaleIsWritten | internal/networking/endpoint/endpoint.go:561-570 | What is written after an invalidation was submitted after it began, unless 2^64 - 1 further invalidations lie between |
| SendFences.GenerationIs | internal/media/flow.go:253-258 | The generation counts invalidations, skipping zero |
| SendFences.SameGeneration | internal/media/flow.go:253-258 | Two counts share a generation exactly when a whole number of cycles lies between them |
| SendFences.FilterProgresses | internal/networking/endpoint/endpoint.go:268-283 | Putting back never blocks, each filter step brings the end closer and no other thread pushes it away |
| SendFences.FanOutIsNeverRefused | internal/media/flow.go:199-210 | While a frame is fanned out its generation is the endpoint's |
| SendFences.FilterKeepsWhatPasses | internal/networking/endpoint/endpoint.go:268-283 | No batch that passes is lost by the filter, whatever the writer takes meanwhile |
| SendFences.InvalidationEnds | internal/networking/endpoint/endpoint.go:260-283 | While the filter runs it can take a step whatever the other threads do, and over any run it takes fewer than a fixed number of them |
| SendFences.NoDeadlock | internal/media/flow.go:199-224 | In every state of every run the flow's mutex is free or its holder can take a step |
| SendFences.TakeOvertakes | internal/networking/endpoint/endpoint.go:268-283 | A batch that the writer takes from a lane overtakes exactly the passing batches that the filter holds while it drains that lane |
| SendFences.OrderIsKept | internal/networking/endpoint/endpoint.go:268-283 | Over any stretch of a run in which nothing is overtaken so, passing batches leave a lane in the order in which they were queued |
| SendFences.OrderIsLost | internal/networking/endpoint/endpoint.go:268-283 | A run in which the batch queued second is in the writer's hand while the first still waits |
| SendFences.AloneIsFresh | internal/networking/endpoint/endpoint.go:268-283 | Run alone, the filter leaves each queue exactly its passing batches in order |
| SendFences.FreshCount | internal/networking/endpoint/endpoint.go:268-283 | Each passing batch is kept as often as it was queued, and nothing else is |
| SendFences.RetainRealtimeSendGeneration | internal/networking/endpoint/endpoint.go:268-283 | The loop computes that queue |
| SendFenceRuns.FrameGoesOut | internal/media/flow.go:181-210 | With nothing under way, a frame submitted under the current generation goes out whole, every datagram of it |
| SendFenceRuns.BegunGoesOut | internal/networking/endpoint/endpoint.go:561-599 | A batch that the fence passes and that is begun goes out whole |
| SendFenceRuns.FenceOpens | internal/media/flow.go:212-258 | Registering an endpoint opens the fence, and after each invalidation it opens again for the next generation |
| SendFenceRuns.QueueingDropsOldest | internal/networking/endpoint/endpoint.go:225-258 | A batch queued comes last and what waits keeps its order before it; only the oldest may go, and must once 64 of voice or 32 of screen video wait |
| SendFences.Endpoint.SendRealtimeBatch | internal/networking/endpoint/endpoint.go:214-258 | Refuses a stale or expired batch, else queues it, dropping the oldest of a full queue |
| SendFences.Endpoint.SetRealtimeSendGeneration | internal/networking/endpoint/endpoint.go:260-266 | Stores the generation and filters both queues |
| SendFences.Endpoint.WriteRealtimeDatagram | internal/networking/endpoint/endpoint.go:561-599 | Drops a stale or expired batch whole, else writes its next datagram |
| SendFences.Flow.SubmitSend | internal/media/flow.go:181-195 | A frame is accepted exactly when it has a payload and carries the current generation, and replaces one that waits |
| SendFences.Flow.InvalidateSend | internal/media/flow.go:212-224 | The generation advances, the waiting frame goes, and the endpoint's queues hold nothing stale afterwards |
| SendFences.Flow.ConsumeSend | internal/media/flow.go:199-210 | The waiting frame is handed over under the lock, and every one of its batches is queued: none is refused as stale |
| SendFences.Flow.SetSendInvalidator | internal/media/flow.go:244-251 | Registering announces the current generation at once |
| WriteSchedules.BoundedWait | internal/networking/endpoint/endpoint.go:441-542 | From any point of any run, a lane that always has something to write waits for at most the sum of the other weights, the writer's waits included |
| WriteSchedules.NoWaitPast | internal/networking/endpoint/endpoint.go:464-531 | While a lane always has something to write, the writer does not begin to wait: it waits only after four polls in vain, and these reach every lane |
| WriteSchedules.FairShares | internal/networking/endpoint/endpoint.go:441-542 | With all lanes backlogged any 13 consecutive writes split 8/2/2/1 |
| WriteSchedules.LongRunShares | internal/networking/endpoint/endpoint.go:441-542 | Over any number of turns each lane gets exactly its weight |
| WriteSchedules.FourPollsSuffice | internal/networking/endpoint/endpoint.go:461-512 | Four polls find a lane unless all are empty |
| WriteSchedules.Writer.Select | internal/networking/endpoint/endpoint.go:461-512 | The lane the specification picks, and its cursor |
| WriteSchedules.Writer.TakeFrom | internal/networking/endpoint/endpoint.go:467-503 | A batch begun comes before any queued one and is never overwritten |
| WriteSchedules.Writer.WriteNext | internal/networking/endpoint/endpoint.go:456-549 | One round writes one datagram of one lane, keeps the rest of its batch, and touches no other lane |
| FanoutPlans.PlanIsSmall | internal/peer/fanout.go:137-184 | If any k direct peers reach all coverable listeners, the plan has at most k times H(n) destinations |
| FanoutPlans.PickIsLarge | internal/peer/fanout.go:144-178 | Each pick covers at least 1/k of what remains for any feasible cover of size k |
| FanoutPlans.PlanCovers | internal/peer/fanout.go:137-184 | Exactly the listeners that some direct peer reaches are delivered to |
| FanoutPlans.PlanIsApart | internal/peer/fanout.go:137-184 | Destinations are distinct, lists are duplicate-free and pairwise disjoint |
| FanoutPlans.PlanIsUnique | internal/peer/fanout.go:137-184 | The plan is determined by listeners, direct peers and claims: not by the order in which maps are walked |
| FanoutPlans.Candidate | internal/peer/fanout.go:152-164 | What a forwarder would cover, sorted |
| FanoutPlans.Select | internal/peer/fanout.go:145-168 | The forwarder with the longest candidate list, the first in order among equals |
| FanoutPlans.BuildFanoutPlan | internal/peer/fanout.go:137-184 | The loop ends and builds the greedy plan |
| FanoutPlans.CandidateSizeIs | internal/peer/fanout.go:152-168 | A candidate list is as long as what its forwarder covers, plus one if that is uncovered and claims itself |
| FanoutPlans.SelfClaimMisleads | internal/peer/fanout.go:152-168 | A peer that claims itself is then preferred to one that covers more |
| FanoutPaths.MovedKeepsDelivery | internal/peer/fanout.go:83-122 | Rewriting to active paths takes delivery from nobody |
| FanoutPaths.MovedOnce | internal/peer/fanout.go:83-122 | A bridged target is on its intermediary's list and no other, and the intermediary is a destination |
| FanoutPaths.MovedStaysApart | internal/peer/fanout.go:83-122 | Everyone else stays where they were and lists stay disjoint |
| FanoutPaths.ConstrainedPlanCovers | internal/peer/fanout.go:83-184 | Planning and rewriting together reach every coverable and every bridged listener |
| FanoutPaths.ConstrainFanoutToActivePaths | internal/peer/fanout.go:83-122 | The loops compute that rewriting, whatever order the peers come in |
| FanoutRefreshes.RefreshFanout | internal/peer/fanout.go:23-37 | From any sound topology table and any sessions, planning and rewriting deliver to every listener that a direct peer reaches or that is bridged through one, the bridged ones through that peer alone, with disjoint lists |
| Topologies.Topology.RecordTopologyClaims | internal/peer/bridge.go:25-55 | A snapshot replaces its sender's claims; the plan is marked exactly when the peers the sender currently claims changed; no self-claims |
| Topologies.Topology.ExpireTopology | internal/peer/bridge.go:315-338 | Expired claims and long-unseen unconnected peers go; marked exactly when something went |
| Topologies.Topology.RememberTopologyPeer | internal/peer/bridge.go:340-351 | The zero peer and the local peer are refused; any other is noted as seen |
| Topologies.QuietClaimsKeepPlan | internal/peer/bridge.go:25-55 | Not marking is right: unchanged current claims give the same plan |
| Topologies.WhoStays | internal/peer/bridge.go:315-338 | A connected peer stays however long it was not seen, any other exactly for sixty seconds |
| Topologies.WhichClaimsStay | internal/peer/bridge.go:315-338 | Of a peer that stays, exactly the unexpired claims about peers that stay remain |
| Topologies.ClaimLasts | internal/peer/bridge.go:16-36 | A claim in a snapshot holds for exactly thirty seconds |
| Topologies.SameClaimsSamePlan | internal/peer/fanout.go:137-184 | The plan depends only on who currently claims whom |
| SessionKeys.SwappedIffMirrored | internal/protocol/session.go:20-87 | Two derivations give swapped keys exactly when their hellos mirror each other, and no end sends and receives under one key |
| HandshakeRuns.EveryWorldIsSafe | internal/peer/client_loop.go:501-752 | The handshake invariant holds in every state of every run against a network that replays, reorders and redirects |
| HandshakeRuns.AuthenticatedAgrees | internal/peer/client_loop.go:657-752 | An authenticated session has a mirror image at the other peer: same identifier, mirrored hellos, swapped keys |
| HandshakeRuns.NoncesAreUsedOnce | internal/peer/control_flow.go:50-56 | Two packets under one key and number are the same packet |
| HandshakeRuns.DataIsGenuine | internal/peer/client_loop.go:657-752 | Data taken was sealed by the mirror image, and no packet is taken twice |
| HandshakeRuns.RouteNeedsPong | internal/peer/client_loop.go:670-727 | A session changes its route or becomes authenticated only on a genuine pong for the ping outstanding on that route |
| HandshakeRuns.CurrentRouteIsProven | internal/peer/client_loop.go:670-727 | A session ever authenticated runs on a route on which a pong was taken |
| HandshakeRuns.SmallerPeerInitiates | internal/peer/client_loop.go:501-584 | Every session of the larger peer answers a hello of the smaller one, under the identifier that one chose |
| HandshakeLiveness.PongConfirms | internal/peer/client_loop.go:657-719 | A pong that opens, on the current route of a session the peer has, echoing the ping outstanding there, leaves the session authenticated, active and on that path |
| HandshakeLiveness.PongPromotes | internal/peer/client_loop.go:657-719 | On the candidate's route it leaves the session authenticated and active, on the candidate's path exactly if the session was not authenticated, was silent for more than two and a half seconds, or that path is direct in place of a bridge, or alike and five milliseconds faster |
| HandshakeLiveness.PingIsAnswered | internal/peer/client_loop.go:721-735 | A ping that opens is answered at once under the next number |
| HandshakeLiveness.ProbeTriesPath | internal/peer/client_loop.go:501-511 | A probe by another route makes that path the candidate of the session in use, and it is pinged at once |
| HandshakeLiveness.DataIsTaken | internal/peer/client_loop.go:436-498 | Data that opens on the current route of the active, authenticated session is taken |
| HandshakeLiveness.PingsEverySecond | internal/peer/client_loop.go:619-655 | The current path is pinged exactly when no ping is outstanding or the last is a second old |
| HandshakeLiveness.PeersCanMeet | internal/peer/client_loop.go:501-752 | From any start there is a run at whose end both peers have active, authenticated sessions that mirror each other, on any two paths |
| SessionRecords.SessionRecord.CompleteSessionHello | internal/peer/session.go:83-92 | The remote hello and the ciphers are set together, or neither |
| SessionRecords.SessionRecord.RememberCandidatePath | internal/peer/client_loop.go:246-261 | A path not in use becomes the candidate unless a fresher probe stands |
| SessionRecords.SessionRecord.NextSendSequence | internal/peer/control_flow.go:50-56 | The next number, once each; none after the last |
| SessionRecords.SessionRecord.SendPing | internal/peer/client_loop.go:619-655 | Pings the current and the candidate path under fresh numbers |
| SessionRecords.SessionRecord.HandlePong | internal/peer/client_loop.go:670-712 | Only a pong that answers the ping of its route counts; then the route is confirmed or promoted |
| SessionRecords.SessionRecord.HandlePing | internal/peer/client_loop.go:721-735 | Answered on its own path; refreshes only a session already confirmed |
| SessionRecords.SessionRecord.ShouldPromotePath | internal/peer/client_loop.go:321-332 | A stale path always gives way; a healthy direct path never gives way to a bridge; and having moved, a healthy session does not move back to the path it left |
| ScreenFragments.FragmentRoundTrip | internal/peer/screen_video.go:232-298 | Every payload of an encoded chunk decodes to its part of the chunk with the chunk's metadata |
| ScreenFragments.FragmentDecodesOnce | internal/peer/screen_video.go:263-298 | A payload that decodes is the only one for its fragment |
| ScreenVideos.EveryRunDelivers | internal/peer/screen_video.go:564-632 | In every state of every run retained bytes equal the sum over assemblies and stay within 4 MiB, and each stream delivered only the sender's chunks, byte for byte, with rising identifiers since its state was last dropped |
| ScreenVideos.IdentifiersRise | internal/peer/screen_video.go:564-632 | Between any two points of a run without a drop of the stream's state, its deliveries have rising identifiers |
| ScreenVideos.DeliversAgain | internal/peer/screen_video.go:634-641 | After a drop nothing is remembered: whatever chunk of one fragment arrives next is delivered, even one delivered before |
| ScreenVideos.RepeatedAfterEnd | internal/peer/room_datagram.go:105-123 | A run in which a chunk is delivered, the stream's state dropped, and the chunk delivered again |
| ScreenVideos.AcceptGenuine | internal/peer/screen_video.go:564-632 | Whatever order and however often genuine fragments arrive, a delivered chunk is the sender's and newer than all before |
| ScreenVideos.AcceptValid | internal/peer/screen_video.go:564-632 | Whatever is evicted to make room, the books balance and every assembly stays good |
| ScreenVideos.AtMostTwo | internal/peer/screen_video.go:566-576 | A stream has at most two chunks under assembly |
| ScreenVideos.FragmentFits | internal/peer/screen_video.go:593-608 | A new fragment always fits its chunk: the overflow check cannot fail |
| ScreenVideos.WholeSize | internal/peer/screen_video.go:609-631 | All fragments together are the whole chunk: the length check cannot fail |
| ScreenDelivery.ChunkArrives | internal/peer/screen_video.go:564-632 | Over every run: when all fragments of a chunk that is wanted arrive, in any order and with repeats, each less than 750 ms after the first, and meanwhile no expiry or eviction hits it, its stream does not end, no chunk two or more ahead arrives and no newer one is delivered, exactly that chunk joins what was delivered, exactly once |
| ScreenDelivery.HeldOrDelivered | internal/peer/screen_video.go:564-632 | Throughout, the fragments that have arrived are held, or they were all and the chunk is delivered |
| ScreenDelivery.LateFragmentDrops | internal/peer/screen_video.go:585-592 | A fragment 750 ms after the first or later takes the whole assembly with it |
| ScreenDelivery.EvictsOnlyForRoom | internal/peer/screen_video.go:681-706 | Nothing is evicted while what is held and the new fragment fit four mebibytes |
| ScreenReceivers.ScreenReceiver.MakeRoom | internal/peer/screen_video.go:681-706 | The eviction loop ends, always makes room, never evicts the current chunk, and evicts the oldest first |
| ScreenReceivers.ScreenReceiver.AcceptFragment | internal/peer/screen_video.go:564-632 | The table and the chunk delivered are those the specification computes for what was evicted |
| ScreenReceivers.ScreenReceiver.MoveOn | internal/peer/screen_video.go:569-576 | Older chunks but the one before are given up |
| ScreenReceivers.ScreenReceiver.RemoveChunk | internal/peer/screen_video.go:719-726 | The assembly and its bytes leave the table |
| FrameQueues.ReadsInOrder | internal/audio/frame_queue.go:28-51 | Under every interleaving, with a capacity that divides 2^64, the frames read are those committed first, in order, across counter wrap too |
| FrameQueues.SlotsAreOwned | internal/audio/frame_queue.go:28-51 | No slot belongs to both threads, and the reader's slot holds the next frame committed |
| FrameQueues.LookingFinds | internal/audio/frame_queue.go:28-51 | A producer that looks gets a slot exactly when the ring is not full, a consumer exactly when a frame is there |
| FrameQueues.WrapKeepsSlot | internal/audio/frame_queue.go:28-51 | If the capacity divides 2^64 wrapping keeps every slot |
| FrameQueues.WrapNeedsDivisor | internal/audio/frame_queue.go:28-51 | With any other capacity the slot jumps when the counter wraps |
| FrameQueues.FrameQueue.AcquireWrite | internal/audio/frame_queue.go:28-35 | A slot exactly when the queue is not full |
| FrameQueues.FrameQueue.CommitWrite | internal/audio/frame_queue.go:37-39 | The frame joins the end of the queue |
| FrameQueues.FrameQueue.AcquireRead | internal/audio/frame_queue.go:41-47 | A slot exactly when the queue is not empty; it holds the oldest frame |
| FrameQueues.FrameQueue.ReleaseRead | internal/audio/frame_queue.go:49-51 | The oldest frame leaves |
| AudioCallbacks.FramesAreBlocks | internal/audio/callbacks.go:18-71 | Every published frame is a whole block; it is all zero, and says so, exactly when any of its input was muted |
| AudioCallbacks.CutsDoNotMatter | internal/audio/callbacks.go:18-71 | A callback with a reference of its own length may be cut in two anywhere without changing the stream of inputs that the frames are cut from |
| AudioCallbacks.Capture | internal/audio/callbacks.go:18-71 | Any callbacks in a row publish exactly the frames of their stream |
| AudioCallbacks.CaptureAssembler.Write | internal/audio/callbacks.go:18-71 | A callback appends its samples to the stream that the frames are cut from |
| Playbacks.BlockIsItsFrame | internal/audio/callbacks.go:88-126 | Block k plays a frame with index k, or silence |
| Playbacks.OnTimeIsPlayed | internal/audio/callbacks.go:88-126 | If frames arrive by rising index, each one in time for its block is played |
| Playbacks.PlaybackReader.Read | internal/audio/callbacks.go:88-126 | A callback gets the next samples of that stream, however callbacks are cut |
| PortMappings.Mapper.Run | internal/networking/portmap/portmap.go:188-263 | Against any router: AddPortMapping only after a lookup of that port found nothing or this run's token; DeletePortMapping only right after a token match; every published mapping was confirmed by a matching lookup for a finite lease and is unexpired; at the end, for every request that was not refused, a later lookup showed that the port is not this run's or its removal was begun |
| PortMappings.Mapper.Turn | internal/networking/portmap/portmap.go:188-263 | If the first gateway found grants and confirms, knows the external address, and nothing is cancelled or runs out meanwhile, the turn publishes exactly that mapping |
| PortMappings.Mapper.AttemptPort | internal/networking/portmap/portmap.go:360-432 | A mapping is confirmed only by a matching lookup with a finite lease, to expire at most the smaller lease after the request started |
| PortMappings.Mapper.Create | internal/networking/portmap/portmap.go:309-358 | At most five ports are tried; a mapping without external address is taken back; nothing but the mapping returned may be left on the router |
| PortMappings.Mapper.Establish | internal/networking/portmap/portmap.go:265-307 | Gateways are tried in turn, and no further one where the outcome is unclear; if the first one grants and confirms, exactly its mapping is held and advertised |
| PortMappings.Mapper.Refresh | internal/networking/portmap/portmap.go:434-488 | A mapping is given up exactly when a lookup shows it lost or permanent; it is advertised anew only with the address just asked for, and is when the gateway still has it, grants and confirms it again and knows its address |
| PortMappings.Mapper.DeleteOwnedMapping | internal/networking/portmap/portmap.go:583-598 | Looks up first and deletes only this run's mapping |
| PortMappings.Mapper.PublishState | internal/networking/portmap/portmap.go:627-633 | The snapshot shows the mapping exactly while it is advertised and unexpired |
| PortMappings.RefreshLeavesTime | internal/networking/portmap/portmap.go:635-642 | A renewal is due at once exactly when three fifths of the lease or less are left, and otherwise leaves that much |
| Bencodes.ParseIff | internal/networking/discovery/tracker/bencode.go:361-413 | A value is read exactly when one within the depth, length and integer limits with strictly ordered keys is written there, and it is the only one |
| Bencodes.Decoder.SkipValue | internal/networking/discovery/tracker/bencode.go:361-413 | Stepping over a value ends, succeeds exactly when one can be read, and stops right behind it |
| Bencodes.Decoder.ParseRawString | internal/networking/discovery/tracker/bencode.go:282-315 | A string is read exactly when its canonical length, a colon and that many bytes stand there |
| Bencodes.Decoder.ParseRawInteger | internal/networking/discovery/tracker/bencode.go:324-359 | An integer is read exactly when a canonical 64-bit one stands there |
| Bencodes.ReadTextIff | internal/networking/discovery/tracker/bencode.go:282-315 | Reading a string inverts writing one, both ways |
| Bencodes.ReadNumberIff | internal/networking/discovery/tracker/bencode.go:324-359 | Reading an integer inverts writing one, both ways |
| Decimals.ParseNatIff | internal/networking/discovery/tracker/bencode.go:290-300 | Each number is accepted in exactly one form |
| Decimals.SignedIsShort | internal/networking/discovery/tracker/bencode.go:347-349 | No 64-bit integer is longer than the limit of 20 characters |
| TrackerResponses.BodyParses | tracker/src/index.js:306-335 | Reading the server's body for up to fifty peers gives the usable ones, each once, IPv4 first |
| TrackerResponses.BodyRoundTrip | tracker/src/index.js:306-335 | Up to fifty distinct usable peers, none an IPv4-mapped address, all arrive in order, IPv4 first |
| TrackerResponses.AcceptedIsGood | internal/networking/discovery/tracker/protocol.go:24-56 | Whatever a server sends, an accepted response has a valid interval and at most fifty distinct usable peers |
| TrackerResponses.AppendCompactPeers | internal/networking/discovery/tracker/protocol.go:24-56 | The loop gathers the unpacked peers and the set of seen ones stays the set of kept ones |
| TrackerResponses.CompactPeers | tracker/src/index.js:320-329 | The loop packs the peers whose address has the given size |
| TrackerResponses.ParseHTTPAnnounceResponse | internal/networking/discovery/tracker/bencode.go:27-107 | The decoder reads exactly the specified response |
| TopologyMessages.MessageRoundTrip | internal/peer/topology_message.go:80-181 | Encoding succeeds exactly for valid messages, and decoding gives them back with addresses unmapped |
| TopologyMessages.DecodedIsWritten | internal/peer/topology_message.go:132-198 | Whatever decodes is valid and unmapped; encoding it gives the payload back exactly when it is as long |
| TopologyMessages.EncodeTopologyMessage | internal/peer/topology_message.go:80-111 | The loops write the specified bytes or report an invalid message |
| TopologyMessages.DecodeTopologyMessage | internal/peer/topology_message.go:132-171 | The loop reads the whole payload, never past its end |
| TopologyMessages.ParseTopologyAddress | internal/peer/topology_message.go:173-198 | One address is read, or none, and the offset advances past it |
| Numerals.ConvertBack | internal/invite/base58.go:24-72 | Rewriting digits in another base and back is the identity, leading zeroes included |
| Base58.DecodeEncode | internal/invite/base58.go:24-72 | Every non-empty byte string survives encoding |
| Base58.EncodeDecode | internal/invite/base58.go:24-72 | Every text that decodes is the encoding of what it decodes to |
| Base58.AlphabetInOrder | internal/invite/base58.go:8-22 | Character arithmetic agrees with the alphabet |
| Base58.EncodeBase58 | internal/invite/base58.go:24-46 | The loops over the big number compute that encoding |
| Base58.DecodeBase58 | internal/invite/base58.go:48-72 | The loops compute that decoding |
| Invites.ParseEncode | internal/invite/invite.go:46-98 | Every valid invite survives encoding and parsing |
| Invites.ParsedTextIsCanonical | internal/invite/invite.go:46-86 | A text that parses is, up to space and prefix, the one text of its invite |
| Invites.CanonicalCheckNeverRejects | internal/invite/invite.go:58-64 | The check for canonical text never rejects a text that decodes |
| Invites.EncodedSize | internal/invite/base58.go:24-46 | An encoding has at most seven characters for every five bytes begun, so the length limit never rejects a valid invite |
| Invites.OneByteIsDetected | internal/invite/invite.go:101-114 | The checksum detects every change of a single byte |
| Invites.BurstIsDetected | internal/invite/invite.go:101-114 | The checksum detects every change of bits that all lie within sixteen in a row |
| InviteChecksums.ByteAtOnce | internal/invite/invite.go:101-114 | Eight shifts of the register are one step of the byte-wise form for the generator x^16 + x^12 + x^5 + 1 |
| InviteChecksums.StandardVector | internal/invite/invite_test.go:32-36 | The checksum of the standard test vector is the published 0x29b1 |
| Invites.InviteCRC16 | internal/invite/invite.go:101-114 | The loop over the register computes the checksum |

## Left out

- Channels, fragments, assemblies and transfers inside a transport or client are values held in maps and sequences of the object, so aliasing between them is not modelled.
- Screen assemblies live in one map keyed by stream and chunk instead of a map of maps.
- Durations, clocks, counters of bytes and lease arithmetic are unbounded integers; sequence numbers, windows and generations are 64-bit words with their wrap-around.
- Real cryptography: keys are injective terms, sealed packets and hellos cannot be forged, and no random number is drawn twice.
- MessageArrivals.QueuedMessageArrives: the fragments of one message in a row, with whatever acknowledgments they carry; packets of other messages between them, which may use up the shared budgets, and the fairness of the network are not part of it.
- FileDelivery.EveryFileCanBeSent: one transfer by itself; with several at once the ends may stop each other's by discarding retained data.
- SendFenceRuns.FrameGoesOut: one frame with nothing else queued, and no batch expires.
- The packet-level replay window is modelled with the handshake; in transport runs a repeated packet may reach the transport itself, which is the harder case.
- WindowCoupling.TransmittedStaysInWindow: assumes that no fragment is first sent 64 or more numbers late, which the source does not ensure; with a late one it is false.
- HandshakeRuns.AuthenticatedAgrees: the room has two members; a third one's sessions are not modelled.
- SessionRecords.SessionRecord.CompleteSessionHello: does not create the session's reliable transport.
- SendFences.MuteFence: there is one endpoint; registering the invalidator of another one is not modelled.
- FileRuns.EveryStateSettled: each transfer has a file of its own; two transfers writing to one path are not modelled.
- FileRuns.CompletedMeansDelivered: the source file does not change while it is being sent; the deletion of partial files is a step that may leave any bytes behind.
- SendFences.Flow.InvalidateSend: the wake-up notifications are not modelled, and `Reset`, which also drops received frames, is the same step of the fence.
- Received audio in the flow, its fairness and its jitter buffer; mixing, loudness, echo cancellation and Opus.
- AudioCallbacks.CaptureAssembler.Write: samples are reals, and the queue's fullness and the generation at each frame start come from outside.
- Playbacks.PlaybackReader.Read: the wake-up signal and the mute switch's own state are parameters or left out.
- FanoutRefreshes.RefreshFanout: sending the assignments, and keeping the old plan when one cannot be queued, are left out.
- FanoutPlans.PlanCovers: coverage of the plan, not end-to-end delivery, which also depends on which copy a forwarder sees first; the codec of assignments is left out.
- bridgePathTo and the choice of relay paths.
- PortMappings.Mapper.Run: discovery, waits and cancellation come from outside, error texts are dropped, and a gateway's local address does not change during a run; the endless loop is cut off after any number of turns.
- PortMappings.Mapper.DeleteOwnedMapping: a removal that the router refuses or does not answer is not tried again, as in the source.
- TrackerResponses.ParseHTTPAnnounceResponse: peers listed as dictionaries, with host names, are recognised but not read; which addresses are routable is a parameter.
- TrackerResponses.AcceptedIsGood: says nothing about a response whose peers are listed as dictionaries.
- ScreenVideos.DeliversAgain: stated for chunks of one fragment; packet sequence numbers and their replay window are not part of the model, so any repeat may arrive.
- TrackerResponses.CompactPeers: addresses are byte strings already, not hexadecimal text.
- TopologyMessages.MessageRoundTrip: zones of IPv6 addresses, which encoding drops, are not modelled.
- Invites.ParseEncode: which names are valid is a parameter, and text is ASCII.
- File-name, nickname and codec-name checks, hints for discovery, STUN, mDNS, DNS, sockets, HTTP, the user interface.
- The Durable-Object storage of the tracker and its choice of peers to return.
