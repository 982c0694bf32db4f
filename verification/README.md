# Local Peer Connections: a verified model

This project models the protocol core of a library that connects nearby devices over
Bluetooth and elects one of them as coordinator of a group, and proves properties of
that model with Dafny 4.11. `dafny verify dfyconfig.toml` checks everything.

What is modelled, and where:

- **Routed reliable delivery.** A source sends through the coordinator to a destination;
  each hop has its own acknowledgement, and one message identifier survives coordinator
  migration. The mutable tables are classes (`RelayTable`, `RelayController`, `Dedup`,
  `MemberRouter`); `RelayRuns` is one coordinator over any run; `RoutedDelivery` is a
  system of any number of peers and hops in flight in which every awaited submission may
  fail. `RouteReports` says who is told of each result and `StepOutcomes` what single
  events bring about; about its runs there are `DeliverySafety`, `HandOvers`,
  `AckSoundness`, `RoutedGuarantees`, `DroppedDeliveries`, `RelayShape`, `Provenance`,
  `Rerouting`, `StuckHeads`, `StaleTraffic`, `StaleAnswers`, `HandleLaws`, `LostSignals`,
  `Cancellation`, `QueuedSends` and `SentReports`.
- **Checkpoint replication and durability.** `CheckpointHandle`, `CheckpointQueue` and
  `CheckpointGroup` are the objects; `CheckpointReplication` is the system of one
  coordinator and its peers; `CheckpointFlights` and `CheckpointLimits` say what it
  retains, exactly when a queue stops for good and whose bytes it offers;
  `CheckpointDurability` puts a receiver at every peer.
- **Chunks and reassembly.** `Chunks`, `Reassembly`, `ChunkReassembler`,
  `ReassemblyRuns`, `ReassemblyGuarantees`, `TransportGenerations`, and the checkpoint
  receiver in `CheckpointReceive` and `CheckpointReceiving`.
- **GATT link layer.** `GattFragment`, `GattStream`, `GattBackend`, `NotificationQueue`
  and their composition `GattLink`; the Android tables (`AndroidLinks`, `AndroidRuns`,
  `AndroidOutcomes`, `AndroidPlugin`) and the Apple tables (`AppleServers`, `AppleRuns`,
  `AppleOutcomes`, `AppleServerPlugin`, `AppleCentral`, `AppleGenerations`).
- **ACK retention** (`AckRetention`, `AckRuns`, `AckGuarantees`), **election**
  (`Election`, `ElectionRuns`), **merge and reconciliation** (`MemberRecords`,
  `SplitBrain`, `GroupMerge`, `MergeReceiver`).

Where the source updates an object in place the model has a class whose methods are
proved against a function of the old state; the theorems are about that function and
about runs of it. Every platform callback, method call, frame or timer is one atomic
step. Time is a number passed to a step. Identifiers of 16 bytes stand for the number
their bytes spell, which orders them as the source does. Platform and application
answers are parameters of the steps. Two assumptions about Android's stack are built in:
no client callback arrives for a handle after that handle was closed, and
`onNotificationSent` comes once for each accepted notification of a current endpoint.

## What the proofs found

Some promises do not hold of the code as it stands. Each has a lemma with a concrete run
and, where the code can keep the promise, the exact condition.

- An old coordinator that is answered as stale can complete a handle although nothing was
  delivered. After any run, an answer is safe if the operation is accepted, or that
  coordinator has given the hop up, or no ACK of the hop can complete the handle any more;
  otherwise it is unsafe if the coordinator waits for the hop or can be brought back to it
  (`StaleAnswers.AnswerIsSafeIff`: safe means that no continuation without further
  answers ends in a false report). Having lost authority is not enough: the runtime drops
  the relays but keeps waiting for old final hops (lib/src/runtime.dart:6706-6747), so
  regaining authority completes the handle (`StaleTraffic.RegainedAuthorityGoesWrong`).
  Nor is it enough that the wait has ended: a RESUME with used-up retries ends it and
  keeps the relay (lib/src/runtime.dart:6594-6596), and the result of an old hop of another
  relay of the pair sends it again (`StaleAnswers.ForgottenHopGoesWrong`, and a run into
  that state). The runtime does not answer stale traffic today.
- REMOTE_ACKNOWLEDGED does not mean delivered. The hop is acknowledged
  (lib/src/runtime.dart:6267-6284), or the delivery ACK sent, while the operation still
  waits for its session, which drops it iff it is closed or lacks the source when its turn
  comes (`RoutedGuarantees.DroppedIffRefused`).
- Nor does it mean that the session was ever asked. The destination's router accepts the
  operation, then the generic ACK is awaited, then the session is called; when the ACK
  cannot be submitted, the frame handler swallows the error (lib/src/runtime.dart:5653-5664),
  and the next copy of the hop is a duplicate that is acknowledged. The operation is taken
  over iff some arrival that was accepted as new could be answered
  (`HandOvers.TakenOverIff`, `DroppedDeliveries.LostToFailedAck`).
- A member's cancelled send can still go out. Rerouting and the resubmission after a
  reconnection walk a snapshot and await each submission (lib/src/runtime.dart:6670, 6794);
  nothing asks again whether the send is live. It happens iff the operation is in the unsent
  rest of such a loop, or of its own send call, at the cancellation
  (`Cancellation.SentAgainIff`). The handle stays CANCELLED all the same
  (`HandleLaws.CancelledForever`).
- So can a coordinator's own, although nothing of it was sent before, which the written
  rules (section 36.8) exclude: cancelling leaves the relay table alone
  (lib/src/runtime.dart:5244-5252), so a send that queues behind another is forwarded when
  that one ends. With the loops above this is all: `QueuedSends.GoesOutIff`.
- A relay can block its pair. Cancelling a coordinator's own acknowledged send that was
  already forwarded ends the wait and keeps the relay; so do a RESUME with used-up retries
  and a forward that cannot be submitted. Later sends of the pair then wait until the
  destination leaves or the authority is lost (`StuckHeads.CancelledHeadBlocks`; exactly
  when, `StuckHeads.HeadReleasedIff`).
- A send whose submission fails stays in the table under its FAILED handle
  (lib/src/runtime.dart:5226-5238) and is rerouted with the others; a signal whose generic
  ACK cannot be submitted takes the send away and leaves its handle undecided
  (lib/src/runtime.dart:6288-6315, `LostSignals.UnansweredSignalNeverSucceeds`).
- The runtime cancels a send without naming a session (lib/src/runtime.dart:5244-5252;
  lib/src/protocol/group_member_router.dart:209-225 then takes none), so no tombstone is
  kept and no late signal gets a generic ACK
  (`MemberRouter.RuntimeCancelForgets`). In general it gets one iff some session named at
  the cancellation has not ended (`MemberRouter.LateSignalAfterCancel`).
- A coordinator's own reliable-ordered send never reports SENT_TO_TRANSPORT
  (lib/src/runtime.dart:6516-6521); any other accepted one still can, while
  another open peer can take it (`SentReports.CanReportSentIff`).
- A checkpoint queue can stay busy with nothing in flight, which blocks every later
  publication that needs the peer (lib/src/runtime.dart:5434-5456,
  `CheckpointFlights.EndingWedgesIff`, `CheckpointLimits.WedgedBlocksDurability`).
- Sequence numbers to one peer start again at 1 whenever its queue was idle
  (`CheckpointLimits.NumberingGoesOnIff`).
- A coordinator that regains authority can send another coordinator's checkpoint under
  its own old publication (`CheckpointLimits.OffersForeignBytes`). The bytes are those of
  the publication iff the session took over nothing since, or last took over those very
  bytes (`CheckpointLimits.OffersPublishedIff`).
- Reconnecting clears the reassembler of routed hops but not that of checkpoints
  (lib/src/runtime.dart:5170-5173), although the library's written rules (section 26.7)
  forbid merging chunks from before and after (`TransportGenerations.ChangeSafeIff`,
  `CheckpointHopsMix`). The bytes are the sender's all the same.
- Frames are handled without waiting for each other (lib/src/runtime.dart:5163-5164), so a
  checkpoint repeated during an awaited validation is committed twice
  (`CheckpointReceive.CommitsOnceIff`, `OverlapCommitsTwice`).
- An ACK deadline can run out early: a retry is reported with the time of the poll, and
  the hop replay after RESUME reports a submission whatever became of its frames
  (`AckGuarantees.TimerKeepsItsPromiseIff` and the two runs after it).
- Heartbeats are not kept 100 ms apart when a poll is late, against the comment at
  lib/src/protocol/election.dart:142-143 (`Election.SpacingKeptIff`). A higher candidate,
  once seen, blocks a peer for the whole election, where
  the written rules (section 10.9, step 8) only ask for 500 ms without one
  (`Election.HigherSeenNeverPromoted`).
- Whether a list of converging groups is accepted depends on its order
  (`GroupMerge.SuccessDependsOnOrder`), unless every two of them can merge: exactly then
  every order succeeds (`GroupMerge.EveryOrderSucceedsIff`). The winner does not.
- Reconciling three views is associative except beside an empty middle view
  (`SplitBrain.AssociativeIff`).
- An Android client write that the platform refuses on an idle link leaves nothing
  outstanding, so no completion wakes the sender (`AndroidRuns.RefusedIdleIff`).
- On Apple a disconnect callback leaves a marker unless a replacement is expected. The end
  of the next connection is reported iff, when it was opened, there was no marker and no
  grace period that still runs at its end; otherwise the dead connection stays current
  (`AppleCentral.NextEndReportedIff`). A close after the callback clears the marker; a
  close before it, or none, leaves it (`AppleCentral.MarkerAfterClose`).

## Model

| member | source | states |
|---|---|---|
| RelayTable.CoordinatorRelayTable.Admit | lib/src/protocol/group_relay.dart:72-125 | the new table, result and both reservation indexes for a fresh relay, a duplicate, a collision, a failed destination and an exhausted cap; `Valid` keeps each index equal to the sum over the retained relays |
| RelayTable.CoordinatorRelayTable.Complete | lib/src/protocol/group_relay.dart:127-136 | removes exactly that relay and returns exactly its reservation; a relay already gone changes nothing |
| RelayTable.CoordinatorRelayTable.RemoveWhere | lib/src/protocol/group_relay.dart:176-187 | one pass keeps exactly the relays out of scope, in order, and returns the others, with both indexes still equal to the sums |
| RelayTable.CoordinatorRelayTable.ForwardableForDestination | lib/src/protocol/group_relay.dart:153-166 | the relays to send again after RESUME are the heads of their pairs to that destination, in table order |
| RelayTable.WithoutReleases | lib/src/protocol/group_relay.dart:189-195 | releasing one relay lowers the bytes and messages reserved for its destination by its own reservation and no other |
| RelayTable.AdmissionDecided | lib/src/protocol/group_relay.dart:72-125 | which admission gets which outcome, on the operation, the members, the readiness and the relays held; nothing is taken except a new relay that fits, and it goes out at once iff its pair holds no other |
| RelayController.CoordinatorRelayController.Admit | lib/src/protocol/coordinator_relay_controller.dart:44-121 | the whole outcome of an admission: state afterwards and every action, for each branch |
| RelayController.CoordinatorRelayController.FinalHopSubmitted | lib/src/protocol/coordinator_relay_controller.dart:122-141 | releases an ordered relay, names the status for its source and the next head to forward |
| RelayController.CoordinatorRelayController.FinalHopAcknowledged | lib/src/protocol/coordinator_relay_controller.dart:142-159 | releases an acknowledged relay and issues its delivery ACK, or the local result, and the next head |
| RelayController.CoordinatorRelayController.FinalHopFailed | lib/src/protocol/coordinator_relay_controller.dart:160-178 | releases a failed relay and tells exactly that failure to whoever originated it: one signal to a remote source, FAILED on the own handle |
| RelayController.CoordinatorRelayController.DestinationGone | lib/src/protocol/coordinator_relay_controller.dart:187-201 | releases every relay to the destination with one failure each, and no other |
| RelayController.CoordinatorRelayController.DestinationResumed | lib/src/protocol/coordinator_relay_controller.dart:179-186 | names the heads again and neither frees nor reserves anything |
| RelayController.CoordinatorRelayController.AuthorityLost | lib/src/protocol/coordinator_relay_controller.dart:202-205 | an empty table, empty reservations, no action |
| RouteReports.RefusalIsReported | lib/src/protocol/coordinator_relay_controller.dart:72-121 | an admission that is refused because the destination is no member, is not ready or has no room tells the source exactly that, with the generic ACK of its hop |
| RouteReports.AdmissionIsReported | lib/src/protocol/coordinator_relay_controller.dart:83-121 | an accepted admission says exactly this: a delivery here with its delivery ACK or status, nothing for a known relay, and for a new one the forward iff its pair holds no other |
| RouteReports.FailureIsReported | lib/src/protocol/coordinator_relay_controller.dart:160-178 | for every retained relay and every failure: a remote source gets one signal that names its operation and the failure, an own operation gets FAILED and no signal, the relay alone goes and the oldest other of its pair is next |
| RouteReports.SubmissionIsReported | lib/src/protocol/coordinator_relay_controller.dart:122-141 | a submitted ordered hop is reported as sent to its source or on the own handle, and the oldest other of the pair is next; for an acknowledged operation it is an error |
| RouteReports.AcknowledgementIsReported | lib/src/protocol/coordinator_relay_controller.dart:142-159 | an acknowledged hop is answered with the delivery ACK of its operation or completes the own handle, and the oldest other of the pair is next; for an ordered operation it is an error |
| RouteReports.UnknownResultsAreSilent | lib/src/protocol/coordinator_relay_controller.dart:122-178 | a result for a relay that is no longer retained says nothing and changes nothing; a failure that claims success is an error |
| RouteReports.EveryoneIsTold | lib/src/protocol/coordinator_relay_controller.dart:187-201 | a destination that is gone yields one failure for each of its relays, to whoever originated it |
| RouteReports.EveryFailureIsTold | lib/src/runtime.dart:6868-6881 | in every run, when a retained final hop runs out of retries or finds no ready destination at its coordinator, the relay is released and either the failure signal to the source is on its way or the own open handle is FAILED |
| RouteReports.ArrivalIsTold | lib/src/runtime.dart:6246-6266 | an arrived source hop at its coordinator: the generic ACK, and the delivery with its answer, the status, or the retained relay and its forward |
| RouteReports.AcknowledgementIsTold | lib/src/protocol/coordinator_relay_controller.dart:142-159 | the generic ACK of a final hop puts the delivery ACK to the source on its way, or acknowledges the own open handle, and releases the relay |
| RouteReports.SubmissionIsTold | lib/src/runtime.dart:6516-6521 | a submitted ordered final hop releases the relay and puts the status to a remote source on its way |
| RouteReports.OrderedHeadIsResent | lib/src/runtime.dart:6651-6664 | after a RESUME of the destination the oldest relay of a pair goes out again under its MessageId iff it is ordered, and no other relay does |
| RouteReports.DepartureIsTold | lib/src/protocol/coordinator_relay_controller.dart:187-201 | when a destination is gone every relay to it is released, every other pair keeps its order, and every remote source is sent the failure |
| RelayRuns.FinalHopsInAdmissionOrder | lib/src/protocol/group_relay.dart:72-144 | in every run in which results come for forwarded hops only: reservations within the caps; at most one final hop of a pair has its forward action issued and not yet resolved, exactly the oldest retained relay; forwards are issued in admission order |
| RelayRuns.ResumeResendsTheWire | lib/src/protocol/group_relay.dart:153-166 | RESUME names exactly the relays to that destination whose forward is issued and unresolved, as the relays they were |
| RelayRuns.PromotionIsFreshIffHead | lib/src/protocol/coordinator_relay_controller.dart:131-139 | a completion promotes a hop that is not yet on the wire iff the completed relay was the head of its pair |
| Dedup.CompletedGroupMessageDedup.AcceptOperation | lib/src/protocol/group_dedup.dart:11-30 | duplicate, collision or new, and the bounded cache afterwards with the oldest entry evicted |
| Dedup.CacheIsTheWindow | lib/src/protocol/group_dedup.dart:7-30 | after any stream the cache is exactly the last `capacity` deliveries, and a pair is delivered again only after more than `capacity` others |
| Dedup.DeliveredIffOutsideWindow | lib/src/protocol/group_dedup.dart:11-30 | the bound is tight: delivered iff the pair is not among the last `capacity` deliveries |
| Dedup.KnownPairDecided | lib/src/protocol/group_dedup.dart:18-26 | a pair in the window is refused and changes nothing: as a duplicate with the same content, as a collision with any other |
| MemberRouter.GroupMemberRouter.BeginSend | lib/src/protocol/group_member_router.dart:53-69 | registers a send, or the error of each refused case, with the tombstone reservation checked first |
| MemberRouter.GroupMemberRouter.ReceiveDeliveryAck | lib/src/protocol/group_member_router.dart:80-106 | applied, cancelled, unknown or an error, and the tables afterwards |
| MemberRouter.GroupMemberRouter.ReceiveRelayStatus | lib/src/protocol/group_member_router.dart:117-143 | the same for a relay status, with the state each status leads to |
| MemberRouter.GroupMemberRouter.SourceHopTimedOut | lib/src/protocol/group_member_router.dart:203-208 | an acknowledged send fails; anything else is ignored |
| MemberRouter.GroupMemberRouter.CancelSend | lib/src/protocol/group_member_router.dart:209-225 | the send leaves the live table and, when some session could still signal it, gets a tombstone |
| MemberRouter.GroupMemberRouter.TerminateSession | lib/src/protocol/cancellation.dart:50-57 | the session leaves every tombstone and a tombstone without sessions goes |
| MemberRouter.BeginDecided | lib/src/protocol/group_member_router.dart:53-66 | a send is accepted iff there is room for it and its tombstone, it goes between two members and its identifier is new; which check fails first decides the error |
| MemberRouter.LiveSignalDecided | lib/src/protocol/group_routing_send.dart:69-101 | a signal about a live send counts iff the coordinator sends it, it names the pair of the send and it fits the mode; any failure status ends the send as FAILED; exactly that send leaves the table, and otherwise nothing changes |
| MemberRouter.LateSignalDecided | lib/src/protocol/group_member_router.dart:83-150 | a signal about no live send changes nothing: unknown without a tombstone for its destination, cancelled when it fits the tombstone, an error otherwise |
| MemberRouter.TimeoutDecided | lib/src/protocol/group_routing_send.dart:103-112 | a source hop without an ACK fails a live acknowledged send and no other; for an ordered one it is an error |
| MemberRouter.CancelDecided | lib/src/protocol/group_member_router.dart:209-225 | a cancelled live send is given back and leaves the table, and keeps a tombstone iff a session is named and the table has room |
| StepOutcomes.SignalSettles | lib/src/runtime.dart:6288-6316 | an arrived signal that names an open send settles its handle with the state it stands for and changes nothing else, or is refused and changes nothing |
| StepOutcomes.SourceTimeoutFails | lib/src/protocol/group_routing_send.dart:103-112 | the source hop of an open acknowledged send that runs out of retries fails that send and its handle, and no other |
| StepOutcomes.AckEndsWait | lib/src/runtime.dart:6525-6560 | the generic ACK of a source hop, or of a final hop whose authority was lost, ends the wait for it and nothing else |
| StepOutcomes.MemberOriginates | lib/src/runtime.dart:5221-5245 | a member's send call registers and queues the operation, or fails its handle at once without a ready route or without room |
| StepOutcomes.CoordinatorOriginates | lib/src/runtime.dart:5210-5213 | a coordinator's own send fails at once without a ready destination or room; otherwise it is retained, and goes out iff no older own relay to the destination is |
| StepOutcomes.OwnForwardFails | lib/src/runtime.dart:5238-5245 | when the forward of a coordinator's own new send cannot be submitted, the handle fails and the relay stays |
| StepOutcomes.CancelEnds | lib/src/runtime.dart:5244-5252 | a cancellation ends the send, its handle and every wait for its hops, and leaves relays and loops alone |
| StepOutcomes.SubmissionGoesOut | lib/src/runtime.dart:6446-6512 | the next submission of a loop puts the operation on the wire under a new MessageId, and an acknowledged one is then waited for |
| StepOutcomes.FailedSubmissionEnds | lib/src/runtime.dart:5226-5241 | a failed submission ends its loop; only in the send call itself does it fail the handle, and the send stays live |
| StepOutcomes.RerouteQueues | lib/src/protocol/group_member_router.dart:195-199 | a reroute queues the whole operation of every live send it takes, for the committed coordinator; after a change of authority no earlier source hop is waited for |
| StepOutcomes.CommitAdopts | lib/src/runtime.dart:6720-6747 | a committed view replaces coordinator and members and remembers the former coordinator; relays go iff authority is lost, and hops, sends and handles stay |
| StepOutcomes.FailedSubmissionCuts | lib/src/runtime.dart:6380-6424 | when the generic ACK of a source hop fails nothing after it happens; when a later submission fails everything but the forward does, and a forward without a destination is marked to fail |
| StepOutcomes.LeavingAndDropping | lib/src/runtime.dart:6594-6596 | leaving closes the session and changes nothing else; a dropped hop is waited for no longer and nobody is told |
| StepOutcomes.HopIsTaken | lib/src/runtime.dart:6267-6285 | a complete hop from the coordinator of the destination: a new operation is handed over and answered, a known one only answered, a collision neither |
| StepOutcomes.UnansweredHopIsSwallowed | lib/src/runtime.dart:6267-6285 | when the generic ACK of a new acknowledged hop cannot be submitted, the operation stays accepted by the router and is not handed over |
| StepOutcomes.StaleHopIsAnswered | lib/src/protocol/group_destination_router.dart:74-103 | a hop of the immediately previous coordinator is answered and nothing else happens |
| StepOutcomes.SessionTakes | lib/src/group.dart:1076-1107 | the session delivers what was handed over iff it is open, the source is another member and the pair is not in its window |
| MemberRouter.CancelAlwaysHasRoom | lib/src/protocol/group_member_router.dart:53-69 | in every run live sends plus tombstones stay within the tombstone capacity, so a cancellation never fails for room |
| MemberRouter.CancelledStaysCancelled | lib/src/protocol/group_member_router.dart:209-225 | a cancelled send never becomes live again, whatever arrives |
| MemberRouter.LateSignalAfterCancel | lib/src/protocol/group_member_router.dart:87-143 | after a cancellation and any later events, a late delivery ACK or relay status from whoever coordinates by then, in either delivery mode, is classified as cancelled and requires a generic ACK iff some session named at the cancellation has not ended; otherwise it is unknown; it changes nothing |
| MemberRouter.RuntimeCancelForgets | lib/src/runtime.dart:5244-5252 | the runtime names no session when it cancels, so every late signal is unknown and none gets a generic ACK |
| DeliverySafety.AtMostOnceWithinTheWindow | lib/src/protocol/group_destination_router.dart:34-56 | in every run with loss, retransmission, RESUME, migration, reroute and stale traffic, two deliveries of one (source, GroupMessageId) are more than 16,384 deliveries apart |
| RoutedGuarantees.RemoteAcknowledgedMeansAccepted | lib/src/runtime.dart:6221-6302 | in every run whose stale answers meet the state-based condition, REMOTE_ACKNOWLEDGED implies that the destination accepted exactly the operation issued under that identifier; it delivered the operation, has it queued for its session or had it refused iff some arrival was accepted as new and could be answered, and otherwise holds a cache entry alone |
| RoutedGuarantees.SoundWithoutStaleAnswers | lib/src/runtime.dart:6221-6286 | the same without the condition on stale answers for the runtime, which never answers stale traffic |
| HandOvers.TakenOverIff | lib/src/runtime.dart:6267-6284 | over all runs with failing submissions: a destination has delivered, queued or refused an operation iff some arrival was accepted as new and its generic ACK was submitted; it has swallowed it iff some arrival was accepted as new and the ACK failed |
| RoutedGuarantees.AcknowledgedPayload | lib/src/runtime.dart:5190-5241 | from the accepted send call in any run to the acknowledged handle: what the destination accepted, and took over if an arrival could be answered, has the destination, mode, priority and bytes of the call |
| RoutedGuarantees.AcknowledgedMeansDelivered | lib/src/group.dart:1076-1110 | an acknowledged operation is delivered or waits only for the hand-over, if the destination answered some arrival that it accepted as new whenever it failed to answer one, and at every hand-over of the destination its session was open and had the source |
| RoutedGuarantees.DroppedIffRefused | lib/src/group.dart:1076-1088 | in every run an operation is dropped by a session iff at some hand-over of that operation the session was closed or lacked its source |
| DroppedDeliveries.LostAtDestination | lib/src/runtime.dart:6267-6284 | a concrete run: the destination acknowledges the hop, leaves, and its session refuses the operation; the source reports REMOTE_ACKNOWLEDGED |
| DroppedDeliveries.LostAtCoordinator | lib/src/runtime.dart:6391-6415 | the same at a coordinator that is itself the destination, which sends the delivery ACK while the operation waits for its session |
| DroppedDeliveries.LostToFailedAck | lib/src/runtime.dart:5653-5664 | a concrete run without stale traffic: the generic ACK of the first hop fails after the router accepted it, the hop sent again is a duplicate and is acknowledged; the source reports REMOTE_ACKNOWLEDGED, the session is open, has the source and never sees the operation |
| StaleAnswers.AnswerIsSafeIff | lib/src/protocol/group_destination_router.dart:78-104 | after any run whose earlier answers met the condition, one more answer leads to no false REMOTE_ACKNOWLEDGED in any continuation without further answers if the operation is accepted, or the former coordinator has given the hop up, or no ACK of it can complete the handle any more; if none of this holds and the coordinator waits for the hop, or still waits for an old hop of another retained relay of the pair, some continuation ends in one; if it waits for neither, none does, unless an old hop is left of an operation that a member could send again |
| StaleTraffic.UnsafeAnswerGoesWrong | lib/src/protocol/coordinator_relay_controller.dart:142-159 | in any state where a coordinator still waits, an unsafe answer and two ordinary arrivals complete a handle although the destination accepted nothing |
| StaleAnswers.ForgottenHopGoesWrong | lib/src/runtime.dart:6594-6596 | a RESUME with used-up retries ends the wait for a final hop and keeps its relay; when an old hop of another relay of the pair runs out, the hop is sent again and the answer completes the handle falsely |
| StaleAnswers.ForgottenHopReached | lib/src/runtime.dart:6728-6747 | a concrete run without stale answers into such a state: authority lost and regained with a final hop still waited for, its operation queued behind a later one whose hop is dropped at RESUME |
| StaleTraffic.RegainedAuthorityGoesWrong | lib/src/runtime.dart:6706-6747 | a concrete run in which authority is lost before the stale answer and regained after it ends with a false REMOTE_ACKNOWLEDGED |
| RelayShape.EveryRunShaped | lib/src/runtime.dart:6706-6747 | in every run only a coordinator holds relays, each within its limits; a final hop that is waited for is an acknowledged one of an operation within the limits, from its own destination; a live send has a handle, finished or not |
| HandleLaws.TerminalForever | lib/src/runtime.dart:6903-6905 | in every run a terminal handle never changes |
| HandleLaws.CancelledForever | lib/src/runtime.dart:5244-5252 | after a cancellation the handle stays CANCELLED through every later signal, timeout, migration and reroute |
| Cancellation.SentAgainIff | lib/src/runtime.dart:6791-6797 | after any run, a send cancelled before its end is submitted by a loop in some continuation iff it was in the unsent rest of a reroute, reconnection or send call in progress at the cancellation |
| QueuedSends.GoesOutIff | lib/src/runtime.dart:5244-5252 | after any run, the source newly sends a cancelled operation in some continuation iff it is in the rest of such a loop, or the source coordinates and retains a relay of it that was never sent and that is an ordered head or queues behind a head that moves |
| QueuedSends.CancelledBehindHead | lib/src/protocol/group_relay.dart:138-143 | a concrete run: a coordinator's own second send is cancelled while it queues unsent behind the first; the ACK of the first arrives and the second is sent and waited for |
| StuckHeads.HeadReleasedIff | lib/src/protocol/coordinator_relay_controller.dart:122-178 | after any run, while the coordinator keeps its authority and the destination stays, the oldest relay of a pair can be released iff it is ordered, about to fail or waited for, or an old hop of another retained relay of the pair is waited for; for the pair of a member the only-if half supposes that no hop is left of an operation that is not retained |
| StuckHeads.CancelledHeadBlocks | lib/src/runtime.dart:5244-5252 | cancelling a coordinator's own acknowledged head keeps its relay for good: until the destination leaves or the authority is lost it is never released and nothing that queues behind it is sent |
| Provenance.EveryRunGrounded | lib/src/protocol/group_relay.dart:72-144 | in every run, whatever is answered and whatever fails: relays have unique keys and MessageIds, only the oldest of a pair was sent or is about to fail, only the oldest of a coordinator's own pair is waited for, and a live send has no relay at its own source |
| Cancellation.CancelledDuringReroute | lib/src/runtime.dart:6665-6674 | whenever a member reroutes two or more sends and the second is cancelled after the first went out: the second is sent all the same, and waited for again if acknowledged, under a CANCELLED handle |
| Cancellation.CancelledDuringCall | lib/src/runtime.dart:5217-5232 | a concrete run: a send call is cancelled while its submission is awaited, and the operation goes out and is waited for |
| HandleLaws.SourceHopAckSettlesNothing | lib/src/runtime.dart:6525-6562 | the generic ACK of a source hop ends the wait for it and completes nothing |
| HandleLaws.OnlyTwoArrivalsSucceed | lib/src/runtime.dart:6525-6562 | a handle newly reports success only by a signal of the current coordinator for that live send, or by the ACK of the coordinator's own final hop |
| LostSignals.UnansweredSignalNeverSucceeds | lib/src/runtime.dart:6288-6315 | after any run, when the generic ACK of a signal cannot be submitted, the send leaves the table and its handle stays as it was; no later run makes it a success |
| HandleLaws.OwnSendNeverReportsSent | lib/src/runtime.dart:6516-6521 | an operation that a coordinator originates itself never reports SENT_TO_TRANSPORT, whatever follows |
| SentReports.CanReportSentIff | lib/src/runtime.dart:6503-6521 | while another open peer can take it, an accepted reliable-ordered send has a continuation that reports SENT_TO_TRANSPORT iff its source is not its own coordinator |
| CheckpointHandle.CoordinatorCheckpointHandle.SetPeerResult | lib/src/protocol/checkpoint_publication.dart:112-119 | the first outcome of a required peer is recorded, a later one ignored; completion fires with the last one |
| CheckpointHandle.FirstOutcomeDecides | lib/src/protocol/checkpoint_publication.dart:78-153 | for any sequence of outcomes: each peer keeps its first one, DURABLE iff all first outcomes are acknowledgements, and one completion exactly when no peer waits |
| CheckpointHandle.TerminalIsFinal | lib/src/protocol/checkpoint_publication.dart:112-144 | a complete handle never changes |
| CheckpointQueue.CheckpointReplicationQueue.PublishValue | lib/src/protocol/checkpoint_queue.dart:24-34 | the new slots and numbering, or the error, of a publish |
| CheckpointQueue.CheckpointReplicationQueue.CompleteInFlight | lib/src/protocol/checkpoint_queue.dart:36-46 | the pending value is promoted, or the slot is freed |
| CheckpointQueueRuns.RefinesLatestValue | lib/src/protocol/checkpoint_queue.dart:15-62 | in every run: numbers 1, 2, 3 without a gap, transmitted values a subsequence of the accepted ones, one in flight, and the newest value in flight, pending or last sent |
| CheckpointQueueRuns.QueueMoves | lib/src/protocol/checkpoint_queue.dart:24-58 | in every run a value published to an idle queue goes out at once with the next number, one published to a busy queue replaces the waiting one, and an operation that ends sends the waiting value or frees the slot |
| CheckpointQueueRuns.QueueRefusals | lib/src/protocol/checkpoint_queue.dart:24-58 | what is refused: too large a value, and any transfer once the sequence space is used up |
| CheckpointGroup.GroupCheckpoints.PublishCoordinatorCheckpoint | lib/src/group.dart:670-726 | the whole state after a publication, accepted or refused; the new handle waits for exactly the peers its requirement names, all of them pending |
| CheckpointGroup.GroupCheckpoints.OperationFinished | lib/src/group.dart:756-779 | the result reaches exactly its publication and peer |
| CheckpointGroup.GroupCheckpoints.FailPendingPublications | lib/src/group.dart:838-858 | every tracked publication is decided for every waiting peer |
| CheckpointGroup.GroupCheckpoints.PeerLeft | lib/src/group.dart:820-836 | the peer is decided as left in every tracked publication |
| CheckpointGroup.PublishKeeps | lib/src/group.dart:670-726 | every publication moves forward only, and a record that is let go is decided |
| CheckpointGroup.PublicationDecided | lib/src/group.dart:669-745 | a publication is accepted iff it is permitted, fits, lists members without repetition when it lists any, and there is room; each refusal has its error; the new handle waits for nobody, every member, or exactly the listed peers, and is durable at once iff that is nobody |
| CheckpointGroup.SupersessionDecided | lib/src/group.dart:692-702 | an accepted publication gives SUPERSEDED to exactly the peers that wait for the latest one without an operation in flight, and decides nothing else |
| CheckpointGroup.SupersededTracking | lib/src/group.dart:692-702 | a superseded publication is tracked on iff it has something in flight |
| CheckpointGroup.TrackingDecided | lib/src/group.dart:747-790 | an operation is tracked from its start, for an undecided publication and a peer it requires, until it ends; nothing else changes |
| CheckpointGroup.DepartureDecided | lib/src/group.dart:820-836 | a peer that leaves is decided as left wherever it waited and tracked nowhere; no other result changes |
| CheckpointGroup.FailureDecided | lib/src/group.dart:838-866 | a failure of all decides every peer that waits with its reason, no other, and tracks nothing |
| CheckpointReplication.AcceptedRate | lib/src/group.dart:682-689 | in every run whose clock does not go back, no five publications are accepted within less than a second |
| CheckpointGroup.FailAllKeeps | lib/src/group.dart:838-867 | losing authority or closing leaves no publication undecided |
| CheckpointDurability.DurableMeansCommitted | lib/src/runtime.dart:6180-6219 | in every run of the coordinator with a receiver at every peer, with loss, repetition and reordering of chunks, awaited validations and new connections: DURABLE iff all required peers acknowledged; each of those receivers committed exactly the published bytes with the term and flag of that publication; completion fired once |
| CheckpointDurability.DurableNeedsEveryPeer | lib/src/group.dart:669-745 | from its acceptance on, in every run with all receivers: a publication is DURABLE iff every peer its requirement names is recorded as acknowledged, and then each of them has committed the published bytes; it is durable at once iff it names none |
| CheckpointReplication.DurableMeansAnswered | lib/src/runtime.dart:5255-5468 | in every interleaving of publish, ACK, timeout, leave, authority loss and close: DURABLE iff all required peers acknowledged, each by an ACK of an operation that carried exactly the published bytes under that publication |
| CheckpointReplication.ResultsAreFinal | lib/src/group.dart:756-867 | a recorded result never changes, nor does the required set |
| CheckpointReplication.AckCountsExactlyOnce | lib/src/runtime.dart:6525-6550 | an ACK counts for the publication and peer of its own operation only |
| CheckpointReplication.FailureCountsExactlyOnce | lib/src/group.dart:766-790 | a timeout, or the end of an unready peer's session, counts for its own publication and peer with that reason, and for no other |
| CheckpointReplication.LeavingDecided | lib/src/group.dart:814-833 | a member that leaves is PEER_LEFT wherever it waited, no operation and no queue for it is left, and nobody else is decided |
| CheckpointReplication.EndingDecided | lib/src/group.dart:835-866 | losing authority and closing decide every peer that waits with that reason, no other, and leave nothing in flight, queued or retained |
| CheckpointFlights.PromotionGoesOut | lib/src/runtime.dart:5434-5455 | when an operation ends it is waited for no longer; the value waiting for its peer goes out under the next number if the peer is ready and the publication retained, and without one the queue is gone |
| CheckpointFlights.SupersededIff | lib/src/group.dart:692-702 | in every run an accepted publication gives SUPERSEDED to a waiting peer of the latest one iff no operation of that publication to that peer is waited for; while one is, the peer still waits |
| CheckpointFlights.PublicationGoesOut | lib/src/runtime.dart:5255-5285 | in every run an accepted publication goes out to every ready member whose queue is idle, under the next number, and waits as the newest value where the queue is busy |
| CheckpointFlights.LiveRecordsBounded | lib/src/runtime.dart:5458-5468 | after every event only the latest publication and those in flight are retained, an undecided one is the latest or in flight, and each peer has at most one operation waited for |
| CheckpointFlights.EndingWedgesIff | lib/src/runtime.dart:5434-5456 | ending an operation leaves the queue busy with nothing in flight iff a newer value waits and the peer is not ready or the value was let go |
| CheckpointLimits.WedgedForever | lib/src/runtime.dart:5370-5388 | nothing is sent to such a peer again until it leaves, authority is lost or the group closes |
| CheckpointLimits.WedgedBlocksDurability | lib/src/runtime.dart:5434-5456 | no later publication that needs the peer becomes durable |
| CheckpointLimits.SessionEndWedges | lib/src/runtime.dart:6692-6704 | a concrete run of four events that ends in such a queue |
| CheckpointLimits.NumberingGoesOnIff | lib/src/runtime.dart:5434-5456 | the numbers of a peer go on without a gap iff a newer value waited; otherwise the next operation carries 1 again |
| CheckpointLimits.OffersForeignBytes | lib/src/runtime.dart:5287-5308 | after losing and regaining authority a coordinator offers the other coordinator's bytes under its own completed publication |
| CheckpointLimits.OffersPublishedIff | lib/src/runtime.dart:5287-5308 | in every run, what a peer that becomes ready is sent carries the bytes of the publication it goes out under iff the session took over nothing since that publication, or last took over those very bytes; otherwise the publication is already complete |
| GattFragment.DecodeEncode | lib/src/protocol/gatt_fragment.dart:18-42 | decoding undoes encoding of every valid fragment |
| GattFragment.EncodeDecode | lib/src/protocol/gatt_fragment.dart:28-42 | every accepted byte string is the encoding of the fragment it decodes to |
| GattFragment.RefusedIff | lib/src/protocol/gatt_fragment.dart:28-42 | a byte string is refused as a protocol error iff no fragment encodes to it |
| GattFragment.EnvelopeLayout | lib/src/protocol/gatt_fragment.dart:18-26 | the envelope is the sequence number in four octets, one octet of flags, the length in two, most significant first, and the payload |
| GattFragment.SplitFrame | lib/src/protocol/gatt_fragment.dart:62-81 | the loop cuts exactly the fragments of the specification function |
| GattFragment.PiecesTile | lib/src/protocol/gatt_fragment.dart:61-81 | the fragments concatenate to the frame, are numbered 0, 1, 2, ..., full but the last, START first only and END last only |
| GattFragment.GattReassembler.AddFragment | lib/src/protocol/gatt_fragment.dart:101-127 | the frame, nothing yet or the error, and the buffer afterwards |
| GattFragment.AddDecided | lib/src/protocol/gatt_fragment.dart:80-134 | a fragment is taken iff it starts a frame on an idle or timed-out reassembler, or continues the one in progress in time, within the bound; everything else leaves nothing |
| GattStream.StreamArrives | lib/src/protocol/gatt_fragment.dart:83-134 | from any cut stream of frames exactly the expected frames come out, whole and in order |
| GattBackend.GattBackendConnection.WriteWithPriority | lib/src/gatt_backend_connection.dart:164-226 | the accepted write, or closed, unsplittable or full, and the queue afterwards |
| GattBackend.GattBackendConnection.BeginSubmission | lib/src/gatt_backend_connection.dart:351-371 | the chosen frame moves to the head |
| GattBackend.GattBackendConnection.FinishSubmission | lib/src/gatt_backend_connection.dart:297-349 | submitted, temporarily unavailable or terminal, and the queue and fates afterwards |
| GattBackend.GattBackendConnection.TerminalFailed | lib/src/gatt_backend_connection.dart:262-278 | every accepted pending write fails together and the queue empties |
| GattBackend.StartsHighestThenOldest | lib/src/gatt_backend_connection.dart:351-371 | a frame is started only when no waiting frame ranks before it and none of its own priority was accepted earlier |
| GattBackend.StartsUrgentFirst | lib/src/gatt_backend_connection.dart:351-371 | when a frame is started, no interactive frame waits beside a started normal or bulk one, no normal one beside a started bulk one, and none of its own priority was accepted earlier |
| GattBackend.WriteDecided | lib/src/gatt_backend_connection.dart:196-236 | a frame is accepted iff the link is open, it is not empty and it fits under the limit with seven octets for each fragment; it then waits behind all others, and a refusal changes nothing |
| GattBackend.HandsOutNext | lib/src/gatt_backend_connection.dart:301-309 | what is handed to the platform is the next fragment of the frame under way, or the first of the frame that is started; no frame is lost or added |
| GattBackend.AnswerDecided | lib/src/gatt_backend_connection.dart:310-345 | what each answer of the platform means for the frame under way and the others: kept for later, all failed together, one fragment further, or submitted in full |
| NotificationQueue.SubmitKeeps | android/src/main/kotlin/dev/localpeerconnections/local_peer_connections/LocalPeerConnectionsPlugin.kt:688-716 | a submit keeps in-flight iff non-empty and the bound of 64; accepted appends exactly one fragment; refused leaves all unchanged with one in flight |
| NotificationQueue.AcknowledgedKeeps | android/src/main/kotlin/dev/localpeerconnections/local_peer_connections/LocalPeerConnectionsPlugin.kt:401-435 | an acknowledgement keeps the same, hands out the next one in order and loses nothing accepted while the endpoint lives |
| GattLink.EndToEnd | lib/src/gatt_backend_connection.dart:297-371 | in every run of backend, notification queue and reassembler: exactly the started frames that arrived whole, fit and had no five-second gap, byte for byte, in order |
| GattLink.ReceivedIsPrefix | lib/src/protocol/gatt_fragment.dart:83-134 | without such gaps and with frames of at most 16,462 bytes the received frames are a prefix of the started ones |
| GattLink.QueuesBounded | lib/src/gatt_backend_connection.dart:196-226 | both queues keep their bounds and every accepted frame is waiting, submitted or failed |
| AndroidPlugin.LocalPeerConnectionsPlugin.OnServerConnectionStateChange | android/src/main/kotlin/dev/localpeerconnections/local_peer_connections/LocalPeerConnectionsPlugin.kt:287-348 | the tables and events after a server link comes up or goes down |
| AndroidPlugin.LocalPeerConnectionsPlugin.OnNotificationSent | android/src/main/kotlin/dev/localpeerconnections/local_peer_connections/LocalPeerConnectionsPlugin.kt:401-435 | the queue, in-flight mark, hand-outs and events after an acknowledgement or a failure |
| AndroidPlugin.LocalPeerConnectionsPlugin.SubmitGattFragment | android/src/main/kotlin/dev/localpeerconnections/local_peer_connections/LocalPeerConnectionsPlugin.kt:676-735 | the result and tables of a submission on either side |
| AndroidPlugin.LocalPeerConnectionsPlugin.StartNextServerNotification | android/src/main/kotlin/dev/localpeerconnections/local_peer_connections/LocalPeerConnectionsPlugin.kt:834-855 | the head is handed out unless one is in flight |
| AndroidPlugin.LocalPeerConnectionsPlugin.CloseGattConnection | android/src/main/kotlin/dev/localpeerconnections/local_peer_connections/LocalPeerConnectionsPlugin.kt:739-808 | a close with an old generation changes nothing; else the endpoint leaves the tables, or the central handle is parked |
| AndroidPlugin.LocalPeerConnectionsPlugin.ReleaseDeferredCentralHandles | android/src/main/kotlin/dev/localpeerconnections/local_peer_connections/LocalPeerConnectionsPlugin.kt:813-828 | every parked handle that matches is let go, and no other |
| AndroidPlugin.LocalPeerConnectionsPlugin.HandleBluetoothTurningOff | android/src/main/kotlin/dev/localpeerconnections/local_peer_connections/LocalPeerConnectionsPlugin.kt:899-917 | one disconnect for every listed endpoint, then empty tables |
| AndroidPlugin.LocalPeerConnectionsPlugin.ConnectGatt | android/src/main/kotlin/dev/localpeerconnections/local_peer_connections/LocalPeerConnectionsPlugin.kt:499-530 | a new handle with a fresh generation, or the refusal |
| AndroidPlugin.LocalPeerConnectionsPlugin.OnClientConnectionStateChange | android/src/main/kotlin/dev/localpeerconnections/local_peer_connections/LocalPeerConnectionsPlugin.kt:535-577 | what a client callback changes while its handle is current, and nothing otherwise |
| AndroidRuns.TablesAgree | android/src/main/kotlin/dev/localpeerconnections/local_peer_connections/LocalPeerConnectionsPlugin.kt:287-435 | in every run: addresses and endpoints inverse over one key set with generations; in flight iff queue non-empty; at most 64 waiting; handed out a prefix of accepted |
| AndroidRuns.TraceWellFormed | android/src/main/kotlin/dev/localpeerconnections/local_peer_connections/LocalPeerConnectionsPlugin.kt:287-435 | each server endpoint has at most one connected and one disconnected event and nothing after it |
| AndroidRuns.NeverReused | android/src/main/kotlin/dev/localpeerconnections/local_peer_connections/LocalPeerConnectionsPlugin.kt:287-348 | an endpoint that left the tables never returns |
| AndroidRuns.StaleCloseIsIgnored | android/src/main/kotlin/dev/localpeerconnections/local_peer_connections/LocalPeerConnectionsPlugin.kt:739-749 | a close carrying an old generation changes nothing and a current one ends no other endpoint |
| AndroidRuns.GenerationsAreFresh | android/src/main/kotlin/dev/localpeerconnections/local_peer_connections/LocalPeerConnectionsPlugin.kt:499-530 | no two live links on either side share a generation and every new one takes the counter, which then moves on |
| AndroidRuns.RefusedIdleIff | android/src/main/kotlin/dev/localpeerconnections/local_peer_connections/LocalPeerConnectionsPlugin.kt:688-725 | a refusal with nothing outstanding happens iff the platform turns down a client write on an idle link; it changes nothing, so no completion follows that could wake the sender |
| AndroidRuns.OutstandingWakes | android/src/main/kotlin/dev/localpeerconnections/local_peer_connections/LocalPeerConnectionsPlugin.kt:644-658 | an outstanding notification, or write on a handle that is not parked, emits exactly one writable or disconnected event for its endpoint however it completes; a write on a parked handle may complete without a word |
| AndroidOutcomes.LossDecided | android/src/main/kotlin/dev/localpeerconnections/local_peer_connections/LocalPeerConnectionsPlugin.kt:310-347 | a lost server connection ends the endpoint iff it was the last one counted; then the endpoint says one farewell and the handles parked for its peer or its address go |
| AndroidOutcomes.ReleaseDecided | android/src/main/kotlin/dev/localpeerconnections/local_peer_connections/LocalPeerConnectionsPlugin.kt:813-828 | exactly the handles parked under the peer, or without one under the address, are released, and nothing is said |
| AndroidOutcomes.ConnectionDecided | android/src/main/kotlin/dev/localpeerconnections/local_peer_connections/LocalPeerConnectionsPlugin.kt:287-323 | the first connection of an address makes an endpoint under the next name and generation, a further one is only counted; neither is reported |
| AndroidOutcomes.ServerTrafficDecided | android/src/main/kotlin/dev/localpeerconnections/local_peer_connections/LocalPeerConnectionsPlugin.kt:349-400 | a write is delivered under the endpoint of its address, a subscription reports the endpoint once |
| AndroidOutcomes.CompletionDecided | android/src/main/kotlin/dev/localpeerconnections/local_peer_connections/LocalPeerConnectionsPlugin.kt:401-435 | a completed notification moves the queue on and wakes the sender, or ends the endpoint when it failed or the platform refuses the next one |
| AndroidOutcomes.NotificationDecided | android/src/main/kotlin/dev/localpeerconnections/local_peer_connections/LocalPeerConnectionsPlugin.kt:688-712 | a fragment for a server endpoint is refused by a full queue, handed out on an idle one and queued on a busy one; an idle endpoint whose platform refuses ends |
| AndroidOutcomes.LinkStateDecided | android/src/main/kotlin/dev/localpeerconnections/local_peer_connections/LocalPeerConnectionsPlugin.kt:535-577 | a callback of a replaced connection changes nothing, one of a parked link says nothing, and the end of a current link is reported with its generation |
| AndroidOutcomes.AttemptDecided | android/src/main/kotlin/dev/localpeerconnections/local_peer_connections/LocalPeerConnectionsPlugin.kt:499-534 | a connection is attempted iff the address has no link of either side, and takes the next generation whether it starts or not |
| AndroidOutcomes.DiscoveryDecided | android/src/main/kotlin/dev/localpeerconnections/local_peer_connections/LocalPeerConnectionsPlugin.kt:590-615 | the services of a current link make a client; a failure ends the link with one report |
| AndroidOutcomes.DescriptorDecided | android/src/main/kotlin/dev/localpeerconnections/local_peer_connections/LocalPeerConnectionsPlugin.kt:616-643 | a confirmed subscription reports a current link once; a failure ends it with one report |
| AndroidOutcomes.LinkTrafficDecided | android/src/main/kotlin/dev/localpeerconnections/local_peer_connections/LocalPeerConnectionsPlugin.kt:644-672 | a completed write frees a current link and wakes the sender, a failed one ends it, a value is delivered |
| AndroidOutcomes.StaleTrafficIgnored | android/src/main/kotlin/dev/localpeerconnections/local_peer_connections/LocalPeerConnectionsPlugin.kt:590-672 | callbacks of a replaced or parked link change nothing |
| AndroidOutcomes.WriteDecided | android/src/main/kotlin/dev/localpeerconnections/local_peer_connections/LocalPeerConnectionsPlugin.kt:713-736 | a fragment for a central endpoint goes out as a write iff none is in flight and the platform takes it |
| AndroidOutcomes.CloseDecided | android/src/main/kotlin/dev/localpeerconnections/local_peer_connections/LocalPeerConnectionsPlugin.kt:739-808 | a close with another generation changes nothing; a server endpoint leaves the tables, a central link is parked with its peer when asked for or when its address has a server link, and released otherwise; nothing is reported |
| AndroidOutcomes.TurningOffDecided | android/src/main/kotlin/dev/localpeerconnections/local_peer_connections/LocalPeerConnectionsPlugin.kt:899-917 | one farewell with its generation for each live endpoint, and then no link is left |
| AppleServerPlugin.LocalPeerConnectionsPlugin.EnsureServerEndpoint | ios/local_peer_connections/Sources/local_peer_connections/LocalPeerConnectionsPlugin.swift:655-680 | the live endpoint, or a new one after retiring a closing one, with tables and events |
| AppleServerPlugin.LocalPeerConnectionsPlugin.DidSubscribe | ios/local_peer_connections/Sources/local_peer_connections/LocalPeerConnectionsPlugin.swift:681-722 | a subscription keeps an active endpoint and replaces a closing or stale one |
| AppleServerPlugin.LocalPeerConnectionsPlugin.DidUnsubscribe | ios/local_peer_connections/Sources/local_peer_connections/LocalPeerConnectionsPlugin.swift:723-761 | an unsubscribe retires a closing endpoint silently or schedules a check |
| AppleServerPlugin.LocalPeerConnectionsPlugin.CloseServerEndpoint | ios/local_peer_connections/Sources/local_peer_connections/LocalPeerConnectionsPlugin.swift:269-378 | a close marks the endpoint, or rebuilds the service when only closing endpoints remain |
| AppleServerPlugin.LocalPeerConnectionsPlugin.SubmitNotification | ios/local_peer_connections/Sources/local_peer_connections/LocalPeerConnectionsPlugin.swift:901-964 | accepted counts as activity and disarms the retry; refused arms it unless closing |
| AppleServerPlugin.LocalPeerConnectionsPlugin.ListenGatt | ios/local_peer_connections/Sources/local_peer_connections/LocalPeerConnectionsPlugin.swift:835-881 | one disconnect for each endpoint, then empty tables |
| AppleRuns.TablesAgree | ios/local_peer_connections/Sources/local_peer_connections/LocalPeerConnectionsPlugin.swift:629-796 | in every run the link tables are inverse and share one key set with generations, activity and centrals; closing marks live endpoints only |
| AppleRuns.TraceWellFormed | ios/local_peer_connections/Sources/local_peer_connections/LocalPeerConnectionsPlugin.swift:629-796 | each endpoint: one connected, then fragments and writables, then at most one disconnected |
| AppleRuns.ArmedUntilWoken | ios/local_peer_connections/Sources/local_peer_connections/LocalPeerConnectionsPlugin.swift:783-796 | an armed retry of a live endpoint stays until it wakes the sender, a fragment is accepted, or the endpoint closes or ends |
| AppleRuns.RefusalIsAnswered | ios/local_peer_connections/Sources/local_peer_connections/LocalPeerConnectionsPlugin.swift:915-927 | in every run, after a refused notification the retry stays armed on a live endpoint until the sender is woken, a later fragment is accepted, or the endpoint closes or ends |
| AppleRuns.CheckKeeps | ios/local_peer_connections/Sources/local_peer_connections/LocalPeerConnectionsPlugin.swift:735-761 | a check that is still pending finds the endpoint and generation it was made for |
| AppleOutcomes.SubscriptionDecided | ios/local_peer_connections/Sources/local_peer_connections/LocalPeerConnectionsPlugin.swift:681-722 | a subscription keeps an endpoint active within ten seconds, replaces a closing one and one idle for longer with a farewell, and gives a central without one a new endpoint |
| AppleOutcomes.UnsubscriptionDecided | ios/local_peer_connections/Sources/local_peer_connections/LocalPeerConnectionsPlugin.swift:723-761 | an unsubscription releases a closing endpoint without a word and for a live one only schedules a check of that endpoint and generation |
| AppleOutcomes.CheckDecided | ios/local_peer_connections/Sources/local_peer_connections/LocalPeerConnectionsPlugin.swift:736-758 | the check retires the endpoint, with a farewell, iff nothing was heard since it was scheduled |
| AppleOutcomes.CleanupDecided | ios/local_peer_connections/Sources/local_peer_connections/LocalPeerConnectionsPlugin.swift:269-378 | the end of the grace period releases a closing endpoint without a word |
| AppleOutcomes.CloseDecided | ios/local_peer_connections/Sources/local_peer_connections/LocalPeerConnectionsPlugin.swift:269-378 | a close of the current generation marks the endpoint, whose central keeps it, unless every endpoint is closing by then: then each says farewell and nothing is left |
| AppleOutcomes.SubmissionDecided | ios/local_peer_connections/Sources/local_peer_connections/LocalPeerConnectionsPlugin.swift:901-964 | a notification to a current endpoint is accepted as activity that ends its retry, or refused, which arms the retry unless the endpoint is closing |
| AppleOutcomes.RetryDecided | ios/local_peer_connections/Sources/local_peer_connections/LocalPeerConnectionsPlugin.swift:783-796 | an armed retry of a live endpoint that is not closing emits its event once |
| AppleOutcomes.WriteDecided | ios/local_peer_connections/Sources/local_peer_connections/LocalPeerConnectionsPlugin.swift:629-653 | a write is delivered under the endpoint of its central, created first when there is none and the service is installed, and ends a pending check |
| AppleOutcomes.EnsureDecided | ios/local_peer_connections/Sources/local_peer_connections/LocalPeerConnectionsPlugin.swift:655-680 | the live endpoint, a new one in place of a closing one after its farewell, or none without the service |
| AppleOutcomes.StopDecided | ios/local_peer_connections/Sources/local_peer_connections/LocalPeerConnectionsPlugin.swift:186-212 | stopping forgets every link without a word and keeps the counters |
| AppleCentral.CentralLink.DidDisconnectPeripheral | ios/local_peer_connections/Sources/local_peer_connections/LocalPeerConnectionsPlugin.swift:584-623 | the link state and event after a disconnect callback, branch by branch |
| AppleCentral.CentralLink.CloseGattConnection | ios/local_peer_connections/Sources/local_peer_connections/LocalPeerConnectionsPlugin.swift:269-378 | the link state after a close, by what is current |
| AppleCentral.StaleCallbacksAreIgnored | ios/local_peer_connections/Sources/local_peer_connections/LocalPeerConnectionsPlugin.swift:584-605 | whatever the replacement does meanwhile (discovery, subscription, writes, old closes), the first disconnect callback of a cancelled generation and every further one within two seconds leave it untouched and say nothing |
| AppleCentral.NextEndReportedIff | ios/local_peer_connections/Sources/local_peer_connections/LocalPeerConnectionsPlugin.swift:584-622 | after any run that leaves no connection, the end of the next connection, after any ordinary life, is reported iff at the connect there was no marker and no grace period that still runs at the end; otherwise the dead connection stays current |
| AppleCentral.MarkerAfterClose | ios/local_peer_connections/Sources/local_peer_connections/LocalPeerConnectionsPlugin.swift:269-378 | a close after the reported callback clears the marker; a close before it, or none, leaves it |
| AppleCentral.DisconnectDecided | ios/local_peer_connections/Sources/local_peer_connections/LocalPeerConnectionsPlugin.swift:584-623 | a disconnect callback is the old connection's iff a marker names another generation than the expected one, is ignored for two seconds after such a one, and otherwise ends the link with one report of its generation |
| AppleCentral.AttemptDecided | ios/local_peer_connections/Sources/local_peer_connections/LocalPeerConnectionsPlugin.swift:228-261 | a connection is attempted iff the device was discovered and has none, under the next generation |
| AppleCentral.SetUpDecided | ios/local_peer_connections/Sources/local_peer_connections/LocalPeerConnectionsPlugin.swift:476-533 | the characteristics make a client of the expected generation, its confirmed subscription reports it once, and any failure ends the link with one report |
| AppleCentral.FailureDecided | ios/local_peer_connections/Sources/local_peer_connections/LocalPeerConnectionsPlugin.swift:432-460 | a failed connection is silent when a marker names another generation than the expected one, and reported otherwise |
| AppleCentral.CloseDecided | ios/local_peer_connections/Sources/local_peer_connections/LocalPeerConnectionsPlugin.swift:269-378 | a close of another generation changes nothing; otherwise a connection in use or being made leaves its generation as the marker, and without one the marker goes; nothing is reported |
| AppleCentral.WritesDecided | ios/local_peer_connections/Sources/local_peer_connections/LocalPeerConnectionsPlugin.swift:567-583 | one write at a time goes out on a client of the generation asked for; its completion frees the client and is reported |
| AppleCentral.StopDecided | ios/local_peer_connections/Sources/local_peer_connections/LocalPeerConnectionsPlugin.swift:186-212 | stopping forgets the link without a word and keeps the counter |
| AppleGenerations.GenerationsAreFresh | ios/local_peer_connections/Sources/local_peer_connections/LocalPeerConnectionsPlugin.swift:248-251 | in every run of both sides no two owners share a generation, and a new one takes the shared counter, which then moves on |
| Chunks.AcceptedIffCut | lib/src/protocol/checkpoint.dart:8-35 | the constructor's checks accept exactly the chunks that cutting some payload within the limit yields |
| Chunks.SplitTiles | lib/src/protocol/checkpoint.dart:71-94 | too large iff above the limit; else one acceptable chunk per index, an empty one for the empty payload, whose bytes concatenate to the payload |
| Chunks.PiecesTile | lib/src/protocol/group_reliable.dart:97-133 | the pieces of every payload, the empty one included, concatenate to it |
| Chunks.ChunksDetermine | lib/src/protocol/group_reliable.dart:112-133 | two operations with the same chunks have the same metadata and bytes |
| Reassembly.ReceiveKeeps | lib/src/protocol/group_reliable.dart:187-213 | every arrival keeps stored chunks acceptable and, with limits, messages and announced bytes within them |
| Reassembly.RefusalDecided | lib/src/protocol/group_reliable.dart:187-291 | which chunk is refused: malformed, beyond the limits, or contradicting what is stored of its operation; operations idle for ten seconds go, and no other changes |
| Reassembly.AcceptanceDecided | lib/src/protocol/group_reliable.dart:187-213 | a taken chunk is stored under its index and counts as activity; the operation is given out, and forgotten, with the last of its pieces |
| Reassembly.JoinedCuts | lib/src/protocol/group_reliable.dart:293-310 | the joined result has the announced length, and cutting it again gives exactly the stored chunks |
| ChunkReassembler.Join | lib/src/protocol/checkpoint_reassembly.dart:77-85 | the copying loop yields the concatenation of the pieces |
| ChunkReassembler.Reassembler.Add | lib/src/protocol/group_reliable.dart:187-213 | result and table as specified, with `bufferedBytes` equal to the sum of the announced lengths |
| ChunkReassembler.Reassembler.ExpireInactive | lib/src/protocol/group_reliable.dart:232-241 | exactly the operations untouched for more than ten seconds go |
| ReassemblyGuarantees.CompletedFromItsChunks | lib/src/protocol/group_reliable.dart:187-213 | every chunk of a completed operation arrived under its MessageId |
| ReassemblyGuarantees.CompletedIsSenders | lib/src/protocol/group_reliable.dart:169-242 | whatever is lost, repeated, reordered or interleaved, a completed operation has the sender's metadata and bytes |
| ReassemblyGuarantees.CompletesWithTheLastPiece | lib/src/protocol/checkpoint_reassembly.dart:24-41 | pieces in any order and multiplicity among other traffic: nothing while one is missing, once and in full with the last |
| TransportGenerations.OneGeneration | lib/src/protocol/group_reliable.dart:215-219 | when every change of generation clears, all chunks of a completed operation arrived in one generation |
| TransportGenerations.ChangeSafeIff | lib/src/protocol/checkpoint_reassembly.dart:43 | after any separated run, the next change is safe iff it clears the table or finds it empty |
| TransportGenerations.ReliableHopsStayApart | lib/src/runtime.dart:5170-5173 | routed reliable hops never combine chunks of two generations |
| TransportGenerations.CheckpointHopsMix | lib/src/runtime.dart:5170-5173 | a checkpoint whose chunks arrive before and after a reconnect is completed from both, with the sender's bytes |
| CheckpointReceive.AcknowledgedMeansCommitted | lib/src/protocol/checkpoint_receiver.dart:36-62 | in every run an acknowledged MessageId was committed with that very content |
| CheckpointReceive.CompletionDecided | lib/src/protocol/checkpoint_receiver.dart:43-62 | a completion that is recorded is acknowledged again and not committed, another content under its MessageId is dropped, a new one waits for its validation or is committed and acknowledged unless its term is old |
| CheckpointReceive.VerdictDecided | lib/src/protocol/checkpoint_receiver.dart:54-62 | only a positive verdict commits, and what was recorded meanwhile decides the acknowledgement alone |
| CheckpointReceive.AcknowledgedIsSenders | lib/src/protocol/checkpoint_receiver.dart:23-62 | an acknowledgement means that exactly the checkpoint sent under that MessageId is committed |
| CheckpointReceive.CommitsOnceIff | lib/src/protocol/checkpoint_receiver.dart:54-60 | a commit keeps the once-only property iff the MessageId is not among the recorded completions at that moment |
| CheckpointReceive.CommittedOnce | lib/src/protocol/checkpoint_receiver.dart:24-27 | when calls do not overlap, a MessageId is committed again only after more than 16,384 other commits |
| CheckpointReceive.OverlapCommitsTwice | lib/src/runtime.dart:6174-6204 | two completions during one awaited validation commit the same checkpoint twice |
| CheckpointReceiving.CheckpointReceiver.Add | lib/src/protocol/checkpoint_receiver.dart:36-62 | the new state and the reported outcome of one chunk, up to the point where a validation is awaited |
| CheckpointReceiving.CheckpointReceiver.Decide | lib/src/protocol/checkpoint_receiver.dart:54-62 | the new state and outcome once the validation returns |
| AckRetention.AckRetentionSet.Retain | lib/src/protocol/ack.dart:98-112 | retained, or the collision or exhaustion error |
| AckRetention.AckRetentionSet.OnTimer | lib/src/protocol/ack.dart:139-155 | ignored, retransmit or terminal, and the table afterwards |
| AckRetention.AckRetentionSet.TransportLost | lib/src/protocol/ack.dart:168-173 | every deadline stops and every awaited attempt is pending again; content and count stay |
| AckRetention.AckRetentionSet.RetransmitAfterResume | lib/src/protocol/ack.dart:178-190 | exactly the operations with a retry left are returned, and the others go |
| AckGuarantees.RetransmittedAtMostTwice | lib/src/protocol/ack.dart:55-82 | in every run at most two retransmissions of one operation, timer and RESUME together, and at most `capacity` retained |
| AckGuarantees.EndsOnce | lib/src/protocol/ack.dart:89-203 | each retention ends at most once, and the operation stays exactly until then |
| AckGuarantees.StepKeepsContent | lib/src/protocol/ack.dart:26-38 | a retained operation keeps its content and its count never falls |
| AckGuarantees.EndedForGood | lib/src/protocol/ack.dart:114-155 | after its end no timer, submission, ACK, cancel, loss or RESUME leaves a trace of an operation |
| AckGuarantees.LossStopsEverything | lib/src/protocol/ack.dart:168-173 | in every run, right after a transport loss no operation has a deadline and none awaits its ACK, and nothing else of them changes |
| AckGuarantees.NoTimeoutWithoutTransport | lib/src/protocol/ack.dart:168-173 | in every run, after a transport loss every timer of an operation is ignored at any time until its submission is reported or a RESUME resends it, and its count and content stay |
| AckGuarantees.TimerDecided | lib/src/protocol/ack.dart:139-155 | in every run a timer acts iff the deadline has passed: a new attempt with one retransmission more, or the end after the second |
| AckGuarantees.RetainDecided | lib/src/protocol/ack.dart:98-112 | in every run an identifier is retained once, with its content and without a deadline, while there is room; each refusal has its error |
| AckGuarantees.ReportDecided | lib/src/protocol/ack.dart:114-137 | in every run a reported submission starts 3,000 ms for the current attempt, and an acknowledgement or cancel ends the retention |
| AckGuarantees.ResumeDecided | lib/src/protocol/ack.dart:178-190 | in every run RESUME sends exactly the operations with a retry left again, with one retransmission more and no deadline, and ends the others |
| AckGuarantees.ResumeOneDecided | lib/src/protocol/ack.dart:192-203 | in every run RESUME of one operation does so for that one |
| AckGuarantees.TimeoutsAreLate | lib/src/protocol/ack.dart:114-155 | with truthful reports every timeout comes at least 3,000 ms after the last frame of its own attempt was handed over, and the third one is terminal |
| AckGuarantees.TimerKeepsItsPromiseIff | lib/src/protocol/ack.dart:114-124 | a report keeps that promise iff it is about the current attempt and not earlier than the hand-over |
| AckGuarantees.SlowRetryExpiresEarly | lib/src/peer_connection_core.dart:653-676 | a retry reported with the time of the poll expires one second after its hand-over |
| AckGuarantees.FailedReplayTimesOut | lib/src/runtime.dart:6581-6601 | a replay whose frames were never handed over still times out and spends a retry |
| Election.HighestIsMaximal | lib/src/protocol/election.dart:68-74 | the fold returns a listed candidate that no listed one is above: none of a later term, and none of its term with a greater priority, score or PeerId in this order |
| Election.MayClaimIffHighest | lib/src/protocol/election.dart:75-83 | a peer may claim iff it is the highest candidate it has observed |
| Election.CompareMeaning | lib/src/protocol/membership.dart:14-24 | one rank is above another by application priority, then capability score, then PeerId, and equal only to itself |
| Election.ElectionController.ObserveMessage | lib/src/protocol/election.dart:125-140 | the new state and whether to announce again |
| Election.ElectionController.PollAt | lib/src/protocol/election.dart:144-175 | the new state and every action of a poll |
| Election.HigherSeenNeverPromoted | lib/src/protocol/election.dart:127-175 | for any messages and times: once a higher candidate was seen before promotion, never promoted |
| Election.SupersededNeverPromoted | lib/src/protocol/election.dart:127-175 | in every run, a message of a later term, or of the same term with a higher rank, that is observed before the promotion rules it out for good |
| Election.ObserveDecided | lib/src/protocol/election.dart:125-140 | a message of the same group is recorded, with its time iff it supersedes the own announcement; a new announcement is asked for iff a lower rank claims the same term |
| Election.PollDecided | lib/src/protocol/election.dart:144-175 | an unbeaten peer claims once its window is over, a claim that nothing superseded for 500 ms promotes it, and each further heartbeat goes out when due, one to a poll |
| Election.ActionsAreShaped | lib/src/protocol/election.dart:144-175 | in every run the actions are at most one claim, one promotion and heartbeats 0, 1, 2 in order, each no earlier than due |
| Election.SpacingKeptIff | lib/src/protocol/election.dart:142-156 | the next heartbeat is certain to be 100 ms later iff this one was not late |
| ElectionRuns.HighestExists | lib/src/protocol/membership.dart:14-24 | any non-empty set of peers has one highest rank, which has the greatest application priority, among those the greatest capability score, and among those the greatest PeerId |
| ElectionRuns.HeardHigherNeverPromoted | lib/src/protocol/election.dart:127-175 | among any number of peers, one that received anything of a higher one before its promotion never promotes itself |
| ElectionRuns.CoordinatorIffUnheard | lib/src/protocol/election.dart:86-175 | whatever is lost, a peer polled after its window and 500 ms later is coordinator iff nothing of a higher peer reached it |
| ElectionRuns.ExactlyOneCoordinator | test/election_test.dart:69-115 | with announcements inside the window exactly one peer becomes coordinator: the one with the greatest application priority, among those the greatest capability score, and among those the greatest PeerId |
| MemberRecords.CollectRecords | lib/src/protocol/group_merge.dart:283-293 | the loop over the records yields the specification table |
| MemberRecords.CollectIsLeast | lib/src/protocol/group_merge.dart:283-293 | exactly the mentioned peers, each with the least capacity mentioned |
| MemberRecords.LeastCapacity | lib/src/protocol/group_merge.dart:294-296 | the reduction yields the least capacity |
| MemberRecords.SortedIsUnique | lib/src/protocol/group_merge.dart:470-471 | a table has one strictly sorted list |
| SplitBrain.ReconcileMeaning | lib/src/protocol/group_merge.dart:446-483 | success, refusal and contents of a reconciliation: sorted union with least capacities that fits |
| SplitBrain.TermExceedsBothIff | lib/src/protocol/group_merge.dart:478-482 | the new term is one more than the larger, and so exceeds both, iff neither is the last 64-bit integer |
| SplitBrain.ReconcileCommutes | lib/src/protocol/group_merge.dart:446-483 | both sides compute the same term, members and capacity |
| SplitBrain.ReconcileIdempotent | lib/src/protocol/group_merge.dart:446-483 | a committed view reconciled with itself stays |
| SplitBrain.AssociativeIff | lib/src/protocol/group_merge.dart:467-469 | three views give the same members or refusal in either grouping iff not exactly one outer view is empty beside an empty middle one |
| GroupMerge.EvaluationIsSymmetric | lib/src/protocol/group_merge.dart:265-307 | both sides get the same decision, winner, union size and capacity |
| GroupMerge.CompatibleIff | lib/src/protocol/group_merge.dart:265-282 | two groups are compatible iff namespace, discovery mode, trust mode and, where they are scoped by one, token agree, both merge automatically, known peers may, and they are different groups; otherwise the decision names the first check that fails |
| GroupMerge.EvaluationMeaning | lib/src/protocol/group_merge.dart:265-307 | the winner outranks the other, sizes are those of the union, and full iff larger than the least capacity |
| GroupMerge.ExactlyOneRejects | lib/src/protocol/group_merge.dart:330-346 | when the union does not fit exactly the winner sends a rejection, with both groups, the capacity and the size of the union; otherwise nobody |
| GroupMerge.SelectedIsTop | lib/src/protocol/group_merge.dart:312-325 | the selected group outranks every other of the list |
| GroupMerge.WinnerIsOrderIndependent | lib/src/protocol/group_merge.dart:312-325 | two orders of one list that both succeed select the same group |
| GroupMerge.SelectSucceedsIff | lib/src/protocol/group_merge.dart:312-325 | a list succeeds iff each group can merge with the highest-ranked of the groups before it |
| GroupMerge.EveryOrderSucceedsIff | lib/src/protocol/group_merge.dart:309-325 | every order of a list succeeds iff every two of its groups can merge |
| GroupMerge.SuccessDependsOnOrder | lib/src/protocol/group_merge.dart:312-325 | three groups that converge in one order and are rejected in another |
| MergeReceiver.GroupMergeReceiver.ReceivePayload | lib/src/protocol/group_merge.dart:372-407 | disposition and committed view for a stale, equal and newer term |
| MergeReceiver.ReceiveDecided | lib/src/protocol/group_merge.dart:372-386 | a frame is applied iff its term is higher, and then replaces group, term and membership together; the frame applied last is a duplicate, any other stale |
| MergeReceiver.CommittedIsHighest | lib/src/protocol/group_merge.dart:372-386 | after any payloads the committed view is the initial one or that of the highest term received |
| MergeReceiver.SamePayloadsSameView | lib/src/protocol/group_merge.dart:372-386 | members that receive the same payloads in any orders agree if no two share a term |

## Left out

Not modelled:

- Handshake, identity, session keys, frame encryption, RESUME proofs, transport upgrade, UDP sidecar, friend relay, known-peer probing: an authenticated sender and a valid session are given.
- Byte codecs of single payloads (heartbeat, leave, election, merge, chunk headers): easy round trips; the GATT fragment envelope is the one codec that is modelled.
- REALTIME_LATEST traffic, broadcast handles and realtime backlogs: no delivery promise hangs on them.
- Advertising, scanning, permissions, adapter broadcasts, logging and Flutter channels: foreign calls.
- The order in which equal-ranking work of one step is visited (rerouted operations, due MessageIds, members offered a checkpoint): the results are stated for any order, or as sets.
- Other events between two awaits of one handler, except where a result depends on them: an awaited checkpoint validation, a pending GATT submission, the report of a submitted attempt, the loops of a reroute and of a send call, and the hand-over to a session are steps of their own. That an awaited generic ACK, signal or forward fails is an outcome of the step that makes it. A frame whose write is reported as failed is taken as not having left.
- The chunk loop of a retransmission under way, which goes on after a cancellation as well (lib/src/runtime.dart:6583-6591 and the loop in `_pollAckTimeouts`): a hop is one message, sent whole, and sending it again adds nothing.
- An error behind the submission of a coordinator's own reliable-ordered send, which fails that send's handle although its hop was submitted (lib/src/runtime.dart:6516-6521 within 5217-5238).
- Membership snapshots and their counters: membership changes are events of the systems.

Stated with less than the code holds, or on values:

- RoutedGuarantees.RemoteAcknowledgedMeansAccepted: the system is a value and its peers are updated as values, because one run spans many objects; the classes of the tables are proved against the functions the system uses. The session takes what waits for it in the order of arrival.
- HandleLaws.CancelledForever: a cancellation ends the waits for its own source and identifier, where the source compares the identifier alone (lib/src/runtime.dart:5248-5252); identifiers carry a random prefix of 64 bits for each session, and two sources with one prefix are not modelled.
- MemberRouter.LateSignalAfterCancel: identifiers are used once, so a live send has no tombstone of an earlier cancellation.
- StaleAnswers.AnswerIsSafeIff: left open when the coordinator no longer waits for the hop, waits for no hop of another retained relay of the pair, and an old hop is left of an operation that is not retained; whether a member's copy of it can still be admitted depends on the room in the table.
- StuckHeads.HeadReleasedIff: the only-if half is left open for a member's pair in the same case.
- RelayRuns.FinalHopsInAdmissionOrder: one term of authority, so every result is for a forwarded hop. The system also has results of hops left from an earlier authority. One for a relay that is not the oldest of its pair ends it unsent and names the oldest a second time: a completion promotes a fresh hop iff it completes the oldest (`RelayRuns.PromotionIsFreshIffHead`, `StuckHeads.HeadReleasedIff`). It also says only when the forward action is issued, not that its submission succeeds.
- DeliverySafety.AtMostOnceWithinTheWindow: group identifier aliases after a merge are not modelled, so the pair is always seen under one group.
- CheckpointDurability.DurableMeansCommitted: MessageIds are distinct across connections, so a receiver never sees one of an earlier connection under another content.
- CheckpointReplication.DurableMeansAnswered: a sequence space that is used up ends replication to the peer without the source's error event.
- CheckpointReceive.AcknowledgedMeansCommitted: the canonical encoding that the receiver compares stands for the metadata and bytes it encodes.
- Reassembly.ReceiveKeeps: the clock is read once per call, where the source reads it up to three times; MessageIds have eight bytes by type, so the argument error for others is not stated.
- GattLink.EndToEnd: the transmission kind of a write is ignored, and so is the source's refusal of a frame of more than 2^32 fragments, which the queue bound of 262,144 bytes excludes anyway.
- AndroidRuns.TraceWellFormed: server endpoints only; a client link that is reconnected under its own address starts a new trace under the same name.
- AndroidRuns.TablesAgree: connection counts after an explicit close are not claimed, since the source does not reset them.
- AndroidPlugin.LocalPeerConnectionsPlugin.StartNextServerNotification: a missing server, service or characteristic counts as a refusal of the platform; the source reports it even for an empty queue, and a submission that meets it leaves the endpoint in place.
- AppleRuns.RefusalIsAnswered: a refused notification of an endpoint that is closing arms nothing, as in the source.
- AppleCentral.StaleCallbacksAreIgnored: one peripheral at a time; the shared generation counter and the exclusion of crossed links are in AppleGenerations. That each disconnect is reported once is not claimed.
- ElectionRuns.ExactlyOneCoordinator: the clock of the highest peer must not run backwards up to its first late poll.
- SplitBrain.TermExceedsBothIff: native 64-bit integers; integers on the web are not modelled.
- GroupMerge.EvaluationMeaning: two groups without any member make the source's reduction fail; the model gives an error there.
