# slive: a verified model of the negotiation gate, the fan-out, the room bookkeeping and the forwarder registry

slive is a WebRTC SFU. This project models the parts of it whose correctness does not depend on pion's internals and
proves what they promise, for every input and every interleaving. `dafny verify dfyconfig.toml` checks all of it.

| files | what they model |
|---|---|
| `Gate`, `GateInvariant`, `GateLog`, `GateTheorems`, `GateDemand`, `GateTracks`, `GateRecovery` | the negotiation gate of `PeerConnection` as a transition system at lock granularity, its inductive invariant, and what holds over whole runs |
| `PeerConnection` | the gate's methods over mutable fields, proved to be runs of that system |
| `Fanout`, `FanoutOwnership`, `FanoutQueue`, `FanoutRuns`, `FanoutTheorems`, `FanoutCounts` | `TrackForwarder`'s queues, writers, pool and rebuilds as interleaved steps |
| `ClonePacket`, `Forwarder`, `ForwarderMachines` | packet cloning on the heap, the forwarder object with its loops, and that object against the interleaved machines |
| `Codec`, `Pump` | the publisher swap against its subscribers, and the forwarding loop's lifecycle |
| `Domain`, `DomainInvariant`, `DomainRuns`, `RoomTeardown`, `Room` | rooms, participants and tracks: closed forms, the two-sided invariant, and the methods with their teardown loops |
| `Client`, `ClientReference`, `ClientObject` | the SDK client as composite steps, against a reference without objects, and as an object over room objects |
| `Registry`, `RegistryTheorems`, `Handler` | the forwarder registry under racing `publish_track` and `OnTrack`, and the handler's methods |
| `Ice`, `Mid` | ICE candidates queued before the remote description, and the MID partition |

## How concurrency is modelled

A run is any sequence of atomic steps; a step that cannot happen changes nothing, so a theorem about all sequences is
a theorem about all interleavings. A step is one section of code under one lock, or one pion or channel operation with
the counter updates beside it. Fields named history are read by no step.

The one assumption about pion in the gate is that a description call takes the transition of section 3.2 of RFC 8829
when the signaling state allows it (the checks of sections 5.5 and 5.6), or fails and leaves the state alone. pion's
verdicts, the other threads' steps, map iteration order and the pool's choice of a struct are parameters. Browser
offers are numbered in order of arrival. Object identity in the domain is explicit: a reference is an object number
with the object's ID, so two objects may share an ID.

Assumptions taken from the code's own contracts: participants subscribe only while they are in the room; an object
leaves through `Participant.Leave` only while nobody else holds its ID; a wire ID is its own track's or fresh; one
track per participant and kind; MIDs minted by a browser are unused and outside the egress partition; pion numbers a
section that has no MID one past the greatest number set (internal/webrtc/peer_connection.go:102-104).

## What turned out not to hold

- A failing answer exchange leaves pion in have-remote-offer, from which the gate never returns
  (`GateRecovery.RecoverableIff`): there is no rollback.
- An `AddTrack` that gives up can leave a sender that the generation guard does not see, or an offer recorded as up to
  date with a sender that is gone. `GateTheorems.GenerationGuard` has the exact condition,
  `GateTheorems.FailedAddTrackEscapesGuard` and `GateTheorems.OfferDuringRehoming` the two families.
- `RequestSubscriberOffer` is documented to return true when an offer was sent
  (internal/webrtc/peer_connection.go:898-903). `PeerConnectionOps.PeerConnection.RequestOffer` says exactly when it
  returns true and when an offer is sent; `PeerConnectionOps.SkippedOfferReportsTrue` is a call where they differ.
- MIDs are not partitioned as promised at internal/webrtc/peer_connection.go:99-104. Once an egress MID is set pion
  numbers past it, the reservation counter does not follow, and a later reservation can repeat pion's number:
  `Mid.SharedMidIff` says exactly when, `Mid.MidsRepeat` is a run that does it. An egress track can also end on a low
  MID; `Mid.AddTrackLandsIff` says exactly when, `Mid.OfferGeneratorRaces` is such a run.
- Registry convergence holds for whole events; lock by lock it fails exactly in one race
  (`RegistryTheorems.ConvergesIff`, `RegistryTheorems.RaceLosesMedia`).
- A `Start` that meets a loop on its way out reports success and nothing runs (`Pump.StartPumpsIff`; `StartSwallowed`
  is such a run).
- A subscriber added while a swap is under way can keep the old codec; `Codec.MismatchIff` says exactly which ones,
  and `Codec.MissedBySwap` is the shortest way there.
- `clonePacket` is documented as a deep copy; an empty extension payload becomes nil and the CSRC list stays shared.

## Model

| member | source | states |
|---|---|---|
| `GateTheorems.GlareFreedom` | internal/webrtc/peer_connection.go:904-1065 | In every interleaving, set-local(offer) and set-remote(offer) reach pion only in stable, set-remote(answer) only in have-local-offer, set-local(answer) only in have-remote-offer (or after Close); between gate calls `isNegotiating` or a stored browser offer means have-local-offer. |
| `GateDemand.NoRenegotiationLost` | internal/webrtc/peer_connection.go:904-953 | Every run, every trigger: entered, synchronous or not, on a connection that is up and has a sender, it leaves the generation it met recorded as offered or `pendingNegotiation` armed, at the end of its call and between gate calls ever after while the connection stays up, unless its own guard finds the sender gone. |
| `GateTheorems.GenerationGuard` | internal/webrtc/peer_connection.go:1184-1222 | With sender changes anywhere inside offer creation: when the guard would skip and pc.mu is free, the recorded offer covers exactly pion's senders if and only if the AddTrack calls that gave up since it was created have left as many senders attached as they took out of it; live offers carry strictly increasing generations and never outnumber counted changes. |
| `GateTheorems.GuardSoundWithoutAborts` | internal/webrtc/peer_connection.go:468-606 | In particular, over every run in which no AddTrack gives up the guard never skips an offer that would carry a change. |
| `GateTheorems.FailedAddTrackEscapesGuard` | internal/webrtc/peer_connection.go:787-818 | One failing family: from every up-to-date quiet state, an AddTrack that cannot detach its sender from a publish transceiver leaves a sender that the next trigger does not offer. |
| `GateDemand.QueuedIsWaiting` | internal/webrtc/peer_connection.go:910-925 | Over every run `negotiationsQueued` is the number of needs coalesced since a guard last met stable or a clean Close. |
| `GateTracks.RemoveUndoesAdd` | internal/webrtc/peer_connection.go:468-606 | With any gate steps in between: AddTrack, also through the detour off a publish transceiver, and RemoveTrack of the same track leave pion's senders and `localTracks` as they were and count two changes. |
| `GateTracks.AddTrackAdds` | internal/webrtc/peer_connection.go:485-509 | AddTrack alone under pc.mu: one sender more, the track in the map, one change counted. |
| `GateTracks.RemoveTrackRemoves` | internal/webrtc/peer_connection.go:576-606 | RemoveTrack of a track pion holds: one sender less, the track out of the map, one change counted. |
| `GateTracks.MapIsStored` | internal/webrtc/peer_connection.go:507-604 | Over every run `localTracks` holds exactly the tracks that an AddTrack stored and no RemoveTrack has dropped since. |
| `GateTracks.EveryChangeCounted` | internal/webrtc/peer_connection.go:501-508 | Over every run the generation has grown by exactly the number of sender changes that went through. |
| `GateTracks.SendersAreTracks` | internal/webrtc/peer_connection.go:485-604 | Over every run in which no AddTrack gives up or repeats a track, pion holds exactly one sender for each track in the map whenever pc.mu is free. |
| `GateTracks.RefusedIff` | internal/webrtc/peer_connection.go:66-69 | Between calls, with pc.mu free: browser offers, answers, flushes, AddTrack and RemoveTrack are refused exactly when the connection is closed or failed, and triggers exactly then or without a sender. |
| `GateTracks.CloseEnds` | internal/webrtc/peer_connection.go:1482-1516 | Close cancels the context and closes pion; when pion closes cleanly nothing of a negotiation is left and a second Close does nothing, otherwise all else is as it was. |
| `GateTheorems.BrowserOfferAccounting` | internal/webrtc/peer_connection.go:974-1032 | Every accepted browser offer has exactly one fate (answered inline, answered deferred, superseded, failed, dropped at close), or is the stored one, or the one in hand; fates come in arrival order. |
| `GateTheorems.DeferredAnswerFirst` | internal/webrtc/peer_connection.go:1271-1365 | No server offer is sent before every browser offer stored earlier has met its fate, and between two live server offers the first is answered. |
| `GateTheorems.OneLiveAtATime` | internal/webrtc/peer_connection.go:1150-1207 | Two server offers never go live without an applied answer between them. |
| `GateRecovery.FlushDrains` | internal/webrtc/peer_connection.go:1271-1322 | A flush entered in stable, with pion calls that succeed and other threads running, ends with no stored offer and no pending need. |
| `GateRecovery.GateCallProgresses` | internal/webrtc/peer_connection.go:1150-1322 | Every step of a gate call strictly shortens it, so no gate call loops. |
| `GateRecovery.ComesToRest` | internal/webrtc/peer_connection.go:1040-1065 | From every quiet state except have-remote-offer some continuation offers everything and ends stable with nothing stored or pending. |
| `GateRecovery.WedgedForever` | internal/webrtc/peer_connection.go:1076-1111 | A quiet gate in have-remote-offer never returns to stable, whatever is called. |
| `GateRecovery.RecoverableIff` | internal/webrtc/peer_connection.go:974-1065 | A quiet usable gate can still offer everything and come to rest if and only if pion is not in have-remote-offer. |
| `GateRecovery.WedgeReachable` | internal/webrtc/peer_connection.go:1084-1097 | One failing CreateAnswer on a fresh connection reaches that wedge. |
| `GateRecovery.FailedAnswerWedges` | internal/webrtc/peer_connection.go:1079-1097 | Every answer exchange whose CreateAnswer or whose set-local fails ends in have-remote-offer. |
| `PeerConnectionOps.PeerConnection.ServerOffer` | internal/webrtc/peer_connection.go:1150-1261 | A run of the machine that ends with negMu free. It reports success exactly when its guard met a usable connection and the failure closure did not run; when the guard asked for an offer, success means exactly one was sent and failure that the closure ran; otherwise nothing is sent. |
| `PeerConnectionOps.PeerConnection.OfferGuard` | internal/webrtc/peer_connection.go:1151-1199 | The guarded entry changes the flags as the machine's entry step, fails exactly when the connection is unusable, and asks for an offer of the current generation exactly when there is a sender, pion is stable and that generation is not recorded. |
| `PeerConnectionOps.PeerConnection.AnswerExchange` | internal/webrtc/peer_connection.go:1076-1111 | The answer unit is a run of the machine; an inline one logs exactly one outcome for the offer, answered on success and failed otherwise, and a deferred one leaves the answer to be delivered exactly on success. |
| `PeerConnectionOps.PeerConnection.FlushPendingWork` | internal/webrtc/peer_connection.go:1271-1322 | flushPendingLocked as a run of the machine: the stored offer first, then at most one server offer is attempted. |
| `PeerConnectionOps.PeerConnection.RequestOffer` | internal/webrtc/peer_connection.go:904-953 | Both triggers, as one gate call and a run of the machine: true exactly when the first section lets the call through, the check meets stable, the guard meets a usable connection and the failure closure does not run; an offer is sent exactly when, besides, the guard meets a sender, stable, and a generation not yet offered, which is then recorded. When our own offer is outstanding, or the check does not meet stable, the need is armed and counted once more; when an offer fails it is armed and no offer is out. |
| `PeerConnectionOps.PeerConnection.ProcessBrowserOffer` | internal/webrtc/peer_connection.go:974-1032 | Refused, and not numbered, exactly when the first section meets an unusable connection or the check meets neither stable nor have-local-offer; stored exactly in have-local-offer; in stable the one outcome logged is answered inline when it reports an answer and failed inline when it does not. |
| `PeerConnectionOps.PeerConnection.ProcessBrowserAnswer` | internal/webrtc/peer_connection.go:1040-1065 | True exactly when the answer was installed, and then at most one server offer is attempted before it returns; false adds neither. |
| `PeerConnectionOps.PeerConnection.FlushDeferredNegotiation` | internal/webrtc/peer_connection.go:1122-1132 | One gate call and a run of the machine that attempts at most one server offer. |
| `PeerConnectionOps.PeerConnection.SafeBetweenCalls` | internal/webrtc/peer_connection.go:142-203 | Between any two calls of the object: a negotiation flag or a stored offer means have-local-offer, and every description call met its state. |
| `PeerConnectionOps.PeerConnection.NothingLostBetweenCalls` | internal/webrtc/peer_connection.go:904-953 | Between any two calls: the generation that any trigger in the object's journal met is offered or armed, if the connection was up with a sender since. |
| `FanoutTheorems.SubscriberOrder` | internal/webrtc/track_forwarder.go:848-931 | In every run, for every entry: written, then in hand, then moved away, then queued, is what was moved in followed by the offers that fitted, in order; with one caller the offers are exactly the inputs since attach; `dropped` counts the rest. |
| `FanoutRuns.SeenAsOneQueue` | internal/webrtc/track_forwarder.go:70-100 | Projecting any run of the whole forwarder onto one entry gives the run of a single bounded queue with one writer. |
| `FanoutRuns.IsolatedFromStart` | internal/webrtc/track_forwarder.go:590-641 | The same from the entry's creation: its whole life is its own events on a queue born empty. |
| `FanoutTheorems.NeverBlocks` | internal/webrtc/track_forwarder.go:872-930 | A WriteRTP call returns after at most two of its own steps per snapshotted entry, whatever the writers do or do not do. |
| `FanoutRuns.PoolOwnership` | internal/webrtc/track_forwarder.go:83-97 | In every reachable state a packet struct is in at most one of pool, queue, writer's hand or WriteRTP call, once, and it is zeroed exactly when pooled. |
| `FanoutCounts.Conservation` | internal/webrtc/track_forwarder.go:408-429 | forwarded = written + in hands + in every queue ever created + discarded by rebuilds; every snapshot is paid with one forward or drop per entry; TotalDropped never exceeds packetsDropped. |
| `ClonePacket.Clone` | internal/webrtc/track_forwarder.go:107-128 | The clone equals the source and shares neither payload nor extension payloads with it or with other clones; an empty extension payload becomes nil; the CSRC list stays shared. |
| `ClonePacket.CopyExtensions` | internal/webrtc/track_forwarder.go:115-125 | Every extension payload gets its own fresh array, none shared with another extension. |
| `ForwarderOps.TrackForwarder.WriteRTP` | internal/webrtc/track_forwarder.go:848-931 | Each subscriber is offered the packet once, room decides, and n subscribers add exactly n to forwarded plus dropped. |
| `ForwarderOps.TrackForwarder.Drain` | internal/webrtc/track_forwarder.go:74-88 | After cancellation the writer writes all that is queued, in order, and counts it. |
| `ForwarderOps.TrackForwarder.AddSubscriber` | internal/webrtc/track_forwarder.go:532-641 | Idempotent; a new entry is made exactly when the connection is usable and pion takes the track, and has the publisher's MIME, or Opus for audio and VP8 for video when the publisher has none. |
| `ForwarderOps.TrackForwarder.RemoveSubscriber` | internal/webrtc/track_forwarder.go:649-683 | Exactly this subscriber goes, after its queue has been written. |
| `ForwarderOps.TrackForwarder.UpdatePublisher` | internal/webrtc/track_forwarder.go:216-329 | Matching entries are untouched, exactly those whose rebuild failed are detached, every remaining MIME is the publisher's, and the loop runs exactly when the publisher is remote. |
| `ForwarderOps.TrackForwarder.CheckCodecInvariant` | internal/webrtc/track_forwarder.go:467-487 | The mismatch count is zero exactly when every egress MIME is the authoritative publisher's. |
| `ForwarderOps.TrackForwarder.Stop` | internal/webrtc/track_forwarder.go:757-837 | Everything queued is written, nobody is subscribed and nothing runs. |
| `ForwarderOps.TrackForwarder.TotalDropped` | internal/webrtc/track_forwarder.go:958-966 | The sum over live subscribers, never more than packetsDropped. |
| `Codec.CodecReconciliation` | internal/webrtc/track_forwarder.go:216-274 | In particular all MIMEs agree at rest over every run in which no AddSubscriber is in flight across a swap. |
| `Codec.MissedBySwap` | internal/webrtc/track_forwarder.go:232-261 | A subscriber added between a swap's copy of the map and the new publisher keeps the wrong MIME after the swap. |
| `Codec.InferredCodec` | internal/webrtc/track_forwarder.go:552-571 | Over every run an entry carries the MIME of the publisher it was read from, or Opus for audio and VP8 for video when that had none. |
| `Codec.MatchingKept` | internal/webrtc/track_forwarder.go:251-256 | Once the publisher is swapped, the rest of the swap leaves an entry that already matches alone, whoever comes and goes meanwhile. |
| `Codec.EntriesAreNew` | internal/webrtc/track_forwarder.go:590-625 | Over every run an entry that is still there has not changed, and a connection whose entry was replaced has one never used before. |
| `Codec.RemoveUndoesAdd` | internal/webrtc/track_forwarder.go:610-625 | Adding a subscriber and removing it leaves all other entries and the publisher as they were. |
| `Pump.OnePump` | internal/webrtc/track_forwarder.go:691-837 | Over every interleaving of Start, Stop, UpdatePublisher and the loop's own exit at most one loop can call WriteRTP; while nobody holds the lifecycle lock such a loop means `running`. |
| `Pump.RunningMeans` | internal/webrtc/track_forwarder.go:1043-1049 | `running` means that a loop has not yet cleared it and that the publisher is remote. |
| `Pump.NoReturn` | internal/webrtc/track_forwarder.go:1044-1055 | A loop that has decided to return never calls WriteRTP again. |
| `Pump.StartPumpsIff` | internal/webrtc/track_forwarder.go:700-730 | Start on a remote publisher leaves a loop that can pump if and only if no loop is between its decision to return and clearing `running`. |
| `Pump.StopLeavesNone` | internal/webrtc/track_forwarder.go:757-799 | Over every run a Stop that returns leaves no loop that can write and `running` clear, and it can return once all loops are gone. |
| `Pump.SilentUntilLaunch` | internal/webrtc/track_forwarder.go:757-799 | From then on nothing is written until somebody launches a loop again. |
| `Pump.UpdateGoesThrough` | internal/webrtc/track_forwarder.go:232-305 | Over every run a swap that has waited for the loops puts its publisher in and leaves a loop that can pump exactly when that is remote. |
| `RegistryTheorems.ConvergesIff` | internal/signaling/handler.go:1207-1242 | Any number of participants, handlers interleaved lock by lock: the registry ends with exactly one remote-backed forwarder per track under its signaled ID if and only if no publish_track scans while its own OnTrack has chosen the wire ID and not stored it. |
| `RegistryTheorems.EventsConverge` | internal/signaling/handler.go:779-850 | Whole events in any order always end that way, and no wire-ID orphan is left. |
| `RegistryTheorems.WhereTracksEnd` | internal/signaling/handler.go:692-762 | Per track, exactly what is registered at the end, with and without the race. |
| `RegistryTheorems.RaceLosesMedia` | internal/signaling/handler.go:499-518 | The race happens: a placeholder stays under the signaled ID and the media under the wire ID. |
| `RegistryTheorems.OneReader` | internal/signaling/handler.go:823-830 | At no moment do two registered forwarders wrap the same remote track. |
| `HandlerOps.Handler.FindOrphan` | internal/signaling/handler.go:785-811 | The scan ends on an orphan of this participant and kind, or on none only if there is none, in any map order. |
| `HandlerOps.Handler.GetOrCreateForwarder` | internal/signaling/handler.go:692-762 | Create, swap a placeholder for a remote track, or keep what is there. |
| `HandlerOps.Handler.HandlePublishTrack` | internal/signaling/handler.go:1190-1242 | The registry part of the event is exactly its steps of the machine. |
| `HandlerOps.Handler.HandleTrack` | internal/webrtc/peer_connection.go:1763-1821 | The ID choice and the callback are exactly their steps of the machine. |
| `DomainRuns.TwoSidedAlways` | internal/domain/participant.go:95-213 | Over every legal run a participant lists a track if and only if the track lists that participant, through rollback and nested teardown. |
| `DomainRuns.LeaveExactly` | internal/domain/room.go:118-163 | After Leave: the leaver's publications are unpublished, unowned, unregistered and unwatched; no registry entry is unpublished and ownerless; surviving tracks keep their subscribers minus the leaver; others lose exactly the destroyed tracks; the registry loses exactly those and the entries the leaver followed that nobody owns or follows any more. |
| `DomainRuns.ParticipantLeaveExactly` | internal/domain/participant.go:95-120 | After Participant.Leave: the leaver holds nothing, no track lists it, exactly its publications are unpublished and unowned, and everything else is unchanged. |
| `DomainRuns.CloseExactly` | internal/domain/room.go:169-189 | After Room.Close: both maps are empty, every member has left and holds nothing, nobody else changed, no track has a subscriber, and exactly the members' publications are unpublished and unowned. |
| `RoomOps.Room.Leave` | internal/domain/room.go:118-163 | The three teardown loops in any order, with their error cases, are exactly that closed form. |
| `RoomOps.Room.DestroyTrackLocked` | internal/domain/room.go:321-335 | The detach loop destroys exactly this track, sparing the excluded participant's bookkeeping. |
| `RoomOps.Room.PurgeOrphans` | internal/domain/room.go:140-149 | Deleting while iterating destroys exactly the entries that were unpublished and ownerless at the start. |
| `RoomOps.Room.DropLeaverSubscriptions` | internal/domain/room.go:151-160 | The leaver is off every track and exactly the abandoned entries leave the registry. |
| `RoomOps.Room.Close` | internal/domain/room.go:169-189 | Idempotent; every participant leaves and both maps are empty. |
| `RoomOps.Room.LeaveParticipant` | internal/domain/participant.go:95-120 | Both cleanup loops: publications unpublished and disowned, subscriptions dropped on both sides. |
| `RoomOps.Room.SubscribeTrack` | internal/domain/participant.go:163-187 | Success exactly when the participant has not left, does not list the ID and the track is published; then exactly the two sides are linked, and otherwise nothing changes. |
| `RoomOps.Room.UnsubscribeTrack` | internal/domain/participant.go:191-213 | Success exactly when the participant has not left and lists the ID; then exactly the two sides are unlinked, and otherwise nothing changes. |
| `RoomOps.Room.PublishTrack` | internal/domain/participant.go:122-139 | Success exactly when the participant has not left and does not publish the ID; then the track is published by it and listed, and otherwise nothing changes. |
| `RoomOps.Room.UnpublishTrack` | internal/domain/participant.go:141-161 | Success exactly when the participant has not left and publishes the ID; then the track is unpublished and off the list, with its publisher reference kept, and otherwise nothing changes. |
| `RoomOps.Room.ResolvePublished` | internal/domain/room.go:303-310 | The scan returns a publication of a current participant, or nothing only if there is none. |
| `RoomOps.Room.SubscribeToTrack` | internal/domain/room.go:261-278 | The registry entry, or else a participant's publication, is subscribed to; success leaves both sides linked. |
| `RoomOps.Room.UnsubscribeFromTrack` | internal/domain/room.go:285-298 | Only tracks of the room are unsubscribed from. |
| `ClientRuns.RegistryAlwaysAgrees` | pkg/slive/client.go:133-262 | Over every run of client calls a room's registry holds a track if and only if a current participant publishes it, who is then its owner and it is published; through rollback, leave, rejoin and close. |
| `ClientReference.ClientIsReference` | pkg/slive/client.go:133-363 | Over every run of client calls, what one sees (who is in a room and follows which track, who publishes which) and every report are exactly those of a reference without objects, in which a departure takes the leaver's tracks from everybody. |
| `ClientReference.StepSeen` | pkg/slive/client.go:133-363 | Every single call from every reachable state: same view, same report as the reference. |
| `ClientReference.SeenLeave` | pkg/slive/client.go:185-194 | What is left of a room after a departure, seen from outside. |
| `ClientOps.Client.JoinRoom` | pkg/slive/client.go:133-179 | The reference's answer, as the specified step, on room objects that never alias. |
| `ClientOps.Client.LeaveRoom` | pkg/slive/client.go:185-194 | The reference's answer, as the specified step; other rooms are untouched. |
| `ClientOps.Client.PublishTrack` | pkg/slive/client.go:200-226 | Participant, then registry, then roll back: the reference's answer, as the specified step. |
| `ClientOps.PublishRollsBack` | pkg/slive/client.go:219-224 | Publishing and rolling back leaves everything but the new track object as it was. |
| `ClientOps.Client.SubscribeTrack` | pkg/slive/client.go:231-244 | The reference's answer, as the specified step, every error case included. |
| `ClientOps.Client.UnsubscribeTrack` | pkg/slive/client.go:249-262 | The reference's answer, as the specified step, every error case included. |
| `ClientOps.Client.CloseRoom` | pkg/slive/client.go:304-363 | The room object is torn down, the name forgotten and remembered as closed: the reference's answer. |
| `Ice.NotStranded` | internal/webrtc/retry.go:29-49 | At lock granularity, in every run of a usable connection: the candidates that arrived before a description are, in order, those handed over, those in the running flush, those waiting and the one being appended; later ones went to pion at once, in order; once a flush is through all early ones were handed over and nobody is about to append. |
| `Ice.StaysEmpty` | internal/webrtc/peer_connection.go:1431-1457 | After that no candidate is early any more and none is handed over again from the queue. |
| `Ice.DescriptionDelivers` | internal/webrtc/peer_connection.go:1431-1457 | From every quiet state, a description that pion accepts delivers everything that waits, in order, and empties the queue. |
| `Ice.CloseEndsIt` | internal/webrtc/peer_connection.go:1482-1516 | After Close nothing waits, nothing reaches pion and nothing is queued, whoever still calls. |
| `Ice.Queue.AddCandidate` | internal/webrtc/retry.go:29-56 | Appended while there is no description, passed on when there is one, refused when the connection is not usable; as the machine's steps. |
| `Ice.AddWithRetry` | internal/webrtc/retry.go:51-68 | Up to three attempts, success exactly when one of them succeeds, none after the first success. |
| `Ice.Queue.Flush` | internal/webrtc/peer_connection.go:1431-1457 | The whole queue is handed over in order and is left empty, as the machine's steps. |
| `Mid.ParseFormat` | internal/webrtc/peer_connection.go:822-825 | Parsing undoes decimal formatting for every 64-bit number and nothing larger, and `isEgressMID` agrees with the number. |
| `Mid.EgressPartition` | internal/webrtc/peer_connection.go:787-885 | In particular MIDs never repeat in runs where pion numbers nothing from 100 on. |
| `Mid.Transceivers.AddTrack` | internal/webrtc/peer_connection.go:485-510 | Attach, ensure and reserve, with pion numbering and browser sections arriving anywhere in between, is a run of the machine; unless pion refuses it ends on the transceiver it accepted, sending, outside the publish slots. |
| `GateTheorems.OfferDuringRehoming` | internal/webrtc/peer_connection.go:804-810 | The other: an offer created while AddTrack has its sender attached, which is then detached and not re-attached, is recorded as up to date with a sender pion does not hold. |
| `PeerConnectionOps.SkippedOfferReportsTrue` | internal/webrtc/peer_connection.go:949-952 | On a fresh connection the request reports true although the guard skips and no offer is sent. |
| `PeerConnectionOps.PeerConnection.AccountedBetweenCalls` | internal/webrtc/peer_connection.go:974-1032 | Between any two calls exactly the stored browser offer is without a fate, fates are in arrival order, and none that was stored before a sent server offer is still open. |
| `ClonePacket.CloneTwice` | internal/webrtc/track_forwarder.go:894-896 | Two clones of one packet have equal bytes and share no payload or extension payload with each other or with the source. |
| `Codec.MismatchIff` | internal/webrtc/track_forwarder.go:216-274 | Over every run, AddSubscriber racing swaps at will: at rest with an authoritative publisher an entry's MIME differs if and only if it was inserted after the last swap had copied the map, with a codec read before that swap from a publisher of another MIME. |
| `ForwarderMachines.UpdateIsRun` | internal/webrtc/track_forwarder.go:216-329 | The object's swap without company is a run of the interleaved swap machine, for every new publisher and in any order of the map. |
| `ForwarderMachines.DrainIsRun` | internal/webrtc/track_forwarder.go:74-88 | The object's drain is the single queue's writer taking and finishing every packet in order. |
| `ForwarderMachines.OfferIsStep` | internal/webrtc/track_forwarder.go:872-897 | What WriteRTP does to one subscriber is one offer to the single bounded queue. |
| `ForwarderMachines.SwapIsRun` | internal/webrtc/track_forwarder.go:280-305 | The object's swap is a run of the lifecycle machine that ends with a loop running exactly when the new publisher is remote. |
| `Mid.AddTrackLandsIff` | internal/webrtc/peer_connection.go:849-885 | From the moment AddTrack has accepted a transceiver to the end of the call, the track ends sending outside the publish slots, and on a MID of at least 100 if and only if in between pion neither put a browser section on that transceiver nor numbered it while no number from 99 on was set. |
| `Mid.AcceptsSuited` | internal/webrtc/peer_connection.go:791-815 | AddTrack only ever accepts a transceiver outside the publish slots with an egress MID or none. |
| `Mid.OfferGeneratorRaces` | internal/webrtc/peer_connection.go:853-856 | On a fresh connection CreateOffer can give the newborn transceiver MID 0 first, and that assignment stands. |
| `Mid.MidStays` | internal/webrtc/peer_connection.go:857-885 | A MID once set never changes, nor who set it. |
| `Mid.ReuseKeepsMid` | internal/webrtc/peer_connection.go:857-861 | A track that pion puts on an idle egress transceiver stays there under its old MID, and no number is used up. |
| `Mid.MovesOff` | internal/webrtc/peer_connection.go:787-818 | A track that pion puts on a publish slot or a browser's MID ends on a transceiver of its own with the next number, and the one it was on is idle again with its MID. |
| `Mid.ReleasedIsReusable` | internal/webrtc/peer_connection.go:587-600 | A removed sender makes its transceiver idle, and the next track pion puts there keeps its MID. |
| `GateTheorems.RehomingReached` | internal/webrtc/peer_connection.go:485-498 | A run from a fresh connection to the state that family starts from. |
| `ForwarderMachines.StartIsStep` | internal/webrtc/track_forwarder.go:691-751 | The object's Start without company is the lifecycle machine's: a loop runs afterwards exactly when one ran or the publisher is remote. |
| `Mid.SharedMidIff` | internal/webrtc/peer_connection.go:99-104 | Over every interleaving of AddTrack's steps with browser sections and pion's numbering (one past the greatest number): two transceivers share a MID if and only if pion gave one a number and a later reservation set that number on another. |
| `Mid.MidsRepeat` | internal/webrtc/peer_connection.go:857-885 | It happens: after one reservation CreateOffer numbers a newborn transceiver 101, and the reservation after that sets 101 on another. |
| `Mid.ReservationSharesIff` | internal/webrtc/peer_connection.go:865-874 | Before the call: an undisturbed reservation repeats a MID if and only if pion has already given out the number the counter stands at. |
| `Mid.PionEntersPartitionIff` | internal/webrtc/peer_connection.go:851-854 | pion numbers from 100 on if and only if a number of at least 99 is set, as after any reservation. |
| `Mid.Transceivers.GreatestPlusOne` | internal/webrtc/peer_connection.go:102-104 | The scan finds the number one past the greatest set. |

## Left out

- pion itself (SDP, ICE, DTLS, RTP headers), WebSocket and HTTP transport, JSON, logging, metrics, config and the CLI.
- The legacy `CreateOffer`, `CreateAnswer` and `SetRemoteDescription`, which bypass the gate's lock.
- The order of an inline answer relative to a later offer: the answer is sent by the caller outside the gate.
- Gate properties after `Close` or a failed connection, beyond the fate of stored offers and what `Close` leaves.
- `SwapEgressTrack` as a gate call of its own: its sender changes are AddTrack and RemoveTrack steps between gate calls.
- Wrap-around of the 64-bit generation and packet counters, and of the queue counter, which are natural numbers here.
- Context cancellation and the closed flag of the SDK client, `Client.Close`, sessions, and concurrent client calls.
- Ghost timers, reconnects and pruning of forwarders in the handler; errors of forwarder creation and start.
- Duplicate track IDs across publishers on the signaling path; the registry agreement is about the client's calls.
- `AddSubscriber` racing itself: the undo by track ID on the connection is not part of the codec model.
- RegistryTheorems.OneReader: is about registry entries; the read loop's helper goroutine, which may outlive its stopped loop by one read of the same remote track, is not part of the model.
- ForwarderOps.TrackForwarder.AddSubscriber: describes the call without company; its insert racing a swap is in `Codec`, and the undo of an insert that lost against another for the same connection is not modelled on the object.
- `TotalDropped` as a monotone quantity, which it is not: it sums live subscribers only.
- FIR numbering, keyframe relay, RTCP, diagnostics and the error-code tables: single branches without state of their own.
- HandlerOps.Handler.HandlePublishTrack: states the registry part of the event only, not the replies and broadcasts around it.
- ForwarderOps.TrackForwarder.UpdatePublisher: describes the swap without concurrent callers; `Codec` and `Fanout` carry the interleavings, including packets moved between queues.
- Ice.AddWithRetry: leaves out the delays between attempts.
- Mid.SharedMidIff: holds until the 64-bit counter is used up, and so does Mid.AddTrackLandsIff; pion is taken as refusing a number only when the transceiver has one.
