# ws.io: session protocol, event pipeline and membership indexes

A Dafny model of the parts of ws.io whose correctness depends on what many tasks do to shared state at once, with
proofs of what holds in every run. `dafny verify dfyconfig.toml` checks the whole project.

## What is modelled

| file | models |
|---|---|
| `Packets.dfy` | the packets of the protocol and one direction of a connection: a bounded channel, its write task and a wire that can fail, as one FIFO link |
| `ServerConnection.dfy` | one server connection: the main task (`init`, `cleanup`), the read task (`handle_init_packet`) and any number of tasks that close, disconnect or emit, interleaved action by action, against an arbitrary peer |
| `ClientSession.dfy` | one client session in the same way |
| `Handshake.dfy`, `HandshakeProgress.dfy` | a session and its connection joined by two links: one inductive invariant over both machines and both queues, and the completion of a handshake that nothing disturbs |
| `EventPipeline.dfy`, `PipelineGuarantees.dfy` | the client runtime: `connect`, `disconnect`, `emit`, the connection loop and the forwarder over the sequence of all sessions ever run, each with its own server connection |
| `Rooms.dfy` | the rooms map and every connection's `joined_rooms` under interleaved `join`, `leave` and `cleanup` |
| `ConnectionIndexes.dfy` | the connection indexes of all namespaces and of the runtime |
| `Broadcast.dfy` | whom a broadcast reaches |
| `NamespaceShutdown.dfy` | `shutdown` of a namespace while upgrade requests keep coming |
| `EventRegistry.dfy` | the event registry under interleaved `on`, `off`, dispatch and the phases of `off_by_handler_id` |
| `UrlPath.dfy` | `normalize_url_path` |
| `ServerObjects.dfy`, `ClientObjects.dfy` | the objects with the fields and methods of the source, the broadcast operator among them |

There are two layers. A *machine* is a set of actions, one per atomic access of shared state (or the start or the end of
a user handler), and its theorems quantify over every interleaving. The *classes* are written as the source is: fields
that methods update, loops that go through a set in any order. A class whose methods await carries the state of its
machine as a ghost `view`; every statement that touches shared state performs the machine's action, so that the method's
text is a path through the machine, and at each await an `OthersAct…` method stands for whatever the other tasks do
there (its contract says only which position they leave alone; its body is empty because the caller sees the contract
alone).

History variables (`entered`, `started`, `passed`, `queued`, `accepted`, `sent`, …) record what has happened and influence nothing.

## Assumptions

- `AtomicEnumCell` (kikiutils, not part of this model): `try_transition(a, b)` is a compare-and-swap that fails when the
  state is not `a`; `get`, `is`, `ensure` and `store` are single atomic reads or writes.
- Each `DashMap` operation and each `ArcSwap::rcu` is atomic.
- A tokio mpsc channel is a bounded FIFO of any capacity of at least 1. `send` waits for room and fails exactly when the
  receiver is gone, and then nothing was queued; `try_send` succeeds exactly when there is room and the receiver is there.
- A `Notified` future counts from its creation.
- Decoding an encoded packet gives the packet back, and no encoded packet is one byte long.
- User handlers do not panic. They may fail, time out, and call back into the connection; timeouts and cancellation are
  nondeterministic steps, and a watchdog is a task that may call `close` at any time.
- A wire delivers in order, and when it fails any suffix of what is in flight is lost. When a write task ends, so does
  what is left in its channel.
- The caller of a `disconnect` or of a namespace `shutdown` may drop its future at any await. A `connect` runs to
  completion once it holds `operate_lock`: the mutexes it locks then (`crates/wsio-client/src/runtime.rs:215`,
  `crates/wsio-client/src/runtime.rs:236`) are only locked under `operate_lock`, so it does not wait there.
- Where a theorem does not say "any interleaving", a step is a stretch between two awaits and an aborted task takes no
  further step. This is used in `EventPipeline` for `run_connection` (the session is published before its read task can
  receive, `crates/wsio-client/src/runtime.rs:128-160`), and in `NamespaceShutdown`, `ConnectionIndexes` and
  `ServerObjects.WsIoServerConnection.BecomeReady` for the transition to Ready with the insertion behind it
  (`crates/wsio-server/src/connection/mod.rs:253-258`).
- No two `shutdown` calls of one namespace overlap, and connection ids are unbounded (the source's counter is 64 bits wide).

## What the proofs found

- After a successful `init`, `cleanup` of a server connection does not wait for the read task that
  `handle_upgraded_request` has aborted because the write task ended first (`crates/wsio-server/src/namespace/mod.rs:169-171`);
  after a failed `init` it does. With preemption inside a stretch, the connection stays in an index for good exactly if
  the read task is between its transition to Ready and its last insertion when `cleanup` stores Closing
  (`ServerConnection.StaysIndexedIffMidInsertion`), and that state is reached
  (`ServerConnection.CleanupCanMeetInsertion`).
- As long as a connection's own calls do not overlap, it is in a room exactly if its last call that concerns the room is
  a join (`Rooms.InRoomIffLastCallJoins`). So after its cleanup it is in exactly the rooms it has joined since and not
  left again (`Rooms.AfterCleanup`), and no further cleanup takes it out of those (`Rooms.JoinAfterCleanupStays`). A join
  that begins before the cleanup and overlaps it can leave the connection in the room as well
  (`Rooms.OverlapLeavesMember`).
- The `unreachable!` arms of `connect` and `disconnect` are reached exactly when the caller of an earlier `disconnect`
  dropped it after it had stored Stopping, and from then on by every call (`PipelineGuarantees.ArmReachedIffAbandoned`,
  `PipelineGuarantees.AbandonedForGood`). The same holds of `shutdown` (`NamespaceShutdown.ArmReachedIffDropped`).
- Handler ids are distinct exactly up to 2^32 registrations on one registry (`EventRegistry.IdsDistinct`).
- The client declares a state `Readying` that nothing enters.

## Model

| member | source | states |
|---|---|---|
| ServerConnection.LiveStatesInOrder | crates/wsio-server/src/connection/mod.rs:206-255 | in any interleaving and against any peer, the live states are entered in handshake order, each at most once, and the state is the last one entered or a closing one |
| ServerConnection.ClosingIsForGood | crates/wsio-server/src/connection/mod.rs:278-322 | Closing and Closed are never left for a live state, even with `close` split into its read and its store |
| ServerConnection.SetupInOrder | crates/wsio-server/src/connection/mod.rs:206-261 | the setup handlers started are a prefix of the configured ones in order, at most one of them has not returned Ok, and a connection that was ever Ready has passed all of them |
| ServerConnection.ClosedDuringSetup | crates/wsio-server/src/connection/mod.rs:206-258 | a connection that begins to close during setup never becomes Ready and is never in an index, whatever happens later |
| ServerConnection.StaysIndexedIffMidInsertion | crates/wsio-server/src/namespace/mod.rs:161-184 | in every reachable state in which cleanup has just stored Closing, some continuation leaves the connection indexed for good if and only if the read task is in the middle of the insertion |
| ServerConnection.CleanupCanMeetInsertion | crates/wsio-server/src/namespace/mod.rs:162-173 | whatever handlers are configured, some run leads through a successful init to a cleanup that begins in the middle of the insertion |
| ServerConnection.RemovedForGood | crates/wsio-server/src/connection/mod.rs:278-283 | if the read task is not inserting when cleanup begins, every index entry removed stays removed in every continuation |
| ServerConnection.InvStep | crates/wsio-server/src/connection/mod.rs:206-384 | every atomic action keeps the connection's invariant: state, history, setup log, indexes and traffic agree |
| ClientSession.LiveStatesInOrder | crates/wsio-client/src/session.rs:122-182 | the client's live states are entered in handshake order, each at most once, in any interleaving |
| ClientSession.ClosingIsForGood | crates/wsio-client/src/session.rs:193-228 | a session that is Closing or Closed never becomes live again |
| ClientSession.InvStep | crates/wsio-client/src/session.rs:122-281 | every atomic action keeps the session's invariant |
| Handshake.InvStep | crates/wsio-server/src/namespace/mod.rs:121-159 | every action of either side and every failure of a link keeps the joint invariant over both machines and both queues |
| Handshake.RefusesOnlyWhenClosing | crates/wsio-server/src/connection/mod.rs:206-255 | between honest peers an "invalid state" error or a failed transition happens only on a side that is already Closing or Closed |
| Handshake.NothingUndecodable | crates/wsio-server/src/namespace/mod.rs:124-144 | no frame between honest peers makes a read loop fail: none is undecodable or lacks its event name, and no heartbeat reaches a client |
| Handshake.Agreement | crates/wsio-client/src/session.rs:144-167 | a client that was ever Ready has a server that was, and a server that was ever Ready has a client that had reached AwaitingReady |
| Handshake.ReadyMeansIndexed | crates/wsio-server/src/connection/mod.rs:253-261 | in any interleaving, when the client is Ready and its connection still Ready, the connection is in all three indexes |
| Handshake.EventsArriveReady | crates/wsio-server/src/connection/mod.rs:332-346 | a client event never reaches a connection that is still setting up |
| Handshake.DispatchedIsPrefix | crates/wsio-server/src/connection/mod.rs:332-345 | what the server dispatches is a prefix of what the client queued, and while the wire holds and the server lives nothing is lost in between |
| Handshake.ReceivedAtMostOnce | crates/wsio-server/src/connection/mod.rs:260-261 | in every run the server receives Init at most once and the client receives Init and Ready at most once each |
| HandshakeProgress.UndisturbedHandshakeCompletes | crates/wsio-server/src/connection/mod.rs:352-384 | a handshake that nothing disturbs takes at most 34 steps and is stuck exactly when both sides are Ready, the connection is indexed and nothing is in flight |
| HandshakeProgress.QuietStep | crates/wsio-client/src/session.rs:122-167 | every step of such a handshake makes progress and keeps each protocol packet in flight exactly between its sending and its receipt |
| HandshakeProgress.NotStuck | crates/wsio-client/src/session.rs:122-167 | until it is complete, some step of the handshake can be taken |
| EventPipeline.InvStep | crates/wsio-client/src/runtime.rs:114-305 | every step of any task keeps the runtime's invariant: tasks and lock holder agree, every message is accounted for, and a parked forwarder is excused |
| EventPipeline.BooksKept | crates/wsio-client/src/runtime.rs:236-305 | everything ever accepted is settled, queued, dropped, held or in the channel, in that order, after every step |
| EventPipeline.QueuedAfter | crates/wsio-client/src/runtime.rs:238-255 | a step adds to the queues of this epoch's sessions exactly what the forwarder sends, and at the end |
| EventPipeline.WakeKept | crates/wsio-client/src/session.rs:161-173 | no step leaves a parked forwarder unwoken without an excuse |
| PipelineGuarantees.AcceptedInOrder | crates/wsio-client/src/runtime.rs:236-256 | within an epoch the accepted order is the sessions' queues one after the other, then what the disconnect dropped, the message held and the channel; nothing is dropped while the forwarder lives |
| PipelineGuarantees.SessionsQueueConsecutiveRuns | crates/wsio-client/src/runtime.rs:236-256 | each session queues a consecutive run of the accepted order, runs follow in session order, and the server dispatches a prefix of the run |
| PipelineGuarantees.QueuedInAcceptedOrder | crates/wsio-client/src/runtime.rs:236-256 | across all epochs, what all sessions ever run have queued, one after the other, is the accepted order with some messages left out |
| PipelineGuarantees.NoMessageTwice | crates/wsio-client/src/session.rs:230-236 | distinct accepted messages are never queued twice, whether on one session, on two of one epoch or on sessions of different epochs |
| PipelineGuarantees.EarlierEpochsFrozen | crates/wsio-client/src/runtime.rs:259-287 | what the sessions of an earlier epoch have queued never changes again |
| PipelineGuarantees.NoLostWakeUp | crates/wsio-client/src/runtime.rs:238-255 | a forwarder parked with a message and not woken has no current session, or it is not Ready, or its queue lost its receiver, or its `notify_waiters` is still to come |
| PipelineGuarantees.SendWaitsForRoom | crates/wsio-client/src/session.rs:184-186 | a forwarder that has found its session Ready can take its send step if and only if the session's channel has room or has lost its receiver; otherwise the write task can take a packet |
| PipelineGuarantees.SendAppends | crates/wsio-client/src/session.rs:230-236 | a successful send comes last in this epoch's order |
| PipelineGuarantees.OnlySendAppends | crates/wsio-client/src/runtime.rs:236-256 | while the forwarder lives, no other step of any task changes what this epoch's sessions have queued |
| PipelineGuarantees.ArmReachedIffAbandoned | crates/wsio-client/src/runtime.rs:263-267 | a `connect` or `disconnect` that takes the lock reaches its `unreachable!` arm if and only if an earlier `disconnect` was dropped after it stored Stopping |
| PipelineGuarantees.UnreachableArms | crates/wsio-client/src/runtime.rs:204-208 | in every run in which no `disconnect` is dropped these arms are never reached |
| PipelineGuarantees.AbandonedForGood | crates/wsio-client/src/runtime.rs:259-287 | once a `disconnect` has been dropped there, no later call gets past the arm |
| PipelineGuarantees.OneLoopOneForwarder | crates/wsio-client/src/runtime.rs:213-256 | a new loop or forwarder is only spawned when the previous one is gone, and no forwarder exists while the channel is drained |
| PipelineGuarantees.OneLiveSession | crates/wsio-client/src/runtime.rs:160-195 | at most one session is current and every other one has been cleaned up |
| PipelineGuarantees.DisconnectLeavesNothing | crates/wsio-client/src/runtime.rs:259-287 | when a disconnect that found the client Running returns, every session is cleaned up, none is current and no task of the epoch is left |
| PipelineGuarantees.LoopCanDrive | crates/wsio-client/src/runtime.rs:114-197 | whatever other tasks have done to its session, the connection loop can take its next step on it |
| PipelineGuarantees.BetweenConnections | crates/wsio-client/src/runtime.rs:194-196 | between two connections no session is current and all are cleaned up |
| Rooms.StepRefinesRelation | crates/wsio-server/src/namespace/mod.rs:240-246 | in any interleaving the map refines a plain relation: adding puts one pair in, the first half of a removal takes one out, pruning changes nothing |
| Rooms.NoEmptyRoomWhenIdle | crates/wsio-server/src/namespace/mod.rs:240-246 | an empty room in the map has a remover between its two steps, so none is left when no call is under way |
| Rooms.InRoomIffLastCallJoins | crates/wsio-server/src/connection/mod.rs:437-453 | with each connection's own calls serialised and different connections interleaving freely, an idle connection is in a room, in the map and in `joined_rooms`, if and only if the last of its calls that concerns the room is a join |
| Rooms.RoomsAgree | crates/wsio-server/src/connection/mod.rs:437-453 | in such a run `joined_rooms` and the map agree for an idle connection, and up to the room of the pending join or leave for another |
| Rooms.AfterCleanup | crates/wsio-server/src/connection/mod.rs:278-291 | after a cleanup an idle connection is in a room if and only if, of the calls begun since, the last that concerns the room is a join |
| Rooms.NoRoomAfterCleanup | crates/wsio-server/src/connection/mod.rs:278-291 | a connection that begins no join after its cleanup is in no room, even if it never became Ready |
| Rooms.OverlapLeavesMember | crates/wsio-server/src/connection/mod.rs:285-291 | serialisation is needed: a run in which a join overlaps the cleanup ends idle with the connection in the room |
| Rooms.JoinAfterCleanupStays | crates/wsio-server/src/connection/mod.rs:278-291 | a join after cleanup leaves the id in the room with no cleanup to come |
| Rooms.LeaveUndoesJoin | crates/wsio-server/src/connection/mod.rs:437-453 | leaving the rooms just joined restores the map |
| Rooms.SameRooms | crates/wsio-server/src/namespace/mod.rs:240-246 | without empty rooms the map is determined by who is in which room |
| ConnectionIndexes.ConnectionsConserved | crates/wsio-server/src/namespace/mod.rs:218-237 | each namespace's ids are the keys of its map, namespaces are disjoint, the runtime's ids are their union and its count the sum of their counts |
| Broadcast.TargetsAreWanted | crates/wsio-server/src/namespace/operators/broadcast.rs:45-93 | where the indexes are in step, the computed targets are exactly the indexed connections whose own rooms meet the include set, miss the exclude set and whose id is not excluded |
| Broadcast.BroadcastReachesWanted | crates/wsio-server/src/namespace/operators/broadcast.rs:45-93 | the same after every disciplined run of joins, leaves and cleanups |
| ServerObjects.ReachedIffWanted | crates/wsio-server/src/namespace/operators/broadcast.rs:45-93 | the same for one connection object and one operator object |
| Broadcast.SenderNeverReached | crates/wsio-server/src/namespace/operators/broadcast.rs:135-150 | whoever is excluded stays excluded whatever is called on the operator afterwards, and nobody else is affected |
| ServerObjects.WsIoServerConnection.To | crates/wsio-server/src/connection/mod.rs:499-504 | a new operator that reaches members of the named rooms but not the connection itself |
| ServerObjects.WsIoServerConnection.Except | crates/wsio-server/src/connection/mod.rs:408-413 | a new operator that reaches everyone outside the named rooms but not the connection itself |
| ServerObjects.WsIoServerNamespaceBroadcastOperator.TargetConnectionIds | crates/wsio-server/src/namespace/operators/broadcast.rs:50-78 | for every iteration order and despite the early break, the loops compute the set difference |
| ServerObjects.WsIoServerNamespaceBroadcastOperator.TargetConnections | crates/wsio-server/src/namespace/operators/broadcast.rs:80-93 | every target that is still indexed is visited, each once |
| ServerObjects.WsIoServerNamespaceBroadcastOperator.Emit | crates/wsio-server/src/namespace/operators/broadcast.rs:115-133 | unless the namespace is stopping, the event is queued once on every reached connection that is Ready and on no other |
| ServerObjects.WsIoServerNamespaceBroadcastOperator.Disconnect | crates/wsio-server/src/namespace/operators/broadcast.rs:104-113 | the disconnect packet is queued once on every reached connection in any state, and on no other |
| ServerObjects.WsIoServerNamespaceBroadcastOperator.Close | crates/wsio-server/src/namespace/operators/broadcast.rs:96-102 | every reached connection is closing or closed, with a close frame exactly if it was live and its own channel had room, and no other changes its state or its channel |
| NamespaceShutdown.StoppedMeansCleanedUp | crates/wsio-server/src/namespace/mod.rs:288-300 | when the status is Stopped every connection ever accepted has been cleaned up and none is indexed |
| NamespaceShutdown.StoppedForGood | crates/wsio-server/src/namespace/mod.rs:109-116 | and so it stays, whatever upgrade requests are spawned later |
| NamespaceShutdown.ArmReachedIffDropped | crates/wsio-server/src/namespace/mod.rs:289-293 | a `shutdown` that overlaps no other reaches its `unreachable!` arm if and only if an earlier one was dropped after it stored Stopping |
| NamespaceShutdown.ShutdownFindsRunningOrStopped | crates/wsio-server/src/namespace/mod.rs:289-293 | in every run in which no `shutdown` is dropped the arm is never reached |
| NamespaceShutdown.DroppedForGood | crates/wsio-server/src/namespace/mod.rs:288-300 | after such a drop the status stays Stopping and no connection is accepted any more |
| NamespaceShutdown.DrainJoinsEveryTask | crates/wsio-server/src/namespace/mod.rs:296-297 | while the task set is drained no task is added to it, and every connection accepted meanwhile belongs to a task that was in it |
| NamespaceShutdown.WsIoServerNamespaceTasks.Shutdown | crates/wsio-server/src/namespace/mod.rs:288-300 | panics exactly if an earlier one was dropped; otherwise returns Stopped with every connection ever accepted cleaned up and none indexed |
| NamespaceShutdown.WsIoServerNamespaceTasks.Drain | crates/wsio-server/src/namespace/mod.rs:296-299 | the loop over `join_next` ends with the task set empty |
| NamespaceShutdown.WsIoServerNamespaceTasks.HandleOnUpgradeRequest | crates/wsio-server/src/namespace/mod.rs:203-215 | one new task in the set and nothing else |
| EventRegistry.RegistryRefinesMap | crates/wsio-core/src/event/registry.rs:133-151 | in any interleaving the registry is a map from events to handlers: no pruning phase drops a handler another thread registered |
| EventRegistry.NoEmptyEntryWhenIdle | crates/wsio-core/src/event/registry.rs:138-151 | no empty entry remains when no call is under way |
| EventRegistry.IdsDistinct | crates/wsio-core/src/event/registry.rs:181-182 | handler ids are distinct if and only if there were at most 2^32 registrations |
| EventRegistry.DispatchReaches | crates/wsio-core/src/event/registry.rs:98-130 | whichever entry a dispatch captured, a payload that decodes reaches all handlers it holds when read, no payload reaches all of them if the type is unit and none otherwise |
| EventRegistry.Dispatch | crates/wsio-core/src/event/registry.rs:112-129 | for every iteration order each such handler runs once and no other runs |
| EventRegistry.WsIoEventRegistry.On | crates/wsio-core/src/event/registry.rs:154-199 | panics exactly on another payload type and then changes nothing; otherwise registers under the next id and leaves the other events alone |
| EventRegistry.WsIoEventRegistry.Off | crates/wsio-core/src/event/registry.rs:133-135 | removes all handlers of one event and no other |
| EventRegistry.WsIoEventRegistry.OffByHandlerId | crates/wsio-core/src/event/registry.rs:138-151 | removes one handler of one event, and the entry with its last handler |
| UrlPath.SegmentsKept | crates/wsio-client/src/builder.rs:83-88 | normalisation keeps the list of non-empty segments |
| UrlPath.SameNormalFormIffSameSegments | crates/wsio-client/src/builder.rs:83-88 | two paths have the same normal form exactly when their non-empty segments are equal |
| UrlPath.NormalizeIdempotent | crates/wsio-client/src/builder.rs:83-88 | normalising twice is normalising once |
| UrlPath.SegmentsOfSlash | crates/wsio-client/src/builder.rs:83-88 | a slash between two paths separates their segments |
| UrlPath.SplitUndoesJoin | crates/wsio-client/src/builder.rs:83-88 | splitting undoes joining for non-empty pieces without a slash |
| ServerObjects.WsIoServerNamespace.InsertConnection | crates/wsio-server/src/namespace/mod.rs:218-226 | the connection is in all three indexes and nothing else changes |
| ServerObjects.WsIoServerNamespace.RemoveConnection | crates/wsio-server/src/namespace/mod.rs:229-237 | the connection is out of all three indexes and nothing else changes |
| ServerObjects.WsIoServerNamespace.AddConnectionIdToRoom | crates/wsio-server/src/namespace/mod.rs:189-191 | performs the map operation of the rooms machine |
| ServerObjects.WsIoServerNamespace.RemoveConnectionIdFromRoom | crates/wsio-server/src/namespace/mod.rs:240-246 | performs the two map operations of a removal |
| ServerObjects.WsIoServerConnection.Init | crates/wsio-server/src/connection/mod.rs:352-384 | with interference at each await, Ok means that AwaitingInit was entered and Init queued; the invariant holds in either case |
| ServerObjects.WsIoServerConnection.HandleInitPacket | crates/wsio-server/src/connection/mod.rs:206-270 | with interference at each await, Ok means that every configured setup handler returned Ok, the connection became Ready and the Ready packet was queued; an error ends the read task |
| ServerObjects.WsIoServerConnection.BecomeReady | crates/wsio-server/src/connection/mod.rs:253-258 | the connection becomes Ready exactly if it was Activating, and then is in all three indexes in the same stretch |
| ServerObjects.WsIoServerConnection.HandleEventPacket | crates/wsio-server/src/connection/mod.rs:332-346 | an event is dispatched exactly if the connection is Ready |
| ServerObjects.WsIoServerConnection.EmitEventMessage | crates/wsio-server/src/connection/mod.rs:324-330 | the event is queued exactly if the connection is Ready and its channel has its receiver |
| ServerObjects.WsIoServerConnection.Close | crates/wsio-server/src/connection/mod.rs:313-322 | closes, with a close frame exactly if the connection was live and its channel has room, and does nothing if it was not live |
| ServerObjects.WsIoServerConnection.Join | crates/wsio-server/src/connection/mod.rs:437-443 | adds the id to every named room and the names to `joined_rooms` |
| ServerObjects.WsIoServerConnection.Leave | crates/wsio-server/src/connection/mod.rs:446-453 | removes the id from every named room and the names from `joined_rooms` |
| ServerObjects.WsIoServerConnection.LeaveEverything | crates/wsio-server/src/connection/mod.rs:278-291 | after the first stretch of cleanup the connection is in no index and in none of the rooms it had joined, nobody else is touched and no empty room appears |
| ServerObjects.WsIoServerConnection.Cleanup | crates/wsio-server/src/connection/mod.rs:278-310 | ends in Closed and in no index, whatever other tasks do while the close handler runs |
| ServerObjects.WsIoServerConnection.Serve | crates/wsio-server/src/namespace/mod.rs:161-185 | however `init` ends, the connection ends Closed, cleaned up and in no index |
| ClientObjects.WsIoClientSession.HandleInitPacket | crates/wsio-client/src/session.rs:122-159 | Ok means that AwaitingReady was entered and Init queued; an error ends the read task |
| ClientObjects.WsIoClientSession.HandleReadyPacket | crates/wsio-client/src/session.rs:161-182 | Ok means that the session became Ready and the forwarder was woken |
| ClientObjects.WsIoClientSession.EmitEventMessage | crates/wsio-client/src/session.rs:230-236 | the event is queued exactly if the session is Ready and its channel has its receiver |
| ClientObjects.WsIoClientSession.Init | crates/wsio-client/src/session.rs:259-281 | stores AwaitingInit |
| ClientObjects.WsIoClientSession.Close | crates/wsio-client/src/session.rs:219-228 | closes, with a close frame exactly if the session was live and its channel has room, and does nothing if it was not live |
| ClientObjects.WsIoClientSession.Cleanup | crates/wsio-client/src/session.rs:193-216 | ends in Closed whatever other tasks do while the close handler runs |
| ClientObjects.WsIoClientRuntime.Connect | crates/wsio-client/src/runtime.rs:200-257 | panics exactly if an earlier `disconnect` was dropped; otherwise, with interference at each await, returns Running |
| ClientObjects.WsIoClientRuntime.BeginDisconnect | crates/wsio-client/src/runtime.rs:259-279 | nothing happens to a stopped client, panics exactly if an earlier one was dropped; otherwise the forwarder is gone and the channel empty |
| ClientObjects.WsIoClientRuntime.DrainChannel | crates/wsio-client/src/runtime.rs:278-279 | the loop drops exactly what is in the channel |
| ClientObjects.WsIoClientRuntime.FinishDisconnect | crates/wsio-client/src/runtime.rs:281-286 | once the loop has ended, the status is Stopped, no session is current and every session is cleaned up |
| ClientObjects.WsIoClientRuntime.EmitSend | crates/wsio-client/src/runtime.rs:294-302 | the channel accepts the message last |
| ClientObjects.WsIoClientRuntime.Attempt | crates/wsio-client/src/runtime.rs:240-244 | with interference between its load, its check and its send, an attempt adds the message last in this epoch's queues if it succeeds and nothing otherwise |
| ClientObjects.WsIoClientRuntime.ForwardNext | crates/wsio-client/src/runtime.rs:238-253 | the oldest message is taken, tried twice with the `Notified` created in between, and either queued last, once, or parked with |
| ClientObjects.WsIoClientRuntime.RunConnection | crates/wsio-client/src/runtime.rs:114-197 | with interference at each await, leaves no current session and every session cleaned up |
| ClientObjects.WsIoClientRuntime.OpenSession | crates/wsio-client/src/runtime.rs:123-160 | init, then spawn and publish in one stretch: the new session is current |

## Left out

- Sockets, TLS, HTTP upgrade, tower adapters, header checks: I/O that decides none of the properties above.
- Packet codecs: an abstract inverse pair; the serialisation libraries are not part of this model.
- `channel_capacity_from_websocket_config`: floating-point logarithm and rounding; the capacity is any number.
- Builders, configuration, `Debug` output, connection extensions, benches and durations: single assignments or I/O.
- The query string in the client builder: decoded pairs are joined without encoding them again, so there is no round trip to state.
- The session objects inside `ClientObjects.WsIoClientRuntime`: its `sessions` holds the machine's state of each session together with its server connection, and the runtime's methods update it by the machine's transition function; `ClientObjects.WsIoClientSession` shows one session as an object.
- A `connect` dropped between its two spawns: see the assumption above.
- Whether a `shutdown`, a `disconnect` or a reconnect ends in finite time: this depends on the peer and the network.
- Order of event handlers, and delivery of a server event that overtakes the client's Ready: the source promises neither.
- Overlapping `shutdown` calls, and overlapping registrations of one path: the source does not support them.
- Runtime-wide `emit`, `close_all` and `shutdown` of the server: they call the namespace operations for each namespace.
- `on_close`, `event_registry` fields and the watchdog handles: a watchdog is any task that calls `close`; whether it is aborted in time does not matter to any theorem here.
- The server's event handlers inside a namespace: the registry is modelled by itself, and a dispatched event is the point where the session machine hands over to it.
- The composition of `NamespaceShutdown` with the connection machine: a connection is one task that serves, cleans up and ends, and the read task's late insertion described above is excluded there by the stretch assumption.
- ServerObjects.WsIoServerConnection.Close: one stretch; that other tasks can act between its read and its store is covered by the actions `CloseGet` and `CloseStore` of the machine.
- ServerObjects.WsIoServerConnection.EmitEventMessage: one stretch; a state change between the check and the queueing is covered by the machine.
- ServerObjects.WsIoServerConnection.Serve: takes the transition to Ready and the insertion as one stretch; with preemption inside it see `ServerConnection.StaysIndexedIffMidInsertion`.
- ServerObjects.WsIoServerConnection.Cleanup: the same.
- ClientObjects.WsIoClientSession.Close: one stretch, as on the server.
- ClientObjects.WsIoClientSession.EmitEventMessage: one stretch, as on the server.
- ClientObjects.WsIoClientRuntime.FinishDisconnect: begins when the connection loop has ended; the waiting itself is an enabling condition of the machine.
- ServerObjects.WsIoServerNamespaceBroadcastOperator.Emit: visits one connection after the other; the source sends to several at once, each through its own channel.
- ServerObjects.WsIoServerNamespaceBroadcastOperator.Disconnect: visits one connection after the other, as above.
