# DEFw, verified

DEFw is a distributed RPC runtime: a C core that connects processes over TCP and,
where it can, over a fabric, and a Python layer that dispatches RPCs, tracks peers
and keeps a service directory. This project models its protocols and registries in
Dafny and proves what they keep over every run.

`dafny verify dfyconfig.toml` checks the whole project.

| file | what it models |
|---|---|
| `Handshake.dfy`, `Listener.dfy` | agent blocks, the session and heartbeat handlers, and the listener object that runs them in place |
| `Fabric.dfy`, `Quiescence.dfy`, `Reports.dfy`, `Sockets.dfy`, `Completion.dfy` | any number of processes, FIFO sockets and an unordered fabric as a step system; safety and completion of the handshake, what it reports, who holds which socket, and a run that does it all |
| `Lifecycle.dfy`, `BlockHistory.dfy`, `Peers.dfy` | reference counts and once-only peer events of a block, and how both follow from what was done to it; the peer table that replays the events |
| `Directory.dfy`, `DirectoryEffects.dfy`, `DirectoryService.dfy` | the service directory as a step system with subscribers, what each of its operations does to records, notices and registrations, and the object that runs it |
| `Wire.dfy`, `Rma.dfy` | numbers on the wire; memory regions registered for remote reads |
| `Attachments.dfy`, `Transfer.dfy`, `Interleaving.dfy` | pulling buffers out of a message tree, carrying them inline or by descriptor, and restoring them, alone and amid other users of the endpoint |
| `Framing.dfy` | framed messages under short reads and writes and concurrent senders |
| `DList.dfy`, `SList.dfy` | the intrusive lists, on the heap |
| `Workers.dfy`, `Registry.dfy`, `EventQueue.dfy`, `HostList.dfy` | request correlation, the instance registry, the event queue with its pipe, host list expansion |

Message handlers and lock-protected sections are single steps. Sockets, libfabric,
memory, clocks and Python callbacks appear as parameters that may succeed or fail:
scripts of system calls, a provider's answer to a registration, a time stamp, a
factory that raises. A component that changes state in place is a class whose
methods are proved to perform the functions of its step system; the properties are
proved of those functions, over all runs.

Where the code does less than a reader might expect, the exact condition is proved:

- A message that was not sent leaves the registered regions as they were exactly if
  nothing of it was published, or it was encoded and the transport returned an error
  code. An exception leaves them registered: of a list or tuple that cannot take the
  payload list, of the text encoder on an argument it refuses, or of the transport
  call (`Transfer.UnsentLeavesNothingIff`, `Transfer.RefusedArgumentLeaks`,
  `Transfer.ListMessageLeaks`).
- No process loses a socket exactly as long as no connection comes from the address
  of a live block; such a connection takes that block over
  (`Sockets.NoSocketLostIff`, `Sockets.CollisionHappens`, `Fabric.AcceptInvIff`).
- A block leaves a descriptor open behind it exactly when one was assigned over an
  open one, or a holder reconnected it after its death report
  (`Lifecycle.DescriptorLeftIff`, `Lifecycle.SendAfterDeathLeaks`).
- A connect told that it succeeded has a READY block exactly unless its RPC socket
  could not be opened (`Lifecycle.ConnectStatusIff`).
- The listener may release the connection table's share of a block directly exactly
  when nobody else holds it (`Lifecycle.ReleaseShareSafeIff`).
- A subscriber that filters on the service type can lose track of a service that
  re-registers under another type; one that does not, cannot
  (`Directory.KnowsIffUntyped`).
- Peer events converge in every order exactly when the latest that concern a record
  decide it and agree, or none of them moves it (`Directory.OrderIrrelevantIff`,
  `Directory.DeregisteredDiverges`, `Directory.DegradedDiverges`).
- Handles are unique until the 64-bit counter wraps (`Rma.HandlesUniqueIff`).
- A descriptor used after its release reads data exactly when a later region has its
  key and covers its range; with counter keys none does (`Rma.StaleFetchIff`,
  `Rma.StaleFetchCanMislead`, `Rma.StaleFetchFails`).
- `get` takes exactly the matching events for every queue if and only if its
  predicate respects event equality (`EventQueue.ExactForEveryQueueIff`).
- Interleaved registry sections keep every alias right exactly when each binding
  binds the object its key stores at that moment; an eviction between the creation
  of a singleton and the binding of its alias is the case that does not
  (`Registry.InterleavingConsistentIff`, `Registry.InterleavedEvictionLeavesAlias`).

## Model

| member | source | states |
|---|---|---|
| `Handshake.Find` | src/libdefw_agent.c:1347-1383 | the first block of a direction that has a remote uuid, or none |
| `Handshake.FindGlobal` | src/libdefw_agent.c:1409-1423 | the first outbound block of a sender uuid, else the first inbound one; none exactly when the table holds none |
| `Handshake.FindAlive` | src/libdefw_agent.c:523-545 | the first live block that has a socket address, or none |
| `Handshake.RefusedIff` | src/defw_listener.c:254-490 | a message is refused, and then changes and sends nothing, exactly when its sender is not the peer the block names, or it is a session message of that very block |
| `Handshake.ClosedIff` | src/libdefw_agent.c:410-429 | a session message closes exactly the sockets of a merged block that was past its handshake |
| `Handshake.LearnFirst` | src/defw_listener.c:231-252 | of any number of announced addresses the first that can be taken is taken, and none replaces it |
| `Handshake.HeartbeatsAnsweredOnce` | src/defw_listener.c:348-412 | of any number of heartbeats on a block only the one that names an unknown peer is answered, and READY is reported with it or not at all |
| `Handshake.PairMerges` | src/defw_listener.c:254-340 | adopting one half of a connection pair and absorbing the other gives one block, the same for both halves, ready to report |
| `Handshake.SecondSession` | src/defw_listener.c:254-305 | the second session message of a pair removes the temporary block, keeps both sockets selectable, raises one PEER_READY, sends one heartbeat and closes nothing |
| `Handshake.SessionOrderIrrelevant` | src/defw_listener.c:254-340 | control-first and RPC-first arrival end in the same node up to the block uuid |
| `Fabric.OpenInv` | src/libdefw_agent.c:954-981 | a session message opens every socket before anything else is on it |
| `Fabric.AdoptInv` | src/defw_listener.c:307-339 | the first session message of a peer keeps the network invariant |
| `Fabric.AbsorbInv` | src/defw_listener.c:265-305 | the second session message merges into another block, never itself, and keeps the invariant together with the heartbeat it sends |
| `Fabric.HeartbeatInv` | src/defw_listener.c:348-412 | a heartbeat, and the answer it triggers, keep the invariant; a block becomes fabric ready only on a heartbeat of its own connection |
| `Fabric.RouteInv` | src/defw_transport_ofi.c:228-257 | an RPC of any size, over the fabric or TCP, keeps the invariant |
| `Fabric.RouteExact` | src/defw_transport_ofi.c:228-257 | an RPC goes over the fabric, to the process its block names, exactly when endpoint and peer are ready and header and body fit 262144 bytes; otherwise it is one frame on the RPC socket |
| `Fabric.DeliverInv` | src/defw_listener.c:503-563 | the delivery of a fabric message keeps the invariant, and finds a block |
| `Fabric.DispatchExact` | src/defw_listener.c:503-563 | a fabric message is handled on a block that names its sender, an outbound one if there is any, the first of its direction |
| `Fabric.StepInv` | src/defw_listener.c:231-412 | no step of any process breaks the invariant, mismatches a uuid, merges a block into itself or drops a fabric message, unless it accepts from the address of a live block |
| `Fabric.AcceptInvIff` | src/defw_listener.c:954-968 | an accepted connection keeps the invariant if and only if no live block has its address |
| `Fabric.RunInv` | src/defw_listener.c:231-696 | the invariant holds in every disconnect-free run of any number of processes in which every connection comes from an address no live block has |
| `Fabric.FabricReadySound` | src/defw_listener.c:385-394 | a peer marked fabric ready names us on this very connection; with working inserts on both ends it also holds our address, so our memory can be read |
| `Fabric.NothingDropped` | src/defw_listener.c:540-551 | no fabric message in flight is ever from a sender its receiver cannot name, or larger than the receive buffer it arrives in |
| `Quiescence.MergeCompletes` | src/defw_listener.c:265-294 | a merge always finds the other half, so it reports READY |
| `Quiescence.StepLive` | src/defw_listener.c:254-412 | every step keeps: both sessions read means the connector knows us or a heartbeat is on its way; a connector that knows us uses the fabric, and so do we or its heartbeat is on its way |
| `Quiescence.HandshakeCompletes` | src/defw_listener.c:385-409 | once a connection's sockets are accepted and read empty, both ends are READY and name each other, and both use the fabric if both can |
| `Completion.HandshakeRun` | src/defw_listener.c:254-412 | a run from the first socket to a drained connection that both ends use over the fabric |
| `Completion.Traffic` | src/defw_transport_ofi.c:228-257 | on that connection a small RPC crosses the fabric and is handled on the other end's block, and one a byte too large goes over TCP |
| `Reports.SessionTold` | src/defw_listener.c:254-340 | a session message marks a block READY exactly when it reports it, and closes no socket |
| `Reports.HeartbeatTold` | src/defw_listener.c:397-409 | so does a heartbeat |
| `Reports.ReadyReportedOnce` | src/libdefw_agent.c:286-303 | in every run each READY block was reported exactly once, and no socket was closed |
| `Sockets.MergeSlots` | src/defw_listener.c:265-286 | the merged block holds exactly the sockets of the two it is made from |
| `Sockets.StepHeldOnce` | src/defw_listener.c:265-337 | adopting, absorbing, accepting and linking leave each socket in one slot of its owner's table |
| `Sockets.StepOrphaned` | src/defw_listener.c:254-340 | no handler ever gives a block a socket that no block holds |
| `Sockets.CollisionOrphans` | src/defw_listener.c:954-968 | a connection from the address of a live block becomes that block's control channel, and its own socket is held by none |
| `Sockets.CollisionHappens` | src/libdefw_agent.c:992-998 | a run in which that happens between three processes |
| `Sockets.EverySocketHeldOnce` | src/defw_listener.c:254-340 | in every run with addresses of their own, each socket a process accepted or linked is in exactly one slot of one block, and no other socket is |
| `Sockets.NoSocketLostIff` | src/libdefw_agent.c:622-632 | over every run, no process has lost a socket if and only if no connection came from the address of a live block |
| `Listener.Listener.FindByUuid` | src/libdefw_agent.c:1347-1383 | the loop over the table finds the first match |
| `Listener.Listener.FindGlobally` | src/libdefw_agent.c:1409-1423 | the two loops find the first outbound block of the uuid, else the first inbound one, else none |
| `Listener.Listener.FindByAddr` | src/libdefw_agent.c:523-545 | the loop over the table finds the first live block with the address |
| `Listener.Listener.Accept` | src/defw_listener.c:954-968 | an accepted socket becomes selectable and goes to the live block with its address, or else to a temporary block of its own |
| `Listener.Listener.ListenerReportReady` | src/defw_listener.c:173-203 | reports READY for a completed pair once, then sends it a heartbeat with our identity |
| `Listener.Listener.ReleaseTemporary` | src/libdefw_agent.c:410-429 | a NEW block is dropped without closing the socket it handed over |
| `Listener.Listener.UpdateExisting` | src/defw_listener.c:265-294 | what the existing block takes from the temporary one, what becomes selectable, and what is reported and sent |
| `Listener.Listener.MergeSession` | src/defw_listener.c:265-305 | the whole merge branch on the table of objects |
| `Listener.Listener.AdoptSession` | src/defw_listener.c:307-339 | the whole adopt branch, with the RPC descriptor suspended |
| `Listener.Listener.ProcessSessionInfo` | src/defw_listener.c:254-340 | the session handler does what the handshake function says, on every table |
| `Listener.Listener.ProcessHeartbeat` | src/defw_listener.c:348-412 | the heartbeat handler does what the handshake function says |
| `Listener.Listener.ProcessMessage` | src/defw_listener.c:435-490 | header identity check, then dispatch |
| `Lifecycle.ReleaseKeeps` | src/libdefw_agent.c:397-448 | a release, dead or not, keeps count and event history right |
| `Lifecycle.RunKeeps` | src/libdefw_agent.c:397-486 | so does every run of acquire, release, link, report and abandon |
| `Lifecycle.ReferenceCountSafe` | src/libdefw_agent.c:397-486 | the count is the table's share plus outstanding holders; a block is freed at most once, unlinked, with no holder left |
| `Lifecycle.DescriptorLeftIff` | src/libdefw_agent.c:410-447 | over every run a block leaves a descriptor open exactly when one was assigned over an open one or a holder reconnected it after its death report; a channel that is up has its descriptor |
| `Lifecycle.DeadBlockOpenIff` | src/libdefw_agent.c:430-447 | without such assignments, a dead block, or one freed after its handshake, has an open descriptor exactly when a holder reconnected it |
| `Lifecycle.SendAfterDeathLeaks` | src/libdefw_agent.c:1156-1182 | every last holder that sends on a dead block leaks the descriptor it opens |
| `Lifecycle.ConnectStatusIff` | src/libdefw_agent.c:970-977 | a connect that is told it succeeded has a READY block exactly unless its RPC socket could not be opened |
| `Lifecycle.ShareGivenUpOnce` | src/libdefw_agent.c:430-447 | the table's share is given up once, however many holders report the death |
| `Lifecycle.ReleaseShareSafeIff` | src/defw_listener.c:302-302 | releasing the table's share directly is safe exactly without other holders |
| `Lifecycle.ReleaseShareUnderHolder` | src/defw_listener.c:592-606 | with another holder, the block is freed under it |
| `Lifecycle.EventGrammar` | src/libdefw_agent.c:286-362 | nothing, or READY, then at most one LOST, then at most one REMOVED; a READY block reported dead raised LOST, a freed one REMOVED; a connect completes at most once |
| `BlockHistory.EventsIff` | src/libdefw_agent.c:286-362 | over every run: READY is raised if and only if some report found the peer named and both channels up, LOST if and only if it was released as dead after that, REMOVED if and only if the share is then gone and every reference back |
| `BlockHistory.ConnectToldIff` | src/libdefw_agent.c:907-1026 | a connect is told of success if and only if its block became READY or its RPC socket could not be opened, of failure if and only if it was given up elsewhere |
| `BlockHistory.BlockFollowsOps` | src/libdefw_agent.c:286-486 | place, channels, descriptors, events and connect status of a block are read off the operations alone |
| `BlockHistory.WholeLife` | src/libdefw_agent.c:286-448 | a run that raises all three events, tells its caller of success and frees the block |
| `Lifecycle.FaultsSeen` | src/libdefw_agent.c:397-486 | every use of a freed block, every release without a reference and every failed assertion is recorded as a fault |
| `Lifecycle.Agent.ReleaseRef` | src/libdefw_agent.c:397-448 | the whole release |
| `Lifecycle.Agent.EnsureRpcChannel` | src/libdefw_agent.c:1156-1182 | a send reopens the RPC channel of a block without one; if the session message then fails, the descriptor stays open and the channel is not marked up |
| `Lifecycle.ConnectionTable.Accept` | src/libdefw_agent.c:674-728 | an accepted block is linked with one reference |
| `Lifecycle.ConnectionTable.ReleaseAgent` | src/libdefw_agent.c:450-455 | a block is in the table exactly while its share is held |
| `Peers.PeerTable.RememberTarget` | python/infra/defw_peers.py:69-79 | a connect target is remembered by runtime id and by endpoint, and nothing else changes |
| `Peers.PeerTable.Apply` | python/infra/defw_peers.py:81-143 | one event updates exactly the record of its handle |
| `Peers.PeerTable.FindRecord` | python/infra/defw_peers.py:220-257 | returns a matching record if one is in scope, and only then |
| `Peers.LookupIff` | python/infra/defw_peers.py:243-275 | whom a lookup may return: a callable record in the direction asked for, of the runtime asked for, or at the same place or port and host |
| `Peers.TargetOf` | python/infra/defw_peers.py:196-205 | an event is matched with the target remembered for its runtime id, else for its place, else with none |
| `Peers.RecordWritten` | python/infra/defw_peers.py:88-142 | every field of the record an event writes: what the event says, else what was known, else the matching target |
| `Peers.EndpointWritten` | python/infra/defw_peers.py:88-142 | every endpoint field: the event's value where it gives one, else the known one |
| `Peers.EventHeard` | python/infra/defw_peers.py:81-143 | an event without a handle, an outdated one and the loss of an unknown peer change nothing; a removal drops the record |
| `Peers.OtherHandle` | python/infra/defw_peers.py:81-143 | an event leaves the records of other handles alone |
| `Peers.ReplayLocal` | python/infra/defw_peers.py:81-143 | a record depends on its own handle's events only, however they interleave |
| `Peers.ReplayTrace` | python/infra/defw_peers.py:88-143 | replaying one block's events leaves its handle callable exactly after READY and absent after REMOVED |
| `Peers.PeerTableFollowsBlocks` | python/infra/defw_peers.py:69-143 | over every run of a block, and whatever targets are remembered between its events: callable between READY and LOST, absent once freed |
| `Peers.LookupFindsOnlyReady` | python/infra/defw_peers.py:243-257 | no lookup returns a block that was lost or freed |
| `Peers.RecordFollowsEvents` | python/infra/defw_peers.py:88-142 | through events in time order a record is callable unless the last is a loss, carries the last runtime id named, and never loses an endpoint value |
| `Directory.StepInv` | python/infra/defw_directory.py:145-293 | every operation keeps: UP exactly without retention deadline, and the event stream says which services are UP |
| `Directory.SubscriberKnows` | python/infra/defw_directory.py:420-448 | a subscriber to both event types that folds what it was sent knows exactly which services are UP whenever the transition lock is free |
| `Directory.ConnectedAlternates` | python/infra/defw_directory.py:218-220 | between two CONNECTED events of a service there is a DISCONNECTED |
| `Directory.PurgeSparesUp` | python/infra/defw_directory.py:322-335 | a purge never removes an UP service |
| `DirectoryEffects.AdmittedIff` | python/infra/defw_directory.py:145-197 | a registration is admitted if and only if it is complete and its service is not UP with another runtime; generation 1 for a new service, its own for an UP one, the next for any other |
| `DirectoryEffects.RefusedFor` | python/infra/defw_directory.py:149-197 | a refused registration is told the first thing that is wrong with it |
| `DirectoryEffects.RegisterEffect` | python/infra/defw_directory.py:145-221 | an admitted registration stores its service UP and is announced exactly if it was not UP before; a refused one changes nothing |
| `DirectoryEffects.ReregisteredComesBack` | python/infra/defw_directory.py:161-221 | a service that is down, timed out or deregistered comes back with the next generation, whichever runtime registers it |
| `DirectoryEffects.DeregisterEffect` | python/infra/defw_directory.py:223-245 | a deregistration retires exactly the record of its service, runtime and generation, and keeps it for the retention time |
| `DirectoryEffects.PeerEventEffect` | python/infra/defw_directory.py:247-293 | what a peer event does to every record, which notices it raises, and which registrations it drops |
| `DirectoryEffects.PurgeIff` | python/infra/defw_directory.py:322-335 | a purge keeps a record exactly until its deadline, and one without a deadline for ever |
| `DirectoryEffects.RetainedFor` | python/infra/defw_directory.py:265-335 | a lost service stays for the retention time and goes with the first purge after it |
| `DirectoryEffects.DeliveredIff` | python/infra/defw_directory.py:420-453 | an event is delivered to exactly the registrations that want it |
| `DirectoryEffects.DeliveredOnce` | python/infra/defw_directory.py:420-448 | and to each of them once |
| `DirectoryEffects.AlwaysServed` | python/infra/defw_directory.py:145-448 | no request waits for ever: publishing the collected notices in order leads to a directory, records unchanged, that serves it |
| `Directory.LostSubscriberHearsNothing` | python/infra/defw_directory.py:409-418 | a lost runtime's registrations go, no later event reaches them, and the others stay |
| `Directory.GenerationFence` | python/infra/defw_directory.py:161-175 | between purges a generation never decreases and belongs to one runtime |
| `Directory.OlderRuntimeFenced` | python/infra/defw_directory.py:223-264 | a deregistration or peer event of an older runtime leaves a newer record alone |
| `Directory.ServiceLife` | python/infra/defw_directory.py:145-284 | from any state: a registered service goes down with its peer, comes back with it, and can be deregistered by its own runtime and generation only |
| `Directory.LatestDecides` | python/infra/defw_directory.py:256-284 | a latest loss, or READY of a record not deregistered, decides it wherever it is applied, if no other of that time disagrees |
| `Directory.OrderIrrelevant` | python/infra/defw_directory.py:247-284 | any permutation of such events, repeated ones and DEGRADED included, ends in the same state, reason, last_seen and deadline |
| `Directory.OrderIrrelevantIff` | python/infra/defw_directory.py:247-284 | for every record and every bag of events: all orders end alike if and only if the latest that concern it decide it and agree, or none moves it |
| `Directory.DirectoryConverges` | python/infra/defw_directory.py:247-284 | so does the whole directory, service by service |
| `Directory.DeregisteredDiverges` | python/infra/defw_directory.py:276-281 | every deregistered record has two events whose order matters |
| `Directory.DegradedDiverges` | python/infra/defw_directory.py:260-264 | every UP record has a LOST that a later DEGRADED fences |
| `Directory.KnowsIffUntyped` | python/infra/defw_directory.py:450-453 | a pair of registrations is always right exactly when it does not filter on the service type |
| `DirectoryService.Service.PublishEvent` | python/infra/defw_directory.py:420-448 | delivers to the matching registrations, in order |
| `DirectoryService.Service.PublishAll` | python/infra/defw_directory.py:285-293 | publishes the collected notices one after the other |
| `DirectoryService.Service.RegisterService` | python/infra/defw_directory.py:145-221 | the whole registration under the transition lock, as the directory's step has it: the record it stores, the generation or the error it answers with, and what it publishes |
| `DirectoryService.Service.DeregisterService` | python/infra/defw_directory.py:223-245 | refuses an unknown or stale request, otherwise retires and publishes |
| `DirectoryService.Service.RemoveSubscriber` | python/infra/defw_directory.py:409-418 | drops exactly the registrations of a runtime |
| `DirectoryService.Service.TouchRecords` | python/infra/defw_directory.py:256-284 | the record loop updates every concerned record and collects its notices |
| `DirectoryService.Service.ApplyPeerEvent` | python/infra/defw_directory.py:247-293 | the whole peer event under the transition lock |
| `DirectoryService.Service.PurgeExpired` | python/infra/defw_directory.py:322-335 | removes exactly the expired records |
| `Wire.Be32RoundTrip` | src/libdefw_connect.c:219-226 | a 32-bit field survives network byte order |
| `Wire.NetworkOrder` | src/libdefw_connect.c:219-226 | the most significant byte comes first |
| `Wire.AckRoundTrip` | src/libdefw_agent.c:1220-1233 | the two halves of an acknowledgement rebuild its handle |
| `Wire.AckOrder` | src/libdefw_agent.c:1220-1233 | the high half of the handle comes first |
| `Wire.DescRoundTrip` | src/libdefw_agent.c:1277-1280 | every descriptor's text fits 96 bytes with its terminator and parses back to the same numbers |
| `Wire.Base64RoundTrip` | python/infra/defw_attachments.py:236-236 | base64 (section 4 of RFC 4648) round trip for every byte string |
| `Wire.LettersInOrder` | python/infra/defw_attachments.py:236-236 | the alphabet of section 4 of RFC 4648 |
| `Wire.GroupIs24Bits` | python/infra/defw_attachments.py:236-236 | four digits are the 24 bits of three bytes, highest first |
| `Rma.MrRegistry.RegisterCopy` | src/defw_transport_ofi.c:323-386 | registers a copy or fails; the key counter moves on every attempt, the handle counter on success |
| `Rma.MrRegistry.ReleaseHandle` | src/defw_transport_ofi.c:400-432 | removes the region of the handle; an unknown handle fails and changes nothing |
| `Rma.MrRegistry.PublishCopy` | src/libdefw_agent.c:1257-1283 | register and print, or take the registration back |
| `Rma.MrRegistry.ReleaseAll` | src/defw_transport_ofi.c:437-460 | teardown leaves no region |
| `Rma.RegisterExact` | src/defw_transport_ofi.c:323-386 | a registration succeeds if and only if there are bytes, the endpoint can do RMA, memory and provider agree and no registered region has the key; what it adds, and when the counters move |
| `Rma.ReleaseRemoves` | src/defw_transport_ofi.c:400-432 | a release takes the first region of its handle out and leaves the others in order |
| `Rma.StepConserves` | src/defw_transport_ofi.c:323-460 | per handle, issued equals registered plus departed, over publish, ack, discard and teardown |
| `Rma.StepSound` | src/defw_transport_ofi.c:323-460 | keys are unique among registered regions, handles are numbered, and regions keep their published bytes |
| `Rma.HandlesUniqueIff` | src/defw_transport_ofi.c:367-367 | handles are distinct and nonzero exactly until the counter wraps |
| `Rma.RegionConservation` | src/defw_transport_ofi.c:367-460 | every issued region is registered until exactly one of ack, discard or teardown takes it |
| `Rma.OnlyIssuedDepart` | src/defw_transport_ofi.c:400-432 | nothing is released that was not issued |
| `Rma.ReleaseOnce` | src/defw_transport_ofi.c:400-432 | a repeated release fails, and no release touches another region |
| `Rma.LiveUntilReleased` | src/defw_listener.c:73-86 | a region stays until something releases its handle |
| `Rma.FetchReturnsPublished` | src/libdefw_agent.c:1290-1345 | a fetch of a registered region returns exactly the bytes copied at publish, and its acknowledgement releases that region |
| `Rma.StaleFetchFails` | src/defw_transport_ofi.c:354-356 | with counter keys a fetch succeeds exactly while its own region is registered |
| `Rma.StaleFetchIff` | src/defw_transport_ofi.c:374-374 | in every run, for any keys: a fetch of a released descriptor returns data if and only if a registered region carries its key and covers its range, and then that region's bytes |
| `Rma.StaleFetchCanMislead` | src/defw_transport_ofi.c:374-374 | a run with provider-chosen keys in which it does |
| `Attachments.Extract` | python/infra/defw_attachments.py:71-98 | appends the value's attachments to the shared list and numbers its markers from the list's length |
| `Attachments.ExtractAll` | python/infra/defw_attachments.py:90-96 | the same over a container's values, in order |
| `Attachments.MarkerRestores` | python/infra/defw_attachments.py:115-129 | a marker is restored to the buffer it stands for, with shape and type |
| `Attachments.MarkerReadIff` | python/infra/defw_attachments.py:115-129 | what any marker is restored to, negative indices included, and when it raises |
| `Attachments.ReinjectMark` | python/infra/defw_attachments.py:115-135 | restoring undoes marking for every tree and every position in the list |
| `Attachments.NothingPulled` | python/infra/defw_attachments.py:101-112 | a message without attachments is left as it was |
| `Attachments.MarkIsLight` | python/infra/defw_attachments.py:71-98 | what is written as text holds no array and no byte string from the threshold on, anywhere in the tree |
| `Attachments.LightStays` | python/infra/defw_attachments.py:101-112 | a message that holds none is not changed |
| `Transfer.PayloadRoundTrip` | python/infra/defw_attachments.py:203-216 | a payload entry, inline or descriptor, reads back as it was written |
| `Transfer.EncodePayloads` | python/infra/defw_attachments.py:219-238 | per payload a descriptor or base64, by threshold, availability and outcome of the publish |
| `Transfer.CarrierChoice` | python/infra/defw_attachments.py:227-236 | a payload stays in memory exactly when the peer can read it, it reaches the threshold and its publish succeeds; otherwise it is inline |
| `Transfer.EncodeAllOk` | python/infra/defw_attachments.py:219-238 | every descriptor names a region holding its payload, no two the same, and the published list is exactly theirs |
| `Transfer.DiscardPublished` | python/infra/defw_attachments.py:271-280 | releases the handles one by one |
| `Transfer.DiscardExact` | python/infra/defw_attachments.py:271-280 | discarding removes exactly the regions of the given handles |
| `Transfer.DecodeOneExact` | python/infra/defw_attachments.py:283-298 | one payload is fetched or decoded to its data, and its acknowledgement, if it arrives, releases its region |
| `Transfer.DecodeExact` | python/infra/defw_attachments.py:301-306 | every mix of payloads decodes to the data it carries, and exactly the acknowledged regions go |
| `Transfer.DecodeFailsIff` | python/infra/defw_attachments.py:283-306 | reading a payload list raises if and only if one payload cannot be read when its turn comes |
| `Transfer.AttachEncode` | python/infra/defw_attachments.py:241-268 | extraction, publication, and the text that goes out or the exception after publication |
| `Transfer.EncodeFailsIff` | python/infra/defw_attachments.py:262-268 | encoding succeeds exactly for what is no list or tuple with an attachment, with room for the text, and nothing refused in what is kept beside the payload list |
| `Attachments.MarkDumps` | python/infra/defw_attachments.py:71-98 | taking the attachments out changes nothing about what the text encoder refuses, anywhere in the tree |
| `Transfer.AttachRoundTrip` | python/infra/defw_attachments.py:309-321 | load undoes encode, up to byte arrays becoming bytes and 0-d arrays 1-d |
| `Transfer.MessageArrives` | python/infra/defw_attachments.py:241-321 | the same over every run of the sender's endpoint before and after encoding, for every message that can be encoded |
| `Interleaving.EncodeMixedOk` | python/infra/defw_attachments.py:219-238 | with other threads publishing and releasing between any two payloads, each payload still carries its data and no two name one region |
| `Interleaving.MessageArrivesAmid` | python/infra/defw_attachments.py:219-321 | every message that can be encoded is restored over every interleaving with other users of the endpoint, between payloads, in flight and between reads, that spares what it still needs |
| `Transfer.UnsentLeavesNothingIff` | python/infra/defw_workers.py:676-700 | over every run, a message that was not sent leaves the regions as they were if and only if nothing of it was published, or it is no list or tuple, the encoder refuses nothing in it and finds room, and the transport call returned |
| `Transfer.RefusedArgumentLeaks` | python/infra/defw_remote.py:120-121 | every request with a large array and an object the encoder refuses, such as a remote proxy, is raised and leaves the array's region |
| `Transfer.ListMessageLeaks` | python/infra/defw_attachments.py:263-268 | every list of one byte string, published, is refused and leaves its region |
| `Transfer.Send` | python/infra/defw_workers.py:676-700 | an error code of the transport discards what was published; an exception, of the encoding or the call, does not get there |
| `Transfer.SendKeepsPublished` | python/infra/defw_workers.py:676-700 | unless the transport returned an error code, the endpoint is left as encoding left it |
| `Framing.HeaderRoundTrip` | src/libdefw_connect.c:204-229 | type, length, sender and version survive the 28-byte header |
| `Framing.HeaderLayout` | src/libdefw_connect.c:204-229 | type, body length, sender and version at their offsets, version 4 |
| `Framing.SendTcpMessage` | src/libdefw_connect.c:152-191 | under any short writes and interruptions a prefix is on the socket, all of it when the loop succeeds |
| `Framing.SendMsg` | src/libdefw_connect.c:311-339 | the same for header and body |
| `Framing.ReadTcpMessage` | src/libdefw_connect.c:231-309 | a successful read takes exactly the requested bytes off the stream |
| `Framing.Receive` | src/defw_listener.c:414-472 | a stream that starts with a frame yields its message and is left at the next frame; a header of another version, another sender or an unknown type is rejected |
| `Framing.HeaderRejectedIff` | src/defw_listener.c:435-472 | a header is rejected if and only if its version is not 4, its sender not the expected one, or its type unknown |
| `Framing.StepInv` | src/defw_transport_tcp.c:34-45 | locking, partial writes, unlocking and partial reads keep the byte stream equal to the frames in mutex order |
| `Framing.DispatchedMerge` | src/defw_transport_tcp.c:34-45 | what is dispatched is at every moment a prefix of an order-preserving merge of what the senders sent, each message from one of them, nothing torn or rejected |
| `Framing.MergeComplete` | src/defw_transport_tcp.c:34-45 | when the senders are done and the wire is empty, every message was dispatched |
| `Framing.NeverStuck` | src/defw_transport_tcp.c:34-45 | until every message is dispatched some sender or the receiver can make progress |
| `DList.InitEntry` | src/defw_list.h:31-35 | an entry alone is an empty ring |
| `DList.InsertAfter` | src/defw_list.h:42-49 | the ring gains the item behind the entry |
| `DList.InsertBefore` | src/defw_list.h:51-55 | before an entry, at the tail when that is the head |
| `DList.Remove` | src/defw_list.h:60-64 | the ring without the item, whose own pointers stay |
| `DList.RemoveInit` | src/defw_list.h:66-70 | the removed entry is an empty ring, also when it was alone, and the others are the ring without it |
| `DList.SpliceAfter` | src/defw_list.h:174-190 | the other ring's entries follow the given one, and the other ring is empty |
| `DList.SpliceHead` | src/defw_list.h:174-190 | splice at the front |
| `DList.SpliceTail` | src/defw_list.h:202-206 | splice at the back |
| `DList.FindFirstMatch` | src/defw_list.h:125-137 | the first matching entry, or none |
| `DList.RemoveFirstMatch` | src/defw_list.h:139-150 | exactly that entry is removed |
| `DList.InsertOrder` | src/defw_list.h:152-162 | inserts before the first entry that belongs after the item, else at the tail |
| `DList.InsertOrderSorted` | src/defw_list.h:152-162 | a sorted list stays sorted, for every strict order |
| `DList.ForeachSafe` | src/defw_list.h:101-103 | a loop whose body removes current entries ends, visits each original entry once and leaves the kept ones |
| `SList.List.Clear` | src/defw_list.h:364-367 | the empty list |
| `SList.List.InsertHead` | src/defw_list.h:374-384 | prepends |
| `SList.List.InsertTail` | src/defw_list.h:386-395 | appends |
| `SList.List.RemoveHead` | src/defw_list.h:397-412 | removes the first item, null on an empty list |
| `SList.List.FindFirstMatch` | src/defw_list.h:432-443 | the first match and its predecessor |
| `SList.List.InsertBehind` | src/defw_list.h:455-458 | links an item between two neighbours |
| `SList.List.InsertBeforeFirstMatch` | src/defw_list.h:445-463 | inserts there, at the head, or at the tail |
| `SList.List.RemoveItem` | src/defw_list.h:465-475 | removes an item and moves the tail back when it was last |
| `SList.List.RemoveFirstMatch` | src/defw_list.h:477-490 | exactly the first match is removed |
| `SList.List.Swap` | src/defw_list.h:492-502 | the lists exchange contents |
| `SList.List.SpliceHead` | src/defw_list.h:514-531 | source in front, source empty |
| `SList.List.SpliceTail` | src/defw_list.h:543-560 | source behind, source empty |
| `Workers.StepInv` | python/infra/defw_workers.py:304-338 | adding, answering, losing a peer, connecting, withdrawing and shutting down keep the queues right |
| `Workers.RequestCorrelation` | python/infra/defw_workers.py:434-474 | at most one terminal event per request, a response carries the request's uuid, and a request that left the table unwithdrawn was told exactly once |
| `Workers.NeverBoth` | python/infra/defw_workers.py:448-457 | response and peer loss are never both delivered |
| `Workers.LossFailsIff` | python/infra/defw_workers.py:312-338 | a peer event fails a pending request exactly unless it is about another process, another block, a connect or no loss; then the request is told once, otherwise it is untouched |
| `Workers.AnswerReaches` | python/infra/defw_workers.py:448-457 | a response is put on the queue of the pending request it names, which leaves the table; any other changes nothing |
| `Workers.ConnectReaches` | python/infra/defw_workers.py:458-465 | a completed connect is put on the queue of its request, which stays in the table |
| `Workers.ShutdownReaches` | python/infra/defw_workers.py:468-474 | a shutdown is put on the queue of exactly the pending requests |
| `Workers.RequestsAreIndependent` | python/infra/defw_workers.py:304-474 | over every run, what a request hears and whether it is pending follow from its own steps, whatever else the worker does in between |
| `Workers.AnsweredRun` | python/infra/defw_workers.py:304-457 | any request can be sent and answered, or withdrawn instead |
| `Workers.WorkerThread.AddWorkRequest` | python/infra/defw_workers.py:304-306 | adds a pending request |
| `Workers.WorkerThread.RemoveWorkRequest` | python/infra/defw_workers.py:308-310 | withdraws a request |
| `Workers.WorkerThread.FailPendingPeerRequests` | python/infra/defw_workers.py:322-338 | exactly the pending messages to the lost peer get the loss |
| `Workers.WorkerThread.TakeFailing` | python/infra/defw_workers.py:325-331 | under the lock, exactly the targeted requests leave the table |
| `Workers.WorkerThread.HandleResponse` | python/infra/defw_workers.py:448-457 | a response goes to the queue of the pending request it names, which leaves the table; any other changes nothing |
| `Workers.WorkerThread.HandleConnComplete` | python/infra/defw_workers.py:458-465 | a completion goes to the queue of its request, which stays pending |
| `Workers.WorkerThread.HandleShutdown` | python/infra/defw_workers.py:468-474 | every pending request is told |
| `Registry.AliasesAreClasses` | python/infra/defw_common_def.py:140-234 | under any interleaving of lock-protected sections every alias id is a class id |
| `Registry.DispatchConsistent` | python/infra/defw_workers.py:547-584 | an RPC keeps every alias resolving to the object stored for its key |
| `Registry.SingletonBound` | python/infra/defw_workers.py:547-584 | instantiating a singleton resolves a new id to the key's one object, made if there is none; a known id and a raising factory change nothing about ids |
| `Registry.OwnInstance` | python/infra/defw_workers.py:547-584 | instantiating per connection gives a new id an object of its own |
| `Registry.DirectoryInstance` | python/infra/defw_workers.py:547-584 | the directory process hands out its own object |
| `Registry.DestroyForgets` | python/infra/defw_workers.py:547-584 | destroying forgets the id and its alias, and no object |
| `Registry.ShutdownForgets` | python/infra/defw_common_def.py:181-198 | shutting a service down forgets its object and exactly the aliases of it |
| `Registry.AliasesShareOneObject` | python/infra/defw_common_def.py:171-179 | aliases of a key share one object; destroying one leaves the others |
| `Registry.EvictionLeavesNoAlias` | python/infra/defw_common_def.py:181-198 | after an eviction no alias ever resolves to the evicted object |
| `Registry.BindConsistentIff` | python/infra/defw_common_def.py:219-230 | a binding keeps every alias right exactly when its id is taken or it binds the object stored for the key |
| `Registry.InterleavingConsistentIff` | python/infra/defw_common_def.py:140-234 | under any interleaving of sections every alias stays right if and only if each binding binds the object stored at that moment |
| `Registry.InterleavedEvictionLeavesAlias` | python/infra/defw_common_def.py:181-230 | for every registry and key, an eviction between creation and binding leaves an alias whose key stores nothing |
| `Registry.InstanceDb.AddToClassDb` | python/infra/defw_common_def.py:140-146 | adds an id or refuses a duplicate |
| `Registry.InstanceDb.DelEntryFromClassDb` | python/infra/defw_common_def.py:159-166 | removes an id with its alias |
| `Registry.InstanceDb.GetOrCreateSingleton` | python/infra/defw_common_def.py:171-179 | one object per key; a factory that raises changes nothing |
| `Registry.InstanceDb.EvictSingleton` | python/infra/defw_common_def.py:181-198 | removes the object and exactly its aliases |
| `Registry.InstanceDb.BindAlias` | python/infra/defw_common_def.py:219-230 | binds an id or refuses a duplicate |
| `Registry.InstanceDb.HandleRpc` | python/infra/defw_workers.py:547-584 | the instantiate and destroy branches, and when they raise |
| `EventQueue.EventApi.Put` | python/infra/defw_event_baseapi.py:49-52 | appends; one unread byte per event |
| `EventQueue.EventApi.Get` | python/infra/defw_event_baseapi.py:54-68 | returns the matches in order, keeps one byte per remaining event, and leaves the rest in order for an equality-respecting predicate |
| `EventQueue.EventApi.Collect` | python/infra/defw_event_baseapi.py:58-63 | the matching events, in order |
| `EventQueue.EventApi.RemoveOne` | python/infra/defw_event_baseapi.py:65-66 | removes the first equal event |
| `EventQueue.MatchingIs` | python/infra/defw_event_baseapi.py:58-63 | the matching events are those of the queue that match, each once, in its order |
| `EventQueue.AllFound` | python/infra/defw_event_baseapi.py:64-67 | every removal finds an element, for every predicate |
| `EventQueue.GetExactIff` | python/infra/defw_event_baseapi.py:58-66 | exactly the matches are removed if and only if no non-match stands before an equal match |
| `EventQueue.ExactForEveryQueueIff` | python/infra/defw_event_baseapi.py:58-66 | for every queue if and only if the predicate respects equality |
| `HostList.SplitOnCommas` | python/infra/defw_util.py:53-74 | ends on every input and produces the pieces, stripped |
| `HostList.SkipCommas` | python/infra/defw_util.py:61-63 | skips the commas inside the first bracket pair |
| `HostList.StripIs` | python/infra/defw_util.py:72-73 | a piece loses the blanks at both ends and nothing else |
| `HostList.ExpandHostListSub` | python/infra/defw_util.py:76-104 | expands one piece |
| `HostList.AppendRange` | python/infra/defw_util.py:94-102 | one entry between the brackets |
| `HostList.ExpandHostList` | python/infra/defw_util.py:106-111 | concatenates the pieces' expansions |
| `HostList.TruncatedExpandsToNothing` | python/infra/defw_util.py:66-68 | the truncated copy of the last segment expands to nothing |
| `HostList.PadExact` | python/infra/defw_util.py:97-102 | a number padded to the width of its own text is that text |
| `HostList.PadIs` | python/infra/defw_util.py:97-102 | a number is printed with all its digits, behind as many zeros as fill the width |
| `HostList.NumberedHosts` | python/infra/defw_util.py:96-99 | a range gives one padded host per number from its first to its last bound |
| `HostList.EntryFailsIff` | python/infra/defw_util.py:94-102 | an entry with two dashes or more is skipped, one whose bounds are not numbers raises, nothing else fails |
| `HostList.UnpairedExpandsToNothing` | python/infra/defw_util.py:80-86 | what a piece without a bracket pair expands to |
| `HostList.FirstPiece` | python/infra/defw_util.py:58-68 | the first segment is split off whole while a bracket is left |
| `HostList.ExpansionIsGrammar` | python/infra/defw_util.py:53-111 | every list of names and bracketed ranges expands to the in-order concatenation of its segments' hosts |

## Left out

- Sockets, select, the maximum descriptor, heartbeat timeouts, libfabric internals and completion matching after a timeout.
- Embedded Python, SWIG, YAML (text is taken as the value it stands for), logging, configuration, launcher, telnet server, experiments, metrics and tracing.
- Fabric.RunInv: runs without disconnects, with one outbound connection per ordered pair of different processes, each from an address no live block has; what a connection from any other address does is in `Sockets`. A process that connects to itself is not covered.
- Fabric.RouteInv: the reconnect that a send starts when a block has no RPC channel is not a step of the network; `Lifecycle.Agent.EnsureRpcChannel` models it for one block.
- Fabric.OpenInv: the sender's node type is taken as valid, so the protocol-error branch of the session handler is not modelled.
- Listener.Listener.ProcessHeartbeat: the refresh of node type, pid and names, time stamps and reason texts are not modelled.
- Lifecycle.ReferenceCountSafe: assumes holders release what they acquired, and that the listener releases the table's own share only without other holders; the assertion that no work is in progress is not modelled.
- Lifecycle.ConnectionTable.ReleaseAgent: the table is a sequence there; the linked list itself is `DList`.
- Peers.PeerTable.Apply: the node type inside an event's endpoint, and the inference of a node type from the configured parent, are reduced to a parameter.
- Peers.PeerTable.FindRecord: which of several matching records is returned depends on insertion order in the source and is left open.
- Directory.SubscriberKnows: callbacks that raise are not modelled; lifecycle listeners, resolve and query with their filters are left out.
- Rma.FetchReturnsPublished: one endpoint lifetime before the handle counter wraps; remote reads are taken as atomic.
- Rma.MrRegistry.RegisterCopy: registrations that do not copy their buffer are not modelled.
- Transfer.AttachRoundTrip: an object that is dumped is taken to load back as it was.
- Attachments.ReinjectMark: element types are those whose text names them and whose elements have a positive size; a shape entry of -1 in a marker, which the encoder never writes, is refused rather than inferred.
- Wire.Base64RoundTrip: decoding of text that is not canonical base64 is refused, where the Python decoder skips foreign characters.
- Framing.DispatchedMerge: bodies of 1 to 2^31 - 1 bytes and no I/O error; a partial frame after a failed write is not covered.
- Workers.RequestCorrelation: request uuids are fresh, and a request that timed out or failed to send stays in the table unless it is withdrawn.
- Registry.DispatchConsistent: whole RPCs one at a time; interleaved sections are in `Registry.InterleavingConsistentIff`. Constructors that themselves call the registry are not modelled.
- EventQueue.EventApi.Put: the pipe's capacity is not modelled; a full pipe blocks the writer in the source.
- Transfer.UnsentLeavesNothingIff: Python running out of memory between two payloads of a message is not modelled, and it is one message at a time; for other users of the endpoint in between, `Transfer.DiscardExact` holds at any endpoint.
- HostList.ExpandHostListSub: int() of text that is not plain digits fails here, where Python also accepts underscores and spaces.
