# Verified model of helianthus-ship-go

This project models the concurrent core of a Go implementation of EEBUS SHIP 1.0.1 and proves properties of it for
all inputs, all interleavings and all reachable states. Check it with `dafny verify dfyconfig.toml`.

**How concurrency is modelled.** Every critical section of the source is one step function on a state. A run is any
sequence of steps, so threads interleave freely. Where the source iterates over a Go map, the step carries the
iteration order, and the results hold for every order. Clocks, dial results, messages and callback answers are events
or arguments. The critical sections also exist as methods of classes with the source's fields (`LiveHub`,
`HubConnections`, `CallbackGuard`, `SpineChannel`, `PairingLatch`, `HandshakeTimer`, `MdnsManager`,
`ZeroconfProvider`); each method is proved to be exactly the step function that the theorems are about.

| module | what it models |
|---|---|
| `ConnectionTable`, `TwoHubs`, `TwoHubsAgreement` | the connection table, and two hubs that dial each other |
| `AttemptLifecycle`, `CallbackLease` | launch registrations, their connections and callback leases |
| `PairingRegistry`, `PairingInvariants`, `PairingSafety`, `PairingHub` | authorities, candidates, retries, PIN providers, the mDNS snapshot feed |
| `TrustedSurvey` | the trusted-remote observations of a snapshot, for every order of its entries |
| `CandidateLifetimes` | candidate references from the mDNS manager to their one admission |
| `LockOrder` | the four hub locks |
| `Handshake`, `AbortFinality`, `HelloTimers`, `HandshakeCompletion`, `HandshakeRuns` | the handshake of one SHIP connection, when an abort is final, the timer of a connection that waits for trust, and runs from a fresh connection |
| `PairingApproval`, `SpineDispatch`, `TimerGenerations` | approval, SPINE payloads and timers of one SHIP connection |
| `TextReplacement`, `EebusJson`, `ShipEnvelope` | EEBUS-JSON and the SPINE envelope |
| `Addresses`, `ObservationKeys`, `Discovery` | endpoint addresses and mDNS aggregation |
| `SerialQueue`, `Basics` | the single-drainer task queue behind snapshots, notifications, effects and payloads; shared types |

**Main results**

- Two hubs with different SKIs agree in every quiescent state of every run, they always settle, and a dial of the
  higher SKI that the lower hub has registered survives everything but a failure.
- A successful candidate connect means that every admitted snapshot was applied and the newest one still offers the
  frozen endpoint; rotated authorities never launch again; every PIN provider leaves once; a candidate reference is
  admitted once.
- No hub operation can deadlock on the four locks, although two of them are nested in both orders.
- A replaced connection falls silent, its close report is absorbed, and revocation, gate change and shutdown never
  strand a connection.
- SPINE payloads reach the reader in arrival order, set-up happens once and only when approved, the Complete state is
  reached only through all milestones in order, and timeouts belong to the newest timer.
- EEBUS-JSON is undone exactly for clean, non-empty objects.

**Where an expected property is false of the code**

- *A connection dialled by the higher SKI yields only to a newer one*: a slow upgrade lets an older dial, already dead
  at its dialler, replace a newer one (`OlderDialCanWin`). `HigherDialYieldsOnlyToHigher` says when the newer one wins, as
  long as the higher hub still has one of the two open.
- *A reservation is released when its winner closes*: an unreserved inbound registration can displace the winner, and
  then the reservation stays for good (`WinnerCanBeDisplaced`, `DisplacedReservationStays`). `ReservationReleased`
  gives the exact condition.
- *References are admitted once* fails for reports without a revision (`RevisionZeroAdmitsTwice`). `SpentIff` says
  exactly how long a reference stays spent, whatever the revisions.
- *Nothing is handed over after closing began*: the check and the call of the reader are not one step, so one task that
  has passed its check still runs (`HandedAfterClose`). `OneAfterCloseIffPassed` gives the exact condition.
- *Normalisation of an address is idempotent* fails for a zoned `::` (`ZonedUnspecifiedSlipsThrough`).
- *EEBUS-JSON round trips* fail for empty arrays, for an empty object or payload and for strings that contain one of
  the replaced patterns.
- *AbortDone is final*: whoever decided something before the abort can carry it out afterwards. An approval can
  (`OvertakenApproval`, `LoneApproval`), and so can a ready message without any approval (`OvertakenReady`).
  `AbortDoneStaysIff` gives the exact condition.
- *A connection in PendingListen has a timer*: it can lose it to a pending message with a wait from 1 to 30 seconds, or
  enter the state after the timer was claimed (`ExpiryWhileEntering`). `UnwatchedIff` gives the exact condition.
  `HandshakeRuns` reaches these states, and those of the item before, from a fresh connection.
- *The observations of a snapshot do not depend on map order*: a usable entry followed by an unusable one of the same
  SKI is dropped, and the other way round it is kept (`HostlessTwin`). `OrderFreeIff` gives the exact condition.

**Where code and documentation differ.** The model follows the code. Section 12.2.2 of SHIP 1.0.1 keeps the most recent
connection; the hub keeps the one dialled by the higher SKI (hub/hub_connections.go:837-843). The repository's own
README.md says that PIN is not supported; ship/hs_pin.go implements the PIN states, and the model includes them.

## Model

| member | source | states |
|---|---|---|
| TwoHubs.Reachable | hub/hub_connections.go:1352-1382 | every run of two hubs keeps: live ends and table entries coincide, tombstones belong to connections whose report is due, each hub dials one link at a time |
| TwoHubs.HighDialUnopposed | hub/hub_connections.go:502-540 | a dial of the higher hub always meets an empty table, so neither the double-connection check nor the registration ever replaces anything there |
| TwoHubs.HighNeverReplaces | hub/hub_connections.go:1361-1375 | the higher hub accepts an arrival only into an empty table and never while it dials |
| TwoHubsAgreement.QuiescentAgreement | hub/hub_connections.go:836-878 | in every quiescent state of every run both tables hold the ends of one link or both are empty, and no tombstone or dialling flag is left; the 128 cap needs no assumption |
| TwoHubsAgreement.SettlingIsBounded | hub/hub_connections.go:1512-1553 | runs without new dials and failures have a bounded number of steps |
| TwoHubsAgreement.AlwaysSettles | hub/hub_shipconnection.go:124-148 | from every state of every run the hubs can go on to a quiescent state, and agree there |
| TwoHubsAgreement.HigherDialYieldsOnlyToHigher | hub/hub_connections.go:1352-1382 | arbitration gives up a link of the higher SKI only at the lower hub, for another link of the higher SKI or at the cap; as long as the higher hub has one of the two open, the winner is the newer dial exactly when it is the one open there |
| TwoHubsAgreement.OlderDialCanWin | hub/hub_connections.go:424-463 | a run in which an older dial, dead at its dialler, replaces a newer one |
| TwoHubsAgreement.SecuredDialSurvives | hub/hub_connections.go:387-421 | a link of the higher SKI registered at the lower hub survives every interleaving of the remaining steps and ends up in both tables |
| ConnectionTable.OrderTotal | hub/hub_connections.go:1361-1362 | two different SKIs compare one way and not the other |
| ConnectionTable.StepKeepsSound | hub/hub_connections.go:1338-1553 | every table operation keeps entries under their own SKI and free of tombstones |
| ConnectionTable.LoserReportAbsorbed | hub/hub_shipconnection.go:124-148 | whatever happens between a replacement and the loser's close report, the report only clears the tombstone |
| ConnectionTable.HandoffReportAbsorbed | hub/hub_connections.go:1524-1539 | the same for an outgoing connection handed off to an inbound one |
| ConnectionTable.ReplacementRespectsCap | hub/hub_connections.go:1366-1374 | an accepted registration never grows the tombstones of a SKI beyond 128 |
| ConnectionTable.ReservationReleased | hub/hub_shipconnection.go:141-147 | a reservation goes with its winner's close exactly when nothing displaced the winner before |
| ConnectionTable.DisplacedReservationStays | hub/hub_connections.go:1384-1415 | a displaced winner's reservation stays in every later run and blocks dialling and reserving |
| ConnectionTable.WinnerCanBeDisplaced | hub/hub_connections.go:282-294 | a run in which an unreserved arrival displaces a reserved winner |
| ConnectionTable.HubConnections.SupersededConnectionCountForSki | hub/hub_connections.go:1457-1465 | the loop counts exactly the tombstones of the SKI |
| ConnectionTable.HubConnections.BeginDial | hub/hub_connections.go:387-414 | a dial starts exactly when there is no shutdown, entry, dial or reservation |
| ConnectionTable.HubConnections.RegisterInboundConnection | hub/hub_connections.go:1352-1382 | the method is the specified registration: verdict, loser and whole new table |
| ConnectionTable.HubConnections.RegisterOutgoingConnection | hub/hub_connections.go:1512-1553 | accepted, rejected or handed off as specified, with the whole new table |
| ConnectionTable.HubConnections.ReserveInboundPairingConnection | hub/hub_connections.go:1384-1415 | a reservation is made exactly when allowed and remembers what it replaces and whom it is for |
| ConnectionTable.HubConnections.RegisterReservedInboundPairingConnection | hub/hub_connections.go:1417-1455 | only the current reservation with an unchanged entry and candidate gets a winner |
| ConnectionTable.HubConnections.ClaimClosedConnectionState | hub/hub_shipconnection.go:124-148 | absorbed, unknown or removed as specified, with the whole new table |
| CallbackLease.NoCallbackAfterReturn | hub/hub.go:47-86 | once a blocking call has returned, no callback is running or can start, in any continuation |
| CallbackLease.NoLostWakeUp | hub/hub.go:60-86 | a waiting thread can proceed if and only if no callback is running |
| CallbackLease.CallbackGuard.BeginCallback | hub/hub.go:47-58 | a callback starts exactly when the lease is not blocked |
| CallbackLease.CallbackGuard.EndCallback | hub/hub.go:60-68 | the last callback closes the channel of the waiters |
| CallbackLease.CallbackGuard.BlockCallbacks | hub/hub.go:70-86 | the lease is blocked and the caller waits exactly when a callback is running |
| AttemptLifecycle.Reachable | hub/hub.go:314-335 | every interleaving of launch, bind, registration, replacement, revocation, cancellation, close, report and shutdown keeps the life-cycle invariant |
| AttemptLifecycle.NoEntryOutlivesItsRegistration | hub/hub.go:496-586 | a table entry whose registration left outboundAttempts has its cancellation, close or report pending |
| AttemptLifecycle.SettledTableIsExact | hub/hub.go:638-668 | once nothing is pending, open registered connections are exactly the table entries, their registrations are listed and uncancelled, and no tombstone is left |
| AttemptLifecycle.BindKeeps | hub/hub.go:533-548 | a bind that races with revocation keeps the invariant whichever comes first |
| AttemptLifecycle.OfferOutKeeps | hub/hub_connections.go:1512-1553 | so does registration: a connection closed before it is registered is never accepted |
| AttemptLifecycle.DropKeeps | hub/hub.go:580-586 | removing an entry early is safe because its cancellation is due |
| AttemptLifecycle.LoserFallsSilent | hub/outgoing_attempt_info_provider.go:141-167 | a replaced connection never passes the ownership check again; after the wait of the replacing thread none of its callbacks runs or can start |
| AttemptLifecycle.LoserReportsInVain | hub/hub_shipconnection.go:58-67 | its single close report is absorbed and changes neither entries nor reservations |
| LockOrder.SectionChecked | hub/hub_connections.go:1157-1221 | each lock pattern of the hub takes muxReg with empty hands and nests other locks only under it |
| LockOrder.NoWaitCycle | hub/hub_shipconnection.go:91-148 | for any number of threads and any schedule no reachable state has a cycle of threads waiting for each other |
| LockOrder.OperationsComplete | hub/hub_pairing.go:454-520 | from every reachable state all threads can run to their end |
| LockOrder.NestingNeedsMuxReg | hub/hub_connections.go:1277-1286 | with the muxReg steps removed, a schedule of the hub's own two nestings of muxCon and muxAttemptGate reaches two threads that wait for each other |
| PairingInvariants.Reachable | hub/hub_pairing.go:127-209 | in every reachable state active candidates are untrusted, current and without retry, undialled ones are still offered, PIN providers are backed, retries are current, and the feed is contiguous |
| PairingInvariants.StepKeeps | hub/hub_mdns.go:139-203 | each critical section keeps that invariant |
| PairingSafety.RevokedForever | hub/hub.go:314-357 | an authority captured before a revocation, retirement or retry invalidation never launches and never updates a handshake state again |
| PairingSafety.GateReplacedForever | hub/hub.go:384-456 | a gated attempt begun before a gate replacement or shutdown never obtains a registration; after shutdown nothing does |
| PairingSafety.RetryLaunchesOnlyUndisturbed | hub/hub_connections.go:1262-1287 | an active retry has a trusted service, the current authority and exactly the visible observation, with nothing applied since it was scheduled |
| PairingSafety.RetryLaunchSawNoSnapshot | hub/hub_connections.go:1231-1260 | a retry whose authority obtains a gated or internal launch has had no snapshot applied since it was scheduled, in any interleaving |
| PairingSafety.SnapshotEndsRetry | hub/hub_mdns.go:345-363 | applying any snapshot ends the launch authority of every active retry for good |
| PairingSafety.FeedIsFifo | hub/hub_mdns.go:31-121 | admitted snapshots are the applied ones, then the one in flight, then the queue; the hub shows the highest revision, the last on ties |
| SerialQueue.RunsInOrder | hub/hub_shipconnection.go:351-379 | for every interleaving of enqueuers and drainer, tasks run one at a time in order, none lost or doubled, with one drainer at most |
| SerialQueue.NothingStranded | ship/connection.go:524-540 | as long as a task is outstanding there is a drainer that can go on |
| PairingSafety.DialIsStillOffered | hub/hub_pairing.go:245-294 | when a candidate may be dialled, all admitted snapshots are applied and the winning one offers the frozen SKI, host, port and path under that reference |
| PairingSafety.ProvidersLeaveOnce | hub/hub_pairing.go:299-395 | stored PIN providers are partitioned into held, consumed and discarded; none is overwritten or handed out twice |
| PairingHub.TokensAlwaysUnique | hub/hub_pairing.go:252-262 | in every reachable state a reservation token belongs to one SKI |
| PairingHub.RetainConsumed | hub/hub_mdns.go:162-168 | the loop keeps exactly the consumed references that are still offered |
| PairingHub.CollectVisible | hub/hub_mdns.go:169-185 | the loop builds the visible candidates, later ones winning |
| PairingHub.TrustedRemoteObservations | hub/hub_mdns.go:304-340 | the loop builds the observations and drops ambiguous SKIs |
| TrustedSurvey.FoundIff | hub/hub_mdns.go:311-337 | a SKI is observed exactly if its only usable entry comes after all its others, with that entry's endpoint, and ambiguous exactly if it has a usable entry and is not observed |
| TrustedSurvey.OrderFreeIff | hub/hub_mdns.go:311-337 | what is observed of a SKI is the same in every iteration order if and only if it does not have exactly one usable entry beside unusable ones |
| TrustedSurvey.HostlessTwin | hub/hub_mdns.go:319-330 | two entries that give an observation in one order and none in the other |
| PairingSafety.RotationIsFresh | hub/hub.go:486-494 | a rotation gives an authority that exceeds every authority any SKI held at any earlier point of the run |
| PairingHub.LiveHub.CurrentOutboundAuthority | hub/hub.go:478-484 | an existing authority is kept, a missing one is created |
| PairingHub.LiveHub.RemoveOutboundAttemptRegistrations | hub/hub.go:496-507 | exactly the registrations of the SKI leave and are returned |
| PairingHub.LiveHub.RegisterOutboundAttemptForLaunch | hub/hub.go:384-418 | registered exactly when gate generation and authority are current and there is no shutdown |
| PairingHub.LiveHub.RegisterInternalOutboundAttemptForLaunch | hub/hub.go:420-456 | registered exactly without a gate, with the current authority and without shutdown |
| PairingHub.LiveHub.TakeTransientPinProviderForAuthority | hub/hub_pairing.go:359-369 | the provider is taken out exactly when its authority matches |
| PairingHub.LiveHub.RetireActivePairingCandidate | hub/hub_pairing.go:478-504 | retirement rotates the authority, resets the state and takes the candidate's PIN |
| PairingHub.LiveHub.RetirePairingCandidate | hub/hub_pairing.go:454-474 | an effective retirement also drops the attempts |
| PairingHub.LiveHub.RevokeOutboundAttempts | hub/hub.go:314-335 | revocation as specified, whole new state |
| PairingHub.LiveHub.SetOutgoingAttemptGate | hub/hub.go:286-305 | candidates retired, retries rotated and all attempts dropped, in any map order |
| PairingHub.LiveHub.RetireStaleCandidates | hub/hub_mdns.go:186-199 | every undialled candidate without a matching observation is retired |
| PairingHub.LiveHub.InvalidateTrustedRemoteRetries | hub/hub_mdns.go:345-363 | every retry without the same observation loses authority, attempts and entry |
| PairingHub.LiveHub.ReportMdnsSnapshot | hub/hub_mdns.go:139-203 | the whole critical section equals the specified application |
| PairingHub.LiveHub.EnqueueMdnsSnapshot | hub/hub_mdns.go:31-60 | numbering, queueing and the choice of the drainer |
| PairingHub.LiveHub.DrainMdnsSnapshots | hub/hub_mdns.go:107-121 | the loop is a run of the registry, keeps the invariant and leaves every admitted snapshot applied |
| PairingHub.LiveHub.AdmitPairingCandidate | hub/hub_pairing.go:142-201 | the verdict in the source's order of checks, and the whole new state |
| PairingHub.LiveHub.ConnectPairingCandidate | hub/hub_pairing.go:245-294 | the search finds the SKI of the token, or nothing could be connected |
| PairingSafety.TrustEndsSelection | hub/hub_pairing.go:539-548 | after trust is granted and until it is revoked, in every continuation: no selected candidate, no admission, no connecting reservation, no retirement for the SKI |
| PairingHub.LiveHub.RetryTrustedRemote | hub/hub_connections.go:1151-1221 | a retry starts exactly when allowed and freezes authority and observation |
| PairingHub.LiveHub.ClaimClosedOutboundAttempt | hub/hub_shipconnection.go:91-115 | the attempt leaves; unless superseded, its PIN and candidate go too |
| CandidateLifetimes.TimelineContiguous | mdns/mdns.go:668-735 | for any discovery history each reference is visible during one contiguous interval of revisions |
| CandidateLifetimes.AdmittedAtMostOnce | hub/hub_mdns.go:146-185 | with reports from such a timeline in any order, no reference is admitted twice |
| CandidateLifetimes.ManagerReferencesAdmittedOnce | hub/hub_pairing.go:145-198 | the same for every hub run fed by copies from any mDNS manager history |
| CandidateLifetimes.RevisionZeroAdmitsTwice | hub/hub_mdns.go:40-45 | a run with a report without revision that admits one reference twice |
| CandidateLifetimes.SpentIff | hub/hub_mdns.go:158-168 | in every run a reference is consumed if and only if it was admitted and every snapshot applied since that was not outdated lists it |
| CandidateLifetimes.SecondAdmissionIff | hub/hub_pairing.go:145-148 | a synchronised hub refuses a reference as consumed exactly then; a second admission is open exactly when an effective snapshot omitted it |
| Handshake.Reachable | ship/handshake.go:111-302 | under every interleaving each open connection has passed the milestones its state stands for, and so has every action still to come |
| Handshake.CompleteOnlyInOrder | ship/handshake.go:230-301 | before Complete is set, init, hello, protocol selection, PIN and access methods were passed in this order |
| Handshake.CompleteIsLogged | ship/handshake.go:259-275 | the Complete state is entered only by that step |
| Handshake.HelloNeedsTrustOrApproval | ship/hs_hello.go:14-225 | hello is passed only after trust, auto accept or the client role at hello entry, or after ApprovePendingHandshake |
| Handshake.StoredShipIdMatched | ship/hs_access.go:45-66 | with a stored SHIP ID every reply passed carries exactly that ID |
| HandshakeCompletion.MatchingReplyCompletes | ship/hs_access.go:67-95 | from any connection awaiting access methods a matching reply is stored, committed and leads to Complete |
| AbortFinality.AbortDoneStaysIff | ship/handshake.go:42-50 | in every reachable connection AbortDone stays in every continuation if and only if the connection is closing, or no thread holds an exit ahead of a close and no committed latch waits for an approval |
| AbortFinality.OvertakenApproval | ship/connection.go:399-426 | an approval that saw PendingListen before a timeout aborted still holds an exit |
| AbortFinality.OvertakenReady | ship/hs_hello.go:25-41 | so does a ready message whose handler had read ReadyListen, without any approval |
| AbortFinality.LoneApproval | ship/connection.go:420-425 | so does one approval alone whose hello message cannot be sent while the abort message can |
| AbortFinality.ShapedAlways | ship/hs_access.go:67-95 | in every run a commit is followed by the Approved state, the end of its callbacks by the attempt to complete, and decisions stand alone |
| HelloTimers.ReadyWaitKeepsPending | ship/hs_hello.go:147-174 | a ready message leaves a quietly waiting connection waiting with its timer armed again exactly for waits of 30 seconds and more; otherwise the handshake is aborted |
| HelloTimers.PendingLeftWithoutTimer | ship/hs_hello.go:175-199 | a pending message leaves a quietly waiting connection unwatched exactly for waits from 1 to 30 seconds; otherwise its timer is armed again or the handshake is aborted |
| HelloTimers.UnwatchedIff | ship/handshake.go:51-78 | for every connection and step: the step leaves it in PendingListen with no timer and nobody to attend if and only if a thread enters the state with the timer gone already, or stops its timer there, and nobody attends |
| HelloTimers.UnwatchedHasCause | ship/hs_hello.go:92-200 | every unwatched connection of every run goes back to one such step, and to a stop only after a pending message with a wait from 1 to 30 seconds was delivered |
| HelloTimers.AnsweredIff | ship/hs_hello.go:113-225 | which messages lead to an armed timer or out of PendingListen whatever the surroundings answer |
| HelloTimers.ExpiryWhileEntering | ship/hs_hello.go:92-110 | a timer that expires while PendingInit is handled leaves the connection unwatched |
| HandshakeRuns.ServerLeavesAbort | ship/connection.go:399-426 | a fresh server for an unknown remote reaches AbortDone with an approval still on its way out of it |
| HandshakeRuns.ServerLeavesAbortAlone | ship/connection.go:420-425 | the same without any timeout: the hello message of the approval cannot be sent |
| HandshakeRuns.ClientLeavesAbort | ship/hs_hello.go:25-41 | a fresh client reaches AbortDone with a ready message still on its way out of it, without any approval |
| HandshakeRuns.ServerLosesTimer | ship/hs_hello.go:175-199 | a fresh server reaches PendingListen without a timer by a pending message with any wait from 1 to 30 seconds |
| HandshakeRuns.ServerEntersWithoutTimer | ship/hs_hello.go:92-110 | a fresh server enters PendingListen without a timer after an expiry in PendingInit |
| Handshake.InitPasses | ship/hs_init.go:12-72 | the init milestone is passed exactly on a valid init message, with the reply sent in the server role |
| Handshake.ProtocolPasses | ship/hs_prot.go:13-161 | the protocol is selected exactly on a select message, in the client role only for version 1.0 and UTF-8 alone |
| Handshake.PinPasses | ship/hs_pin.go:36-178 | the PIN phase is left exactly on none, pinOk, or an optional PIN that is requested and not provided |
| Handshake.HandlersPassExactly | ship/handshake.go:111-219 | for every state and message the handler passes a milestone if and only if the message is the one it stands for, and no other milestone |
| PairingApproval.SetupOnceAndOnlyWhenApproved | ship/connection.go:453-597 | set-up starts at most once; with a required approval only after the request and after the SHIP ID and Approved callbacks returned; never after the terminal close effect |
| PairingApproval.NeverSetUpTwice | ship/handshake.go:230-256 | no two moments of a run both start a set-up |
| PairingApproval.Reachable | ship/hs_access.go:67-95 | the invariant of latch, queue and threads behind it, for every interleaving |
| PairingApproval.TakeKeepsOrder | ship/connection.go:511-540 | taking the head out of the effect queue keeps what was ahead of an effect ahead of it |
| PairingApproval.PairingLatch.RequestPairingApproval | ship/connection.go:453-469 | the latch after a request, and whether the caller approves now |
| PairingApproval.PairingLatch.BeginPairingCommit | ship/connection.go:471-480 | a commit begins exactly on an open connection |
| PairingApproval.PairingLatch.CompletePairingCommitCallback | ship/connection.go:482-490 | the latch after the callbacks, and whether an approval was waiting |
| PairingApproval.PairingLatch.AdmitSetup | ship/handshake.go:230-246 | set-up is admitted exactly when the latch allows it, and then closed |
| SpineDispatch.HandedInArrivalOrder | ship/connection.go:699-808 | what the reader got is a prefix of what was accepted, in order, after the Complete report |
| SpineDispatch.NothingHeldBack | ship/connection.go:751-774 | an open connection with a drained queue has handed over everything accepted |
| SpineDispatch.BufferAlwaysBounded | ship/connection.go:776-802 | at most 16 messages and 16384 bytes, the byte counter is the sum, one drainer at most |
| SpineDispatch.AtMostOneAfterClose | ship/connection.go:738-742 | after closing began at most one more task takes effect in any continuation: the one whose check had passed before |
| SpineDispatch.OneAfterCloseIffPassed | ship/connection.go:804-808 | one does take effect in some continuation if and only if a check had passed before the close |
| SpineDispatch.HandedAfterClose | ship/handshake.go:288-294 | for every payload a run in which the reader gets it after closing began |
| SpineDispatch.HandOverTasks | ship/handshake.go:277-293 | the loop lists the Complete report and then the buffered payloads |
| SpineDispatch.SpineChannel.RouteOrBuffer | ship/connection.go:776-802 | route, terminal flag and buffer as specified |
| SpineDispatch.SpineChannel.DrainSpineDispatchQueue | ship/connection.go:760-774 | the loop runs the queued tasks in order unless terminated, and leaves |
| SpineDispatch.SpineChannel.HandleIncomingSpine | ship/connection.go:713-747 | a payload is handed over, buffered or dropped |
| SpineDispatch.SpineChannel.CompleteHandshake | ship/handshake.go:259-301 | the reader is installed and gets the Complete report and the buffer |
| TimerGenerations.OnlyNewestClaims | ship/handshake.go:344-359 | only the newest generation claims, and only if nobody stopped it |
| TimerGenerations.ClaimsAreUnique | ship/handshake.go:350-357 | each generation claims at most once, in generation order |
| TimerGenerations.StopNeverWaitsForAHandler | ship/handshake.go:367-383 | stop never waits for a generation that claimed, and whoever is waited for can leave |
| TimerGenerations.QuietAfterShutdown | ship/handshake.go:386-404 | after shutdown and an active count of zero no generation is alive again |
| TimerGenerations.HandshakeTimer.StopHandshakeTimer | ship/handshake.go:367-383 | the current generation is revoked; the caller waits only for a running one |
| TimerGenerations.HandshakeTimer.InstallGeneration | ship/handshake.go:323-340 | a new generation replaces the channels, unless shutdown was requested |
| TimerGenerations.HandshakeTimer.ClaimTimeout | ship/handshake.go:348-357 | an expired generation claims or gives up |
| EebusJson.ProcessLevel | ship/helper.go:23-53 | the recursive pass with its loops yields the EEBUS form of the tree |
| EebusJson.IntoPrints | ship/helper.go:55-79 | JsonIntoEEBUSJson prints the tree in the EEBUS style |
| EebusJson.Restyle | ship/helper.go:12-21 | one textual replacement on a printed tree changes the style and the tokens and nothing else |
| EebusJson.UndoPrints | ship/helper.go:12-21 | the four replacements together print the scrubbed tree |
| EebusJson.RoundTrip | ship/helper.go:12-79 | JsonFromEEBUSJson undoes JsonIntoEEBUSJson if and only if the object is non-empty, has no empty array and no token with one of the four patterns |
| EebusJson.EmptyArrayIsLost | ship/helper.go:16 | an object whose empty array does not survive |
| EebusJson.TrailingZerosIgnored | ship/helper.go:17-18 | trailing zero bytes change nothing |
| ShipEnvelope.SpineIntoShipPrints | ship/connection.go:856-892 | the patched message is the envelope around the payload in EEBUS form |
| ShipEnvelope.SpinePayloadSurvives | ship/connection.go:680-697 | the payload is extracted unchanged if and only if it is not empty and clean, and exactly then the message is restored |
| ShipEnvelope.EmptyPayloadIsLost | ship/connection.go:856-892 | the message of an empty payload has none |
| Addresses.NormalizeIdempotent | hub/hub_connections.go:1033-1051 | normalising twice changes nothing, except exactly for a zoned unspecified address |
| Addresses.ZonedUnspecifiedSlipsThrough | hub/hub_connections.go:1033-1051 | that address |
| Addresses.OrderedAscending | hub/hub_connections.go:1000-1031 | the result is strictly ascending and holds exactly the normalised valid addresses |
| Addresses.OrderIndependent | hub/hub_connections.go:1000-1031 | inputs with the same elements give the same list, so the frozen endpoint does not depend on discovery order |
| Addresses.FamiliesInOrder | hub/hub_connections.go:1028-1031 | IPv4 comes before IPv6 |
| Addresses.OrderedConnectionAddresses | hub/hub_connections.go:1000-1031 | the loop with its sorting computes that list |
| ObservationKeys.KeyInjective | mdns/mdns.go:538-545 | different service identities have different observation keys |
| Discovery.EntriesFollowLiveScopes | mdns/zeroconf.go:265-330 | after any history a service has an entry exactly when some interface sees it, with the normalised sorted union of addresses |
| Discovery.ReferenceChanges | mdns/mdns.go:668-735 | the candidate reference changes exactly when an address is lost, metadata changes or the entry is created again |
| Discovery.RefsIssuedAlways | mdns/mdns.go:555-563 | references are unique and come from past generations |
| Discovery.ReferencesNeverReused | mdns/mdns.go:555-563 | a reference that a step gives out exceeds every reference of every service at any earlier point of the history |
| Discovery.MdnsManager.ProcessScopedMdnsEntry | mdns/mdns.go:615-735 | add, update and removal as specified |
| Discovery.NormalizeMdnsAddresses | mdns/mdns.go:753-782 | first occurrences of the kept addresses, and whether an unscoped link-local one was seen |
| Discovery.AddressSetLost | mdns/mdns.go:737-751 | true exactly when an earlier address is missing |
| Discovery.ZeroconfProvider.ServiceAddressesForZone | mdns/zeroconf.go:343-360 | the zoned addresses of one interface |
| Discovery.ZeroconfProvider.Aggregate | mdns/zeroconf.go:312-330 | the sorted union over interfaces, for any map order |
| Discovery.ZeroconfProvider.ProcessScopedServiceForInterface | mdns/zeroconf.go:265-310 | the provider state and its report for every event |

## Left out

- TLS, certificates, websocket framing, dialling and HTTP serving: a dial is an event with any outcome.
- Listener policies, provider start, announcements and signal handling: operating-system resources.
- mdns/avahi.go: the same aggregation idea with an external daemon.
- Durations, random reconnect delays and sleeps: timeouts may happen at any moment.
- Wrap-around of 64-bit epochs, revisions and admissions; the HMAC of a candidate reference, which stands for its generation counter.
- TXT validation of mDNS entries and the unscoped address list, which is a function of the scoped one; SKIs are taken as normalised.
- Byte-level JSON parsing and number formatting: scalars and keys are opaque tokens, and duplicate keys are not merged.
- PairingHub.TrustedRemoteObservations: takes the entries in one given order; `OrderFreeIff` says when another order gives another result, and the registry's runs range over every order.
- ShipEnvelope.SpinePayloadSurvives: the receiver strips the fixed text of the envelope around the payload member; JSON parsing itself is not modelled.
- Handshake.Reachable: handlers are modelled on values, as lists of actions of interleaved threads, instead of methods that recurse through handleState; what a handler asks its surroundings is chosen when it starts, and arming a timer is one step (`TimerGenerations` has both halves of it).
- Handshake.CompleteOnlyInOrder: an empty message passes as a valid init message, as in the source, and counts as the init milestone.
- TwoHubsAgreement.QuiescentAgreement: covers the path without pairing reservations and without shutdown; `AttemptLifecycle` covers those for one hub.
- LockOrder.NoWaitCycle: covers the four named locks; the leaf mutexes that are never held while another lock is taken, and waiting for a callback lease, are not part of it.
- SpineDispatch.SpineChannel.DrainSpineDispatchQueue: the method states the loop without interference; `HandedInArrivalOrder` covers every interleaving.
- PairingHub.LiveHub.DrainMdnsSnapshots: likewise, with `FeedIsFifo` for every interleaving.
- Contents of published pairing details and PIN detail records: display data.
- The websocket close announcement of section 13.4.7 of SHIP 1.0.1 and its half-second delay.
