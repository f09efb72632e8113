# WindShare connectivity: a verified model

The Go connectivity layer is a set of lock-guarded ledgers, admission schedulers and protocol state
machines. Each locked section of the code is one atomic step here, and every result is stated for all
histories or all interleavings of those steps. Components come in three layers:

- a value model: the state, one function per step, and `Run` over a history;
- proofs: what every step keeps, and the theorems about every run;
- where the code changes an object in place, a class with the same fields, whose methods and loops are
  proved to do exactly what the value model's step does.

Times, clock readings, random identities, socket and gateway answers, and provider events are inputs.
Token buckets and rates are exact reals. References to lease, reservation, permit, claim and worker objects
become rows of tables named by fresh identities.

| component | files |
|---|---|
| TURN capacity pool | `TurnCapacity`, `TurnCapacityLedger`, `TurnCapacityPool` |
| TURN sender loop and recovery circuit | `TurnSender`, `TurnSenderLedger`, `TurnSenderRuns`, `TurnSenderRecovery`, `TurnSenderEffects`, `TurnSenderLoop` |
| Socket authority | `SocketAuthority`, `SocketLedger`, `SocketSignals`, `SocketAuthorityObject` |
| Native attempt admission | `NativeAdmission`, `NativeAdmissionProofs`, `NativeAdmissionBudgets`, `NativeAdmissionGate` |
| Reachability authority | `Reachability`, `ReachabilityProofs`, `ReachabilityAuthority` |
| Peer phase and admission arbitration | `PeerPhase`, `PeerAdmission`, `PeerLifecycle` |
| Receiver termination join | `ReceiverTermination`, `ReceiverOperation` |
| Sender replay and evidence ledger | `ReplayLedger`, `ReplayLedgerProofs`, `ReplayHandler` |
| Throughput trials | `Throughput`, `ThroughputController` |
| Control mailbox | `ControlMailbox` |
| ICE candidate budget | `CandidateBudget` |
| Native source references | `SourceReference` |
| Sums over maps and set sizes | `Totals` |

Where a promise fails at its edge, the exact edge is proved:

- `TurnCapacityLedger.PassStrandsDuplicate`, `GrantStrandsExactly`, `PassStrandsExactly`: after a pass a
  queued request may be one the pool would now refuse, though never one it could grant; it is told only at
  the next pass. Which grants do this, and which passes, is stated as an equivalence.
- `SocketSignals.RefusalStandsUntilSignalled`, `SharedPathIsNotSignalled`: a refused socket request becomes
  grantable without a change signal exactly if the same path was opened meanwhile with the same addresses
  and is still open, which a direct acquisition can do.
- `ReceiverTermination.PublishedAfterBothEnded`, `OneReceiverIsNeeded`: the single `receiving` flag is right
  if no Receive starts while another runs, and every history in which one does has a beginning that can
  publish too early.
- `SourceReference.ChildAgreesExactly`: the child constructor and full validation disagree on exactly two
  families of names, neither of which a directory listing produces.
- `ReplayLedgerProofs.ClaimIsExclusive`: the branch of `startAttempt` that reports a claim both acquired
  and over capacity can never be taken.

## Model

| member | source | states |
|---|---|---|
| `TurnCapacityLedger.PoolIsSound` | connectivity/turncapacity/pool.go:163-276 | After every history of acquire, cancel, claim, close, route start and route release: links form a matching without chains, `sockets` is the sum over unpaired reservations plus the larger of each pair, `connections` is live paths minus replacements, each reservation counts its unstarted and started routes, the limits 16/64/2/8/64 hold, all handoffs in progress are one handoff, and no queued request could be granted |
| `TurnCapacityLedger.PhysicalSocketsBounded` | connectivity/turncapacity/pool.go:163-276 | After every history the sockets of all live paths together never exceed 64 + 2·8, and at most 18 paths are live |
| `TurnCapacityLedger.DrainKeeps` | connectivity/turncapacity/pool.go:149-161 | One forward pass over the queue keeps the invariant and leaves nobody grantable, although it never looks back |
| `TurnCapacityLedger.AdmitHelpsNobody` | connectivity/turncapacity/pool.go:163-227 | A grant never makes a request grantable that was not, which is why one pass is enough |
| `TurnCapacityLedger.HandoffsShrink` | connectivity/turncapacity/pool.go:209-227 | A grant never opens the handoff slot to a request that could not use it before |
| `TurnCapacityLedger.AdmitReplacement` | connectivity/turncapacity/pool.go:188-207 | Granting a successor links the pair both ways and charges exactly the growth of the pair |
| `TurnCapacityLedger.AdmitOrdinary` | connectivity/turncapacity/pool.go:163-186 | Granting an unpaired reservation charges all its sockets and keeps the matching |
| `TurnCapacityLedger.AdmitOneHandoff` | connectivity/turncapacity/pool.go:209-227 | All successors in progress belong to one handoff of at most two endpoints |
| `TurnCapacityLedger.JoinCharges` | connectivity/turncapacity/pool.go:188-207 | Pairing a reservation with its predecessor raises the charge by the excess of the new size over the old |
| `TurnCapacityLedger.CutCharges` | connectivity/turncapacity/pool.go:245-276 | Removing one end of a pair lowers the charge by what that end added to the pair |
| `TurnCapacityLedger.EditCharges` | connectivity/turncapacity/routes.go:39-48 | Resizing one end of a pair changes the charge by the difference the code computes |
| `TurnCapacityLedger.CloseKeeps` | connectivity/turncapacity/pool.go:245-276 | Closing a reservation, with the pass that follows, keeps the invariant and strands nobody |
| `TurnCapacityLedger.CancelKeeps` | connectivity/turncapacity/pool.go:107-147 | A canceled waiter leaves without stranding anybody else |
| `TurnCapacityLedger.ClaimKeeps` | connectivity/turncapacity/pool.go:229-243 | Claiming keeps the invariant and, although it can let a successor in, strands nobody |
| `TurnCapacityLedger.LiveIsRemovable` | connectivity/turncapacity/pool.go:245-276 | Closing a live reservation always finds the partner its links name |
| `TurnCapacityLedger.StartInitialKeeps` | connectivity/turncapacity/routes.go:7-37 | Starting a prepaid route keeps the invariant, the route count and the charges included, and nobody becomes grantable |
| `TurnCapacityLedger.StartBackupKeeps` | connectivity/turncapacity/routes.go:7-37 | Starting a backup route by resizing the live reservation keeps the invariant, the charges included, and nobody becomes grantable |
| `TurnCapacityLedger.ReleaseKeeps` | connectivity/turncapacity/routes.go:14-36 | Releasing a route, of a live or a closed path, keeps the invariant and leaves nobody grantable |
| `TurnCapacityLedger.GrantStrandsExactly` | connectivity/turncapacity/pool.go:149-186 | When a waiting request becomes refused by somebody else's grant: exactly if that grant takes its key, or its predecessor's key for another service |
| `TurnCapacityLedger.PassStrandsExactly` | connectivity/turncapacity/pool.go:149-186 | For a whole pass: a waiter passed over is refusable at its end exactly if the pass went on to admit a path with its key, or with its predecessor's key for another service |
| `TurnCapacityLedger.PassStrandsDuplicate` | connectivity/turncapacity/pool.go:149-186 | It happens from the empty pool: after three acquisitions the queue holds a request the pool would refuse, because the pass examined it before the grant that doomed it |
| `TurnCapacityPool.Pool.Acquire` | connectivity/turncapacity/pool.go:107-147 | Queues and drains as the specification does; the object stays in a state some history reaches |
| `TurnCapacityPool.Pool.TryAcquire` | connectivity/turncapacity/pool.go:163-186 | Decides and applies one request exactly as specified, errors included |
| `TurnCapacityPool.Pool.DrainQueue` | connectivity/turncapacity/pool.go:149-161 | The in-place loop that removes settled waiters equals the specified pass |
| `TurnCapacityPool.Pool.Cancel` | connectivity/turncapacity/pool.go:107-147 | Removing the waiter equals the specified cancellation; the object stays in a state some history reaches |
| `TurnCapacityPool.Pool.Claim` | connectivity/turncapacity/pool.go:229-243 | Marks the reservation claimed exactly when session, path, service and incarnation agree; the object stays in a state some history reaches |
| `TurnCapacityPool.Pool.Close` | connectivity/turncapacity/pool.go:245-276 | Unlinks, uncounts and drains as specified, once per reservation; the object stays in a state some history reaches |
| `TurnCapacityPool.Pool.HandoffOpen` | connectivity/turncapacity/pool.go:209-227 | The scan over the table finds an open handoff slot exactly when one exists |
| `TurnCapacityPool.Pool.StartRoute` | connectivity/turncapacity/routes.go:7-37 | Starts a prepaid or a backup route exactly when allowed; the object stays in a state some history reaches |
| `TurnCapacityPool.Pool.ReleaseRoute` | connectivity/turncapacity/routes.go:14-36 | Releases once; later calls change nothing; the object stays in a state some history reaches |
| `TurnSenderRuns.SenderIsSound` | connectivity/turnpath/sender.go:222-433 | Over every run until close: at most two services hold or prepare a path and at most one does both, the lookup table is exactly the paths in slots, every issued lease is in exactly one of the completion queue, one slot, or released, path identities are fresh and used once, and no recovery budget exceeds two |
| `TurnSenderRuns.AtMostThreePaths` | connectivity/turnpath/sender.go:162-191 | At most three delegated paths are open to lookup in any sound running state |
| `TurnSenderRuns.ShutdownReleasesAll` | connectivity/turnpath/sender.go:402-433 | After shutdown the released leases are exactly the issued ones, each once |
| `TurnSenderLedger.AcquireKeeps` | connectivity/turnpath/sender_issuance.go:19-64 | Starting an issuance takes a free preparation slot and a fresh identity, within both slot limits |
| `TurnSenderLedger.AcquireFromKeeps` | connectivity/turnpath/sender.go:272-312 | The acquisition loop over all services, whose counters grow as it goes, never exceeds two active services or one overlap |
| `TurnSenderLedger.MaintainServiceKeeps` | connectivity/turnpath/sender.go:272-377 | Promotion, retirement and selection of one service keep every lease in one place |
| `TurnSenderLedger.PromoteKeeps` | connectivity/turnpath/sender_issuance.go:175-216 | Promotion keeps the invariant: every lease stays in one place and the lookup table exact |
| `TurnSenderLedger.RetireCurrentKeeps` | connectivity/turnpath/sender.go:346-401 | Retiring the serving path keeps the invariant: its lease is released once and the lookup table stays exact |
| `TurnSenderLedger.RetirePendingKeeps` | connectivity/turnpath/sender.go:346-401 | Retiring the prepared path keeps the invariant: its lease is released once and the lookup table stays exact |
| `TurnSenderRuns.RefreshConfigurationKeeps` | connectivity/turnpath/sender_configuration.go:16-60 | A new inventory keeps the invariant: no lease is lost or duplicated, the lookup table stays exact, no identity is listed twice |
| `TurnSenderRuns.RebuildTotals` | connectivity/turnpath/sender_configuration.go:16-60 | The rebuilt list holds exactly the leases and paths of the services it kept |
| `TurnSenderRuns.InstallKeeps` | connectivity/turnpath/sender_issuance.go:89-165 | Installing a result keeps the invariant, whatever changed while the request was under way |
| `TurnSenderRuns.PlaceKeeps` | connectivity/turnpath/sender_issuance.go:89-165 | Each way a result can be outdated or fail still accounts for its lease |
| `TurnSenderRuns.DemandKeeps` | connectivity/turnpath/recovery.go:46-60 | A demand and the maintenance round it starts keep the invariant |
| `TurnSenderRuns.ReadyKeeps` | connectivity/turnpath/sender.go:222-270 | A readiness report keeps the invariant |
| `TurnSenderRuns.WithdrawFromKeeps` | connectivity/turnpath/sender.go:222-270 | A retirement request keeps the invariant |
| `TurnSenderRuns.RecoverKeeps` | connectivity/turnpath/recovery.go:15-44 | A recovery report never raises a budget above its limit |
| `TurnSenderRuns.FinishKeeps` | connectivity/turnpath/sender_issuance.go:19-87 | A request that ends hands its lease to the queue or releases it |
| `TurnSenderRuns.ShutDownKeeps` | connectivity/turnpath/sender.go:402-433 | Shutdown empties queue and slots into the released leases |
| `TurnSenderEffects.ReadyChangesOnlyNamed` | connectivity/turnpath/sender.go:222-241 | A readiness report changes at most one service, the one preparing the named path under the named authority, and promotes nothing but that path |
| `TurnSenderEffects.WithdrawChangesOnlyNamed` | connectivity/turnpath/sender.go:250-268 | A retirement request changes at most one service, the one holding the named path under the named authority; afterwards nobody holds it, and the other slot of that service is untouched |
| `TurnSenderEffects.ReconfigurationKeepsSlots` | connectivity/turnpath/sender_configuration.go:16-60 | A service that stays listed keeps its identity, both slots and its budget; a new one starts idle |
| `TurnSenderEffects.InstallSettlesLease` | connectivity/turnpath/sender_issuance.go:89-165 | Whatever changed meanwhile, a result's lease ends up in the slot of the service that asked for it, no other service changing, or is released exactly once |
| `TurnSenderRecovery.CircuitStaysOpen` | connectivity/turnpath/recovery.go:46-129 | In any step but a reset, whatever serves or is being prepared, a spent budget stays spent, and a service that ends the step without a serving path has asked for no credential: what it prepares was given up, stays, or is the result of its own earlier request. Resets are a new demand generation, a network change, being dropped from the inventory, and budget-restoring progress on its serving or prepared path |
| `TurnSenderRecovery.CircuitStaysOpenThroughout` | connectivity/turnpath/recovery.go:46-129 | The same between any two consecutive states of every run without a reset |
| `TurnSenderRecovery.OutageAsksNothing` | connectivity/turnpath/recovery.go:46-129 | Over every run without a reset in which the service never serves, all it ever has prepared is what it had at the beginning |
| `TurnSenderLoop.Sender.constructor` | connectivity/turnpath/sender.go:99-120 | Starts with one idle service per listed profile; the new state is the specified one and stays reachable |
| `TurnSenderLoop.Sender.Tick` | connectivity/turnpath/sender.go:192-220 | One maintenance round equals the specified step; the new state is the specified one and stays reachable |
| `TurnSenderLoop.Sender.MaintainPaths` | connectivity/turnpath/sender.go:272-312 | Reports, promotion, retirement and acquisition in the order of the loop; the new state is the specified one |
| `TurnSenderLoop.Sender.TendEach` | connectivity/turnpath/sender.go:272-312 | The first loop over the services equals the specified pass; the new state is the specified one |
| `TurnSenderLoop.Sender.TendAll` | connectivity/turnpath/sender.go:272-312 | The acquisition loop with its running counts equals the specified pass; the new state is the specified one |
| `TurnSenderLoop.Sender.RequestCredential` | connectivity/turnpath/sender_issuance.go:19-64 | Starts one issuance in a free slot; the new state is the specified one |
| `TurnSenderLoop.Sender.PromotePending` | connectivity/turnpath/sender_issuance.go:175-216 | Moves the prepared path into service; the new state is the specified one |
| `TurnSenderLoop.Sender.RetireUnusable` | connectivity/turnpath/sender.go:346-377 | Retires what is expired, failed or no longer wanted; the new state is the specified one |
| `TurnSenderLoop.Sender.Reconfigure` | connectivity/turnpath/sender_configuration.go:16-60 | Rebuilds the list in place; the new state is the specified one |
| `TurnSenderLoop.Sender.NoticeNetwork` | connectivity/turnpath/recovery.go:62-85 | A network change restores the budgets; the new state is the specified one |
| `TurnSenderLoop.Sender.AcceptDemand` | connectivity/turnpath/recovery.go:46-60 | Applies a newer demand only; the new state is the specified one |
| `TurnSenderLoop.Sender.ApplyReady` | connectivity/turnpath/sender.go:222-270 | Marks the named path ready and promotes it; the new state is the specified one and stays reachable |
| `TurnSenderLoop.Sender.WithdrawPath` | connectivity/turnpath/sender.go:222-270 | Retires the named path; the new state is the specified one |
| `TurnSenderLoop.Sender.ReportFault` | connectivity/turnpath/recovery.go:15-44 | Charges the named path's service; the new state is the specified one and stays reachable |
| `TurnSenderLoop.Sender.InstallNext` | connectivity/turnpath/sender_issuance.go:89-165 | Takes one completed result and places or releases it; the new state is the specified one and stays reachable |
| `TurnSenderLoop.Sender.Outdated` | connectivity/turnpath/sender_configuration.go:62-81 | Tells a result that lost its place exactly when one of the listed reasons holds |
| `TurnSenderLoop.Sender.CompleteRequest` | connectivity/turnpath/sender_issuance.go:67-86 | A returning request is queued with its lease; the new state is the specified one and stays reachable |
| `TurnSenderLoop.Sender.AbandonRequest` | connectivity/turnpath/sender_issuance.go:67-86 | A request that outlives the loop releases its own lease; the new state is the specified one and stays reachable |
| `TurnSenderLoop.Sender.StopLoop` | connectivity/turnpath/sender.go:402-411 | Closes the lookup before anything is released; the new state is the specified one and stays reachable |
| `TurnSenderLoop.Sender.Close` | connectivity/turnpath/sender.go:402-433 | Releases the queue and every slot; the new state is the specified one and stays reachable |
| `SocketLedger.AuthorityIsSound` | connectivity/socketauthority/authority.go:136-181 | After every history: used is the sum over all paths, closing ones included, reserved the sum of unsettled new reservations, both fit the capacity, no key is both path and reservation, references are the unreleased leases, and owners and workers are exclusive |
| `SocketLedger.ActivateNeverLosesCapacity` | connectivity/socketauthority/reservation.go:104-130 | Activating a held reservation never fails for capacity and never waits; it succeeds exactly if the authority is open, the generation lives and the socket can be opened |
| `SocketLedger.StepKeeps` | connectivity/socketauthority/shutdown.go:19-43 | Every step keeps the invariant, announces every drop of used + reserved, and never reopens or forgets a path |
| `SocketLedger.NeverRevived` | connectivity/socketauthority/shutdown.go:69-88 | References never rise from zero, closing is never undone, and a path's sockets are closed at most once |
| `SocketLedger.ExclusiveOwnership` | connectivity/socketauthority/ownership.go:30-78 | After every history a path has at most one live claim, and no running idle worker beside an ICE owner |
| `SocketLedger.ExclusiveWorker` | connectivity/socketauthority/idle.go:23-75 | After every history a path has at most one running idle worker, and none once it left the ledger |
| `SocketLedger.OptionalLeavesRoom` | connectivity/socketauthority/reservation.go:44-61 | After an optional reservation every promised mandatory set still fits under a new key |
| `SocketLedger.ListenersLeaveRoom` | connectivity/socketauthority/tcp.go:74-129 | After adding TCP listeners every promised mandatory set still fits |
| `SocketLedger.ClosedAuthorityDrains` | connectivity/socketauthority/shutdown.go:45-67 | After any history that closed the authority and any continuation in which the closing goroutine of every path then in the ledger ends after its worker's exit, no path is left and no socket counts as used |
| `SocketLedger.RetiredAdmitsNothing` | connectivity/socketauthority/authority.go:184-196 | A retired generation, or a closed authority, admits no acquisition and no reservation ever again |
| `SocketLedger.ActivateKeeps` | connectivity/socketauthority/reservation.go:104-130 | Activation keeps the invariant, announces every drop of used + reserved and reopens no path |
| `SocketLedger.AbandonKeeps` | connectivity/socketauthority/reservation.go:132-152 | Abandoning a reservation keeps the invariant, announces every drop and reopens no path |
| `SocketLedger.FinishCloseKeeps` | connectivity/socketauthority/shutdown.go:29-42 | Removing a closed path keeps the invariant, announces the drop and reopens no path |
| `SocketLedger.PrepareTCPKeeps` | connectivity/socketauthority/tcp.go:74-129 | Adding listeners keeps the invariant and reopens no path |
| `SocketLedger.EndClaimKeeps` | connectivity/socketauthority/ownership.go:53-66 | The second half of a claim keeps the invariant, exclusive ownership included |
| `SocketLedger.StartIdleKeeps` | connectivity/socketauthority/idle.go:38-74 | Starting an idle worker keeps the invariant, one running worker per path included |
| `SocketSignals.RefusalStandsUntilSignalled` | connectivity/socketauthority/reservation.go:31-36 | Until the sampled change signal fires, over any further steps, a refused request is granted if and only if the same path was opened meanwhile with the same addresses and is still open |
| `SocketSignals.SharedPathIsNotSignalled` | connectivity/socketauthority/reservation.go:62-93 | The exception is real: a direct acquisition of the same path turns a refusal into a shared lease without a signal |
| `SocketAuthorityObject.DedupExact` | connectivity/socketauthority/authority.go:109-134 | Dropping repeated addresses keeps each once, in order of first occurrence |
| `SocketAuthorityObject.Freeze` | connectivity/socketauthority/authority.go:109-134 | A request is frozen exactly if its deduplicated addresses and identities are valid and fit the capacity |
| `SocketAuthorityObject.FindNeeded` | connectivity/socketauthority/tcp.go:87-104 | The listeners still missing, in address order, without IPv6 when excluded |
| `SocketAuthorityObject.Authority.constructor` | connectivity/socketauthority/authority.go:77-94 | Starts empty; the new state is the specified one |
| `SocketAuthorityObject.Authority.Acquire` | connectivity/socketauthority/authority.go:98-106 | Shares, waits, refuses or opens as specified; the new state is the specified one |
| `SocketAuthorityObject.Authority.ReserveRequest` | connectivity/socketauthority/reservation.go:62-93 | Reserves or retains as specified; the new state is the specified one |
| `SocketAuthorityObject.Authority.MeasureEssentialReserve` | connectivity/socketauthority/reservation.go:48-61 | The two scans find the largest promised mandatory set; the new state is the specified one |
| `SocketAuthorityObject.Authority.Activate` | connectivity/socketauthority/reservation.go:104-130 | Settles once; the new state is the specified one |
| `SocketAuthorityObject.Authority.CloseReservation` | connectivity/socketauthority/reservation.go:132-152 | Settles once; the new state is the specified one |
| `SocketAuthorityObject.Authority.RetainLease` | connectivity/socketauthority/authority.go:206-218 | Adds a reference only to a usable path; the new state is the specified one |
| `SocketAuthorityObject.Authority.CloseLease` | connectivity/socketauthority/shutdown.go:69-88 | Releases once and starts closing at zero; the new state is the specified one |
| `SocketAuthorityObject.Authority.FinishClosing` | connectivity/socketauthority/shutdown.go:29-42 | Removes the closed path and signals; the new state is the specified one |
| `SocketAuthorityObject.Authority.PrepareTCP` | connectivity/socketauthority/tcp.go:74-129 | Adds the missing listeners within capacity; the new state is the specified one |
| `SocketAuthorityObject.Authority.BeginClaim` | connectivity/socketauthority/ownership.go:30-51 | Reserves ownership before waiting; the new state is the specified one |
| `SocketAuthorityObject.Authority.EndClaim` | connectivity/socketauthority/ownership.go:53-66 | Rechecks the lease after the wait; the new state is the specified one |
| `SocketAuthorityObject.Authority.ReleaseClaim` | connectivity/socketauthority/ownership.go:70-77 | Gives ownership back once; the new state is the specified one |
| `SocketAuthorityObject.Authority.StartIdle` | connectivity/socketauthority/idle.go:23-75 | Starts, waits or refuses as specified; the new state is the specified one |
| `SocketAuthorityObject.Authority.ExitIdle` | connectivity/socketauthority/idle.go:77-93 | Marks the worker exited; the new state is the specified one |
| `SocketAuthorityObject.Authority.Retire` | connectivity/socketauthority/authority.go:184-196 | Raises the generation mark and signals; the new state is the specified one |
| `SocketAuthorityObject.Authority.Close` | connectivity/socketauthority/shutdown.go:45-67 | Stops admission and starts closing every path; the new state is the specified one |
| `NativeAdmissionProofs.DrainIsSound` | connectivity/nativepeer/admission.go:171-234 | From any sound state and for any answers of the socket authority a pass ends, keeps the invariant, grants an exploration only after every essential waiter still queued was refused by the socket authority since the last grant, and leaves nobody queued without a permit, timer or socket change to wake him; the timer is armed exactly if a refill is awaited |
| `NativeAdmissionProofs.GrantRateBounded` | connectivity/nativepeer/admission.go:161-234 | Between any two moments of any history grants exceed 16 only by 16 per window of clock progress, however the clock was read |
| `NativeAdmissionBudgets.SpendingBounded` | connectivity/nativepeer/admission.go:161-234 | Between any two moments of any history the STUN endpoints and the attempt time that permits cost exceed one bucket only by what the clock refilled, refunds included |
| `NativeAdmissionBudgets.ReturnedPaid` | connectivity/nativepeer/admission.go:281-297 | The refund of a released permit is exactly what it no longer costs |
| `NativeAdmissionProofs.AtMostFourAttempts` | connectivity/nativepeer/admission.go:184-232 | After every history `active` is the number of unreleased permits and at most 4, relayed or exploring ones at most 3, and the queue at most 64 |
| `NativeAdmissionProofs.DirectOpportunityRemains` | connectivity/nativepeer/admission.go:187-198 | A relayed or exploring grant leaves a direct attempt its slot, start token and time budget |
| `NativeAdmissionProofs.RotateFacts` | connectivity/nativepeer/admission.go:255-270 | Rotation keeps the waiters and the classes apart, and within a class puts every other owner before the one served |
| `NativeAdmissionProofs.PrioritiseFacts` | connectivity/nativepeer/admission.go:272-280 | The sort keeps the same waiters and puts essential ones first |
| `NativeAdmissionProofs.WalkKeeps` | connectivity/nativepeer/admission.go:184-233 | The walk with its index reset after every grant, from any point, keeps all of this |
| `NativeAdmissionProofs.ExplorationIsLast` | connectivity/nativepeer/admission.go:187-215 | An exploration that may be asked for stands behind nobody essential who was not refused |
| `NativeAdmissionProofs.RefillKeeps` | connectivity/nativepeer/admission.go:161-170 | Refilling never exceeds a bucket and never credits more than the clock's own progress |
| `NativeAdmissionProofs.ReleaseKeeps` | connectivity/nativepeer/admission.go:281-297 | Releasing a permit refunds unused time within the bucket, once, and drains |
| `NativeAdmissionProofs.StepKeeps` | connectivity/nativepeer/admission.go:101-297 | Every operation keeps the invariant and the start-token balance |
| `NativeAdmissionGate.Gate.constructor` | connectivity/nativepeer/admission.go:91-99 | Starts with full buckets |
| `NativeAdmissionGate.Gate.RefillTokens` | connectivity/nativepeer/admission.go:161-170 | Refills by elapsed time, forward only |
| `NativeAdmissionGate.Gate.RotateOwner` | connectivity/nativepeer/admission.go:255-270 | The two-list loop and the sort equal the specified rotation |
| `NativeAdmissionGate.Gate.DrainQueue` | connectivity/nativepeer/admission.go:171-234 | The in-place loop equals the specified pass and its questions |
| `NativeAdmissionGate.Gate.Ask` | connectivity/nativepeer/admission.go:101-117 | Queues an attempt within the bound |
| `NativeAdmissionGate.Gate.Dispatch` | connectivity/nativepeer/admission.go:118-130 | A pass whose every exploration grant was deserved |
| `NativeAdmissionGate.Gate.Explore` | connectivity/nativepeer/admission.go:122-129 | An exploration not settled by its own pass leaves |
| `NativeAdmissionGate.Gate.Cancel` | connectivity/nativepeer/admission.go:146-160 | A canceled waiter leaves and the queue is drained |
| `NativeAdmissionGate.Gate.Release` | connectivity/nativepeer/admission.go:281-297 | Once per permit |
| `ReachabilityProofs.MappingsConserved` | connectivity/reachability/authority.go:171-400 | After every interleaving each mapping a gateway created is held by exactly one resource, carried by exactly one worker's reply, passed to Delete, declared lost or superseded, never two of these |
| `ReachabilityProofs.FatesMoveForward` | connectivity/reachability/authority.go:171-400 | Over any continuation what was deleted, lost or superseded stays so, a held lease can only be deleted or lost, and a carried one is published by its own resource if at all |
| `ReachabilityProofs.AuthorityIsSound` | connectivity/reachability/authority.go:171-400 | The invariant behind it: an operation is in flight exactly between a worker's two sections, and only that worker changes what its resource holds |
| `ReachabilityProofs.OneOperationPerResource` | connectivity/reachability/authority.go:200-245 | A worker only ever starts on a resource nobody operates on |
| `ReachabilityProofs.CloseLeavesNothing` | connectivity/reachability/authority.go:284-291 | Once Close returned no resource and no demand is left and no mapping is held or carried, whatever follows |
| `ReachabilityProofs.CloseDeletesHeld` | connectivity/reachability/authority.go:200-219 | A lease held by a closed authority with no call in flight about it, in particular every lease held when the closing pass begins, was passed to Delete when Close returns; one whose renewal was in flight was deleted or declared lost |
| `ReachabilityProofs.ClosingPassDrops` | connectivity/reachability/authority.go:200-219 | In a pass begun after closing each worker drops its resource without asking a gateway and passes the lease it held to Delete |
| `ReachabilityProofs.RestartHidesOlderEpochs` | connectivity/reachability/authority.go:384-400 | Publishing a restarted server's lease expires every newer-epoch lease of that server on the same egress and marks every operation in flight there |
| `ReachabilityProofs.RestartIsNeverUndone` | connectivity/reachability/authority.go:302-400 | A reply in flight at a sibling's restart never brings the ended epoch back, over any continuation up to its own last section |
| `ReachabilityProofs.RestartRemembered` | connectivity/reachability/authority.go:384-400 | An operation in flight remembers the restart until its own last section |
| `ReachabilityProofs.FinishNeverResurrects` | connectivity/reachability/authority.go:308-321 | An operation that remembers a restart never publishes the epoch that restart ended |
| `ReachabilityProofs.PublishKeeps` | connectivity/reachability/authority.go:334-355 | A granted lease is held by its resource, or the resource is gone and the lease was passed to Delete; no other fate moves and the invariant is kept |
| `ReachabilityProofs.FailKeeps` | connectivity/reachability/authority.go:358-381 | A failed call leaves every fate and the lease alone, unless it was a renewal whose lease is lost: then that lease alone is lost, or deleted if its reply was invalid, and the resource holds none; the invariant is kept |
| `ReachabilityProofs.OutdatedKeeps` | connectivity/reachability/authority.go:308-321 | A stale creation is superseded, a stale renewal leaves every fate alone, and either leaves what the resource holds; the invariant is kept |
| `ReachabilityProofs.CreationKeeps` | connectivity/reachability/authority.go:253-258 | A created mapping starts with its worker, or is deleted if the reply was invalid |
| `ReachabilityProofs.RefreshKeeps` | connectivity/reachability/refresh.go:6-21 | A catalog change touches only the retry bookkeeping of resources without a lease; the invariant is kept |
| `ReachabilityProofs.CapacityHolds` | connectivity/reachability/authority.go:84-191 | After every history at most `capacity` demands, resources and workers, and no demand of a retired generation |
| `ReachabilityProofs.RetiredGenerationDrops` | connectivity/reachability/authority.go:200-219 | A worker that finds its generation retired drops the resource, grace period or not |
| `ReachabilityAuthority.Authority.constructor` | connectivity/reachability/authority.go:42-69 | Starts empty; the new state is the specified one |
| `ReachabilityAuthority.Authority.MeasureDemand` | connectivity/reachability/authority.go:132-140 | The scan finds the latest matching demand; the new state is the specified one |
| `ReachabilityAuthority.Authority.SetDemand` | connectivity/reachability/authority.go:84-107 | Records a valid demand within time and capacity bounds; the new state is the specified one |
| `ReachabilityAuthority.Authority.Withdraw` | connectivity/reachability/authority.go:108-114 | Removes the demand; the new state is the specified one |
| `ReachabilityAuthority.Authority.Retire` | connectivity/reachability/authority.go:115-128 | Raises the mark and removes older demands; the new state is the specified one |
| `ReachabilityAuthority.Authority.RefreshUnavailable` | connectivity/reachability/refresh.go:6-21 | The loop resets exactly the needed, leaseless resources; the new state is the specified one |
| `ReachabilityAuthority.Authority.Close` | connectivity/reachability/authority.go:284-289 | Shuts the door and forgets demand; the new state is the specified one |
| `ReachabilityAuthority.Authority.StartPass` | connectivity/reachability/authority.go:171-191 | Prunes demand, adopts resources up to the capacity and lists the keys; the new state is the specified one |
| `ReachabilityAuthority.Authority.Begin` | connectivity/reachability/authority.go:200-245 | The worker's first section; the new state is the specified one |
| `ReachabilityAuthority.Authority.Receive` | connectivity/reachability/authority.go:246-259 | The gateway's answer; the new state is the specified one |
| `ReachabilityAuthority.Authority.Finish` | connectivity/reachability/authority.go:302-355 | The worker's last section; the new state is the specified one |
| `ReachabilityAuthority.Authority.FailResource` | connectivity/reachability/authority.go:358-381 | What a failure changes; the new state is the specified one |
| `ReachabilityAuthority.Authority.InvalidateRestarted` | connectivity/reachability/authority.go:384-400 | The sweep over the other resources; the new state is the specified one |
| `ReachabilityAuthority.Authority.FinishPass` | connectivity/reachability/authority.go:192-199 | The pass ends when every worker has; the new state is the specified one |
| `PeerPhase.SettlingOwnsOutcome` | connectivity/v2peer/phase.go:258-398 | Once settlement began nothing but settling it leaves that state, over any run of sender steps |
| `PeerPhase.SenderTerminalIsFinal` | connectivity/v2peer/phase.go:258-398 | On the sender a terminal phase is final, so once the deadline won settlement never begins |
| `PeerPhase.AdmittedIsFinal` | connectivity/v2peer/phase.go:268-398 | Admission is never left on either side |
| `PeerPhase.WaitingHasOneWinner` | connectivity/v2peer/phase.go:258-266 | Deadline and settlement exclude each other, whichever section runs first and whatever follows |
| `PeerPhase.ReceiverTerminalLeftByProof` | connectivity/v2peer/phase.go:289-313 | On the receiver a terminal phase is left exactly by an authenticated installed settlement |
| `PeerPhase.StaleExpirationIsInert` | connectivity/v2peer/phase.go:315-365 | An expiration of an older generation never changes anything, now or after any run |
| `PeerPhase.ExpiryTellsTheWinner` | connectivity/v2peer/phase.go:315-339 | A consumed expiration ends the attempt only if its deadline won, and defers exactly while settlement is under way |
| `PeerPhase.NegotiatingHasDeadline` | connectivity/v2peer/phase.go:546-575 | Advancing a stage always finds the deadline it stops |
| `PeerPhase.StepKeeps` | connectivity/v2peer/phase.go:162-575 | Generation, deadline and pending expiration stay consistent under every step |
| `PeerAdmission.StartedAdmissionSuppliesResult` | connectivity/v2peer/sender_admission.go:32-110 | Whoever comes first decides: a started core admission supplies its first result at the terminal, an unstarted one is closed and supplies none |
| `PeerAdmission.ResultOwnsTerminal` | connectivity/v2peer/sender_admission.go:112-126 | Once settlement began in a whole attempt, accepting the admission's result always succeeds and alone decides the final phase |
| `PeerAdmission.VerdictIsFinal` | connectivity/v2peer/sender_admission.go:253-265 | An accepted verdict is never changed by any later step |
| `PeerAdmission.AttemptIsSound` | connectivity/v2peer/sender_admission.go:340-391 | Phase, core admission and the admitting goroutine stay consistent over every interleaving |
| `PeerLifecycle.PhaseLifecycle.Expire` | connectivity/v2peer/phase.go:315-339 | Like each of the ten handlers of the phase object: the new fields and the answer are those of the specified step, and the invariant is kept |
| `PeerLifecycle.AttemptAdmission.AdmissionAtTerminal` | connectivity/v2peer/sender_admission.go:74-110 | Like the two other methods of the admission object: the new fields and the answer are those of the specified step |
| `ReceiverTermination.PublishedIsTheJoin` | connectivity/v2peer/receiver_signaling_lifecycle.go:127-162 | What is published is the join of everything reported: first owner, strongest disposition with the provenance that first reached it, and always a valid bound decision |
| `ReceiverTermination.PublishedAfterBothEnded` | connectivity/v2peer/receiver_signaling_lifecycle.go:153-162 | With one receiver publication waits for Terminate and Receive, and no Receive runs afterwards |
| `ReceiverTermination.PublishedNeverChanges` | connectivity/v2peer/receiver_signaling_lifecycle.go:127-162 | A published termination never changes over any continuation |
| `ReceiverTermination.PublishesAtLast` | connectivity/v2peer/receiver_signaling_lifecycle.go:50-162 | Once Terminate returned, the end of the running Receive publishes |
| `ReceiverTermination.OverlapPublishesEarly` | connectivity/v2peer/receiver_signaling_lifecycle.go:50-90 | The limit of the single flag, for every history: if a Receive starts while another runs, a continuation publishes the result while one of them still runs |
| `ReceiverTermination.OneReceiverIsNeeded` | connectivity/v2peer/receiver_signaling_lifecycle.go:50-90 | One receiver is exactly what is needed: every history with an overlap has a beginning that some continuation publishes too early |
| `ReceiverTermination.MergeIsJoin` | connectivity/v2peer/receiver_outcome.go:168-203 | Merging pairwise computes the join of the whole list |
| `ReceiverTermination.JoinedIsValid` | connectivity/v2peer/receiver_outcome.go:99-166 | The join of valid bound decisions is a valid bound decision |
| `ReceiverOperation.BoundOperation.PublishTermination` | connectivity/v2peer/receiver_signaling_lifecycle.go:153-162 | Like each of the seven handlers of the bound operation: the new fields are those of the specified step |
| `ReplayLedgerProofs.LedgerIsSound` | connectivity/v2peer/sender_lifecycle.go:66-287 | After every history: active operations and bindings in bijection, retired ones too, no name in both, active plus retired within the maximum, at most eight attempts and one per path, one claim per known path, and started sequences strictly increasing per path since it was last retired |
| `ReplayLedgerProofs.PastSequencesStayPast` | connectivity/v2peer/sender_evidence_authority.go:37-43 | A claimed sequence stays claimed under every event but the path's own retirement and the final clearing, expired tombstones included |
| `ReplayLedgerProofs.NoReplay` | connectivity/v2peer/sender_lifecycle.go:116-205 | Once a sequence is claimed, by an attempt or a rejected offer, no offer with it or an earlier one starts on that path over any continuation until the path is retired or the ledger is finally cleared, whatever expired meanwhile |
| `ReplayLedgerProofs.StartsExactly` | connectivity/v2peer/sender_lifecycle.go:137-204 | Exactly the offers that pass every check become active, under their own binding |
| `ReplayLedgerProofs.RejectionLeavesTrace` | connectivity/v2peer/sender_lifecycle.go:84-113 | A rejected new identity leaves a tombstone, or starting is blocked as long as the tombstone would have lived |
| `ReplayLedgerProofs.BlockHolds` | connectivity/v2peer/sender_lifecycle.go:100-146 | A block holds to its end over any continuation without the final clearing: before that time no offer starts |
| `ReplayLedgerProofs.DoneKeeps` | connectivity/v2peer/sender_lifecycle.go:250-268 | An ending attempt always finds room for its tombstone |
| `ReplayLedgerProofs.StartKeeps` | connectivity/v2peer/sender_lifecycle.go:116-205 | An admitted attempt keeps every bound, with its tombstone's place reserved |
| `ReplayLedgerProofs.RejectKeeps` | connectivity/v2peer/sender_lifecycle.go:66-114 | A rejected offer claims evidence and leaves at most one tombstone |
| `ReplayLedgerProofs.ExpireIsFewer` | connectivity/v2peer/sender_lifecycle.go:277-287 | Expiry removes tombstones in pairs |
| `ReplayLedgerProofs.ClaimIsExclusive` | connectivity/v2peer/sender_evidence_authority.go:20-36 | A claim is never both granted and refused for capacity |
| `ReplayLedgerProofs.EligibleIsClaimed` | connectivity/v2peer/sender_lifecycle.go:159-199 | An eligible valid offer gets its claim unless the path is one too many |
| `ReplayHandler.Handler.ClaimBinding` | connectivity/v2peer/sender_evidence_authority.go:20-36 | Moves the watermark as specified |
| `ReplayHandler.Handler.ExpireRetired` | connectivity/v2peer/sender_lifecycle.go:277-287 | The deletion loop equals the specified expiry |
| `ReplayHandler.Handler.FindBusyPath` | connectivity/v2peer/sender_lifecycle.go:162-166 | Finds an active attempt on the path exactly if there is one |
| `ReplayHandler.Handler.ForgetRetired` | connectivity/v2peer/sender_lifecycle.go:172-177 | The deletion loop removes the path's tombstones |
| `ReplayHandler.Handler.ClaimRejectedOffer` | connectivity/v2peer/sender_lifecycle.go:66-114 | Rejects as specified |
| `ReplayHandler.Handler.StartAttempt` | connectivity/v2peer/sender_lifecycle.go:116-205 | Starts or refuses as specified |
| `ReplayHandler.Handler.AttemptDone` | connectivity/v2peer/sender_lifecycle.go:250-268 | Moves the attempt to its tombstone |
| `ReplayHandler.Handler.RetirePath` | connectivity/v2peer/sender_evidence_authority.go:50-55 | Forgets the watermark |
| `ReplayHandler.Handler.ClearAll` | connectivity/v2peer/sender_lifecycle.go:304-311 | Clears everything |
| `Throughput.ActionsParse` | connectivity/throughput/controller.go:17-69 | Every run's actions follow the grammar: Explore, then at most one Sample, at most one Settle, then exactly one verdict, which before the sample can only be Abandon |
| `Throughput.TrialEndsInTime` | connectivity/throughput/trial.go:22-105 | Any step at or after sample start plus lifetime plus settlement window ends the trial |
| `Throughput.KeepIsEarned` | connectivity/throughput/trial.go:107-124 | A path is kept only on representative work, over a full window, with both rates above the baseline by their gains |
| `Throughput.ExploreIsJustified` | connectivity/throughput/controller.go:41-68 | A trial is opened only after a full window of demand and progress the consumer kept up with, with nothing pending and a place free, and outside any backoff, except that of an inconclusive trial about other paths |
| `Throughput.TrialJudgesItsPath` | connectivity/throughput/trial.go:126-149 | Only a path unknown when the trial began is sampled, and every verdict names that path |
| `Throughput.InconclusiveBackoffDoubles` | connectivity/throughput/retry.go:22-32 | Inconclusive trials back off 15, 30, then 60 seconds |
| `Throughput.StepKeeps` | connectivity/throughput/controller.go:17-84 | One step, from any consistent controller, stays in the grammar |
| `ThroughputController.TrialController.Step` | connectivity/throughput/controller.go:17-69 | The new fields and the decision are the specified ones, and the action fits the grammar |
| `ThroughputController.TrialController.AdvanceTrial` | connectivity/throughput/trial.go:22-81 | Advances as specified; no rate or work difference can underflow |
| `ThroughputController.TrialController.SettleTrial` | connectivity/throughput/trial.go:83-105 | Settles or ends as specified |
| `ThroughputController.TrialController.EvaluateTrial` | connectivity/throughput/trial.go:107-124 | Judges as specified |
| `ThroughputController.TrialController.AwaitTrialPath` | connectivity/throughput/trial.go:126-149 | Samples the first new optional path |
| `ThroughputController.TrialController.RearmExploration` | connectivity/throughput/retry.go:10-20 | Forgets the backoff when the situation changed |
| `ThroughputController.TrialController.EndTrial` | connectivity/throughput/controller.go:76-84 | Ends as specified |
| `ThroughputController.TrialController.EndInconclusiveTrial` | connectivity/throughput/retry.go:22-32 | Remembers the backoff |
| `ThroughputController.SplitPaths` | connectivity/throughput/trial.go:27-37 | Finds the last path of that identity and lists all others |
| `ThroughputController.CheckSamePaths` | connectivity/throughput/contract.go:89-99 | Equal length and every member present |
| `ThroughputController.FindNewestOptional` | connectivity/throughput/contract.go:100-107 | The last optional path |
| `ThroughputController.FindNewPath` | connectivity/throughput/trial.go:128-144 | The first optional path unknown to the trial |
| `ControlMailbox.CoalescingRefinesQueue` | connectivity/turnpath/control_mailbox.go:34-117 | For any interleaving of puts, wake-ups and takes, what was taken and what is queued together give the receiver the inventory owner, revision and profiles of the uncoalesced messages, and every command once, in order, and at the inventory it would have met without coalescing |
| `ControlMailbox.NewerStandsForBoth` | connectivity/turnpath/receiver.go:124-147 | Of two adjacent snapshots of one owner the newer alone has the effect of both, on the inventory and on what every command meets |
| `ControlMailbox.CommandsAreFifo` | connectivity/turnpath/control_mailbox.go:34-135 | Commands come out first in, first out at every moment, even if the mailbox is closed |
| `ControlMailbox.MailboxIsAttended` | connectivity/turnpath/control_mailbox.go:102-124 | At most 32 messages are queued, and while any is, a wake token waits or a consumer is about to take |
| `ControlMailbox.BlockedUntilSignalled` | connectivity/turnpath/control_mailbox.go:46-64 | A blocked writer stays blocked until the signal it sampled fires |
| `ControlMailbox.Mailbox.Put` | connectivity/turnpath/control_mailbox.go:34-65 | One attempt to put is accepted, blocked or refused as specified |
| `ControlMailbox.Mailbox.ReplaceInventory` | connectivity/turnpath/control_mailbox.go:85-100 | Replaces the last snapshot in place |
| `ControlMailbox.Mailbox.Take` | connectivity/turnpath/control_mailbox.go:102-117 | Hands out the oldest message and re-arms the wake token |
| `ControlMailbox.Mailbox.Close` | connectivity/turnpath/control_mailbox.go:126-135 | Discards once |
| `CandidateBudget.ReserveIsKept` | connectivity/icepolicy/candidates.go:49-89 | In every run with a limit of at least 12, sent plus all places owed to the classes fit the limit |
| `CandidateBudget.ScarceClassIsAccepted` | connectivity/icepolicy/candidates.go:69-80 | A fresh valid candidate covering a class with fewer than two accepted ones is never turned away |
| `CandidateBudget.AcceptedAreDistinct` | connectivity/icepolicy/candidates.go:61-68 | Accepted candidates are distinct and number at most the limit |
| `CandidateBudget.CountersCount` | connectivity/icepolicy/candidates.go:81-85 | The class counters count the accepted candidates covering the class |
| `CandidateBudget.SmallLimitHasNoReserve` | connectivity/icepolicy/candidates.go:70-76 | Below 12 only the limit itself holds a fresh candidate back |
| `CandidateBudget.AcceptPays` | connectivity/icepolicy/candidates.go:81-85 | An accepted candidate pays one place of every class it covers |
| `CandidateBudget.Budget.Offer` | connectivity/icepolicy/candidates.go:49-89 | Accepts or refuses as specified and keeps the reserve |
| `CandidateBudget.Budget.MeasureReserve` | connectivity/icepolicy/candidates.go:69-76 | The loop sums what is owed to uncovered classes |
| `SourceReference.NewSucceeds` | osfs/source_reference.go:30-38 | Creation succeeds on exactly the valid slots and paths |
| `SourceReference.ParseInvertsNew` | osfs/source_reference.go:64-78 | Parsing gives back the slot and path that were encoded |
| `SourceReference.NewInvertsParse` | osfs/source_reference.go:56-78 | Every reference that parses is the one its location encodes to |
| `SourceReference.ChildAgrees` | osfs/source_reference.go:42-54 | For every parsed parent and single-component name the incremental constructor equals full validation of the joined path, reference included |
| `SourceReference.ChildAgreesExactly` | osfs/source_reference.go:42-54 | For all names: the two constructors part exactly on the empty name at the root and on a name that is itself a valid path of several components that still fits |
| `SourceReference.ChildDisagrees` | osfs/source_reference.go:42-54 | Both exceptions are real: at the root the empty name and a two-component name are no child, yet full validation accepts them |
| `SourceReference.ChildParses` | osfs/source_reference.go:42-78 | A child's reference parses to the parent's slot and the joined path |
| `SourceReference.SplitJoin` | osfs/source_reference.go:80-94 | A separator splits the components before it from those after it |
| `SourceReference.SplitCounts` | osfs/source_reference.go:42-54 | The component count is the separator count plus one |

## Left out

- Network I/O, sockets, DTLS, SCTP, STUN and TURN traffic: opening something succeeds or fails as an input.
- Context cancellation delivery, goroutine scheduling and which contexts get canceled: only the locked state is modelled, and cancellation is an operation or an input.
- Diagnostics, observers, tracing and error texts: results are the error's kind, not its wording.
- Floating-point and nanosecond rounding: tokens, rates and delays are exact reals.
- Parsing of ICE candidate lines: the deduplication key and the dimensions are inputs.
- Gateway and account protocols: a reply is an input, and whether a mapping exists at the gateway beyond what its reply says is not claimed.
- The retired-path table of `turnpath` and its 128 entries: it only blocks repeated identities, which are fresh here.
- Transport choice and rate comparison in `turnpath/selection.go`: whether an evaluation is due or won is an input; the slots it may take are modelled.
- The receiver's path table in `turnpath/receiver.go`: only its inventory owner, revision and profiles follow the mailbox; a skipped snapshot also skips the retirements it alone would have caused.
- Resource deadlines in `prepareResources` of `v2peer/phase.go`: they cancel a context and never touch the lifecycle state.
- Optional socket holdings in native admission (`yieldOptionalLocked`): they change later answers of the socket authority, which are inputs.
- Identity, lease, reservation, permit, claim and worker objects are rows of tables named by identity instead of heap objects; nothing about aliasing of those objects is claimed.
- Blocking waits are not held open: a call that would wait returns that it must wait, and is made again.
- TurnSenderRuns.SenderIsSound: assumes that an inventory lists an identity once, as `engine/internal/turnruntime/configuration.go:53-55` enforces, and that the two clock readings inside one step do not run backwards.
- ReceiverTermination.PublishedAfterBothEnded: assumes that no Receive starts while another runs, which is how the operation is used; `OneReceiverIsNeeded` shows that this is needed.
- ReachabilityAuthority.Authority.Receive: a renewal's reply is taken to be about the mapping that was renewed, whatever resource identifier it carries.
- PeerAdmission.ResultOwnsTerminal: takes from core that its result says whether settlement began, and that it asks at most once.
- NativeAdmissionProofs.DrainIsSound: relayed attempts cost no STUN endpoints, as `connectivity/nativepeer/preparation.go:104-107` computes.
- SocketAuthorityObject.Authority.StartIdle: the validation of server lists and deadlines before the lock is not modelled.
- ReplayHandler.Handler.StartAttempt: whether the native layer retired the path is an input, and the turn lookup before the lock is not modelled.
- Throughput.KeepIsEarned: the reason strings and reported rates of a decision are not modelled.
- Everything outside the files named in the table: engines, adapters, command line, web and desktop front ends.
