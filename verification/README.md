# A verified model of the LLM Manager and the Agent Runtime Manager

This project models, in Dafny, the stateful parts of a small fleet manager: a service that keeps GPU telemetry, the
model registry and the placement of inference hosts in a PostgreSQL database (`service/app`), and the Agent Runtime
Manager (ARM), which clones, starts, stops and destroys virtual machines on a Proxmox cluster
(`server_manager/agent_runtime_manager`).

Each component has the same three layers. *Specification functions* say what one operation does to the tables; what
the outside world answers (Proxmox, Kea, a probe, a query, the clock) is an argument, and any call may raise, before or
after it took effect. *Classes* hold the tables as mutable fields, with the loops and updates of the original, and every
method is proved to compute its specification function. *Lemmas* about the functions prove what holds over every input
and every run.

## Components

- **Telemetry retention** (`Retention`, `RetentionRuns`). Raw samples, the hourly rollup, the chunked backfill, the prune
  gates and the batched prune. A history remembers every sample ever ingested; the hourly table stays its aggregate
  although the raw rows go. Time is in microseconds, the resolution of the column.
- **ARM lifecycle** (`Fleet`, `Proxmox`, `Placement`, `Reconciliation`, `Provisioning`, `ArmApi`, wired in `Manager`; what
  single operations promise in `ArmLaws`, `RouteLaws`, `Convergence`; runs in `Lifecycle`, `LifecycleRuns`,
  `LifecycleTheorems`, `RecoveryBound`, `RecoveryIncidents`, `Lifetimes`, `Fairness`). One state machine
  whose steps are submit, run a job, reconcile a row, expire a row, set the desired state, supersede, destroy, extend a
  lifetime, and an arbitrary change of the Proxmox inventory from outside. A log interleaves audit events and provider
  calls, each call with the VM it met and the reservation table at that moment.
- **Sandbox addresses** (`SandboxNetwork`, `SandboxLaws`; from a job to its destroy in `SandboxRuntimes`). Allocation,
  reservation, verification and release in a table shared with reservations of others.
- **Inference recovery** (`RecoveryEngine`; how often in `RecoveryRate`, for whom in `RecoveryService`) and **registry to gateway** (`Registry`, `Gateway`).
- **Active placement** (`ActiveDeployments`): readers and writers in several processes, each with its cache, step by step.
- **Spend guard** (`SpendGuard`) and **preset ordering** (`Presets`).
- `Wrappers`, `Sets`, `Sequences`, `Traces`, `ProvisioningFacts` hold shared types and helper lemmas.

## Where the code and its documentation differ

The model follows the code.

- The spend guard says it fails closed when caps cannot be read. Unreadable caps become None, None is not enforced, and
  the empty answer is cached for 30 seconds (`SpendGuard.UnreadableCapsOpenTheGate`). Unreadable spend does fail closed;
  `SpendGuard.UnreadableCapsExactly` says when unreadable caps do.
- The cloud-init config is posted to the template's node. A job placed elsewhere always fails at that step, so a VM that a
  row knows is on the template's node (`LifecycleTheorems.VmOnTemplateNode`). With the preferred node online, every
  unpinned runtime with a template elsewhere fails (`Convergence.OffTemplateAlwaysFails`; exact condition in
  `Convergence.DoneExactly`).
- The address allocator probes once. If its first candidate was an unreserved address, later ones are handed out unprobed
  (`SandboxNetwork.LiveAddressHandedOut`; the exact condition is `SandboxNetwork.AllocationLiveness`).
- The backfill is called a full-history backfill. It leaves out the newest sample for the end points named by
  `Retention.MissesNewest`, and for no others; a lone sample is the smallest case (`Retention.LoneSampleMissed`).
- A backfill can replace a complete hourly row by a partial one: after a prune whose cutoff is inside an hour
  (`RetentionRuns.UnalignedPruneThenBackfill`), and with nothing pruned when it stops on a newest sample inside its hour
  (`RetentionRuns.NewestSampleSplit`). `RetentionRuns.BackfillExactly` gives the exact condition row by row.
- Recovery attempts of the reconciler are bounded for each stretch in which the runtime stays wanted up, not for each
  incident: nothing resets the counter once the runtime was seen running (`RecoveryBound.StretchIsBounded`). A start is
  asked for iff the counter is below the maximum (`RecoveryIncidents.StartExactly`), so after that many recovered
  incidents the next one gets none (`RecoveryIncidents.NextIncidentUnattended`).
- The service restart cooldown constant is 15 minutes; what the code enforces is 3 minutes
  (`RecoveryRate.RestartsThreeMinutesApart`; exact condition in `RecoveryRate.RestartsUnlessExhausted`).
- A recovery start whose audit insert fails is not counted. What is recorded stays limited
  (`RecoveryRate.RecordedRateLimited`), what is sent does not (`RecoveryRate.UnloggedStartsUnlimited`); a third start is
  sent iff fewer than two are on record (`RecoveryRate.ThirdStart`).
- A model that a host no longer reports keeps its routable flag, so a host that should not be routed can stay in the
  gateway configuration (`Gateway.UnroutableHostUnlisted` gives the exact condition).
- A partial reorder of presets can leave ties in `sort_order` (`Presets.OneMovedTies`; exact condition in
  `Presets.ReorderTies`).

## Model

| member | source | states |
|---|---|---|
| Retention.BucketMeaning | service/app/gpu_retention.py:75-103 | an hourly row holds the count, min, max, avg and sum of exactly the non-NULL values of its group, and its newest timestamp |
| Retention.RollupAt | service/app/gpu_retention.py:75-111 | the upsert writes the row of a key iff the window holds raw samples of that key; an hour without raw rows keeps its old row |
| Retention.RollupSplit | service/app/gpu_retention.py:147-164 | two adjacent windows that meet on an hour boundary, rolled up one after the other, equal one rollup over both |
| Retention.BackfillCoversNewest | service/app/gpu_retention.py:147-164 | the backfill loop passes the newest raw sample iff its end points are not in the named family; otherwise it stops exactly on it |
| Retention.LoneSampleMissed | service/app/gpu_retention.py:147-164 | the smallest case: a first backfill of a single sample writes nothing |
| Retention.BatchKeepsSurvivors | service/app/gpu_retention.py:318-326 | deleting a bounded batch never removes a row at or after the cutoff |
| Retention.GpuStore.CmdRollup | service/app/gpu_retention.py:114-134 | the hourly table becomes the rollup of the hour-aligned three-hour window, nothing else changes |
| Retention.GpuStore.CmdBackfill | service/app/gpu_retention.py:137-170 | the chunked loop terminates and leaves the table of one single rollup over the whole range |
| Retention.GpuStore.PruneGates | service/app/gpu_retention.py:241-268 | the gates pass iff the table exists and is not empty, it starts no later than the raw rows, and a backup is on record |
| Retention.GpuStore.CmdPrune | service/app/gpu_retention.py:301-334 | with the gates passed the raw table ends as exactly the rows from the cutoff on, whatever the batches; raw rows disappear only with a recorded backup and hourly rows that start no later than the raw ones |
| Retention.GpuStore.CmdMaintenance | service/app/gpu_retention.py:337-355 | rollup, then exactly the hourly rows before the retention cutoff are dropped |
| Retention.GatesExactly | service/app/gpu_retention.py:241-268 | a prune is let through iff the table exists, is not empty, has for every raw row an hourly row no later than it, and a backup is recorded |
| Retention.IncrementalExactly | service/app/gpu_retention.py:114-134 | the incremental rollup writes the aggregates of the raw rows between the start of the hour three hours ago and five minutes from now, and no other row |
| RetentionRuns.Perform | service/app/gpu_retention.py:114-355 | every event of the runs below is a call of the store that leaves its tables as the history says |
| RetentionRuns.BackfillSettles | service/app/gpu_retention.py:137-170 | a first backfill makes the row of every group it covers whole the aggregate of all samples ever ingested for it; every closed hour is settled, or, when the newest sample is left out, every hour before that sample's |
| RetentionRuns.RollupsStayExact | service/app/gpu_retention.py:75-170 | in every run of ingest, rollups at most 3 h apart, prunes with at least a day of raw retention, maintenance, settings changes and further backfills that split no hour rolled up by then, the row of every hour rolled up after it closed equals the aggregate of all samples ever ingested for it, pruned or not |
| RetentionRuns.MissedForGood | service/app/gpu_retention.py:114-134 | once the window has passed an hour, no run without a backfill changes its row again |
| RetentionRuns.LongGapMisses | service/app/gpu_retention.py:114-134 | three hours is tight: for every larger gap there is a run that loses an hour, whatever follows short of a backfill |
| RetentionRuns.BackfillExactly | service/app/gpu_retention.py:137-170 | after a backfill, on any tables, a row is the aggregate of all samples ever ingested for it iff the backfill covers all of them, or covers none and the row was right before; a sample is covered unless it was pruned or is the newest one in a backfill that stops on it |
| RetentionRuns.BackfillKeepsExactly | service/app/gpu_retention.py:137-170 | in a run, a backfill keeps every rolled-up hour exact iff it splits none of them between covered and uncovered samples |
| RetentionRuns.AlignedPruneIsSafe | service/app/gpu_retention.py:311-326 | with hour-aligned cutoffs and a backfill that reaches the newest sample, no hour is split |
| RetentionRuns.UnalignedPruneThenBackfill | service/app/gpu_retention.py:311-326 | a concrete unaligned prune and backfill that turn a right row over two samples into one over one |
| RetentionRuns.NewestSampleSplit | service/app/gpu_retention.py:147-164 | a concrete table, nothing pruned, whose newest sample is exactly a day after the first: the backfill turns a right row over two samples into one over one |
| SandboxNetwork.MacNormIdempotent | server_manager/agent_runtime_manager/services/sandbox_network.py:59-64 | normalising a MAC twice is normalising it once |
| SandboxNetwork.AllocationIsSafe | server_manager/agent_runtime_manager/services/sandbox_network.py:305-343 | allocation fails only if every pool address is foreign-reserved, leased or alive; otherwise it gives the lowest address not skipped, in the pool, not foreign, not leased, with a uuid iff it is a tagged reservation |
| SandboxNetwork.AllocationLiveness | server_manager/agent_runtime_manager/services/sandbox_network.py:318-343 | the address handed out is alive iff the first candidate was unreserved and alive and the next candidate is alive too |
| SandboxNetwork.LiveAddressHandedOut | server_manager/agent_runtime_manager/services/sandbox_network.py:318-343 | two free live addresses: the second is handed out |
| SandboxNetwork.ReserveSafe | server_manager/agent_runtime_manager/services/sandbox_network.py:346-361 | whatever call fails, reserving leaves foreign entries and all other addresses untouched and addresses unique; on success a tagged reservation pins the normalised MAC to the address |
| SandboxNetwork.CycleSafe | server_manager/agent_runtime_manager/services/provisioning.py:336-353 | a whole allocate, reserve, verify cycle disturbs no foreign entry and no other address; a completed one holds one tagged reservation for the requested MAC at a pool address that was not foreign |
| SandboxNetwork.AllocationSucceedsExactly | server_manager/agent_runtime_manager/services/sandbox_network.py:305-343 | allocation succeeds iff the pool has a candidate that its one probe finds silent or does not reach |
| SandboxNetwork.CycleExactly | server_manager/agent_runtime_manager/services/provisioning.py:336-353 | a cycle succeeds iff the lists can be read, the pool has an address left, the MAC is valid and the calls that the chosen address needs return |
| SandboxNetwork.ReleaseSafe | server_manager/agent_runtime_manager/services/sandbox_network.py:369-377 | release removes the tagged reservation of its address or nothing, and refuses a foreign one |
| SandboxLaws.NormalForm | server_manager/agent_runtime_manager/services/sandbox_network.py:59-64 | the normal form drops the blanks around a MAC, lowers its letters and turns dashes into colons |
| SandboxLaws.ValidExactly | server_manager/agent_runtime_manager/services/sandbox_network.py:59-64 | a MAC is accepted iff it is six pairs of hex digits between colons or dashes |
| SandboxLaws.AllocationPolicy | server_manager/agent_runtime_manager/services/sandbox_network.py:305-343 | stated on the table itself: an address given is in the pool, held by nobody else and not leased, with the uuid of our own reservation if there is one; every lower address is held by others, leased or alive, and if none is given all are |
| SandboxLaws.CycleLeaves | server_manager/agent_runtime_manager/services/provisioning.py:336-353 | what a completed cycle leaves: nothing new if we held the address for that MAC, else one reservation with that MAC, host name and description |
| SandboxLaws.ReleaseExactly | server_manager/agent_runtime_manager/services/sandbox_network.py:369-377 | a release whose calls return removes the reservation of the address and no other, or refuses somebody else's |
| SandboxLaws.CycleErrors | server_manager/agent_runtime_manager/services/sandbox_network.py:305-367 | why a cycle fails: the lists or a call, an exhausted pool, or an invalid MAC |
| SandboxRuntimes.DoneSandboxHeld | server_manager/agent_runtime_manager/services/provisioning.py:321-369 | a sandbox whose job ended DONE records the address, uuid and MAC of one tagged reservation in the table, at a pool address, for the MAC on its NIC; a new one carries the runtime's host name, request and agent, and reservations of other addresses are the same |
| SandboxRuntimes.DestroyReleases | server_manager/agent_runtime_manager/api/v1.py:319-335 | an accepted destroy whose release returns removes exactly the reservation the row records |
| SandboxRuntimes.AddressRoundTrip | server_manager/agent_runtime_manager/api/v1.py:288-338 | a sandbox provisioned and destroyed leaves the reservation table as it was, but for the address it had |
| SandboxNetwork.KeaClient.CreateReservation | server_manager/agent_runtime_manager/services/sandbox_network.py:242-251 | adds one reservation with the normalised MAC iff the call took effect |
| SandboxNetwork.KeaClient.DeleteReservation | server_manager/agent_runtime_manager/services/sandbox_network.py:253-257 | removes the reservation with that uuid iff the call took effect |
| SandboxNetwork.SandboxNetworkService.Allocate | server_manager/agent_runtime_manager/services/sandbox_network.py:305-343 | the loop with its lazily computed, once-only liveness set computes the specified allocation |
| SandboxNetwork.SandboxNetworkService.ReserveForMac | server_manager/agent_runtime_manager/services/sandbox_network.py:346-361 | keeps a matching reservation, replaces a stale one, creates a missing one |
| SandboxNetwork.SandboxNetworkService.VerifyReserved | server_manager/agent_runtime_manager/services/sandbox_network.py:363-367 | fails unless the address is in the reservation table |
| SandboxNetwork.SandboxNetworkService.ReleaseAddress | server_manager/agent_runtime_manager/services/sandbox_network.py:369-377 | deletes only a tagged reservation |
| Placement.WorkerCountsByNode | server_manager/agent_runtime_manager/services/placement.py:48-61 | the dictionary built row by row holds, for every node, the number of rows placed there |
| Placement.InferenceWorkerCountsByNode | server_manager/agent_runtime_manager/services/placement.py:64-77 | the same for inference classes |
| Placement.SelectNode | server_manager/agent_runtime_manager/services/placement.py:90-158 | filtering, scoring and sorting the provider's list computes the selection that the rows below pin down |
| Placement.SelectIsBest | server_manager/agent_runtime_manager/services/placement.py:90-158 | for unpinned classes the result is the best eligible node by score, template affinity and name, and a rejection iff none is eligible; `Placement.ScoredHow` and `Placement.LeastLoadedWins` say what the score is |
| Placement.PlacedWhere | server_manager/agent_runtime_manager/services/placement.py:80-158 | a pinned class goes to its template's node, any other to a node listed as online, never to an excluded one |
| Placement.ScoredHow | server_manager/agent_runtime_manager/services/placement.py:120-158 | the score reported is 100 for the preferred node, 20 less twice the load for a generic one, and 40 or -20 on an inference node, which then has no inference runtime if it gets one |
| Placement.RefusedWhen | server_manager/agent_runtime_manager/services/placement.py:90-158 | an unpinned runtime is refused iff every online node that is not excluded is an inference node with an inference runtime and the runtime is one too |
| Placement.LeastLoadedWins | server_manager/agent_runtime_manager/services/placement.py:147-158 | without the preferred node, a generic node that is chosen has the fewest runtimes of the generic candidates; ties go to the template, then to the first name |
| Placement.InferenceNodeFirst | server_manager/agent_runtime_manager/services/placement.py:130-158 | without the preferred node, an inference runtime goes to an inference node without one whenever there is such a candidate; ties as above |
| Placement.BestIsUnique | server_manager/agent_runtime_manager/services/placement.py:147-158 | at most one node is best |
| Placement.OrderDoesNotMatter | server_manager/agent_runtime_manager/services/placement.py:80-158 | the decision does not depend on the order, or repetitions, of the node list |
| Placement.InferenceNodeIsLastResort | server_manager/agent_runtime_manager/services/placement.py:120-158 | a general worker goes to an inference node only if the preferred node is offline and every online generic node has at least 20 workers |
| Placement.CapRespected | server_manager/agent_runtime_manager/services/placement.py:130-145 | an inference worker is sent to an inference node only while that node has none |
| Placement.TemplateChosenExactly | server_manager/agent_runtime_manager/services/placement.py:90-158 | a runtime that is not pinned goes to its template's node iff that node is eligible and no eligible node scores higher |
| Placement.PreferredWins | server_manager/agent_runtime_manager/services/placement.py:120-158 | while the preferred node is online it gets every runtime that is not pinned |
| Proxmox.MarkerRoundTrip | server_manager/agent_runtime_manager/providers/proxmox_vm.py:246-297 | the marker written at provisioning verifies for its own runtime and is refused for every other id |
| Proxmox.GeneratedMacIsValid | server_manager/agent_runtime_manager/providers/proxmox_vm.py:87-92 | a generated MAC is one the reservation service accepts |
| RouteLaws.MacsDiffer | server_manager/agent_runtime_manager/providers/proxmox_vm.py:87-92 | generated MACs share a vendor prefix and are equal only if their random bytes are |
| RouteLaws.MarkerTellsTruth | server_manager/agent_runtime_manager/providers/proxmox_vm.py:246-297 | the marker of a provisioned VM names its runtime, agent, request, node, VM id and template |
| ArmLaws.OwnershipExactly | server_manager/agent_runtime_manager/providers/proxmox_vm.py:246-281 | ownership is granted iff the VM is on that node, unprotected, of a row made here, and its description is an object with all marker keys, this runtime's id and a true created flag |
| Fleet.Cluster.StartVm | server_manager/agent_runtime_manager/providers/proxmox_vm.py:164-165 | one logged call; a VM on that node is on if the call took effect |
| Fleet.Cluster.ShutdownVm | server_manager/agent_runtime_manager/providers/proxmox_vm.py:167-175 | a clean shutdown, and a forced stop when it raises; fails only if both do |
| Fleet.Cluster.DestroyVm | server_manager/agent_runtime_manager/providers/proxmox_vm.py:177-188 | one logged call; that VM and no other is gone if the call took effect |
| Reconciliation.ReconciliationService.ExpireStaleSandboxes | server_manager/agent_runtime_manager/services/reconciliation.py:297-319 | the loop over the sandboxes whose deadline is past leaves none of them wanted, with one event each |
| Reconciliation.SweepExactly | server_manager/agent_runtime_manager/services/reconciliation.py:297-319 | the sweep writes exactly the rows it was told are overdue, logs one event for each and touches nothing else |
| Lifetimes.SweepDestroysOverdue | server_manager/agent_runtime_manager/services/reconciliation.py:297-319 | after a sweep a row is DESIRED_DESTROYED iff it was or is a sandbox whose expires_at is before now; every other row is the same |
| Lifetimes.DeadlineHonoured | server_manager/agent_runtime_manager/services/reconciliation.py:297-319 | in every run that does not extend the sandbox, no sweep up to its deadline touches it and every later one makes it unwanted |
| Lifetimes.ExtensionHonoured | server_manager/agent_runtime_manager/api/v1.py:397-422 | after an accepted extension at t, in every run until the next, no sweep up to t + 3600 times the clamped hours touches the sandbox and every later one ends it |
| Lifetimes.ExtensionExactly | server_manager/agent_runtime_manager/api/v1.py:397-422 | an extension is accepted iff the runtime is a sandbox |
| Lifetimes.FirstLifeHonoured | server_manager/agent_runtime_manager/services/provisioning.py:67-112 | a sandbox submitted at t is kept for the hours asked for, or the default, clamped alike |
| Reconciliation.ReconciliationService.WaitStopped | server_manager/agent_runtime_manager/services/reconciliation.py:117-124 | the state of the last poll of a loop that stops at the first stopped reading |
| Reconciliation.ReconciliationService.BringUp | server_manager/agent_runtime_manager/services/reconciliation.py:194-251 | the whole new state of a pass towards running: observe, refuse, give up after the maximum, or start and count |
| Reconciliation.ReconciliationService.BringDown | server_manager/agent_runtime_manager/services/reconciliation.py:254-282 | the whole new state of a pass towards stopped |
| Reconciliation.ReconciliationService.Reconcile | server_manager/agent_runtime_manager/services/reconciliation.py:138-192 | a pass: superseded and destroyed rows are skipped, an unknown power state is an error, exceptions are recorded, and the row is always stamped |
| Lifecycle.ReconcileIsPass | server_manager/agent_runtime_manager/services/reconciliation.py:138-295 | a pass changes only its row, keeps node, vmid and desired state, acts only on the runtime's own VM, never destroys, and stamps the row |
| ArmLaws.PassLogExactly | server_manager/agent_runtime_manager/services/reconciliation.py:138-295 | the exact log of every pass: a start is asked for only of the runtime's own stopped VM that is wanted up, below the maximum and after its audit, a stop only of one that is not |
| ArmLaws.PassRowExactly | server_manager/agent_runtime_manager/services/reconciliation.py:138-295 | the state, counter and fault every pass leaves on its row, as one table over power reading, desired state, ownership and answers |
| ArmLaws.PolledOff | server_manager/agent_runtime_manager/services/reconciliation.py:117-124 | a wait for a stop succeeds iff one of its readings is stopped |
| Provisioning.ProvisioningService.SubmitRequest | server_manager/agent_runtime_manager/services/provisioning.py:67-112 | a known request id changes nothing; a new one adds one absent runtime and one queued job |
| Provisioning.ProvisioningService.RecordStep | server_manager/agent_runtime_manager/services/provisioning.py:142-159 | upsert of a step row by its number |
| Provisioning.ProvisioningService.PlaceClone | server_manager/agent_runtime_manager/services/provisioning.py:240-297 | placement before the clone; every failing call stops there |
| Provisioning.ProvisioningService.WriteCloudInit | server_manager/agent_runtime_manager/services/provisioning.py:299-312 | two config writes to the template node, the second pinning a sandbox MAC |
| Provisioning.ProvisioningService.PinAddress | server_manager/agent_runtime_manager/services/provisioning.py:321-369 | the address gate of a sandbox: disabled or failing, the job raises before the boot; passed, the row records the reservation (`SandboxRuntimes.DoneSandboxHeld`) |
| Provisioning.ProvisioningService.StartAndCheck | server_manager/agent_runtime_manager/services/provisioning.py:371-392 | boot, guest address and hygiene gate |
| Provisioning.ProvisioningService.ProvisionVm | server_manager/agent_runtime_manager/services/provisioning.py:240-426 | the phases in sequence, stopping at the first that raises |
| Provisioning.ProvisioningService.Run | server_manager/agent_runtime_manager/services/provisioning.py:114-139 | only a queued job runs, and it ends DONE or FAILED with its row and event |
| RouteLaws.SubmitExactly | server_manager/agent_runtime_manager/services/provisioning.py:67-112 | a new request id makes one absent runtime with the fields asked for and one queued job without steps; a known one makes nothing |
| RouteLaws.DoneSteps | server_manager/agent_runtime_manager/services/provisioning.py:240-426 | a job that ends DONE has recorded each of its eight steps under its number and name, all done |
| ProvisioningFacts.ProvisionFacts | server_manager/agent_runtime_manager/services/provisioning.py:240-426 | wherever a job stops: at most one clone, step numbers a prefix of 1..8 with all earlier ones done, foreign reservations untouched, a sandbox started only on a pinned MAC |
| LifecycleRuns.RunJobEffect | server_manager/agent_runtime_manager/services/provisioning.py:114-139 | everything a job changes: of one row its state, VM and sandbox fields and the time stamp, one job, entries about its runtime only, one terminal event; a failed one leaves node and vmid as they were |
| ArmApi.ArmRoutes.PostDesiredState | server_manager/agent_runtime_manager/api/v1.py:219-235 | only the desired state of that row changes |
| ArmApi.ArmRoutes.PostSupersede | server_manager/agent_runtime_manager/api/v1.py:241-284 | refused for a row that has a VM, runs, is superseded already or would supersede itself |
| ArmApi.ArmRoutes.DeleteRuntime | server_manager/agent_runtime_manager/api/v1.py:288-338 | ownership, audit, stop, destroy, release, in that order; an exception leaves the row as it was |
| ArmApi.ArmRoutes.PostExtendTtl | server_manager/agent_runtime_manager/api/v1.py:397-422 | only sandboxes, and the hours are clamped to 1..max |
| RouteLaws.SetDesiredExactly | server_manager/agent_runtime_manager/api/v1.py:219-235 | setting the desired state changes that field, stamps the row and logs one event |
| RouteLaws.DesiredIsReached | server_manager/agent_runtime_manager/api/v1.py:219-235 | setting the desired state and a cooperative pass bring the VM there |
| RouteLaws.SupersedeExactly | server_manager/agent_runtime_manager/api/v1.py:241-284 | a runtime is superseded iff both are known and different and it has no VM, does not run and is not superseded |
| RouteLaws.DestroyLogExactly | server_manager/agent_runtime_manager/api/v1.py:288-338 | the exact log of every destroy, and a refusal iff the VM is not proven the runtime's own |
| Manager.Services.Perform | server_manager/agent_runtime_manager/api/v1.py:219-422 | every step of the state machine is one call of the services, and leaves the tables the step leaves |
| Convergence.PassConverges | server_manager/agent_runtime_manager/services/reconciliation.py:194-295 | a pass over a truthfully read runtime whose calls go through leaves VM and row in the desired state, without error, and no other VM changed |
| Convergence.ConvergedStays | server_manager/agent_runtime_manager/services/reconciliation.py:194-295 | a further pass over a converged runtime makes no call and only stamps the row |
| Convergence.DoneExactly | server_manager/agent_runtime_manager/services/provisioning.py:114-139 | a queued job ends DONE iff the template's node is pinned or eligible with no higher score, the pool has an address if one is needed, and every call goes through; the inventory then has exactly one more VM, running, marked and, for a sandbox, pinned |
| Convergence.OffTemplateAlwaysFails | server_manager/agent_runtime_manager/providers/proxmox_vm.py:141-162 | while the preferred node is listed online, a job of an unpinned class whose template is on another node always ends FAILED |
| Convergence.DestroyExactly | server_manager/agent_runtime_manager/api/v1.py:288-338 | a destroy is accepted iff the VM is the runtime's own, a stop and the destroy return; then exactly that VM is gone, otherwise the row is unchanged |
| LifecycleRuns.RunKeeps | server_manager/agent_runtime_manager/services/reconciliation.py:138-282 | every run of every step keeps the lifecycle invariant |
| LifecycleTheorems.VmExactlyWhenUp | server_manager/agent_runtime_manager/services/provisioning.py:114-139 | in every reachable state a runtime has node and vmid iff it is RUNNING or STOPPED |
| LifecycleTheorems.VmOnTemplateNode | server_manager/agent_runtime_manager/providers/proxmox_vm.py:141-162 | in every reachable state a runtime with a VM has it on its template's node |
| LifecycleTheorems.TraceSafety | server_manager/agent_runtime_manager/services/reconciliation.py:126-131 | in every run each start or stop by the reconciler and each stop or destroy by the API meets an existing, unprotected VM marked for exactly that runtime; the reconciler never destroys |
| LifecycleTheorems.SandboxStartsPinned | server_manager/agent_runtime_manager/services/provisioning.py:321-376 | in every run a sandbox is started by its job only when a tagged reservation for the MAC on its NIC is in the table |
| LifecycleTheorems.OneClonePerRequest | server_manager/agent_runtime_manager/services/provisioning.py:67-112 | in every reachable state one request id has one runtime and at most one clone call |
| LifecycleTheorems.JobsEndOnce | server_manager/agent_runtime_manager/services/provisioning.py:114-159 | in every reachable state a job that left the queue is DONE or FAILED with exactly one terminal event, its steps a prefix of 1..8 with all earlier ones done; a failed one has no VM on its row |
| LifecycleTheorems.OneInferenceWorkerPerNode | server_manager/agent_runtime_manager/services/placement.py:130-145 | in every reachable state an inference node has at most one inference-class runtime |
| LifecycleTheorems.ForeignReservationsUntouched | server_manager/agent_runtime_manager/services/sandbox_network.py:346-377 | no run of the whole manager changes a foreign reservation, and addresses and uuids stay unique |
| LifecycleTheorems.RetiredForGood | server_manager/agent_runtime_manager/api/v1.py:218-316 | a destroyed runtime, or one superseded after its job ended, never regains a VM and causes no provider call again, even if its desired state is set back to running |
| RecoveryBound.StartsAreBounded | server_manager/agent_runtime_manager/services/reconciliation.py:194-251 | over every run the counter stays in 0..max and counted starts are at most max times one more than the resets, less the initial counter |
| RecoveryBound.StretchIsBounded | server_manager/agent_runtime_manager/services/reconciliation.py:194-274 | while a runtime stays wanted up at most max starts return, and only max less the counter if it is already up |
| RecoveryIncidents.StartExactly | server_manager/agent_runtime_manager/services/reconciliation.py:194-251 | a pass over a stopped, owned, wanted-up runtime asks for a start iff its counter is below the maximum |
| RecoveryIncidents.NextIncidentUnattended | server_manager/agent_runtime_manager/services/reconciliation.py:194-251 | in every configuration there is a reachable state, after as many recovered incidents as the maximum, in which the runtime's own VM is down, wanted up, and no pass ever starts it |
| Fairness.SelectionExists | server_manager/agent_runtime_manager/services/reconciliation.py:325-330 | the oldest-first, limited selection has an answer for every table |
| Fairness.ReconcileLoop.ReconcileAll | server_manager/agent_runtime_manager/services/reconciliation.py:321-335 | the sweep, then one pass over each selected row in turn |
| Fairness.PassWrites | server_manager/agent_runtime_manager/services/reconciliation.py:321-335 | a call stamps every row it selected, makes expired sandboxes unwanted, and writes no other row |
| Fairness.PassIsRound | server_manager/agent_runtime_manager/services/reconciliation.py:321-335 | a call with nothing in between is a round of the schedules below |
| Fairness.StepStamps | server_manager/agent_runtime_manager/models/orm.py:104 | every step that writes a row moves its updated_at |
| Fairness.NobodyStarves | server_manager/agent_runtime_manager/services/reconciliation.py:321-335 | a row nothing else writes, with k eligible rows no younger than it ahead, is selected within floor(k / limit) + 1 calls, whatever happens to other rows in between |
| RecoveryEngine.Engine.ReadCount | service/app/v011_recovery.py:73-91 | the count of matching events younger than the window; 99 without a database |
| RecoveryEngine.Engine.StartVm | service/app/v011_recovery.py:94-110 | the whole new state of a bounded VM start |
| RecoveryEngine.Engine.RestartService | service/app/v011_recovery.py:113-130 | the whole new state of a bounded service restart, with its double cooldown read |
| RecoveryEngine.Engine.RunTick | service/app/v011_recovery.py:146-184 | one tick over the host snapshot; an exception ends it, and nothing else does (`RecoveryService.DownHostServed`) |
| RecoveryRate.RateLimited | service/app/v011_recovery.py:94-130 | in every run that records the starts (or restarts) it sends to a host, any 30 minutes hold at most two of them, and restarts are at least 3 minutes apart, whatever the table held before and whatever inserts about other hosts or of other kinds are lost |
| RecoveryRate.RecordedRateLimited | service/app/v011_recovery.py:94-130 | in every run, with no hypothesis on inserts, any 30 minutes hold at most two recorded starts and two recorded restarts per host, recorded restarts are at least 3 minutes apart, and all of it was sent |
| RecoveryRate.ThirdStart | service/app/v011_recovery.py:94-101 | in every state a run reaches, at most two of the starts of the last 30 minutes are recorded, and one more is sent iff fewer than two are |
| RecoveryRate.HandsOff | service/app/v011_recovery.py:164-184 | no host that is unmanaged or intentionally stopped in the snapshot is acted on; a restart needs an unhealthy probe and no maintenance |
| RecoveryService.DownHostServed | service/app/v011_recovery.py:164-184 | whatever the hosts before it are, as long as none of their calls raises, a managed host wanted up and found down is powered on in its turn iff fewer than two recorded starts of it are younger than 30 minutes |
| RecoveryService.UnhealthyHostServed | service/app/v011_recovery.py:164-184 | likewise a running, unhealthy host not in maintenance is restarted iff fewer than two recorded restarts are younger than 30 minutes and one of two looks at the last 3 minutes finds none |
| RecoveryService.RaiseEndsTick | service/app/v011_recovery.py:94-110 | a count or power call that raises ends the tick at that host |
| RecoveryService.TickEnds | service/app/v011_recovery.py:146-184 | a tick does nothing without probe results or hosts, and ends at the first status call that raises |
| RecoveryService.HostNoted | service/app/v011_recovery.py:164-184 | which event a tick records first about each managed host, and about which it records none |
| RecoveryService.StartWaits | service/app/v011_recovery.py:94-110 | a start is recorded before it is sent and then waited for in at most forty polls, whose first healthy answer is recorded |
| RecoveryService.RestartWaits | service/app/v011_recovery.py:113-130 | so is a restart, in sixty |
| RecoveryRate.StartsUnlessExhausted | service/app/v011_recovery.py:94-101 | with a readable table a VM is powered on iff fewer than two recorded starts are younger than 30 minutes |
| RecoveryRate.RestartsUnlessExhausted | service/app/v011_recovery.py:113-127 | with a readable table a service is restarted iff fewer than two recorded restarts are younger than 30 minutes and one of the two looks at the last 3 minutes finds none |
| RecoveryRate.RestartsThreeMinutesApart | service/app/v011_recovery.py:113-127 | a run with every insert recorded that restarts a service twice, 180 seconds apart |
| RecoveryRate.UnloggedStartsUnlimited | service/app/v011_recovery.py:44-70 | when inserts fail, n ticks send n starts in the same second |
| Registry.ModelRegistry.SyncRegistry | service/app/v011_core.py:233-334 | the nested loops and the alias rebuild compute the synced table that the next rows describe |
| Registry.SyncedAt | service/app/v011_core.py:249-297 | after a sync a reported model's row is routable iff its host answered a completion with ok, is wanted RUNNING and is MANAGED; a host that reports nothing has no routable row, and a row the probe does not mention is untouched |
| Registry.SyncedWellFormed | service/app/v011_core.py:299-328 | a sync keeps real rows with their hosts and aliases without one |
| Registry.AliasesSwitchedOff | service/app/v011_core.py:296-317 | with role aliases switched off a sync leaves none |
| Gateway.BuildModelList | service/app/litellm_sync.py:44-123 | the loops with their seen set build the local, alias and OpenRouter entries in that order |
| Gateway.SyncedAliases | service/app/v011_core.py:313-327 | after a sync exactly the aliases with a target exist, routable and healthy iff a real row of the target is routable |
| Gateway.EachRoutablePairOnce | service/app/litellm_sync.py:44-77 | after a sync each routable (model, host) pair is listed exactly once, under its own name |
| Gateway.AliasFollowsTarget | service/app/litellm_sync.py:79-103 | an alias is listed iff its target has a routable real row, and points at one of those backends |
| Gateway.PrimaryIsFirst | service/app/litellm_sync.py:79-103 | the backend of an alias is the first of the answer that serves its target |
| Gateway.EntryRate | service/app/litellm_sync.py:55-77 | after a sync the entry of a model that a host reports has 30 requests a minute on 10.0.20.165, which runs llama.cpp, and 300 elsewhere |
| Gateway.FallbackExactly | service/app/litellm_sync.py:105-123 | provider entries are listed iff the fallback is on |
| Gateway.UnroutableHostUnlisted | service/app/v011_core.py:249-297 | a host that reports nothing, fails its completion, is not wanted RUNNING or is not MANAGED is listed iff it reported other models while a row it no longer reports was left routable |
| Gateway.RoutableHostListed | service/app/litellm_sync.py:44-77 | a host that reports models, passes its completion, is wanted RUNNING and is MANAGED is listed for every model it reports |
| Gateway.StaleRowStaysRoutable | service/app/v011_core.py:270-285 | a concrete stale row that survives a sync of an unhealthy host |
| Gateway.GateMatchesGateway | service/app/v011_core.py:337-351 | routable_models reports a name iff the registry's part of the model list has an entry of that name |
| ActiveDeployments.PlacementCache.ActiveIpFor | service/app/active_deployments.py:80-107 | the uninterrupted call: its answer and the cache it leaves |
| ActiveDeployments.PlacementCache.SetActive | service/app/active_deployments.py:110-135 | the table row, then the entry of the own cache is dropped; neither if the write fails |
| ActiveDeployments.CallIsSteps | service/app/active_deployments.py:80-107 | the steps of the concurrent model, taken in a row, are the uninterrupted call |
| ActiveDeployments.FreshReadSeesWrite | service/app/active_deployments.py:80-135 | a call that finds no usable entry returns what was last written |
| ActiveDeployments.BoundedStaleness | service/app/active_deployments.py:80-107 | under any interleaving in any number of processes, a value returned by a call started at t was in the table, or a fallback when the table gave none, at some instant after t - 30 and no later than the return |
| ActiveDeployments.ReadsFollowWrite | service/app/active_deployments.py:80-135 | after set_active every call begun in the process from then on returns the new value, in all runs in which the table keeps it and can be read, iff no reader of that process and host holding another value began within the last 30 seconds |
| ActiveDeployments.RacingReaderSpoils | service/app/active_deployments.py:80-135 | from any state with such a reader there is a schedule in which a call begun after set_active returns the old value |
| SpendGuard.Guard.GetCaps | service/app/spend_guard.py:91-114 | cached caps for 30 seconds, whether or not they could be read |
| SpendGuard.Guard.GetSpend | service/app/spend_guard.py:117-133 | both sums, over the counted rows since their start |
| SpendGuard.Guard.PreCallHook | service/app/spend_guard.py:139-173 | the verdict of a request; local traffic passes and touches nothing |
| SpendGuard.StoppedExactly | service/app/spend_guard.py:91-173 | a gated request is stopped iff the spend cannot be read or a cap in force is reached: caps cached less than 30 seconds ago, else those just read, else none |
| SpendGuard.UnreadableCapsExactly | service/app/spend_guard.py:91-173 | with caps unreadable now, a gated request is stopped iff the spend is unreadable or a cap cached less than 30 seconds ago is reached |
| SpendGuard.VerdictExactly | service/app/spend_guard.py:139-173 | which answer a gated request gets: the month before the day, unreadable spend stops it, and one that passes is warned about iff it is at the threshold or above |
| SpendGuard.CapsStayInForce | service/app/spend_guard.py:91-114 | caps that were read decide for 30 seconds, however many requests come and whatever the settings say by then, and no longer |
| SpendGuard.GatedAndCounted | service/app/spend_guard.py:117-145 | which models are gated and which rows are counted, and that what is counted is gated |
| SpendGuard.DayStartExactly | service/app/spend_guard.py:117-133 | two times share the daily window iff they are on the same day |
| SpendGuard.OpenWhileUnreadable | service/app/spend_guard.py:91-114 | in every run in which the settings stay unreadable, the guard is open from 30 seconds after the last caps it had |
| SpendGuard.SpendIsBounded | service/app/spend_guard.py:91-173 | with readable fixed caps, at most K requests in flight and each costing at most c, what began in a day or a month comes to nothing or to less than cap + K c, in every run |
| SpendGuard.UnreadableCapsOpenTheGate | service/app/spend_guard.py:108-114 | after one failed read every request passes for 30 seconds, whatever was spent |
| Presets.PresetStore.LeastOrder | service/app/main.py:267-273 | MIN(sort_order) over the active presets of a host |
| Presets.PresetStore.TouchPreset | service/app/main.py:267-273 | an active preset goes below the least order and its use is counted |
| Presets.PresetStore.ListPresets | service/app/main.py:1770-1817 | the running unit is imported only into an empty list |
| Presets.PresetStore.CreatePreset | service/app/main.py:1843-1870 | the same content is reused, other content is put first |
| Presets.PresetStore.UsePreset | service/app/main.py:1886-1894 | only an active preset of the host is touched |
| Presets.PresetStore.DeletePreset | service/app/main.py:1946-1953 | a soft delete of an active preset of the host |
| Presets.PresetStore.ReorderPresets | service/app/main.py:1979-1983 | the loop over the positions computes the specified reorder |
| Presets.ReorderedAt | service/app/main.py:1979-1983 | each named active preset of the host gets its last position, nothing else changes |
| Presets.UsesAreCounted | service/app/main.py:1783-1983 | every route counts exactly the uses of a preset, deletes only by its flag, and never changes scope or content |
| Presets.NewPresets | service/app/main.py:1783-1870 | what a route adds: one preset created with one use, or imported with none into an empty list |
| Presets.StepRefines | service/app/main.py:1783-1983 | every route does to ORDER BY sort_order what the move-to-front list does |
| Presets.SortOrderIsMoveToFront | service/app/main.py:1783-1983 | in every run from an empty table, over any number of hosts, with full reorders, ORDER BY sort_order is the move-to-front list: no ties, no content twice |
| Presets.RunsKeepUnique | service/app/main.py:229-249 | every run, partial reorders included, keeps the unique index on active contents that creation relies on |
| Presets.OrderIsUnique | service/app/main.py:1783-1786 | the column determines the list |
| Presets.ReorderTies | service/app/main.py:1979-1983 | any reorder, partial or with repetitions, leaves no ties iff no position it writes is the order of a preset it does not name |
| Presets.OneMovedTies | service/app/main.py:1979-1983 | the smallest such tie: two presets at -1 and 0, and a reorder that names the first alone |

## Left out

- Each ARM route, job and reconcile pass is one atomic step; their database sessions interleave in the original. Passes of one reconcile_all call may be interleaved with other steps.
- Power readings of the reconciler are arbitrary, since they may be stale; the reads of the ownership check tell the truth when they get through. A change of the inventory between that check and the call it guards is not modelled.
- The guest address, the clone hygiene gate, storage checks and the clone lock are oracles that pass or raise.
- An address cycle is not a transaction: a reservation whose call raised after it took effect stays in the table, tagged; `SandboxNetwork.CycleSafe` says that nothing else changes.
- HTTP, SSH, sessions, authentication, CSRF and the Kea and Proxmox transport; exceptions other than the network service's own inside an address cycle are not told apart from them.
- Fairness.NobodyStarves: assumes a strictly increasing clock, because updated_at decides the order.
- Fairness.ReconcileLoop.ReconcileAll: the database's answers to the two queries are arguments, any answers that satisfy them.
- Reconciliation.ReconciliationService.BringUp: the back-off delay is not modelled, only its audit event; the poll after a start is not either, because it changes nothing.
- Proxmox.MarkerRoundTrip: the truncation of a description at 8190 characters is not modelled, because a marker is far shorter unless its own fields are very long.
- ArmApi.ArmRoutes.PostDesiredState: the request's state is one of the three known ones; an unknown name is an HTTP error before anything happens.
- The state-sync report and the read-only routes: they write or read columns that no other operation looks at, or nothing.
- SandboxLaws.NormalForm: the blanks dropped are space, tab, line feed and carriage return; Python's strip also drops the rarer ones.
- The state CANCELLED of a job is never set by the code and has no constructor.
- RetentionRuns.RollupsStayExact: times are those of one clock, and samples are ingested at the current time; a further backfill that splits a rolled-up hour is not part of these runs, `RetentionRuns.BackfillKeepsExactly` says what it does.
- Sampling verification, the dry run of a prune, and vacuuming of the telemetry tables: spot checks and housekeeping.
- Averages and sums of telemetry and amounts of money are exact numbers, not floating point.
- RecoveryEngine.Engine.RunTick: the time of an action is that of its audit insert, and the sleeps between polls are arbitrary delays.
- Registry.ModelRegistry.SyncRegistry: a sync that raises rolls back and is not a step; the power state and mode of a host are read once for its visit.
- Gateway.BuildModelList: the API keys, a function of the address alone, are left out; the order of an answer is arbitrary, so which backend an alias points at is any of them.
- SpendGuard.SpendIsBounded: the hook is one step and a request's start time is the time of its hook; with caps that change, or that cannot be read, the bound is not claimed.
- ActiveDeployments.BoundedStaleness: a fallback counts as its own source, as the module documents.
- Presets.SortOrderIsMoveToFront: in these runs a reorder names all presets of the host; for others `Presets.ReorderTies` says when ties appear. The 32-bit range of the column and concurrent routes are not modelled.
- The second copies of the same statements for the ORM, schema migrations, deployment scripts, web pages, the older agent manager, facility power, RDMA rendering and the fleet view: no state of their own, or the same state again.
