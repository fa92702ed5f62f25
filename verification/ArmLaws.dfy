/** What each operation of the Agent Runtime Manager does, in the terms of the tables: decision tables that hold for
    every state, and the log a call leaves. */
module ArmLaws {
  import opened Wrappers
  import opened SandboxNetwork
  import opened Fleet
  import opened Proxmox
  import opened Placement
  import opened Reconciliation
  import opened Provisioning
  import opened ArmApi
  import opened Lifecycle
  import opened LifecycleRuns
  import opened RecoveryIncidents
  import opened Convergence

  // ------------------------------------------------------------------ ownership

  /** The keys a marker must have. */
  predicate HasMarkerKeys(d: map<string, Json>) {
    && "server_runtime_id" in d && "acms_agent_id" in d && "provisioning_request_id" in d && "provider" in d
    && "node" in d && "vmid" in d && "created_by_agent_runtime_manager" in d && "created_at" in d && "template_source" in d
  }

  /** The VM is there, unprotected, on a row this manager created, and its description is an object that names this
      runtime, says it was created here, and has every key a marker must have. */
  predicate Proven(vms: map<int, VM>, node: string, vmid: int, id: Id, r: Row, protectedVmids: set<int>, answers: OwnershipReads) {
    && vmid !in protectedVmids && r.armCreated && answers.found && answers.config
    && vmid in vms && vms[vmid].node == node && vms[vmid].description.Object?
    && var d := vms[vmid].description.fields;
    && HasMarkerKeys(d) && d["server_runtime_id"] == JString(id)
    && d["created_by_agent_runtime_manager"] !in {JBool(false), JNull, JNumber(0), JString("")}
  }

  lemma KeysExactly(d: map<string, Json>)
    ensures HasMarkerKeys(d) <==> forall k :: k in OWNERSHIP_REQUIRED_KEYS ==> k in d
  {
  }

  lemma OwnershipExactly(vms: map<int, VM>, node: string, vmid: int, id: Id, r: Row, protectedVmids: set<int>, answers: OwnershipReads)
    ensures VerifyOwnership(vms, node, vmid, id, r, protectedVmids, answers) == Owned
       <==> Proven(vms, node, vmid, id, r, protectedVmids, answers)
  {
    if vmid in vms && vms[vmid].description.Object? {
      KeysExactly(vms[vmid].description.fields);
      assert CREATED_KEY == "created_by_agent_runtime_manager" && ID_KEY == "server_runtime_id";
    }
  }

  // ------------------------------------------------------------------ a reconcile pass

  /** The row has a VM to look at, and the pass looks. */
  predicate Watched(r: Row) {
    r.actual != Superseded && r.desired != DesiredDestroyed && r.node.Some? && r.node.value != "" && r.vmid.Some?
  }

  predicate OwnVm(w: World, id: Id, s: Settings, env: Reconciliation.Env)
    requires id in w.rows && Watched(w.rows[id])
  {
    Proven(w.vms, w.rows[id].node.value, w.rows[id].vmid.value, id, w.rows[id], s.protectedVmids, env.answers)
  }

  function Called(w: World, actor: Actor, op: Op, id: Id, vms: map<int, VM>, how: CallResult): Entry
    requires id in w.rows && Backed(w.rows[id])
  {
    var node, vmid := w.rows[id].node.value, w.rows[id].vmid.value;
    Call(actor, op, id, node, vmid, Lookup(vms, node, vmid), w.kea, how.Returned?)
  }

  /** The ownership check fails in a way other than refusing: the description is JSON but not an object. */
  predicate Garbled(w: World, id: Id, s: Settings, env: Reconciliation.Env)
    requires id in w.rows && Watched(w.rows[id])
  {
    var r := w.rows[id];
    && r.vmid.value !in s.protectedVmids && r.armCreated && env.answers.found && env.answers.config
    && r.vmid.value in w.vms && w.vms[r.vmid.value].node == r.node.value && w.vms[r.vmid.value].description.NotAnObject?
  }

  predicate StopReturns(env: Reconciliation.Env) {
    env.clean.Returned? || env.force.Returned?
  }

  /** A poll after the stop saw the VM off. */
  predicate SeenOff(env: Reconciliation.Env) {
    env.firstPoll == ReadStopped || ReadStopped in env.polls
  }

  lemma WatchedMeans(w: World, id: Id, s: Settings, env: Reconciliation.Env)
    requires id in w.rows && Watched(w.rows[id])
    ensures OwnershipOf(w, id, w.rows[id], s, env) == Owned <==> OwnVm(w, id, s, env)
  {
    OwnershipExactly(w.vms, w.rows[id].node.value, w.rows[id].vmid.value, id, w.rows[id], s.protectedVmids, env.answers);
  }

  lemma {:induction false} PolledOff(r: Row, first: Reading, rest: seq<Reading>)
    requires r.node.Some? && r.node.value != "" && r.vmid.Some?
    ensures Polled(r, first, rest) == PveStopped <==> first == ReadStopped || ReadStopped in rest
    decreases |rest|
  {
    if rest != [] {
      PolledOff(r, rest[0], rest[1..]);
      assert rest == [rest[0]] + rest[1..];
    }
  }

  lemma GarbledMeans(w: World, id: Id, s: Settings, env: Reconciliation.Env)
    requires id in w.rows && Watched(w.rows[id])
    ensures OwnershipOf(w, id, w.rows[id], s, env) == Crashed <==> Garbled(w, id, s, env)
  {
  }

  /** What a pass logs about a VM it may not touch. */
  function Refusal(w: World, id: Id, s: Settings, env: Reconciliation.Env): Entry
    requires id in w.rows && Watched(w.rows[id])
  {
    Audit(Reconciler, if Garbled(w, id, s, env) then "reconcile_failed" else "reconcile_refused", id)
  }

  /** What a pass towards running logs: the runtime seen up for the first time; or of a stopped VM a refusal, that no
      attempt is left, or one start with its audit before it and a failure after it if it raised. */
  function RunningEntries(w: World, id: Id, s: Settings, env: Reconciliation.Env): seq<Entry>
    requires id in w.rows && Watched(w.rows[id])
  {
    var r := w.rows[id];
    if env.status == ReadRunning then if r.actual != Running then [Audit(Reconciler, "reconcile_observe", id)] else []
    else if env.status != ReadStopped then []
    else if !OwnVm(w, id, s, env) then [Refusal(w, id, s, env)]
    else if r.recoveryCount >= s.maxAttempts then [Audit(Reconciler, "reconcile_recovery_exhausted", id)]
    else (if r.recoveryCount > 0 then [Audit(Reconciler, "reconcile_backoff", id)] else [])
         + [Audit(Reconciler, "reconcile_start", id), Called(w, Reconciler, Start, id, w.vms, env.start)]
         + (if env.start.Returned? then [] else [Audit(Reconciler, "reconcile_failed", id)])
  }

  /** The calls of a stop: a clean shutdown, and a forced stop if that raises. */
  function StopEntries(w: World, actor: Actor, id: Id, clean: CallResult, force: CallResult): seq<Entry>
    requires id in w.rows && Backed(w.rows[id])
  {
    [Called(w, actor, Shutdown, id, w.vms, clean)]
    + if clean.Returned? then [] else
        [Called(w, actor, StopForce, id, if clean.Applied() then Powered(w.vms, w.rows[id].node.value, w.rows[id].vmid.value, false) else w.vms, force)]
  }

  /** What a pass towards stopped logs: the runtime seen down for the first time; or of any other VM a refusal, or one
      stop with its audit before it and after it a failure, or that the VM was not seen off. */
  function StoppedEntries(w: World, id: Id, s: Settings, env: Reconciliation.Env): seq<Entry>
    requires id in w.rows && Watched(w.rows[id])
  {
    var r := w.rows[id];
    if env.status == ReadStopped then if r.actual != Stopped then [Audit(Reconciler, "reconcile_observe", id)] else []
    else if !OwnVm(w, id, s, env) then [Refusal(w, id, s, env)]
    else [Audit(Reconciler, "reconcile_shutdown", id)] + StopEntries(w, Reconciler, id, env.clean, env.force)
         + (if !StopReturns(env) then [Audit(Reconciler, "reconcile_failed", id)]
            else if SeenOff(env) then [] else [Audit(Reconciler, "reconcile_shutdown_unverified", id)])
  }

  function PassEntries(w: World, id: Id, s: Settings, env: Reconciliation.Env): seq<Entry>
    requires id in w.rows
  {
    if !Watched(w.rows[id]) || env.status == ReadFailed then []
    else if w.rows[id].desired == DesiredRunning then RunningEntries(w, id, s, env)
    else StoppedEntries(w, id, s, env)
  }

  lemma RunningLog(w: World, id: Id, s: Settings, env: Reconciliation.Env)
    requires id in w.rows && Watched(w.rows[id]) && w.rows[id].desired == DesiredRunning && env.status != ReadFailed
    ensures ReconcileRunning(w, id, s, env).0.log == w.log + RunningEntries(w, id, s, env)
  {
    WatchedMeans(w, id, s, env);
    GarbledMeans(w, id, s, env);
  }

  lemma StopLog(w: World, w1: World, actor: Actor, id: Id, clean: CallResult, force: CallResult)
    requires id in w.rows && Backed(w.rows[id]) && w1.vms == w.vms && w1.kea == w.kea
    ensures ShutDownVm(w1, actor, id, w.rows[id].node.value, w.rows[id].vmid.value, clean, force).log
         == w1.log + StopEntries(w, actor, id, clean, force)
  {
  }

  lemma StoppedLog(w: World, id: Id, s: Settings, env: Reconciliation.Env)
    requires id in w.rows && Watched(w.rows[id]) && w.rows[id].desired == DesiredStopped && env.status != ReadFailed
    ensures ReconcileStopped(w, id, s, env).0.log == w.log + StoppedEntries(w, id, s, env)
  {
    WatchedMeans(w, id, s, env);
    GarbledMeans(w, id, s, env);
    PolledOff(w.rows[id], env.firstPoll, env.polls);
    StopLog(w, Audited(w, Reconciler, "reconcile_shutdown", id), Reconciler, id, env.clean, env.force);
  }

  lemma UnwatchedLog(w: World, id: Id, s: Settings, env: Reconciliation.Env)
    requires id in w.rows && (!Watched(w.rows[id]) || env.status == ReadFailed)
    ensures ReconcileRuntime(w, id, s, env).log == w.log
  {
  }

  /** Every pass logs exactly this: it asks for a start only of a stopped VM that is wanted up, for a stop only of one that
      is not, both only of the runtime's own VM and after the audit, and for a start only below the maximum. */
  lemma PassLogExactly(w: World, id: Id, s: Settings, env: Reconciliation.Env)
    requires id in w.rows
    ensures ReconcileRuntime(w, id, s, env).log == w.log + PassEntries(w, id, s, env)
  {
    if !Watched(w.rows[id]) || env.status == ReadFailed {
      UnwatchedLog(w, id, s, env);
    } else if w.rows[id].desired == DesiredRunning {
      RunningLog(w, id, s, env);
    } else {
      StoppedLog(w, id, s, env);
    }
  }

  // ------------------------------------------------------------------ the row and the VM after a pass

  /** The fault a pass records, if any. */
  function PassFault(w: World, id: Id, s: Settings, env: Reconciliation.Env): Option<Fault>
    requires id in w.rows
  {
    var r := w.rows[id];
    if !Watched(r) then None
    else if env.status == ReadFailed then Some(PveUnavailable)
    else if (if r.desired == DesiredRunning then env.status != ReadStopped else env.status == ReadStopped) then None
    else if Garbled(w, id, s, env) then Some(CallFailed)
    else if !OwnVm(w, id, s, env) then Some(OwnershipRefused)
    else if r.desired == DesiredRunning then
      if r.recoveryCount >= s.maxAttempts then Some(RecoveryExhausted(r.recoveryCount))
      else if env.start.Returned? then None else Some(CallFailed)
    else if !StopReturns(env) then Some(CallFailed)
    else if SeenOff(env) then None else Some(NotConverged)
  }

  /** The state and the counter after a pass: seen in the wanted state, or brought there. */
  function PassState(w: World, id: Id, s: Settings, env: Reconciliation.Env): (Actual, nat)
    requires id in w.rows
  {
    var r := w.rows[id];
    if !Watched(r) || PassFault(w, id, s, env).Some? then (r.actual, r.recoveryCount)
    else if r.desired == DesiredRunning then
      if env.status == ReadRunning then (Running, if r.actual == Running then r.recoveryCount else 0)
      else if env.status == ReadOther then (r.actual, r.recoveryCount)
      else (Running, r.recoveryCount + 1)
    else if env.status == ReadStopped then (Stopped, r.recoveryCount)
    else (Stopped, 0)
  }

  /** The row a pass leaves. */
  ghost predicate PassLeaves(w: World, w': World, id: Id, s: Settings, env: Reconciliation.Env)
    requires id in w.rows
  {
    var r, fault, (actual, count) := w.rows[id], PassFault(w, id, s, env), PassState(w, id, s, env);
    var wanted := if r.desired == DesiredRunning then Running else Stopped;
    var lastError := if fault.Some? then fault else if actual == wanted then None else r.lastError;
    w'.rows == w.rows[id := r.(actual := actual, recoveryCount := count, lastError := lastError, lastReconcile := Some(env.now), updatedAt := env.now)]
  }

  lemma RunningLeaves(w: World, id: Id, s: Settings, env: Reconciliation.Env)
    requires id in w.rows && Watched(w.rows[id]) && w.rows[id].desired == DesiredRunning && env.status != ReadFailed
    ensures PassLeaves(w, ReconcileRuntime(w, id, s, env), id, s, env)
  {
    WatchedMeans(w, id, s, env);
    GarbledMeans(w, id, s, env);
  }

  lemma StoppedLeaves(w: World, id: Id, s: Settings, env: Reconciliation.Env)
    requires id in w.rows && Watched(w.rows[id]) && w.rows[id].desired == DesiredStopped && env.status != ReadFailed
    ensures PassLeaves(w, ReconcileRuntime(w, id, s, env), id, s, env)
  {
    WatchedMeans(w, id, s, env);
    GarbledMeans(w, id, s, env);
    PolledOff(w.rows[id], env.firstPoll, env.polls);
  }

  lemma UnwatchedLeaves(w: World, id: Id, s: Settings, env: Reconciliation.Env)
    requires id in w.rows && (!Watched(w.rows[id]) || env.status == ReadFailed)
    ensures PassLeaves(w, ReconcileRuntime(w, id, s, env), id, s, env)
  {
  }

  /** Every pass leaves its row in the state, with the counter and the fault, that this table says: the counter is reset
      when the runtime is first seen up or stopped by a call, raised by a start that returns, and kept otherwise. */
  lemma PassRowExactly(w: World, id: Id, s: Settings, env: Reconciliation.Env)
    requires id in w.rows
    ensures PassLeaves(w, ReconcileRuntime(w, id, s, env), id, s, env)
  {
    if !Watched(w.rows[id]) || env.status == ReadFailed {
      UnwatchedLeaves(w, id, s, env);
    } else if w.rows[id].desired == DesiredRunning {
      RunningLeaves(w, id, s, env);
    } else {
      StoppedLeaves(w, id, s, env);
    }
  }
}
