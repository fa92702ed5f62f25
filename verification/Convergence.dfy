/** When operations get done: when a reconcile pass reaches the desired state, and exactly when a provisioning job
    ends DONE and a destroy is accepted. */
module Convergence {
  import opened Wrappers
  import opened SandboxNetwork
  import opened Fleet
  import opened Proxmox
  import opened Placement
  import opened Reconciliation
  import opened Provisioning
  import opened ArmApi

  // ------------------------------------------------------------------ a reconcile pass

  /** A managed runtime whose own VM exists and whose power state was read truthfully. */
  ghost predicate Observed(w: World, id: Id, s: Settings, env: Reconciliation.Env) {
    && id in w.rows && Backed(w.rows[id]) && w.rows[id].node.value != ""
    && w.rows[id].actual != Superseded && w.rows[id].desired != DesiredDestroyed
    && var r := w.rows[id];
    && OwnershipOf(w, id, r, s, env) == Owned
    && env.status == (if w.vms[r.vmid.value].running then ReadRunning else ReadStopped)
  }

  /** The calls this pass would need go through. */
  ghost predicate Cooperates(w: World, id: Id, s: Settings, env: Reconciliation.Env)
    requires Observed(w, id, s, env)
  {
    var r := w.rows[id];
    if r.desired == DesiredRunning then
      w.vms[r.vmid.value].running || (r.recoveryCount < s.maxAttempts && env.start.Returned?)
    else
      !w.vms[r.vmid.value].running
      || ((env.clean.Returned? || env.force.Returned?) && Polled(r, env.firstPoll, env.polls) == PveStopped)
  }

  /** The VM and the row are what is desired, and nothing is wrong. */
  ghost predicate Converged(w: World, id: Id) {
    && id in w.rows && Backed(w.rows[id])
    && var r := w.rows[id];
    && Lookup(w.vms, r.node.value, r.vmid.value).Some?
    && w.vms[r.vmid.value].running == (r.desired == DesiredRunning)
    && r.actual == (if r.desired == DesiredRunning then Running else Stopped)
    && r.lastError == None
  }

  lemma StartConverges(w: World, id: Id, s: Settings, env: Reconciliation.Env)
    requires Observed(w, id, s, env) && Cooperates(w, id, s, env) && w.rows[id].desired == DesiredRunning
    ensures var w', vmid := ReconcileRuntime(w, id, s, env), w.rows[id].vmid.value;
            Converged(w', id) && w'.vms == w.vms[vmid := w.vms[vmid].(running := true)]
  {
    var r := w.rows[id];
    OwnedMeansOwn(w.vms, r.node.value, r.vmid.value, id, r, s.protectedVmids, env.answers);
    if w.vms[r.vmid.value].running {
      assert w.vms == w.vms[r.vmid.value := w.vms[r.vmid.value].(running := true)];
    }
  }

  lemma StopConverges(w: World, id: Id, s: Settings, env: Reconciliation.Env)
    requires Observed(w, id, s, env) && Cooperates(w, id, s, env) && w.rows[id].desired == DesiredStopped
    ensures var w', vmid := ReconcileRuntime(w, id, s, env), w.rows[id].vmid.value;
            Converged(w', id) && w'.vms == w.vms[vmid := w.vms[vmid].(running := false)]
  {
    var r := w.rows[id];
    OwnedMeansOwn(w.vms, r.node.value, r.vmid.value, id, r, s.protectedVmids, env.answers);
    if w.vms[r.vmid.value].running {
      var w1 := Audited(w, Reconciler, "reconcile_shutdown", id);
      ShutDownStops(w1, id, r.node.value, r.vmid.value, env.clean, env.force);
    } else {
      assert w.vms == w.vms[r.vmid.value := w.vms[r.vmid.value].(running := false)];
    }
  }

  /** Whichever of the two attempts returns, the VM is off. */
  lemma ShutDownStops(w: World, id: Id, node: string, vmid: int, clean: CallResult, force: CallResult)
    requires Lookup(w.vms, node, vmid).Some? && (clean.Returned? || force.Returned?)
    ensures var w' := ShutDownVm(w, Reconciler, id, node, vmid, clean, force);
            w'.vms == w.vms[vmid := w.vms[vmid].(running := false)] && w'.rows == w.rows
  {
  }

  /** One pass over a runtime that is read truthfully and whose calls go through brings the VM to the desired power
      state, records it, and touches no other VM. */
  lemma PassConverges(w: World, id: Id, s: Settings, env: Reconciliation.Env)
    requires Observed(w, id, s, env) && Cooperates(w, id, s, env)
    ensures var w', vmid := ReconcileRuntime(w, id, s, env), w.rows[id].vmid.value;
            && Converged(w', id)
            && w'.vms == w.vms[vmid := w.vms[vmid].(running := w.rows[id].desired == DesiredRunning)]
  {
    if w.rows[id].desired == DesiredRunning {
      StartConverges(w, id, s, env);
    } else {
      StopConverges(w, id, s, env);
    }
  }

  /** A converged runtime is left alone: a further truthful pass makes no call, logs nothing and only stamps the row. */
  lemma ConvergedStays(w: World, id: Id, s: Settings, env: Reconciliation.Env)
    requires Observed(w, id, s, env) && Converged(w, id)
    ensures ReconcileRuntime(w, id, s, env)
         == w.(rows := w.rows[id := w.rows[id].(lastReconcile := Some(env.now), updatedAt := env.now)])
  {
  }

  // ------------------------------------------------------------------ a provisioning job

  /** The address cycle of the job. */
  function AddressFor(kea: seq<Reservation>, r: Row, mac: string, vmid: int, s: Settings, env: JobEnv): Result<Record, NetError> {
    Cycle(kea, s.poolLo, s.poolHi, mac, HostName(r, vmid), r.requestId, AgentName(r), env.net).1
  }

  /** Everything that has to go right. */
  ghost predicate AllClear(w: World, r: Row, s: Settings, env: JobEnv) {
    && r.agentId != ""
    && Decide(w, r, env).Placed? && Decide(w, r, env).node != ""
    && env.nextVmid.Some? && env.nextVmid.value !in w.vms && env.storageReady && env.clone.Returned? && env.unlocked
    && AfterCloneClear(w, r, s, Decide(w, r, env).node, env)
  }

  /** The config write succeeds only on the template's own node. */
  predicate AfterCloneClear(w: World, r: Row, s: Settings, node: string, env: JobEnv) {
    && node == r.templateNode && env.configure.Returned? && env.reconfigure.Returned?
    && (r.runtimeClass == "sandbox" ==> s.sandboxNetworkEnabled && AddressFor(w.kea, r, GenerateMac(env.b0, env.b1, env.b2), env.nextVmid.GetOr(0), s, env).Success?)
    && env.start.Returned? && env.guestIp && env.hygiene
  }

  lemma CloneExactly(w: World, jid: Id, id: Id, env: JobEnv)
    requires jid in w.jobs && id in w.rows
    ensures ClonedAs(w, PlaceAndClone(w, jid, id, env), jid, id, env)
  {
  }

  lemma ConfigureExactly(w: World, jid: Id, id: Id, node: string, vmid: int, env: JobEnv)
    requires jid in w.jobs && id in w.rows && vmid in w.vms && w.vms[vmid].node == node
    ensures ConfiguredAs(w, ConfigureVm(w, jid, id, node, vmid, env), jid, id, node, vmid, env)
  {
    var r := w.rows[id];
    var d := Marker(id, r, node, vmid, env);
    var w1 := Step(w, jid, 4, "CONFIGURING_CLOUD_INIT", StepRunning);
    var w2 := Configured(w1, id, r.templateNode, vmid, None, d, env.configure);
    assert w2.rows == w.rows;
    if node == r.templateNode && env.configure.Returned? {
      assert w2.vms == w.vms[vmid := w.vms[vmid].(mac := None, description := d)];
    }
  }

  lemma ReserveExactly(w: World, jid: Id, id: Id, s: Settings, node: string, vmid: int, env: JobEnv)
    requires jid in w.jobs && id in w.rows
    ensures var p, r := ReserveAddress(w, jid, id, s, node, vmid, env), w.rows[id];
            && (p.Ok? <==> r.runtimeClass != "sandbox"
                           || (s.sandboxNetworkEnabled && AddressFor(w.kea, r, NicMac(r, w.vms, node, vmid, env.configRead), vmid, s, env).Success?))
            && p.w.vms == w.vms
  {
  }

  lemma BootExactly(w: World, jid: Id, id: Id, node: string, vmid: int, env: JobEnv)
    requires jid in w.jobs && id in w.rows && Lookup(w.vms, node, vmid).Some?
    ensures var p := Boot(w, jid, id, node, vmid, env);
            && (p.Ok? <==> env.start.Returned? && env.guestIp && env.hygiene)
            && (p.Ok? ==> p.w.vms == w.vms[vmid := w.vms[vmid].(running := true)])
  {
  }

  /** The VM a job that goes through leaves behind. */
  function NewVm(id: Id, r: Row, env: JobEnv): VM
    requires env.nextVmid.Some?
  {
    VM(r.templateNode, true, if r.runtimeClass == "sandbox" then Some(GenerateMac(env.b0, env.b1, env.b2)) else None,
       Marker(id, r, r.templateNode, env.nextVmid.value, env))
  }

  lemma FromReserveExactly(w: World, jid: Id, id: Id, node: string, vmid: int, env: JobEnv)
    requires jid in w.jobs && id in w.rows && Lookup(w.vms, node, vmid).Some?
    ensures var p := FromReserve(w, jid, id, node, vmid, env);
            && (p.Ok? <==> env.start.Returned? && env.guestIp && env.hygiene)
            && (p.Ok? ==> p.w.vms == w.vms[vmid := w.vms[vmid].(running := true)])
  {
    BootExactly(w, jid, id, node, vmid, env);
  }

  /** What the reservation and the boot make of the world. */
  ghost predicate BootedAs(w: World, p: Phase, id: Id, s: Settings, node: string, vmid: int, env: JobEnv)
    requires id in w.rows
  {
    var r := w.rows[id];
    && (p.Ok? <==> (r.runtimeClass != "sandbox" || (s.sandboxNetworkEnabled && AddressFor(w.kea, r, NicMac(r, w.vms, node, vmid, env.configRead), vmid, s, env).Success?))
                   && env.start.Returned? && env.guestIp && env.hygiene)
    && (p.Ok? ==> vmid in w.vms && p.w.vms == w.vms[vmid := w.vms[vmid].(running := true)])
  }

  lemma FromConfigExactly(w: World, jid: Id, id: Id, s: Settings, node: string, vmid: int, env: JobEnv)
    requires jid in w.jobs && id in w.rows && Lookup(w.vms, node, vmid).Some?
    ensures BootedAs(w, FromConfig(w, jid, id, s, node, vmid, env), id, s, node, vmid, env)
  {
    ReserveExactly(w, jid, id, s, node, vmid, env);
    var p := ReserveAddress(w, jid, id, s, node, vmid, env);
    if p.Ok? {
      FromReserveExactly(p.w, jid, id, node, vmid, env);
    }
  }

  /** What the configuration makes of the world. */
  ghost predicate ConfiguredAs(w: World, p: Phase, jid: Id, id: Id, node: string, vmid: int, env: JobEnv)
    requires jid in w.jobs && id in w.rows
  {
    var r := w.rows[id];
    var mac := if r.runtimeClass == "sandbox" then Some(GenerateMac(env.b0, env.b1, env.b2)) else None;
    && (p.Ok? <==> node == r.templateNode && env.configure.Returned? && env.reconfigure.Returned?)
    && jid in p.w.jobs && id in p.w.rows
    && (p.Ok? ==> vmid in w.vms && p.w.vms == w.vms[vmid := w.vms[vmid].(mac := mac, description := Marker(id, r, node, vmid, env))]
                  && p.w.kea == w.kea
                  && p.w.rows[id] == (if mac.Some? then r.(sandboxMac := mac, updatedAt := env.now) else r))
  }

  /** A sandbox's address is pinned to the MAC that was generated for it. */
  lemma PinnedMac(w: World, p: Phase, jid: Id, id: Id, s: Settings, node: string, vmid: int, env: JobEnv)
    requires jid in w.jobs && id in w.rows && ConfiguredAs(w, p, jid, id, node, vmid, env) && p.Ok?
    requires w.rows[id].runtimeClass == "sandbox" && env.nextVmid == Some(vmid)
    ensures var mac := GenerateMac(env.b0, env.b1, env.b2);
            && NicMac(p.w.rows[id], p.w.vms, node, vmid, env.configRead) == mac
            && AddressFor(p.w.kea, p.w.rows[id], mac, vmid, s, env) == AddressFor(w.kea, w.rows[id], mac, vmid, s, env)
  {
    assert |GenerateMac(env.b0, env.b1, env.b2)| == 17;
  }

  lemma ThenConfig(w: World, p: Phase, q: Phase, jid: Id, id: Id, s: Settings, node: string, vmid: int, env: JobEnv)
    requires jid in w.jobs && id in w.rows && env.nextVmid == Some(vmid) && vmid in w.vms
    requires ConfiguredAs(w, p, jid, id, node, vmid, env)
    requires if p.Ok? then BootedAs(p.w, q, id, s, node, vmid, env) else q == p
    ensures q.Ok? <==> AfterCloneClear(w, w.rows[id], s, node, env)
  {
    if p.Ok? && w.rows[id].runtimeClass == "sandbox" {
      PinnedMac(w, p, jid, id, s, node, vmid, env);
    }
  }

  lemma ThenConfigVms(w: World, p: Phase, q: Phase, jid: Id, id: Id, s: Settings, node: string, vmid: int, env: JobEnv)
    requires jid in w.jobs && id in w.rows && env.nextVmid == Some(vmid) && vmid in w.vms
    requires w.vms[vmid] == VM(node, false, None, Unparseable) && ConfiguredAs(w, p, jid, id, node, vmid, env)
    requires p.Ok? && q.Ok? && BootedAs(p.w, q, id, s, node, vmid, env)
    ensures q.w.vms == w.vms[vmid := NewVm(id, w.rows[id], env)]
  {
    assert q.w.vms[vmid] == NewVm(id, w.rows[id], env);
  }

  lemma FromCloneExactly(w: World, jid: Id, id: Id, s: Settings, node: string, vmid: int, env: JobEnv)
    requires jid in w.jobs && id in w.rows && env.nextVmid == Some(vmid) && vmid in w.vms
    requires w.vms[vmid] == VM(node, false, None, Unparseable)
    ensures var p, r := FromClone(w, jid, id, s, node, vmid, env), w.rows[id];
            && (p.Ok? <==> AfterCloneClear(w, r, s, node, env))
            && (p.Ok? ==> p.w.vms == w.vms[vmid := NewVm(id, r, env)])
  {
    ConfigureExactly(w, jid, id, node, vmid, env);
    var p := ConfigureVm(w, jid, id, node, vmid, env);
    if p.Ok? {
      FromConfigExactly(p.w, jid, id, s, node, vmid, env);
    }
    var q := FromClone(w, jid, id, s, node, vmid, env);
    ThenConfig(w, p, q, jid, id, s, node, vmid, env);
    if p.Ok? && q.Ok? {
      ThenConfigVms(w, p, q, jid, id, s, node, vmid, env);
    }
  }

  /** What the placement and the clone make of the world. */
  ghost predicate ClonedAs(w: World, p: Phase, jid: Id, id: Id, env: JobEnv)
    requires jid in w.jobs && id in w.rows
  {
    var r, d := w.rows[id], Decide(w, w.rows[id], env);
    && (p.Ok? <==> r.agentId != "" && d.Placed? && d.node != "" && env.nextVmid.Some? && env.nextVmid.value !in w.vms
                   && env.storageReady && env.clone.Returned? && env.unlocked)
    && jid in p.w.jobs && id in p.w.rows
    && (p.Ok? ==> p.w.vms == w.vms[env.nextVmid.value := VM(d.node, false, None, Unparseable)] && p.w.rows == w.rows && p.w.kea == w.kea)
  }

  lemma ThenClone(w: World, p: Phase, q: Phase, jid: Id, id: Id, s: Settings, env: JobEnv)
    requires jid in w.jobs && id in w.rows && ClonedAs(w, p, jid, id, env)
    requires if p.Ok? then (q.Ok? <==> AfterCloneClear(p.w, p.w.rows[id], s, Decide(w, w.rows[id], env).node, env))
                           && (q.Ok? ==> q.w.vms == p.w.vms[env.nextVmid.value := NewVm(id, p.w.rows[id], env)])
             else q == p
    ensures q.Ok? <==> AllClear(w, w.rows[id], s, env)
    ensures q.Ok? ==> q.w.vms == w.vms[env.nextVmid.value := NewVm(id, w.rows[id], env)]
  {
  }

  lemma ProvisionExactly(w: World, jid: Id, id: Id, s: Settings, env: JobEnv)
    requires jid in w.jobs && id in w.rows
    ensures var p := Provision(w, jid, id, s, env);
            && (p.Ok? <==> AllClear(w, w.rows[id], s, env))
            && (p.Ok? ==> p.w.vms == w.vms[env.nextVmid.value := NewVm(id, w.rows[id], env)])
  {
    var p := PlaceAndClone(w, jid, id, env);
    CloneExactly(w, jid, id, env);
    if p.Ok? {
      FromCloneExactly(p.w, jid, id, s, Decide(w, w.rows[id], env).node, env.nextVmid.value, env);
    }
    ThenClone(w, p, Provision(w, jid, id, s, env), jid, id, s, env);
  }

  /** The template's node is where the runtime will go: its class is pinned there, or the node is eligible and no
      eligible node scores higher. */
  ghost predicate TemplateWins(w: World, r: Row, env: JobEnv) {
    var candidates := Candidates(env.listing);
    && r.templateNode != ""
    && (r.runtimeClass in TEMPLATE_PINNED_CLASSES
        || (&& Eligible(w.rows, r.runtimeClass, candidates, r.templateNode)
            && forall n :: n in candidates && Eligible(w.rows, r.runtimeClass, candidates, n) ==>
                 Score(w.rows, r.runtimeClass, n).value <= Score(w.rows, r.runtimeClass, r.templateNode).value))
  }

  /** The pool has an address for the sandbox, and the calls that reserve it return. */
  ghost predicate AddressClear(kea: seq<Reservation>, s: Settings, env: JobEnv) {
    && s.sandboxNetworkEnabled && env.net.listed && env.net.leased.Some? && env.net.verified
    && AddressLeft(kea, env.net.leased.value, env.net.alive, s.poolLo, s.poolHi)
    && CallsReturn(kea, Allocation(kea, env.net.leased.value, env.net.alive, s.poolLo, s.poolHi).value.0,
                   GenerateMac(env.b0, env.b1, env.b2), env.net)
  }

  /** All that a job needs, as could be looked up before it runs: its request, the fleet, the pool, and the calls. */
  ghost predicate Provisionable(w: World, r: Row, s: Settings, env: JobEnv) {
    && r.agentId != "" && TemplateWins(w, r, env)
    && env.nextVmid.Some? && env.nextVmid.value !in w.vms && env.storageReady && env.clone.Returned? && env.unlocked
    && env.configure.Returned? && env.reconfigure.Returned?
    && (r.runtimeClass == "sandbox" ==> AddressClear(w.kea, s, env))
    && env.start.Returned? && env.guestIp && env.hygiene
  }

  lemma TemplateWinsExactly(w: World, r: Row, env: JobEnv)
    ensures TemplateWins(w, r, env) <==>
              Decide(w, r, env).Placed? && Decide(w, r, env).node != "" && Decide(w, r, env).node == r.templateNode
  {
    if r.runtimeClass !in TEMPLATE_PINNED_CLASSES {
      TemplateChosenExactly(w.rows, r.runtimeClass, r.templateNode, Candidates(env.listing));
    }
  }

  lemma AddressClearExactly(w: World, r: Row, s: Settings, env: JobEnv)
    ensures AddressClear(w.kea, s, env) <==>
              s.sandboxNetworkEnabled && AddressFor(w.kea, r, GenerateMac(env.b0, env.b1, env.b2), env.nextVmid.GetOr(0), s, env).Success?
  {
    var mac := GenerateMac(env.b0, env.b1, env.b2);
    GeneratedMacIsValid(env.b0, env.b1, env.b2);
    CycleExactly(w.kea, s.poolLo, s.poolHi, mac, HostName(r, env.nextVmid.GetOr(0)), r.requestId, AgentName(r), env.net);
  }

  lemma ProvisionableExactly(w: World, r: Row, s: Settings, env: JobEnv)
    ensures Provisionable(w, r, s, env) <==> AllClear(w, r, s, env)
  {
    TemplateWinsExactly(w, r, env);
    AddressClearExactly(w, r, s, env);
  }

  /** A queued job ends DONE exactly when the template's node would be chosen, the pool has an address and every call
      goes through; there is then one more VM, running, marked as the runtime's, with the pinned MAC if it is a
      sandbox. */
  lemma DoneExactly(w: World, jid: Id, s: Settings, env: JobEnv)
    requires jid in w.jobs && w.jobs[jid].state == Queued && w.jobs[jid].runtimeId in w.rows
    ensures var id, w' := w.jobs[jid].runtimeId, RunJob(w, jid, s, env);
            && jid in w'.jobs && (w'.jobs[jid].state == Done || w'.jobs[jid].state == Failed)
            && (w'.jobs[jid].state == Done <==> Provisionable(w, w.rows[id], s, env))
            && (w'.jobs[jid].state == Done ==> w'.vms == w.vms[env.nextVmid.value := NewVm(id, w.rows[id], env)])
  {
    var w0, r := SetJob(w, jid, JobRunning), w.rows[w.jobs[jid].runtimeId];
    ProvisionExactly(w0, jid, w.jobs[jid].runtimeId, s, env);
    ProvisionableExactly(w0, r, s, env);
    assert Provisionable(w0, r, s, env) <==> Provisionable(w, r, s, env);
  }

  /** While the preferred node is online, a job for a runtime that is not pinned and whose template is on another node
      always fails, whatever the calls return: the clone goes to the preferred node and the config write does not. */
  lemma OffTemplateAlwaysFails(w: World, jid: Id, s: Settings, env: JobEnv)
    requires jid in w.jobs && w.jobs[jid].state == Queued && w.jobs[jid].runtimeId in w.rows
    requires var r := w.rows[w.jobs[jid].runtimeId];
             r.runtimeClass !in TEMPLATE_PINNED_CLASSES && r.templateNode != GENERAL_PREFERRED_NODE
    requires env.listing.Some? && (GENERAL_PREFERRED_NODE, "online") in env.listing.value
    ensures var w' := RunJob(w, jid, s, env); jid in w'.jobs && w'.jobs[jid].state == Failed
  {
    var r := w.rows[w.jobs[jid].runtimeId];
    assert GENERAL_PREFERRED_NODE in Candidates(env.listing) by {
      assert GENERAL_PREFERRED_NODE !in EXCLUDED_NODES;
    }
    PreferredWins(w.rows, r.runtimeClass, r.templateNode, Candidates(env.listing));
    TemplateWinsExactly(w, r, env);
    DoneExactly(w, jid, s, env);
  }

  // ------------------------------------------------------------------ a destroy

  lemma ShutDownKeepsVms(w: World, id: Id, node: string, vmid: int, clean: CallResult, force: CallResult)
    requires vmid in w.vms && w.vms[vmid].node == node
    ensures var w' := ShutDownVm(w, Api, id, node, vmid, clean, force);
            && w'.rows == w.rows && w'.vms.Keys == w.vms.Keys && w'.vms[vmid].node == node
            && w'.vms - {vmid} == w.vms - {vmid}
  {
  }

  /** A destroy is accepted exactly when the VM is the runtime's own, one of the two stops returns and so does the
      destroy. Then that VM and no other is gone and the row has no VM; otherwise the row is as it was, and the VM is
      still there unless the destroy call raised after it took effect. */
  lemma DestroyExactly(w: World, id: Id, s: Settings, env: DestroyEnv)
    requires id in w.rows && Backed(w.rows[id])
    ensures var r, (w', status) := w.rows[id], DestroyRuntime(w, id, s, env);
            var owned := VerifyOwnership(w.vms, r.node.value, r.vmid.value, id, r, s.protectedVmids, env.answers) == Owned;
            && (status == Accepted <==> owned && (env.clean.Returned? || env.force.Returned?) && env.destroy.Returned?)
            && (status == Accepted ==>
                  && w'.vms == w.vms - {r.vmid.value}
                  && w'.rows == w.rows[id := r.(actual := Destroyed, desired := DesiredDestroyed, vmid := None, node := None, updatedAt := env.now)])
            && (status != Accepted ==>
                  && w'.rows == w.rows && w'.kea == w.kea
                  && (!env.destroy.RaisedAfter? ==> w'.vms.Keys == w.vms.Keys))
  {
    var r := w.rows[id];
    var node, vmid := r.node.value, r.vmid.value;
    if VerifyOwnership(w.vms, node, vmid, id, r, s.protectedVmids, env.answers) == Owned {
      OwnedMeansOwn(w.vms, node, vmid, id, r, s.protectedVmids, env.answers);
      ShutDownKeepsVms(Audited(w, Api, "destroy_audit", id), id, node, vmid, env.clean, env.force);
    }
  }
}
