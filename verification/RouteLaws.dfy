/** What the routes and the jobs of the Agent Runtime Manager do, in the terms of the tables. */
module RouteLaws {
  import opened Wrappers
  import opened SandboxNetwork
  import opened Fleet
  import opened Proxmox
  import opened Placement
  import opened Reconciliation
  import opened Provisioning
  import opened ArmApi
  import opened Convergence
  import opened ArmLaws

  // ------------------------------------------------------------------ routes

  /** A new request makes one absent runtime as asked for, owned by this manager, and one queued job with no steps; a
      known one makes nothing. */
  lemma SubmitExactly(w: World, req: Request, rid: Id, jid: Id, s: Settings, now: int)
    requires rid !in w.rows && jid !in w.jobs
    ensures var w' := Submit(w, req, rid, jid, s, now);
            && w'.vms == w.vms && w'.kea == w.kea
            && ((exists j :: j in w.jobs && w.jobs[j].requestId == req.requestId) ==> w' == w)
            && ((forall j :: j in w.jobs ==> w.jobs[j].requestId != req.requestId) ==>
                  && w'.rows.Keys == w.rows.Keys + {rid} && (forall x :: x in w.rows ==> w'.rows[x] == w.rows[x])
                  && w'.jobs == w.jobs[jid := Job(req.requestId, rid, Queued, map[])]
                  && var r := w'.rows[rid];
                  && r.requestId == req.requestId && r.agentId == req.agentId && r.name == req.name
                  && r.runtimeClass == req.runtimeClass && r.templateNode == req.templateNode && r.desired == req.desired
                  && r.actual == Absent && r.armCreated && r.recoveryCount == 0
                  && r.node == None && r.vmid == None && r.sandboxIp == None && r.sandboxMac == None && r.reservation == None
                  && (r.expiresAt.Some? <==> req.runtimeClass == "sandbox"))
  {
  }

  /** Setting the desired state and letting a pass go through brings the VM there. */
  lemma DesiredIsReached(w: World, id: Id, desired: Desired, now: int, s: Settings, env: Reconciliation.Env)
    requires id in w.rows && desired != DesiredDestroyed
    requires var w' := SetDesired(w, id, desired, now).0; Observed(w', id, s, env) && Cooperates(w', id, s, env)
    ensures SetDesired(w, id, desired, now).1 == Accepted
    ensures var w'' := ReconcileRuntime(SetDesired(w, id, desired, now).0, id, s, env);
            && id in w''.rows && w''.rows[id].vmid.Some? && w''.rows[id].vmid.value in w''.vms
            && w''.vms[w''.rows[id].vmid.value].running == (desired == DesiredRunning)
            && w''.rows[id].actual == if desired == DesiredRunning then Running else Stopped
  {
    PassConverges(SetDesired(w, id, desired, now).0, id, s, env);
  }

  /** Setting the desired state changes that and nothing else. */
  lemma SetDesiredExactly(w: World, id: Id, desired: Desired, now: int)
    ensures var (w', status) := SetDesired(w, id, desired, now);
            && (status == Accepted <==> id in w.rows)
            && w'.vms == w.vms && w'.jobs == w.jobs && w'.kea == w.kea
            && (id !in w.rows ==> w'.rows == w.rows)
            && (id in w.rows ==> w'.rows == w.rows[id := w.rows[id].(desired := desired, updatedAt := w'.rows[id].updatedAt)]
                                 && w'.log == w.log + [Audit(Api, "desired_state_set", id)])
  {
  }

  /** A runtime can be superseded exactly by another known one while it has no VM, does not run and is not superseded. */
  lemma SupersedeExactly(w: World, id: Id, live: Id, now: int)
    ensures var (w', status) := Supersede(w, id, live, now);
            && (status == Accepted <==>
                  && id in w.rows && live in w.rows && id != live
                  && w.rows[id].node == None && w.rows[id].vmid == None
                  && w.rows[id].actual != Running && w.rows[id].actual != Superseded)
            && (status == Accepted ==> w'.rows == w.rows[id := w.rows[id].(actual := Superseded, updatedAt := now)])
            && (status != Accepted ==> w' == w)
            && w'.vms == w.vms && w'.jobs == w.jobs && w'.kea == w.kea
  {
  }

  /** The status each route answers with. */
  lemma Statuses(w: World, id: Id, other: Id, desired: Desired, hours: int, s: Settings, now: int)
    ensures SetDesired(w, id, desired, now).1 == if id in w.rows then Accepted else NotFound
    ensures ExtendTtl(w, id, hours, s, now).1 ==
              if id !in w.rows then NotFound else if w.rows[id].runtimeClass != "sandbox" then Unprocessable else Accepted
    ensures Supersede(w, id, other, now).1 != Accepted ==>
              Supersede(w, id, other, now).1 ==
                if id !in w.rows || other !in w.rows then NotFound else if id == other then Unprocessable else Conflict
  {
  }

  /** What a destroy logs: a refusal; or the audit before anything else, the stop, and, if that returned, the destroy call;
      and if that returned too, that it is complete and what became of the sandbox's reservation. */
  function DestroyEntries(w: World, id: Id, s: Settings, env: DestroyEnv): seq<Entry>
    requires id in w.rows && Backed(w.rows[id])
  {
    var r := w.rows[id];
    if !Proven(w.vms, r.node.value, r.vmid.value, id, r, s.protectedVmids, env.answers) then
      if NotAnObjectThere(w, r, s, env) then [] else [Audit(Api, "destroy_refused", id)]
    else [Audit(Api, "destroy_audit", id)] + StopEntries(w, Api, id, env.clean, env.force)
         + if !env.clean.Returned? && !env.force.Returned? then []
           else [Called(w, Api, Destroy, id, AfterStop(w, r, env), env.destroy)]
                + if !env.destroy.Returned? then []
                  else [Audit(Api, "destroy_complete", id)] + ReleaseEntries(w, id, env)
  }

  /** The description is JSON but not an object, which the check does not survive. */
  predicate NotAnObjectThere(w: World, r: Row, s: Settings, env: DestroyEnv)
    requires Backed(r)
  {
    && r.vmid.value !in s.protectedVmids && r.armCreated && env.answers.found && env.answers.config
    && r.vmid.value in w.vms && w.vms[r.vmid.value].node == r.node.value && w.vms[r.vmid.value].description.NotAnObject?
  }

  /** The inventory when the destroy call is made. */
  function AfterStop(w: World, r: Row, env: DestroyEnv): map<int, VM>
    requires Backed(r)
  {
    if env.clean.Applied() || (!env.clean.Returned? && env.force.Applied()) then Powered(w.vms, r.node.value, r.vmid.value, false) else w.vms
  }

  function ReleaseEntries(w: World, id: Id, env: DestroyEnv): seq<Entry>
    requires id in w.rows
  {
    var r := w.rows[id];
    if r.sandboxIp.None? || r.reservation.None? then []
    else [Audit(Api, if Release(w.kea, r.sandboxIp.value, env.listed, env.release).1.None? then "sandbox_reservation_released"
                     else "sandbox_reservation_release_failed", id)]
  }

  lemma AfterStopExactly(w: World, w1: World, id: Id, r: Row, env: DestroyEnv)
    requires Backed(r) && w1.vms == w.vms
    ensures ShutDownVm(w1, Api, id, r.node.value, r.vmid.value, env.clean, env.force).vms == AfterStop(w, r, env)
  {
  }

  lemma RefusedLog(w: World, id: Id, s: Settings, env: DestroyEnv)
    requires id in w.rows && Backed(w.rows[id])
    requires VerifyOwnership(w.vms, w.rows[id].node.value, w.rows[id].vmid.value, id, w.rows[id], s.protectedVmids, env.answers) != Owned
    ensures DestroyRuntime(w, id, s, env).0.log == w.log + DestroyEntries(w, id, s, env)
    ensures DestroyRuntime(w, id, s, env).1 == if NotAnObjectThere(w, w.rows[id], s, env) then ServerError else Forbidden
  {
    OwnershipExactly(w.vms, w.rows[id].node.value, w.rows[id].vmid.value, id, w.rows[id], s.protectedVmids, env.answers);
  }

  lemma TeardownLog(w: World, id: Id, s: Settings, env: DestroyEnv)
    requires id in w.rows && Backed(w.rows[id])
    requires VerifyOwnership(w.vms, w.rows[id].node.value, w.rows[id].vmid.value, id, w.rows[id], s.protectedVmids, env.answers) == Owned
    ensures DestroyRuntime(w, id, s, env).0.log == w.log + DestroyEntries(w, id, s, env)
  {
    var r, node, vmid := w.rows[id], w.rows[id].node.value, w.rows[id].vmid.value;
    OwnershipExactly(w.vms, node, vmid, id, r, s.protectedVmids, env.answers);
    var w1 := Audited(w, Api, "destroy_audit", id);
    StopLog(w, w1, Api, id, env.clean, env.force);
    AfterStopExactly(w, w1, id, r, env);
    var w2 := ShutDownVm(w1, Api, id, node, vmid, env.clean, env.force);
    assert w2.kea == w.kea && w2.rows == w.rows;
    assert w2.log == w.log + ([Audit(Api, "destroy_audit", id)] + StopEntries(w, Api, id, env.clean, env.force));
    TeardownEnd(w, w2, id, s, env);
  }

  lemma TeardownEnd(w: World, w2: World, id: Id, s: Settings, env: DestroyEnv)
    requires id in w.rows && Backed(w.rows[id])
    requires VerifyOwnership(w.vms, w.rows[id].node.value, w.rows[id].vmid.value, id, w.rows[id], s.protectedVmids, env.answers) == Owned
    requires w2 == ShutDownVm(Audited(w, Api, "destroy_audit", id), Api, id, w.rows[id].node.value, w.rows[id].vmid.value, env.clean, env.force)
    requires w2.kea == w.kea && w2.rows == w.rows && w2.vms == AfterStop(w, w.rows[id], env)
    ensures DestroyRuntime(w, id, s, env).0.log ==
              w2.log + if !env.clean.Returned? && !env.force.Returned? then []
                       else [Called(w, Api, Destroy, id, AfterStop(w, w.rows[id], env), env.destroy)]
                            + if !env.destroy.Returned? then []
                              else [Audit(Api, "destroy_complete", id)] + ReleaseEntries(w, id, env)
  {
  }

  /** Every destroy of a runtime with a VM logs exactly this, and answers 403 exactly when it refuses. */
  lemma DestroyLogExactly(w: World, id: Id, s: Settings, env: DestroyEnv)
    requires id in w.rows && Backed(w.rows[id])
    ensures DestroyRuntime(w, id, s, env).0.log == w.log + DestroyEntries(w, id, s, env)
    ensures DestroyRuntime(w, id, s, env).1 == Forbidden <==>
              !Proven(w.vms, w.rows[id].node.value, w.rows[id].vmid.value, id, w.rows[id], s.protectedVmids, env.answers)
              && !NotAnObjectThere(w, w.rows[id], s, env)
  {
    var r := w.rows[id];
    OwnershipExactly(w.vms, r.node.value, r.vmid.value, id, r, s.protectedVmids, env.answers);
    if VerifyOwnership(w.vms, r.node.value, r.vmid.value, id, r, s.protectedVmids, env.answers) == Owned {
      TeardownLog(w, id, s, env);
    } else {
      RefusedLog(w, id, s, env);
    }
  }

  /** A runtime that is unknown or has no VM cannot be destroyed. */
  lemma NothingToDestroy(w: World, id: Id, s: Settings, env: DestroyEnv)
    requires id !in w.rows || w.rows[id].node == None || w.rows[id].vmid == None
    ensures DestroyRuntime(w, id, s, env) == (w, if id in w.rows then Conflict else NotFound)
  {
  }

  // ------------------------------------------------------------------ jobs

  /** Two generated MACs are the same only if their random bytes are, and all have the same vendor prefix. */
  lemma MacsDiffer(a0: Byte, a1: Byte, a2: Byte, b0: Byte, b1: Byte, b2: Byte)
    ensures GenerateMac(a0, a1, a2)[..9] == "BC:24:11:"
    ensures GenerateMac(a0, a1, a2) == GenerateMac(b0, b1, b2) ==> a0 == b0 && a1 == b1 && a2 == b2
  {
    var a, b := GenerateMac(a0, a1, a2), GenerateMac(b0, b1, b2);
    if a == b {
      assert a[9] == b[9] && a[10] == b[10] && a[12] == b[12] && a[13] == b[13] && a[15] == b[15] && a[16] == b[16];
      SameDigits(a0, b0);
      SameDigits(a1, b1);
      SameDigits(a2, b2);
    }
  }

  lemma SameDigits(a: Byte, b: Byte)
    requires HexDigit(a / 16) == HexDigit(b / 16) && HexDigit(a % 16) == HexDigit(b % 16)
    ensures a == b
  {
    assert a / 16 == b / 16 && a % 16 == b % 16;
  }

  /** The VM says of itself whose it is, where it is, and what it was made from. */
  predicate Truthful(vm: VM, vmid: int, id: Id, r: Row) {
    && vm.running && vm.description.Object? && HasMarkerKeys(vm.description.fields)
    && var d := vm.description.fields;
    && d["server_runtime_id"] == JString(id) && d["node"] == JString(vm.node) && d["vmid"] == JNumber(vmid)
    && d["acms_agent_id"] == JString(r.agentId) && d["provisioning_request_id"] == JString(r.requestId)
    && d["created_by_agent_runtime_manager"] == JBool(true) && d["template_source"] == JString(r.templateNode)
  }

  lemma NewVmIsTruthful(id: Id, r: Row, env: JobEnv)
    requires env.nextVmid.Some?
    ensures Truthful(NewVm(id, r, env), env.nextVmid.value, id, r)
  {
  }

  lemma MarkerTellsTruth(w: World, jid: Id, s: Settings, env: JobEnv)
    requires jid in w.jobs && w.jobs[jid].state == Queued && w.jobs[jid].runtimeId in w.rows
    ensures var id, w' := w.jobs[jid].runtimeId, RunJob(w, jid, s, env);
            jid in w'.jobs && w'.jobs[jid].state == Done ==>
              && id in w'.rows && w'.rows[id].actual == Running && w'.rows[id].vmid.Some? && w'.rows[id].vmid.value in w'.vms
              && var vm := w'.vms[w'.rows[id].vmid.value];
                 w'.rows[id].node == Some(vm.node) && Truthful(vm, w'.rows[id].vmid.value, id, w.rows[id])
  {
    var id := w.jobs[jid].runtimeId;
    DoneExactly(w, jid, s, env);
    FinishedRow(w, jid, s, env);
    TemplateWinsExactly(w, w.rows[id], env);
    if env.nextVmid.Some? {
      NewVmIsTruthful(id, w.rows[id], env);
      assert NewVm(id, w.rows[id], env).node == w.rows[id].templateNode;
    }
  }

  lemma FinishedRow(w: World, jid: Id, s: Settings, env: JobEnv)
    requires jid in w.jobs && w.jobs[jid].state == Queued && w.jobs[jid].runtimeId in w.rows
    ensures var id, w' := w.jobs[jid].runtimeId, RunJob(w, jid, s, env);
            jid in w'.jobs && w'.jobs[jid].state == Done ==>
              id in w'.rows && w'.rows[id].vmid == env.nextVmid && w'.rows[id].node == Some(Decide(w, w.rows[id], env).node)
              && w'.rows[id].actual == Running
  {
  }

  /** The steps of a finished job, by name. */
  function FinishedSteps(sandbox: bool): map<int, StepRow> {
    map[1 := StepRow("VALIDATING", StepDone), 2 := StepRow("RESERVING", StepDone), 3 := StepRow("CLONING_VM", StepDone),
        4 := StepRow(if sandbox then "SANDBOX_DHCP_RESERVE" else "CONFIGURING_CLOUD_INIT", StepDone), 5 := StepRow("BOOTING", StepDone),
        6 := StepRow("WAITING_GUEST", StepDone), 7 := StepRow("INJECTING_BRIDGE_CONFIG", StepDone), 8 := StepRow("HERMES_STATE_BRANCH", StepDone)]
  }

  function Mark(steps: map<int, StepRow>, sq: int, step: string): map<int, StepRow> {
    steps[sq := StepRow(step, StepDone)]
  }

  lemma CloneSteps(w: World, jid: Id, id: Id, env: JobEnv)
    requires jid in w.jobs && id in w.rows
    ensures var p := PlaceAndClone(w, jid, id, env);
            p.Ok? ==> p.w.rows == w.rows
                      && p.w.jobs[jid].steps == Mark(Mark(Mark(w.jobs[jid].steps, 1, "VALIDATING"), 2, "RESERVING"), 3, "CLONING_VM")
  {
  }

  lemma ReconfigSteps(w: World, jid: Id, id: Id, node: string, vmid: int, env: JobEnv)
    requires jid in w.jobs && id in w.rows
    ensures var p := Reconfigured(w, jid, id, node, vmid, env);
            p.Ok? ==> p.w.jobs[jid].steps == Mark(w.jobs[jid].steps, 4, "CONFIGURING_CLOUD_INIT")
                      && p.w.rows[id].runtimeClass == w.rows[id].runtimeClass
  {
  }

  lemma ConfigSteps(w: World, jid: Id, id: Id, node: string, vmid: int, env: JobEnv)
    requires jid in w.jobs && id in w.rows
    ensures var p := ConfigureVm(w, jid, id, node, vmid, env);
            p.Ok? ==> p.w.jobs[jid].steps == Mark(w.jobs[jid].steps, 4, "CONFIGURING_CLOUD_INIT")
                      && p.w.rows[id].runtimeClass == w.rows[id].runtimeClass
  {
    var r := w.rows[id];
    var w1 := Configured(Step(w, jid, 4, "CONFIGURING_CLOUD_INIT", StepRunning), id, r.templateNode, vmid, None, Marker(id, r, node, vmid, env), env.configure);
    ReconfigSteps(w1, jid, id, node, vmid, env);
  }

  lemma ReserveSteps(w: World, jid: Id, id: Id, s: Settings, node: string, vmid: int, env: JobEnv)
    requires jid in w.jobs && id in w.rows
    ensures var p, before := ReserveAddress(w, jid, id, s, node, vmid, env), w.jobs[jid].steps;
            p.Ok? ==> p.w.jobs[jid].steps == if w.rows[id].runtimeClass == "sandbox" then Mark(before, 4, "SANDBOX_DHCP_RESERVE") else before
  {
  }

  function LastMarks(steps: map<int, StepRow>): map<int, StepRow> {
    Mark(Mark(Mark(Mark(steps, 5, "BOOTING"), 6, "WAITING_GUEST"), 7, "INJECTING_BRIDGE_CONFIG"), 8, "HERMES_STATE_BRANCH")
  }

  lemma LastSteps(w: World, jid: Id, id: Id, node: string, vmid: int, env: JobEnv)
    requires jid in w.jobs && id in w.rows
    ensures var p := FromReserve(w, jid, id, node, vmid, env);
            p.Ok? ==> p.w.jobs[jid].steps == LastMarks(w.jobs[jid].steps)
  {
  }

  lemma FromConfigSteps(w: World, jid: Id, id: Id, s: Settings, node: string, vmid: int, env: JobEnv)
    requires jid in w.jobs && id in w.rows
    ensures var p, before := FromConfig(w, jid, id, s, node, vmid, env), w.jobs[jid].steps;
            p.Ok? ==> p.w.jobs[jid].steps == LastMarks(if w.rows[id].runtimeClass == "sandbox" then Mark(before, 4, "SANDBOX_DHCP_RESERVE") else before)
  {
    ReserveSteps(w, jid, id, s, node, vmid, env);
    var p := ReserveAddress(w, jid, id, s, node, vmid, env);
    if p.Ok? {
      LastSteps(p.w, jid, id, node, vmid, env);
    }
  }

  lemma FromCloneSteps(w: World, jid: Id, id: Id, s: Settings, node: string, vmid: int, env: JobEnv)
    requires jid in w.jobs && id in w.rows
    ensures var p := FromClone(w, jid, id, s, node, vmid, env);
            p.Ok? ==> p.w.jobs[jid].steps == LastMarks(Mark(w.jobs[jid].steps, 4, if w.rows[id].runtimeClass == "sandbox" then "SANDBOX_DHCP_RESERVE" else "CONFIGURING_CLOUD_INIT"))
  {
    ConfigSteps(w, jid, id, node, vmid, env);
    var p := ConfigureVm(w, jid, id, node, vmid, env);
    if p.Ok? {
      FromConfigSteps(p.w, jid, id, s, node, vmid, env);
      var before := w.jobs[jid].steps;
      assert Mark(Mark(before, 4, "CONFIGURING_CLOUD_INIT"), 4, "SANDBOX_DHCP_RESERVE") == Mark(before, 4, "SANDBOX_DHCP_RESERVE");
    }
  }

  lemma ProvisionSteps(w: World, jid: Id, id: Id, s: Settings, env: JobEnv)
    requires jid in w.jobs && id in w.rows
    ensures var p := Provision(w, jid, id, s, env);
            var cloned := Mark(Mark(Mark(w.jobs[jid].steps, 1, "VALIDATING"), 2, "RESERVING"), 3, "CLONING_VM");
            p.Ok? ==> p.w.jobs[jid].steps == LastMarks(Mark(cloned, 4, if w.rows[id].runtimeClass == "sandbox" then "SANDBOX_DHCP_RESERVE" else "CONFIGURING_CLOUD_INIT"))
  {
    CloneSteps(w, jid, id, env);
    var p := PlaceAndClone(w, jid, id, env);
    if p.Ok? {
      FromCloneSteps(p.w, jid, id, s, Decide(w, w.rows[id], env).node, env.nextVmid.value, env);
    }
  }

  /** A job that ends DONE has recorded every step under its number and name, and all of them as done. */
  lemma DoneSteps(w: World, jid: Id, s: Settings, env: JobEnv)
    requires jid in w.jobs && w.jobs[jid].state == Queued && w.jobs[jid].runtimeId in w.rows && w.jobs[jid].steps == map[]
    ensures var w' := RunJob(w, jid, s, env);
            jid in w'.jobs && w'.jobs[jid].state == Done ==>
              w'.jobs[jid].steps == FinishedSteps(w.rows[w.jobs[jid].runtimeId].runtimeClass == "sandbox")
  {
    ProvisionSteps(SetJob(w, jid, JobRunning), jid, w.jobs[jid].runtimeId, s, env);
    RunSteps(w, jid, s, env);
  }

  lemma RunSteps(w: World, jid: Id, s: Settings, env: JobEnv)
    requires jid in w.jobs && w.jobs[jid].state == Queued && w.jobs[jid].runtimeId in w.rows
    ensures var p := Provision(SetJob(w, jid, JobRunning), jid, w.jobs[jid].runtimeId, s, env);
            && RunJob(w, jid, s, env).jobs[jid].steps == p.w.jobs[jid].steps
            && (RunJob(w, jid, s, env).jobs[jid].state == Done <==> p.Ok?)
  {
  }
}
