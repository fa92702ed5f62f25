/** What a job does to the world, phase by phase, whichever call fails. */
module ProvisioningFacts {
  import opened Wrappers
  import opened SandboxNetwork
  import opened Fleet
  import opened Proxmox
  import opened Placement
  import opened Provisioning
  import opened Traces

  /** Only the sandbox fields of a row change while its job runs. */
  predicate SameIdentity(r: Row, r': Row) {
    r' == r.(sandboxIp := r'.sandboxIp, sandboxMac := r'.sandboxMac, reservation := r'.reservation, updatedAt := r'.updatedAt)
  }

  /** Step numbers 1..m, everything before m done. */
  ghost predicate StepShape(steps: map<int, StepRow>, m: int) {
    && 0 <= m <= 8
    && (forall i :: i in steps <==> 1 <= i <= m)
    && forall i :: 1 <= i < m ==> steps[i].state == StepDone
  }

  predicate LastDone(steps: map<int, StepRow>, m: int) {
    m >= 1 ==> m in steps && steps[m].state == StepDone
  }

  predicate NewEntry(e: Entry, id: Id, sandbox: bool, protectedVmids: set<int>) {
    && e.runtime == id && e.actor == Provisioner && SafeEntry(e, protectedVmids)
    && (sandbox ==> PinnedStart(e))
    && !Matches(e, CompleteEvent, id) && !Matches(e, FailedEvent, id)
  }

  /** How far a run of job `jid` for runtime `id` has come since `w0`: steps up to `m`, `c` clones. */
  ghost predicate Progress(w0: World, w: World, jid: Id, id: Id, protectedVmids: set<int>, m: int, c: nat) {
    && jid in w0.jobs && id in w0.rows
    && jid in w.jobs && id in w.rows
    && w.rows == w0.rows[id := w.rows[id]] && SameIdentity(w0.rows[id], w.rows[id])
    && w.jobs == w0.jobs[jid := w0.jobs[jid].(steps := w.jobs[jid].steps)]
    && StepShape(w.jobs[jid].steps, m)
    && LogProgress(w0.log, w.log, id, w0.rows[id].runtimeClass == "sandbox", protectedVmids, c)
    && Sound(w.kea) && Foreign(w.kea) == Foreign(w0.kea)
  }

  ghost predicate LogProgress(log0: seq<Entry>, log: seq<Entry>, id: Id, sandbox: bool, protectedVmids: set<int>, c: nat) {
    && log0 <= log
    && (forall i :: |log0| <= i < |log| ==> NewEntry(log[i], id, sandbox, protectedVmids))
    && Count(log, CloneCall, id) == Count(log0, CloneCall, id) + c
    && Count(log, CompleteEvent, id) == Count(log0, CompleteEvent, id)
    && Count(log, FailedEvent, id) == Count(log0, FailedEvent, id)
  }

  lemma LogStep(log0: seq<Entry>, log: seq<Entry>, e: Entry, id: Id, sandbox: bool, protectedVmids: set<int>, c: nat)
    requires LogProgress(log0, log, id, sandbox, protectedVmids, c)
    requires NewEntry(e, id, sandbox, protectedVmids)
    ensures LogProgress(log0, log + [e], id, sandbox, protectedVmids, c + if Matches(e, CloneCall, id) then 1 else 0)
  {
    CountAppend(log, e, CloneCall, id);
    CountAppend(log, e, CompleteEvent, id);
    CountAppend(log, e, FailedEvent, id);
  }

  lemma StepProgress(w0: World, w: World, jid: Id, id: Id, pv: set<int>, m: int, c: nat, sq: int, step: string, st: StepState)
    requires Progress(w0, w, jid, id, pv, m, c) && 1 <= sq <= 8
    requires sq == m || (sq == m + 1 && LastDone(w.jobs[jid].steps, m))
    ensures Progress(w0, Step(w, jid, sq, step, st), jid, id, pv, sq, c)
    ensures st == StepDone ==> LastDone(Step(w, jid, sq, step, st).jobs[jid].steps, sq)
  {
  }

  lemma AuditProgress(w0: World, w: World, jid: Id, id: Id, pv: set<int>, m: int, c: nat, action: string)
    requires Progress(w0, w, jid, id, pv, m, c)
    requires action != "provision_complete" && action != "provision_failed"
    ensures Progress(w0, Audited(w, Provisioner, action, id), jid, id, pv, m, c)
  {
    LogStep(w0.log, w.log, Audit(Provisioner, action, id), id, w0.rows[id].runtimeClass == "sandbox", pv, c);
  }

  lemma CallProgress(w0: World, w: World, jid: Id, id: Id, pv: set<int>, m: int, c: nat,
                     op: Op, node: string, vmid: int, vms': map<int, VM>, how: CallResult)
    requires Progress(w0, w, jid, id, pv, m, c)
    requires var e := Call(Provisioner, op, id, node, vmid, Lookup(w.vms, node, vmid), w.kea, how.Returned?);
             SafeCall(e, pv) && (w0.rows[id].runtimeClass == "sandbox" ==> PinnedStart(e))
    ensures Progress(w0, Acted(w, Provisioner, op, id, node, vmid, vms', how), jid, id, pv, m,
                     c + if op == Clone then 1 else 0)
  {
    var e := Call(Provisioner, op, id, node, vmid, Lookup(w.vms, node, vmid), w.kea, how.Returned?);
    LogStep(w0.log, w.log, e, id, w0.rows[id].runtimeClass == "sandbox", pv, c);
  }

  /** A phase ends after step `m`, or stops somewhere with at most `c` clones. */
  ghost predicate Reached(w0: World, p: Phase, jid: Id, id: Id, pv: set<int>, m: int, c: nat) {
    && (p.Ok? ==> Progress(w0, p.w, jid, id, pv, m, c) && LastDone(p.w.jobs[jid].steps, m))
    && (p.Raise? ==> exists k, d: nat :: d <= c && Progress(w0, p.w, jid, id, pv, k, d))
  }

  /** The steps before the placement. */
  lemma ValidatedFacts(w0: World, jid: Id, id: Id, pv: set<int>)
    requires Progress(w0, w0, jid, id, pv, 0, 0)
    ensures Progress(w0, Step(w0, jid, 1, "VALIDATING", StepRunning), jid, id, pv, 1, 0)
    ensures var w := Step(Step(w0, jid, 1, "VALIDATING", StepRunning), jid, 1, "VALIDATING", StepDone);
            Progress(w0, Step(Step(w, jid, 2, "RESERVING", StepDone), jid, 3, "PLACING", StepRunning), jid, id, pv, 3, 0)
  {
    StepProgress(w0, w0, jid, id, pv, 0, 0, 1, "VALIDATING", StepRunning);
    var w := Step(w0, jid, 1, "VALIDATING", StepRunning);
    StepProgress(w0, w, jid, id, pv, 1, 0, 1, "VALIDATING", StepDone);
    w := Step(w, jid, 1, "VALIDATING", StepDone);
    StepProgress(w0, w, jid, id, pv, 1, 0, 2, "RESERVING", StepDone);
    w := Step(w, jid, 2, "RESERVING", StepDone);
    StepProgress(w0, w, jid, id, pv, 2, 0, 3, "PLACING", StepRunning);
  }

  lemma ReachedRaise(w0: World, w: World, jid: Id, id: Id, pv: set<int>, k: int, d: nat, m: int, c: nat)
    requires Progress(w0, w, jid, id, pv, k, d) && d <= c
    ensures Reached(w0, Raise(w), jid, id, pv, m, c)
  {
  }

  lemma PlaceAndCloneFacts(w0: World, jid: Id, id: Id, pv: set<int>, env: JobEnv)
    requires Progress(w0, w0, jid, id, pv, 0, 0)
    ensures Reached(w0, PlaceAndClone(w0, jid, id, env), jid, id, pv, 3, 1)
  {
    var d, first := Decide(w0, w0.rows[id], env), Step(w0, jid, 1, "VALIDATING", StepRunning);
    ValidatedFacts(w0, jid, id, pv);
    if w0.rows[id].agentId == "" {
      ReachedRaise(w0, first, jid, id, pv, 1, 0, 3, 1);
    } else {
      var w := Step(Step(Step(first, jid, 1, "VALIDATING", StepDone), jid, 2, "RESERVING", StepDone), jid, 3, "PLACING", StepRunning);
      if d.Placed? && d.node != "" {
        PlacedFacts(w0, w, jid, id, pv, d.node, env);
      } else {
        StepProgress(w0, w, jid, id, pv, 3, 0, 3, "PLACING", StepFailed);
        ReachedRaise(w0, Step(w, jid, 3, "PLACING", StepFailed), jid, id, pv, 3, 0, 3, 1);
      }
    }
  }

  lemma PlacedClone(w: World, jid: Id, id: Id, env: JobEnv)
    requires jid in w.jobs && id in w.rows
    ensures var p := PlaceAndClone(w, jid, id, env);
            p.Ok? ==> Lookup(p.w.vms, Decide(w, w.rows[id], env).node, env.nextVmid.value).Some? && p.w.rows == w.rows && p.w.kea == w.kea
  {
  }

  lemma PlacedFacts(w0: World, w1: World, jid: Id, id: Id, pv: set<int>, node: string, env: JobEnv)
    requires Progress(w0, w1, jid, id, pv, 3, 0) && w1.rows == w0.rows
    ensures var p := CloneOnto(Step(Audited(w1, Provisioner, "placement_selected", id), jid, 3, "PLACING", StepDone), jid, id, node, env);
            && Reached(w0, p, jid, id, pv, 3, 1) && p.w.kea == w1.kea && p.w.rows == w0.rows
            && (p.Ok? ==> Lookup(p.w.vms, node, env.nextVmid.value).Some?)
  {
    AuditProgress(w0, w1, jid, id, pv, 3, 0, "placement_selected");
    var w := Audited(w1, Provisioner, "placement_selected", id);
    StepProgress(w0, w, jid, id, pv, 3, 0, 3, "PLACING", StepDone);
    CloneFacts(w0, Step(w, jid, 3, "PLACING", StepDone), jid, id, pv, node, env);
  }

  lemma CloneFacts(w0: World, w1: World, jid: Id, id: Id, pv: set<int>, node: string, env: JobEnv)
    requires Progress(w0, w1, jid, id, pv, 3, 0) && jid in w1.jobs
    ensures var p := CloneOnto(w1, jid, id, node, env);
            && Reached(w0, p, jid, id, pv, 3, 1) && p.w.kea == w1.kea
            && (p.Ok? ==> Lookup(p.w.vms, node, env.nextVmid.value).Some?)
  {
    StepProgress(w0, w1, jid, id, pv, 3, 0, 3, "CLONING_VM", StepRunning);
    if env.nextVmid.Some? && env.storageReady {
      var w, vmid := Step(w1, jid, 3, "CLONING_VM", StepRunning), env.nextVmid.value;
      ClonedFacts(w0, w, jid, id, pv, node, vmid, env.clone);
      UnlockedFacts(w0, Cloned(w, id, node, vmid, env.clone), jid, id, pv);
    }
  }

  /** The clone call. */
  lemma ClonedFacts(w0: World, w: World, jid: Id, id: Id, pv: set<int>, node: string, vmid: int, how: CallResult)
    requires Progress(w0, w, jid, id, pv, 3, 0)
    ensures var w' := Cloned(w, id, node, vmid, how);
            && Progress(w0, w', jid, id, pv, 3, 1) && w'.kea == w.kea
            && (CloneResult(w.vms, vmid, how).Returned? ==> Lookup(w'.vms, node, vmid).Some?)
  {
    CallProgress(w0, w, jid, id, pv, 3, 0, Clone, node, vmid, w.vms[vmid := VM(node, false, None, Unparseable)],
                 CloneResult(w.vms, vmid, how));
  }

  /** The clone's audit and its last step. */
  lemma UnlockedFacts(w0: World, w: World, jid: Id, id: Id, pv: set<int>)
    requires Progress(w0, w, jid, id, pv, 3, 1)
    ensures var w' := Step(Audited(w, Provisioner, "vm_cloned", id), jid, 3, "CLONING_VM", StepDone);
            && Progress(w0, w', jid, id, pv, 3, 1) && LastDone(w'.jobs[jid].steps, 3)
            && w'.kea == w.kea && w'.vms == w.vms
  {
    AuditProgress(w0, w, jid, id, pv, 3, 1, "vm_cloned");
    StepProgress(w0, Audited(w, Provisioner, "vm_cloned", id), jid, id, pv, 3, 1, 3, "CLONING_VM", StepDone);
  }

  /** After a successful configuration the placed VM is marked as the runtime's, and a sandbox NIC is pinned; since
      the config went to the template node, that is where the VM is. */
  ghost predicate Marked(w: World, id: Id, node: string, vmid: int, sandbox: bool) {
    && Lookup(w.vms, node, vmid).Some?
    && Names(w.vms[vmid].description, id)
    && (sandbox ==> w.vms[vmid].mac.Some? && ValidMac(w.vms[vmid].mac.value)
                    && id in w.rows && w.rows[id].sandboxMac.Some?
                    && MacNorm(w.rows[id].sandboxMac.value) == MacNorm(w.vms[vmid].mac.value))
  }

  lemma MetaProgress(w0: World, w: World, jid: Id, id: Id, pv: set<int>, m: int, c: nat, r': Row)
    requires Progress(w0, w, jid, id, pv, m, c) && id in w.rows && SameIdentity(w.rows[id], r')
    ensures Progress(w0, w.(rows := w.rows[id := r']), jid, id, pv, m, c)
  {
  }

  lemma ConfigureFacts(w0: World, w1: World, jid: Id, id: Id, pv: set<int>, node: string, vmid: int, env: JobEnv)
    requires Progress(w0, w1, jid, id, pv, 3, 1) && LastDone(w1.jobs[jid].steps, 3) && jid in w1.jobs && id in w1.rows
    requires Lookup(w1.vms, node, vmid).Some?
    ensures var p := ConfigureVm(w1, jid, id, node, vmid, env);
            && Reached(w0, p, jid, id, pv, 4, 1) && p.w.kea == w1.kea
            && (p.Ok? ==> node == w1.rows[id].templateNode && Marked(p.w, id, node, vmid, w1.rows[id].runtimeClass == "sandbox"))
  {
    var r := w1.rows[id];
    var d := Marker(id, r, node, vmid, env);
    StepProgress(w0, w1, jid, id, pv, 3, 1, 4, "CONFIGURING_CLOUD_INIT", StepRunning);
    var w := Step(w1, jid, 4, "CONFIGURING_CLOUD_INIT", StepRunning);
    ConfiguredFacts(w0, w, jid, id, pv, r.templateNode, vmid, None, d, env.configure);
    var first := ConfigResult(w.vms, r.templateNode, vmid, env.configure).Returned?;
    w := Configured(w, id, r.templateNode, vmid, None, d, env.configure);
    if first {
      ReconfigureFacts(w0, w, jid, id, pv, node, vmid, env);
    }
  }

  lemma ReconfiguredMarks(w: World, jid: Id, id: Id, node: string, vmid: int, env: JobEnv)
    requires jid in w.jobs && id in w.rows && Lookup(w.vms, node, vmid).Some?
    ensures var p := Reconfigured(w, jid, id, node, vmid, env);
            && p.w.kea == w.kea
            && (p.Ok? ==> node == w.rows[id].templateNode && Marked(p.w, id, node, vmid, w.rows[id].runtimeClass == "sandbox"))
  {
    GeneratedMacIsValid(env.b0, env.b1, env.b2);
  }

  lemma ReconfigureFacts(w0: World, w1: World, jid: Id, id: Id, pv: set<int>, node: string, vmid: int, env: JobEnv)
    requires Progress(w0, w1, jid, id, pv, 4, 1) && jid in w1.jobs && id in w1.rows
    requires Lookup(w1.vms, node, vmid).Some?
    ensures var p := Reconfigured(w1, jid, id, node, vmid, env);
            && Reached(w0, p, jid, id, pv, 4, 1) && p.w.kea == w1.kea
            && (p.Ok? ==> node == w1.rows[id].templateNode && Marked(p.w, id, node, vmid, w1.rows[id].runtimeClass == "sandbox"))
  {
    ReconfiguredMarks(w1, jid, id, node, vmid, env);
    var r := w1.rows[id];
    var d, mac := Marker(id, r, node, vmid, env), if r.runtimeClass == "sandbox" then Some(GenerateMac(env.b0, env.b1, env.b2)) else None;
    ConfiguredFacts(w0, w1, jid, id, pv, r.templateNode, vmid, mac, d, env.reconfigure);
    var second := ConfigResult(w1.vms, r.templateNode, vmid, env.reconfigure).Returned?;
    var w := Configured(w1, id, r.templateNode, vmid, mac, d, env.reconfigure);
    if second {
      if mac.Some? {
        MetaProgress(w0, w, jid, id, pv, 4, 1, r.(sandboxMac := mac, updatedAt := env.now));
        w := w.(rows := w.rows[id := r.(sandboxMac := mac, updatedAt := env.now)]);
      }
      StepProgress(w0, w, jid, id, pv, 4, 1, 4, "CONFIGURING_CLOUD_INIT", StepDone);
    }
  }

  lemma ConfiguredFacts(w0: World, w: World, jid: Id, id: Id, pv: set<int>, template: string, vmid: int,
                        mac: Option<string>, d: Description, how: CallResult)
    requires Progress(w0, w, jid, id, pv, 4, 1)
    ensures var w' := Configured(w, id, template, vmid, mac, d, how);
            && Progress(w0, w', jid, id, pv, 4, 1) && w'.rows == w.rows && w'.jobs == w.jobs && w'.kea == w.kea
            && (ConfigResult(w.vms, template, vmid, how).Returned? ==>
                  vmid in w.vms && w.vms[vmid].node == template && w'.vms == w.vms[vmid := w.vms[vmid].(mac := mac, description := d)])
            && (vmid in w.vms ==> vmid in w'.vms && w'.vms[vmid].node == w.vms[vmid].node)
  {
    var vms' := if vmid in w.vms then w.vms[vmid := w.vms[vmid].(mac := mac, description := d)] else w.vms;
    CallProgress(w0, w, jid, id, pv, 4, 1, Configure, template, vmid, vms', ConfigResult(w.vms, template, vmid, how));
  }

  /** The reservation that pins a sandbox's MAC is in the table. */
  ghost predicate Pinned(w: World, vmid: int) {
    && vmid in w.vms && w.vms[vmid].mac.Some?
    && exists r :: r in w.kea && Tagged(r) && r.ip.Some? && MacNorm(r.hw) == MacNorm(w.vms[vmid].mac.value)
  }

  lemma ReserveFacts(w0: World, w1: World, jid: Id, id: Id, s: Settings, node: string, vmid: int, env: JobEnv)
    requires Progress(w0, w1, jid, id, s.protectedVmids, 4, 1) && LastDone(w1.jobs[jid].steps, 4) && jid in w1.jobs && id in w1.rows
    requires Marked(w1, id, node, vmid, w0.rows[id].runtimeClass == "sandbox")
    requires FreshUuid(w1.kea, env.net.newUuid)
    ensures var p := ReserveAddress(w1, jid, id, s, node, vmid, env);
            && Reached(w0, p, jid, id, s.protectedVmids, 4, 1)
            && (p.Ok? ==> p.w.vms == w1.vms && (w0.rows[id].runtimeClass == "sandbox" ==> Pinned(p.w, vmid)))
  {
    var r, pv := w1.rows[id], s.protectedVmids;
    if r.runtimeClass == "sandbox" {
      StepProgress(w0, w1, jid, id, pv, 4, 1, 4, "SANDBOX_DHCP_RESERVE", StepRunning);
      var w := Step(w1, jid, 4, "SANDBOX_DHCP_RESERVE", StepRunning);
      StepProgress(w0, w, jid, id, pv, 4, 1, 4, "SANDBOX_DHCP_RESERVE", StepFailed);
      if s.sandboxNetworkEnabled {
        var mac := NicMac(r, w.vms, node, vmid, env.configRead);
        CycleSafe(w.kea, s.poolLo, s.poolHi, mac, HostName(r, vmid), r.requestId, AgentName(r), env.net);
        var (kea, rec) := Cycle(w.kea, s.poolLo, s.poolHi, mac, HostName(r, vmid), r.requestId, AgentName(r), env.net);
        assert Progress(w0, w.(kea := kea), jid, id, pv, 4, 1);
        if rec.Failure? {
          StepProgress(w0, w.(kea := kea), jid, id, pv, 4, 1, 4, "SANDBOX_DHCP_RESERVE", StepFailed);
          AuditProgress(w0, Step(w.(kea := kea), jid, 4, "SANDBOX_DHCP_RESERVE", StepFailed), jid, id, pv, 4, 1, "sandbox_reservation_failed");
        } else {
          ReservedFacts(w0, w.(kea := kea), jid, id, pv, rec.value, env.now);
          assert Pinned(w.(kea := kea), vmid) by {
            assert Holds(kea, rec.value, mac);
          }
        }
      }
    }
  }

  lemma ReservedFacts(w0: World, w1: World, jid: Id, id: Id, pv: set<int>, rec: Record, now: int)
    requires Progress(w0, w1, jid, id, pv, 4, 1) && id in w1.rows && jid in w1.jobs
    ensures var w := w1.(rows := w1.rows[id := w1.rows[id].(sandboxIp := Some(rec.ip), sandboxMac := Some(rec.mac),
                                                            reservation := Some(rec.uuid), updatedAt := now)]);
            var w := Audited(w, Provisioner, "sandbox_reservation_created", id);
            Reached(w0, Ok(Step(w, jid, 4, "SANDBOX_DHCP_RESERVE", StepDone)), jid, id, pv, 4, 1)
  {
    var r := w1.rows[id].(sandboxIp := Some(rec.ip), sandboxMac := Some(rec.mac), reservation := Some(rec.uuid), updatedAt := now);
    MetaProgress(w0, w1, jid, id, pv, 4, 1, r);
    var w := w1.(rows := w1.rows[id := r]);
    AuditProgress(w0, w, jid, id, pv, 4, 1, "sandbox_reservation_created");
    w := Audited(w, Provisioner, "sandbox_reservation_created", id);
    StepProgress(w0, w, jid, id, pv, 4, 1, 4, "SANDBOX_DHCP_RESERVE", StepDone);
  }

  lemma BootFacts(w0: World, w1: World, jid: Id, id: Id, pv: set<int>, node: string, vmid: int, env: JobEnv)
    requires Progress(w0, w1, jid, id, pv, 4, 1) && LastDone(w1.jobs[jid].steps, 4) && jid in w1.jobs && id in w1.rows
    requires Lookup(w1.vms, node, vmid).Some? && Names(w1.vms[vmid].description, id)
    requires w0.rows[id].runtimeClass == "sandbox" ==> Pinned(w1, vmid)
    ensures Reached(w0, Boot(w1, jid, id, node, vmid, env), jid, id, pv, 6, 1)
  {
    StepProgress(w0, w1, jid, id, pv, 4, 1, 5, "BOOTING", StepRunning);
    var w := Step(w1, jid, 5, "BOOTING", StepRunning);
    CallProgress(w0, w, jid, id, pv, 5, 1, Start, node, vmid, Powered(w.vms, node, vmid, true), env.start);
    w := StartedVm(w, Provisioner, id, node, vmid, env.start);
    if env.start.Returned? && env.guestIp {
      StepProgress(w0, w, jid, id, pv, 5, 1, 5, "BOOTING", StepDone);
      w := Step(w, jid, 5, "BOOTING", StepDone);
      StepProgress(w0, w, jid, id, pv, 5, 1, 6, "HYGIENE_GATE", StepRunning);
      w := Step(w, jid, 6, "HYGIENE_GATE", StepRunning);
      AuditProgress(w0, w, jid, id, pv, 6, 1, "clone_hygiene_failed");
      StepProgress(w0, w, jid, id, pv, 6, 1, 6, "HYGIENE_GATE", StepDone);
    }
  }

  lemma BootstrapFacts(w0: World, w1: World, jid: Id, id: Id, pv: set<int>)
    requires Progress(w0, w1, jid, id, pv, 6, 1) && LastDone(w1.jobs[jid].steps, 6) && jid in w1.jobs
    ensures Reached(w0, Ok(Bootstrap(w1, jid)), jid, id, pv, 8, 1)
  {
    StepProgress(w0, w1, jid, id, pv, 6, 1, 6, "WAITING_GUEST", StepDone);
    var w := Step(w1, jid, 6, "WAITING_GUEST", StepDone);
    StepProgress(w0, w, jid, id, pv, 6, 1, 7, "INJECTING_BRIDGE_CONFIG", StepRunning);
    w := Step(w, jid, 7, "INJECTING_BRIDGE_CONFIG", StepRunning);
    StepProgress(w0, w, jid, id, pv, 7, 1, 7, "INJECTING_BRIDGE_CONFIG", StepDone);
    w := Step(w, jid, 7, "INJECTING_BRIDGE_CONFIG", StepDone);
    StepProgress(w0, w, jid, id, pv, 7, 1, 8, "HERMES_STATE_BRANCH", StepRunning);
    w := Step(w, jid, 8, "HERMES_STATE_BRANCH", StepRunning);
    StepProgress(w0, w, jid, id, pv, 8, 1, 8, "HERMES_STATE_BRANCH", StepDone);
  }

  /** A whole run: all eight steps done and the VM on the template node, or a prefix of the steps and no VM. */
  lemma ProvisionFacts(w0: World, jid: Id, id: Id, s: Settings, env: JobEnv)
    requires Progress(w0, w0, jid, id, s.protectedVmids, 0, 0)
    requires FreshUuid(w0.kea, env.net.newUuid)
    ensures var p := Provision(w0, jid, id, s, env);
            && Reached(w0, p, jid, id, s.protectedVmids, 8, 1)
            && (p.Ok? ==> Decide(w0, w0.rows[id], env).node == w0.rows[id].templateNode)
  {
    var pv, d := s.protectedVmids, Decide(w0, w0.rows[id], env);
    PlaceAndCloneFacts(w0, jid, id, pv, env);
    PlacedClone(w0, jid, id, env);
    var p1 := PlaceAndClone(w0, jid, id, env);
    if p1.Ok? {
      var vmid := env.nextVmid.value;
      ConfigureFacts(w0, p1.w, jid, id, pv, d.node, vmid, env);
      var p2 := ConfigureVm(p1.w, jid, id, d.node, vmid, env);
      if p2.Ok? {
        assert p2.w.kea == w0.kea;
        ReserveFacts(w0, p2.w, jid, id, s, d.node, vmid, env);
        var p3 := ReserveAddress(p2.w, jid, id, s, d.node, env.nextVmid.value, env);
        if p3.Ok? {
          BootFacts(w0, p3.w, jid, id, pv, d.node, vmid, env);
          var p4 := Boot(p3.w, jid, id, d.node, vmid, env);
          if p4.Ok? {
            BootstrapFacts(w0, p4.w, jid, id, pv);
          }
        }
      }
    }
  }
}
