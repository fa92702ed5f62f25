/** Provisioning jobs (server_manager/agent_runtime_manager/services/provisioning.py). Every external call is an
    input that may fail; a job runs as one atomic step. */
module Provisioning {
  import opened Wrappers
  import opened SandboxNetwork
  import opened Fleet
  import opened Proxmox
  import opened Placement

  datatype Request = Request(requestId: string, agentId: string, name: string, runtimeClass: string,
                             templateNode: string, desired: Desired, ttlHours: Option<int>)

  datatype JobEnv = JobEnv(now: int, createdAt: Json, listing: Option<seq<(string, string)>>, nextVmid: Option<int>,
                           storageReady: bool, clone: CallResult, unlocked: bool, configure: CallResult,
                           b0: Byte, b1: Byte, b2: Byte, reconfigure: CallResult, configRead: bool, net: NetEnv,
                           start: CallResult, guestIp: bool, hygiene: bool)

  /** A stretch of a job: it went through, or an exception left it with the world as it was then. */
  datatype Phase = Ok(w: World) | Raise(w: World)

  // ------------------------------------------------------------------ submit

  /** Hours of life for a sandbox: the request or the default, clamped to 1..max. */
  function TtlHours(asked: Option<int>, s: Settings): int {
    var hours := if asked.Some? && asked.value != 0 then asked.value else s.defaultTtlHours;
    var capped := if hours < s.maxTtlHours then hours else s.maxTtlHours;
    if capped < 1 then 1 else capped
  }

  function NewRow(req: Request, s: Settings, now: int): Row {
    Row(req.requestId, req.agentId, req.name, req.runtimeClass, req.templateNode, true, None, None, req.desired, Absent,
        0, None, None, now,
        if req.runtimeClass == "sandbox" then Some(now + TtlHours(req.ttlHours, s) * 3600) else None,
        None, None, None)
  }

  predicate Known(w: World, requestId: string) {
    exists j :: j in w.jobs && w.jobs[j].requestId == requestId
  }

  /** The same request id always means the original job. */
  function Submit(w: World, req: Request, runtimeId: Id, jobId: Id, s: Settings, now: int): World {
    if Known(w, req.requestId) then w else
      var w := w.(rows := w.rows[runtimeId := NewRow(req, s, now)],
                  jobs := w.jobs[jobId := Job(req.requestId, runtimeId, Queued, map[])]);
      Audited(w, Api, "provision_submitted", runtimeId)
  }

  // ------------------------------------------------------------------ the steps of a job

  /** _step: upsert on (job_id, seq). */
  function Step(w: World, jid: Id, sq: int, step: string, state: StepState): (w': World)
    requires jid in w.jobs
    ensures w'.jobs.Keys == w.jobs.Keys && w'.rows == w.rows && w'.log == w.log && w'.vms == w.vms && w'.kea == w.kea
  {
    var job := w.jobs[jid];
    w.(jobs := w.jobs[jid := job.(steps := job.steps[sq := StepRow(step, state)])])
  }

  ghost function Decide(w: World, r: Row, env: JobEnv): Decision {
    Select(w.rows, r.runtimeClass, r.templateNode, Candidates(env.listing))
  }

  function CloneResult(vms: map<int, VM>, vmid: int, how: CallResult): CallResult {
    if vmid in vms then RaisedBefore else how
  }

  function Cloned(w: World, id: Id, node: string, vmid: int, how: CallResult): World {
    Acted(w, Provisioner, Clone, id, node, vmid, w.vms[vmid := VM(node, false, None, Unparseable)], CloneResult(w.vms, vmid, how))
  }

  /** The config POST goes to the template node, so it fails unless the VM is there. */
  function ConfigResult(vms: map<int, VM>, template: string, vmid: int, how: CallResult): CallResult {
    if Lookup(vms, template, vmid).None? then RaisedBefore else how
  }

  function Configured(w: World, id: Id, template: string, vmid: int, mac: Option<string>, d: Description, how: CallResult): World {
    var vms' := if vmid in w.vms then w.vms[vmid := w.vms[vmid].(mac := mac, description := d)] else w.vms;
    Acted(w, Provisioner, Configure, id, template, vmid, vms', ConfigResult(w.vms, template, vmid, how))
  }

  function CloneOnto(w: World, jid: Id, id: Id, node: string, env: JobEnv): (p: Phase)
    requires jid in w.jobs
    ensures p.w.jobs.Keys == w.jobs.Keys && p.w.rows == w.rows
    ensures p.Ok? ==> env.nextVmid.Some?
  {
    var w := Step(w, jid, 3, "CLONING_VM", StepRunning);
    if env.nextVmid.None? || !env.storageReady then Raise(w) else
      var made := CloneResult(w.vms, env.nextVmid.value, env.clone).Returned?;
      var w := Cloned(w, id, node, env.nextVmid.value, env.clone);
      if !made || !env.unlocked then Raise(w) else
        var w := Audited(w, Provisioner, "vm_cloned", id);
        Ok(Step(w, jid, 3, "CLONING_VM", StepDone))
  }

  ghost function PlaceAndClone(w: World, jid: Id, id: Id, env: JobEnv): (p: Phase)
    requires jid in w.jobs && id in w.rows
    ensures p.w.jobs.Keys == w.jobs.Keys && p.w.rows.Keys == w.rows.Keys
    ensures p.Ok? ==> env.nextVmid.Some?
    ensures p.Ok? ==> Decide(w, w.rows[id], env).Placed?
  {
    var r, d := w.rows[id], Decide(w, w.rows[id], env);
    var w := Step(w, jid, 1, "VALIDATING", StepRunning);
    if r.agentId == "" then Raise(w) else
      var w := Step(w, jid, 1, "VALIDATING", StepDone);
      var w := Step(w, jid, 2, "RESERVING", StepDone);
      var w := Step(w, jid, 3, "PLACING", StepRunning);
      if d.Rejected? || d.node == "" then Raise(Step(w, jid, 3, "PLACING", StepFailed)) else
        var w := Audited(w, Provisioner, "placement_selected", id);
        CloneOnto(Step(w, jid, 3, "PLACING", StepDone), jid, id, d.node, env)
  }

  function Marker(id: Id, r: Row, node: string, vmid: int, env: JobEnv): Description {
    Object(OwnershipMarker(id, r, node, vmid, r.templateNode, env.createdAt))
  }

  function ConfigureVm(w: World, jid: Id, id: Id, node: string, vmid: int, env: JobEnv): (p: Phase)
    requires jid in w.jobs && id in w.rows
    ensures p.w.jobs.Keys == w.jobs.Keys && p.w.rows.Keys == w.rows.Keys
  {
    var r := w.rows[id];
    var d := Marker(id, r, node, vmid, env);
    var w := Step(w, jid, 4, "CONFIGURING_CLOUD_INIT", StepRunning);
    var first := ConfigResult(w.vms, r.templateNode, vmid, env.configure).Returned?;
    var w := Configured(w, id, r.templateNode, vmid, None, d, env.configure);
    if !first then Raise(w) else Reconfigured(w, jid, id, node, vmid, env)
  }

  /** The second config write, the one that pins a sandbox's MAC. */
  function Reconfigured(w: World, jid: Id, id: Id, node: string, vmid: int, env: JobEnv): (p: Phase)
    requires jid in w.jobs && id in w.rows
    ensures p.w.jobs.Keys == w.jobs.Keys && p.w.rows.Keys == w.rows.Keys
  {
    var r := w.rows[id];
    var d := Marker(id, r, node, vmid, env);
    var mac := if r.runtimeClass == "sandbox" then Some(GenerateMac(env.b0, env.b1, env.b2)) else None;
    var second := ConfigResult(w.vms, r.templateNode, vmid, env.reconfigure).Returned?;
    var w := Configured(w, id, r.templateNode, vmid, mac, d, env.reconfigure);
    if !second then Raise(w) else
      var w := if mac.Some? then w.(rows := w.rows[id := r.(sandboxMac := mac, updatedAt := env.now)]) else w;
      Ok(Step(w, jid, 4, "CONFIGURING_CLOUD_INIT", StepDone))
  }

  /** Decimal digits. */
  function Digits(n: nat): string {
    if n < 10 then ['0' + n as char] else Digits(n / 10) + ['0' + (n % 10) as char]
  }

  /** The runtime's name, or one made from the VM id. */
  function HostName(r: Row, vmid: int): string {
    if r.name != "" then r.name else "sbx-" + (if vmid < 0 then "-" + Digits(-vmid) else Digits(vmid))
  }

  /** The MAC on record, or failing that the one in the VM's configuration; a configuration that cannot be read has
      none. */
  function NicMac(r: Row, vms: map<int, VM>, node: string, vmid: int, readable: bool): string {
    if r.sandboxMac.GetOr("") != "" then r.sandboxMac.value
    else if !readable then ""
    else match Lookup(vms, node, vmid)
      case None => ""
      case Some(vm) => vm.mac.GetOr("")
  }

  function AgentName(r: Row): string {
    if |r.agentId| <= 48 then r.agentId else r.agentId[..48]
  }

  /** The address gate of a sandbox: no reservation, no boot. */
  function ReserveAddress(w: World, jid: Id, id: Id, s: Settings, node: string, vmid: int, env: JobEnv): (p: Phase)
    requires jid in w.jobs && id in w.rows
    ensures p.w.jobs.Keys == w.jobs.Keys && p.w.rows.Keys == w.rows.Keys
  {
    var r := w.rows[id];
    if r.runtimeClass != "sandbox" then Ok(w) else
      var w := Step(w, jid, 4, "SANDBOX_DHCP_RESERVE", StepRunning);
      if !s.sandboxNetworkEnabled then Raise(Step(w, jid, 4, "SANDBOX_DHCP_RESERVE", StepFailed)) else
        var (kea, rec) := Cycle(w.kea, s.poolLo, s.poolHi, NicMac(r, w.vms, node, vmid, env.configRead), HostName(r, vmid),
                                r.requestId, AgentName(r), env.net);
        var w := w.(kea := kea);
        if rec.Failure? then
          Raise(Audited(Step(w, jid, 4, "SANDBOX_DHCP_RESERVE", StepFailed), Provisioner, "sandbox_reservation_failed", id))
        else
          var w := w.(rows := w.rows[id := r.(sandboxIp := Some(rec.value.ip), sandboxMac := Some(rec.value.mac),
                                              reservation := Some(rec.value.uuid), updatedAt := env.now)]);
          var w := Audited(w, Provisioner, "sandbox_reservation_created", id);
          Ok(Step(w, jid, 4, "SANDBOX_DHCP_RESERVE", StepDone))
  }

  function Boot(w: World, jid: Id, id: Id, node: string, vmid: int, env: JobEnv): (p: Phase)
    requires jid in w.jobs && id in w.rows
    ensures p.w.jobs.Keys == w.jobs.Keys && p.w.rows.Keys == w.rows.Keys
  {
    var w := Step(w, jid, 5, "BOOTING", StepRunning);
    var w := StartedVm(w, Provisioner, id, node, vmid, env.start);
    if !env.start.Returned? || !env.guestIp then Raise(w) else
      var w := Step(w, jid, 5, "BOOTING", StepDone);
      var w := Step(w, jid, 6, "HYGIENE_GATE", StepRunning);
      if !env.hygiene then Raise(Audited(w, Provisioner, "clone_hygiene_failed", id))
      else Ok(Step(w, jid, 6, "HYGIENE_GATE", StepDone))
  }

  function Bootstrap(w: World, jid: Id): (w': World)
    requires jid in w.jobs
    ensures w'.jobs.Keys == w.jobs.Keys && w'.rows == w.rows
  {
    var w := Step(w, jid, 6, "WAITING_GUEST", StepDone);
    var w := Step(w, jid, 7, "INJECTING_BRIDGE_CONFIG", StepRunning);
    var w := Step(w, jid, 7, "INJECTING_BRIDGE_CONFIG", StepDone);
    var w := Step(w, jid, 8, "HERMES_STATE_BRANCH", StepRunning);
    Step(w, jid, 8, "HERMES_STATE_BRANCH", StepDone)
  }

  // The phases of a job that are left after the clone, after the configuration, after the reservation.

  function FromClone(w: World, jid: Id, id: Id, s: Settings, node: string, vmid: int, env: JobEnv): (p: Phase)
    requires jid in w.jobs && id in w.rows
    ensures p.w.jobs.Keys == w.jobs.Keys && p.w.rows.Keys == w.rows.Keys
  {
    var q := ConfigureVm(w, jid, id, node, vmid, env);
    if q.Ok? then FromConfig(q.w, jid, id, s, node, vmid, env) else q
  }

  function FromConfig(w: World, jid: Id, id: Id, s: Settings, node: string, vmid: int, env: JobEnv): (p: Phase)
    requires jid in w.jobs && id in w.rows
    ensures p.w.jobs.Keys == w.jobs.Keys && p.w.rows.Keys == w.rows.Keys
  {
    var q := ReserveAddress(w, jid, id, s, node, vmid, env);
    if q.Ok? then FromReserve(q.w, jid, id, node, vmid, env) else q
  }

  function FromReserve(w: World, jid: Id, id: Id, node: string, vmid: int, env: JobEnv): (p: Phase)
    requires jid in w.jobs && id in w.rows
    ensures p.w.jobs.Keys == w.jobs.Keys && p.w.rows.Keys == w.rows.Keys
  {
    var q := Boot(w, jid, id, node, vmid, env);
    if q.Ok? then Ok(Bootstrap(q.w, jid)) else q
  }

  ghost function Provision(w: World, jid: Id, id: Id, s: Settings, env: JobEnv): (p: Phase)
    requires jid in w.jobs && id in w.rows
    ensures p.w.jobs.Keys == w.jobs.Keys && p.w.rows.Keys == w.rows.Keys
    ensures p.Ok? ==> env.nextVmid.Some? && Decide(w, w.rows[id], env).Placed?
  {
    var q := PlaceAndClone(w, jid, id, env);
    if q.Ok? then FromClone(q.w, jid, id, s, Decide(w, w.rows[id], env).node, env.nextVmid.value, env) else q
  }

  function SetJob(w: World, jid: Id, state: JobState): World
    requires jid in w.jobs
  {
    w.(jobs := w.jobs[jid := w.jobs[jid].(state := state)])
  }

  /** A queued job runs to DONE or FAILED; any other job is left alone. */
  ghost function RunJob(w: World, jid: Id, s: Settings, env: JobEnv): World {
    if jid !in w.jobs || w.jobs[jid].state != Queued || w.jobs[jid].runtimeId !in w.rows then w else
      var id := w.jobs[jid].runtimeId;
      var d := Decide(w, w.rows[id], env);
      match Provision(SetJob(w, jid, JobRunning), jid, id, s, env)
      case Ok(w) => Completed(w, jid, id, d.node, env)
      case Raise(w) => JobFailed(w, jid, id, env)
  }

  function Completed(w: World, jid: Id, id: Id, node: string, env: JobEnv): World
    requires jid in w.jobs && id in w.rows
  {
    var w := w.(rows := w.rows[id := w.rows[id].(actual := Running, vmid := env.nextVmid, node := Some(node), updatedAt := env.now)]);
    Audited(SetJob(w, jid, Done), Provisioner, "provision_complete", id)
  }

  function JobFailed(w: World, jid: Id, id: Id, env: JobEnv): World
    requires jid in w.jobs && id in w.rows
  {
    var w := w.(rows := w.rows[id := w.rows[id].(actual := Error, updatedAt := env.now)]);
    Audited(SetJob(w, jid, Failed), Provisioner, "provision_failed", id)
  }

  // ------------------------------------------------------------------ the service

  class ProvisioningService {
    const cluster: Cluster
    const settings: Settings
    const network: SandboxNetworkService

    ghost predicate Wired()
    {
      network.client == cluster.kea && network.lo == settings.poolLo && network.hi == settings.poolHi
    }

    constructor (cluster: Cluster, settings: Settings)
      ensures Wired() && this.cluster == cluster && this.settings == settings
    {
      this.cluster, this.settings := cluster, settings;
      this.network := new SandboxNetworkService(cluster.kea, settings.poolLo, settings.poolHi);
    }

    method SubmitRequest(req: Request, runtimeId: Id, jobId: Id, now: int)
      modifies cluster
      ensures cluster.View() == Submit(old(cluster.View()), req, runtimeId, jobId, settings, now)
    {
      if exists j :: j in cluster.jobs && cluster.jobs[j].requestId == req.requestId {
        return;
      }
      cluster.rows := cluster.rows[runtimeId := NewRow(req, settings, now)];
      cluster.jobs := cluster.jobs[jobId := Job(req.requestId, runtimeId, Queued, map[])];
      cluster.Record(Api, "provision_submitted", runtimeId);
    }

    method RecordStep(jid: Id, sq: int, step: string, state: StepState)
      requires jid in cluster.jobs
      modifies cluster
      ensures cluster.View() == Step(old(cluster.View()), jid, sq, step, state)
    {
      var job := cluster.jobs[jid];
      cluster.jobs := cluster.jobs[jid := job.(steps := job.steps[sq := StepRow(step, state)])];
    }

    method PlaceClone(jid: Id, id: Id, env: JobEnv) returns (ok: bool, node: string)
      requires jid in cluster.jobs && id in cluster.rows
      modifies cluster
      ensures var p := PlaceAndClone(old(cluster.View()), jid, id, env); p.w == cluster.View() && p.Ok? == ok
      ensures ok ==> var d := Decide(old(cluster.View()), old(cluster.rows)[id], env); d.Placed? && d.node == node
    {
      var r := cluster.rows[id];
      ok, node := false, "";
      RecordStep(jid, 1, "VALIDATING", StepRunning);
      if r.agentId == "" {
        return;
      }
      RecordStep(jid, 1, "VALIDATING", StepDone);
      RecordStep(jid, 2, "RESERVING", StepDone);
      RecordStep(jid, 3, "PLACING", StepRunning);
      var d := SelectNode(cluster.rows, env.listing, r.runtimeClass, r.templateNode);
      if d.Rejected? || d.node == "" {
        RecordStep(jid, 3, "PLACING", StepFailed);
        return;
      }
      node := d.node;
      cluster.Record(Provisioner, "placement_selected", id);
      RecordStep(jid, 3, "PLACING", StepDone);
      RecordStep(jid, 3, "CLONING_VM", StepRunning);
      if env.nextVmid.None? || !env.storageReady {
        return;
      }
      var vmid := env.nextVmid.value;
      var made := cluster.Act(Provisioner, Clone, id, node, vmid, cluster.vms[vmid := VM(node, false, None, Unparseable)],
                              CloneResult(cluster.vms, vmid, env.clone));
      if !made || !env.unlocked {
        return;
      }
      cluster.Record(Provisioner, "vm_cloned", id);
      RecordStep(jid, 3, "CLONING_VM", StepDone);
      ok := true;
    }

    method WriteCloudInit(jid: Id, id: Id, node: string, vmid: int, env: JobEnv) returns (ok: bool)
      requires jid in cluster.jobs && id in cluster.rows
      modifies cluster
      ensures var p := ConfigureVm(old(cluster.View()), jid, id, node, vmid, env); p.w == cluster.View() && p.Ok? == ok
    {
      var r := cluster.rows[id];
      var d := Marker(id, r, node, vmid, env);
      RecordStep(jid, 4, "CONFIGURING_CLOUD_INIT", StepRunning);
      ok := WriteConfig(id, r.templateNode, vmid, None, d, env.configure);
      if !ok {
        return;
      }
      var mac := if r.runtimeClass == "sandbox" then Some(GenerateMac(env.b0, env.b1, env.b2)) else None;
      ok := WriteConfig(id, r.templateNode, vmid, mac, d, env.reconfigure);
      if !ok {
        return;
      }
      if mac.Some? {
        cluster.rows := cluster.rows[id := r.(sandboxMac := mac, updatedAt := env.now)];
      }
      RecordStep(jid, 4, "CONFIGURING_CLOUD_INIT", StepDone);
    }

    method WriteConfig(id: Id, template: string, vmid: int, mac: Option<string>, d: Description, how: CallResult)
      returns (ok: bool)
      modifies cluster
      ensures cluster.View() == Configured(old(cluster.View()), id, template, vmid, mac, d, how)
      ensures ok == ConfigResult(old(cluster.vms), template, vmid, how).Returned?
    {
      var vms' := if vmid in cluster.vms then cluster.vms[vmid := cluster.vms[vmid].(mac := mac, description := d)]
                  else cluster.vms;
      ok := cluster.Act(Provisioner, Configure, id, template, vmid, vms', ConfigResult(cluster.vms, template, vmid, how));
    }

    method PinAddress(jid: Id, id: Id, node: string, vmid: int, env: JobEnv) returns (ok: bool)
      requires Wired() && jid in cluster.jobs && id in cluster.rows
      modifies cluster, cluster.kea
      ensures var p := ReserveAddress(old(cluster.View()), jid, id, settings, node, vmid, env); p.w == cluster.View() && p.Ok? == ok
    {
      var r := cluster.rows[id];
      if r.runtimeClass != "sandbox" {
        return true;
      }
      RecordStep(jid, 4, "SANDBOX_DHCP_RESERVE", StepRunning);
      if !settings.sandboxNetworkEnabled {
        RecordStep(jid, 4, "SANDBOX_DHCP_RESERVE", StepFailed);
        return false;
      }
      var mac := ReadNicMac(r, node, vmid, env.configRead);
      var rec := AddressCycle(r, mac, vmid, env.net);
      if rec.Failure? {
        RecordStep(jid, 4, "SANDBOX_DHCP_RESERVE", StepFailed);
        cluster.Record(Provisioner, "sandbox_reservation_failed", id);
        return false;
      }
      cluster.rows := cluster.rows[id := r.(sandboxIp := Some(rec.value.ip), sandboxMac := Some(rec.value.mac),
                                            reservation := Some(rec.value.uuid), updatedAt := env.now)];
      cluster.Record(Provisioner, "sandbox_reservation_created", id);
      RecordStep(jid, 4, "SANDBOX_DHCP_RESERVE", StepDone);
      return true;
    }

    method ReadNicMac(r: Row, node: string, vmid: int, readable: bool) returns (mac: string)
      ensures mac == NicMac(r, cluster.vms, node, vmid, readable)
    {
      mac := r.sandboxMac.GetOr("");
      if mac == "" && readable {
        var vm := Lookup(cluster.vms, node, vmid);
        if vm.Some? {
          mac := vm.value.mac.GetOr("");
        }
      }
    }

    method AddressCycle(r: Row, mac: string, vmid: int, env: NetEnv) returns (rec: Result<Record, NetError>)
      requires Wired()
      modifies cluster.kea
      ensures (cluster.kea.rows, rec) == Cycle(old(cluster.kea.rows), settings.poolLo, settings.poolHi,
                                               mac, HostName(r, vmid), r.requestId, AgentName(r), env)
    {
      if !env.listed || env.leased.None? {
        return Failure(Unavailable);
      }
      var a := network.Allocate(env.leased.value, env.alive);
      if a.Failure? {
        return Failure(a.error);
      }
      var (ip, existing) := a.value;
      rec := network.ReserveForMac(ip, mac, HostName(r, vmid), r.requestId, AgentName(r), existing, env);
      if rec.Failure? {
        return;
      }
      var e := network.VerifyReserved(ip, env);
      if e.Some? {
        return Failure(e.value);
      }
    }

    method StartAndCheck(jid: Id, id: Id, node: string, vmid: int, env: JobEnv) returns (ok: bool)
      requires jid in cluster.jobs && id in cluster.rows
      modifies cluster
      ensures var p := Boot(old(cluster.View()), jid, id, node, vmid, env); p.w == cluster.View() && p.Ok? == ok
    {
      RecordStep(jid, 5, "BOOTING", StepRunning);
      ok := cluster.StartVm(Provisioner, id, node, vmid, env.start);
      if !ok || !env.guestIp {
        return false;
      }
      RecordStep(jid, 5, "BOOTING", StepDone);
      RecordStep(jid, 6, "HYGIENE_GATE", StepRunning);
      if !env.hygiene {
        cluster.Record(Provisioner, "clone_hygiene_failed", id);
        return false;
      }
      RecordStep(jid, 6, "HYGIENE_GATE", StepDone);
    }

    method BootstrapHermes(jid: Id)
      requires jid in cluster.jobs
      modifies cluster
      ensures cluster.View() == Bootstrap(old(cluster.View()), jid)
    {
      RecordStep(jid, 6, "WAITING_GUEST", StepDone);
      RecordStep(jid, 7, "INJECTING_BRIDGE_CONFIG", StepRunning);
      RecordStep(jid, 7, "INJECTING_BRIDGE_CONFIG", StepDone);
      RecordStep(jid, 8, "HERMES_STATE_BRANCH", StepRunning);
      RecordStep(jid, 8, "HERMES_STATE_BRANCH", StepDone);
    }

    method ProvisionVm(jid: Id, id: Id, env: JobEnv) returns (ok: bool, node: string)
      requires Wired() && jid in cluster.jobs && id in cluster.rows
      modifies cluster, cluster.kea
      ensures var p := Provision(old(cluster.View()), jid, id, settings, env); p.w == cluster.View() && p.Ok? == ok
      ensures ok ==> var d := Decide(old(cluster.View()), old(cluster.rows)[id], env); d.Placed? && d.node == node
      ensures ok ==> env.nextVmid.Some?
    {
      ok, node := PlaceClone(jid, id, env);
      if !ok { return; }
      ok := WriteCloudInit(jid, id, node, env.nextVmid.value, env);
      if !ok { return; }
      ok := PinAddress(jid, id, node, env.nextVmid.value, env);
      if !ok { return; }
      ok := StartAndCheck(jid, id, node, env.nextVmid.value, env);
      if !ok { return; }
      BootstrapHermes(jid);
    }

    method Run(jid: Id, env: JobEnv)
      requires Wired()
      modifies cluster, cluster.kea
      ensures cluster.View() == RunJob(old(cluster.View()), jid, settings, env)
    {
      if jid !in cluster.jobs || cluster.jobs[jid].state != Queued || cluster.jobs[jid].runtimeId !in cluster.rows {
        return;
      }
      var id := cluster.jobs[jid].runtimeId;
      cluster.jobs := cluster.jobs[jid := cluster.jobs[jid].(state := JobRunning)];
      var ok, node := ProvisionVm(jid, id, env);
      if ok {
        Complete(jid, id, node, env);
      } else {
        Fail(jid, id, env);
      }
    }

    method Complete(jid: Id, id: Id, node: string, env: JobEnv)
      requires jid in cluster.jobs && id in cluster.rows
      modifies cluster
      ensures cluster.View() == Completed(old(cluster.View()), jid, id, node, env)
    {
      var r := cluster.rows[id];
      cluster.rows := cluster.rows[id := r.(actual := Running, vmid := env.nextVmid, node := Some(node), updatedAt := env.now)];
      cluster.jobs := cluster.jobs[jid := cluster.jobs[jid].(state := Done)];
      cluster.Record(Provisioner, "provision_complete", id);
    }

    method Fail(jid: Id, id: Id, env: JobEnv)
      requires jid in cluster.jobs && id in cluster.rows
      modifies cluster
      ensures cluster.View() == JobFailed(old(cluster.View()), jid, id, env)
    {
      cluster.rows := cluster.rows[id := cluster.rows[id].(actual := Error, updatedAt := env.now)];
      cluster.jobs := cluster.jobs[jid := cluster.jobs[jid].(state := Failed)];
      cluster.Record(Provisioner, "provision_failed", id);
    }
  }
}
