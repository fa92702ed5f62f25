/** The tables of the Agent Runtime Manager and the Proxmox inventory it acts on
    (server_manager/agent_runtime_manager/models/orm.py). */
module Fleet {
  import opened Wrappers
  import opened SandboxNetwork

  type Id = string

  datatype Desired = DesiredRunning | DesiredStopped | DesiredDestroyed

  datatype Actual = Absent | Provisioning | Running | Stopped | Error | Destroyed | Superseded

  /** What `last_error` records. */
  datatype Fault = PveUnavailable | OwnershipRefused | CallFailed | RecoveryExhausted(attempts: nat) | NotConverged

  /** A row of agent_runtimes. */
  datatype Row = Row(requestId: string, agentId: string, name: string, runtimeClass: string, templateNode: string,
                     armCreated: bool, node: Option<string>, vmid: Option<int>, desired: Desired, actual: Actual,
                     recoveryCount: nat, lastError: Option<Fault>, lastReconcile: Option<int>, updatedAt: int,
                     expiresAt: Option<int>, sandboxIp: Option<int>, sandboxMac: Option<string>,
                     reservation: Option<int>)

  datatype JobState = Queued | JobRunning | Done | Failed

  datatype StepState = StepRunning | StepDone | StepFailed

  datatype StepRow = StepRow(step: string, state: StepState)

  /** A row of provisioning_jobs with its provisioning_steps, keyed by their unique seq. */
  datatype Job = Job(requestId: string, runtimeId: Id, state: JobState, steps: map<int, StepRow>)

  datatype Json = JString(s: string) | JNumber(n: int) | JBool(b: bool) | JNull

  /** The free-text description of a VM, as json.loads sees it. */
  datatype Description = Unparseable | NotAnObject | Object(fields: map<string, Json>)

  /** VM ids are unique in a cluster, so the inventory is keyed by them. */
  datatype VM = VM(node: string, running: bool, mac: Option<string>, description: Description)

  datatype Actor = Reconciler | Provisioner | Api

  datatype Op = Clone | Configure | Start | Shutdown | StopForce | Destroy

  /** The log interleaves audit events with the provider calls made, each with what it met. */
  datatype Entry =
    | Audit(actor: Actor, action: string, runtime: Id)
    | Call(actor: Actor, op: Op, runtime: Id, node: string, vmid: int,
           target: Option<VM>, reserved: seq<Reservation>, returned: bool)

  datatype World = World(rows: map<Id, Row>, jobs: map<Id, Job>, vms: map<int, VM>,
                         kea: seq<Reservation>, log: seq<Entry>)

  datatype Settings = Settings(protectedVmids: set<int>, maxAttempts: nat, poolLo: int, poolHi: int,
                               sandboxNetworkEnabled: bool, defaultTtlHours: int, maxTtlHours: int)

  function Lookup(vms: map<int, VM>, node: string, vmid: int): Option<VM> {
    if vmid in vms && vms[vmid].node == node then Some(vms[vmid]) else None
  }

  predicate Backed(r: Row) {
    r.node.Some? && r.vmid.Some?
  }

  /** A mutating provider call: the log entry, and the effect if it was applied. */
  function Acted(w: World, actor: Actor, op: Op, id: Id, node: string, vmid: int, vms': map<int, VM>, how: CallResult): World {
    w.(vms := if how.Applied() then vms' else w.vms,
       log := w.log + [Call(actor, op, id, node, vmid, Lookup(w.vms, node, vmid), w.kea, how.Returned?)])
  }

  function Audited(w: World, actor: Actor, action: string, id: Id): World {
    w.(log := w.log + [Audit(actor, action, id)])
  }

  function Powered(vms: map<int, VM>, node: string, vmid: int, running: bool): map<int, VM> {
    if Lookup(vms, node, vmid).Some? then vms[vmid := vms[vmid].(running := running)] else vms
  }

  // ------------------------------------------------------------------ the mutable tables

  /** The database session, the Proxmox API and the Kea client the services share. */
  class Cluster {
    var rows: map<Id, Row>
    var jobs: map<Id, Job>
    var vms: map<int, VM>
    var log: seq<Entry>
    const kea: KeaClient

    constructor (kea: KeaClient)
      ensures this.kea == kea && View() == World(map[], map[], map[], kea.rows, [])
    {
      rows, jobs, vms, log := map[], map[], map[], [];
      this.kea := kea;
    }

    ghost function View(): World
      reads this, kea
    {
      World(rows, jobs, vms, kea.rows, log)
    }

    method Record(actor: Actor, action: string, id: Id)
      modifies this
      ensures View() == Audited(old(View()), actor, action, id)
    {
      log := log + [Audit(actor, action, id)];
    }

    /** The common part of every provider call that changes the inventory. */
    method Act(actor: Actor, op: Op, id: Id, node: string, vmid: int, vms': map<int, VM>, how: CallResult)
      returns (ok: bool)
      modifies this
      ensures View() == Acted(old(View()), actor, op, id, node, vmid, vms', how) && ok == how.Returned?
    {
      log := log + [Call(actor, op, id, node, vmid, Lookup(vms, node, vmid), kea.rows, how.Returned?)];
      if how.Applied() {
        vms := vms';
      }
      ok := how.Returned?;
    }

    method StartVm(actor: Actor, id: Id, node: string, vmid: int, how: CallResult) returns (ok: bool)
      modifies this
      ensures View() == StartedVm(old(View()), actor, id, node, vmid, how) && ok == how.Returned?
    {
      ok := Act(actor, Start, id, node, vmid, Powered(vms, node, vmid, true), how);
    }

    /** A clean shutdown that escalates to a forced stop when it raises. */
    method ShutdownVm(actor: Actor, id: Id, node: string, vmid: int, clean: CallResult, force: CallResult) returns (ok: bool)
      modifies this
      ensures View() == ShutDownVm(old(View()), actor, id, node, vmid, clean, force)
      ensures ok == (clean.Returned? || force.Returned?)
    {
      ok := Act(actor, Shutdown, id, node, vmid, Powered(vms, node, vmid, false), clean);
      if !ok {
        ok := Act(actor, StopForce, id, node, vmid, Powered(vms, node, vmid, false), force);
      }
    }

    method DestroyVm(actor: Actor, id: Id, node: string, vmid: int, how: CallResult) returns (ok: bool)
      modifies this
      ensures View() == DestroyedVm(old(View()), actor, id, node, vmid, how) && ok == how.Returned?
    {
      ok := Act(actor, Destroy, id, node, vmid, Removed(vms, node, vmid), how);
    }
  }

  function StartedVm(w: World, actor: Actor, id: Id, node: string, vmid: int, how: CallResult): World {
    Acted(w, actor, Start, id, node, vmid, Powered(w.vms, node, vmid, true), how)
  }

  function ShutDownVm(w: World, actor: Actor, id: Id, node: string, vmid: int, clean: CallResult, force: CallResult): World {
    var w1 := Acted(w, actor, Shutdown, id, node, vmid, Powered(w.vms, node, vmid, false), clean);
    if clean.Returned? then w1
    else Acted(w1, actor, StopForce, id, node, vmid, Powered(w1.vms, node, vmid, false), force)
  }

  function Removed(vms: map<int, VM>, node: string, vmid: int): map<int, VM> {
    if Lookup(vms, node, vmid).Some? then vms - {vmid} else vms
  }

  function DestroyedVm(w: World, actor: Actor, id: Id, node: string, vmid: int, how: CallResult): World {
    Acted(w, actor, Destroy, id, node, vmid, Removed(w.vms, node, vmid), how)
  }
}
