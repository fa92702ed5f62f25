/** The lifecycle routes of the Agent Runtime Manager (server_manager/agent_runtime_manager/api/v1.py). */
module ArmApi {
  import opened Wrappers
  import opened SandboxNetwork
  import opened Fleet
  import opened Proxmox
  import opened Provisioning

  datatype Status = Accepted | NotFound | Conflict | Unprocessable | Forbidden | ServerError

  datatype DestroyEnv = DestroyEnv(now: int, answers: OwnershipReads, clean: CallResult, force: CallResult,
                                   destroy: CallResult, listed: bool, release: CallResult)

  function Put(w: World, id: Id, r: Row): World {
    w.(rows := w.rows[id := r])
  }

  /** A row as it is flushed: `updated_at` moves only when a column changes. */
  function Flushed(r: Row, r': Row, now: int): Row {
    if r' == r then r else r'.(updatedAt := now)
  }

  function SetDesired(w: World, id: Id, desired: Desired, now: int): (World, Status) {
    if id !in w.rows then (w, NotFound)
    else (Audited(Put(w, id, Flushed(w.rows[id], w.rows[id].(desired := desired), now)), Api, "desired_state_set", id), Accepted)
  }

  function Supersede(w: World, id: Id, live: Id, now: int): (World, Status) {
    if id !in w.rows || live !in w.rows then (w, NotFound)
    else if id == live then (w, Unprocessable)
    else
      var r := w.rows[id];
      if r.actual == Superseded then (w, Conflict)
      else if r.vmid.Some? || r.node.Some? then (w, Conflict)
      else if r.actual == Running then (w, Conflict)
      else (Audited(Put(w, id, r.(actual := Superseded, updatedAt := now)), Api, "runtime_superseded", id), Accepted)
  }

  function ReleaseAfterDestroy(w: World, id: Id, env: DestroyEnv): World
    requires id in w.rows
  {
    var r := w.rows[id];
    if r.sandboxIp.None? || r.reservation.None? then w
    else
      var (kea, e) := Release(w.kea, r.sandboxIp.value, env.listed, env.release);
      Audited(w.(kea := kea), Api, if e.None? then "sandbox_reservation_released" else "sandbox_reservation_release_failed", id)
  }

  /** Ownership, audit, clean stop, destroy; any exception leaves the row as it was. */
  function DestroyRuntime(w: World, id: Id, s: Settings, env: DestroyEnv): (World, Status) {
    if id !in w.rows then (w, NotFound)
    else if w.rows[id].vmid.None? || w.rows[id].node.None? then (w, Conflict)
    else
      var r := w.rows[id];
      var node, vmid := r.node.value, r.vmid.value;
      match VerifyOwnership(w.vms, node, vmid, id, r, s.protectedVmids, env.answers)
      case Refused => (Audited(w, Api, "destroy_refused", id), Forbidden)
      case Crashed => (w, ServerError)
      case Owned =>
        var w := Audited(w, Api, "destroy_audit", id);
        var w := ShutDownVm(w, Api, id, node, vmid, env.clean, env.force);
        if !(env.clean.Returned? || env.force.Returned?) then (w, ServerError) else
          var w := DestroyedVm(w, Api, id, node, vmid, env.destroy);
          if !env.destroy.Returned? then (w, ServerError) else
            var w := Put(w, id, r.(actual := Destroyed, desired := DesiredDestroyed, vmid := None, node := None, updatedAt := env.now));
            (ReleaseAfterDestroy(Audited(w, Api, "destroy_complete", id), id, env), Accepted)
  }

  function ExtendTtl(w: World, id: Id, hours: int, s: Settings, now: int): (World, Status) {
    if id !in w.rows then (w, NotFound)
    else if w.rows[id].runtimeClass != "sandbox" then (w, Unprocessable)
    else
      var capped := if hours < s.maxTtlHours then hours else s.maxTtlHours;
      var h := if capped < 1 then 1 else capped;
      (Audited(Put(w, id, Flushed(w.rows[id], w.rows[id].(expiresAt := Some(now + h * 3600)), now)), Api, "sandbox_ttl_extended", id), Accepted)
  }

  // ------------------------------------------------------------------ the routes

  class ArmRoutes {
    const cluster: Cluster
    const settings: Settings
    const network: SandboxNetworkService

    ghost predicate Wired()
    {
      network.client == cluster.kea
    }

    constructor (cluster: Cluster, settings: Settings)
      ensures Wired() && this.cluster == cluster && this.settings == settings
    {
      this.cluster, this.settings := cluster, settings;
      this.network := new SandboxNetworkService(cluster.kea, settings.poolLo, settings.poolHi);
    }

    method PostDesiredState(id: Id, desired: Desired, now: int) returns (status: Status)
      modifies cluster
      ensures (cluster.View(), status) == SetDesired(old(cluster.View()), id, desired, now)
    {
      if id !in cluster.rows {
        return NotFound;
      }
      cluster.rows := cluster.rows[id := Flushed(cluster.rows[id], cluster.rows[id].(desired := desired), now)];
      cluster.Record(Api, "desired_state_set", id);
      return Accepted;
    }

    method PostSupersede(id: Id, live: Id, now: int) returns (status: Status)
      modifies cluster
      ensures (cluster.View(), status) == Supersede(old(cluster.View()), id, live, now)
    {
      if id !in cluster.rows || live !in cluster.rows {
        return NotFound;
      }
      if id == live {
        return Unprocessable;
      }
      var r := cluster.rows[id];
      if r.actual == Superseded {
        return Conflict;
      }
      if r.vmid.Some? || r.node.Some? {
        return Conflict;
      }
      if r.actual == Running {
        return Conflict;
      }
      cluster.rows := cluster.rows[id := r.(actual := Superseded, updatedAt := now)];
      cluster.Record(Api, "runtime_superseded", id);
      return Accepted;
    }

    method DeleteRuntime(id: Id, env: DestroyEnv) returns (status: Status)
      requires Wired()
      modifies cluster, cluster.kea
      ensures (cluster.View(), status) == DestroyRuntime(old(cluster.View()), id, settings, env)
    {
      if id !in cluster.rows {
        return NotFound;
      }
      var r := cluster.rows[id];
      if r.vmid.None? || r.node.None? {
        return Conflict;
      }
      var node, vmid := r.node.value, r.vmid.value;
      var owned := VerifyOwnership(cluster.vms, node, vmid, id, r, settings.protectedVmids, env.answers);
      if owned == Refused {
        cluster.Record(Api, "destroy_refused", id);
        return Forbidden;
      }
      if owned == Crashed {
        return ServerError;
      }
      cluster.Record(Api, "destroy_audit", id);
      var ok := cluster.ShutdownVm(Api, id, node, vmid, env.clean, env.force);
      if !ok {
        return ServerError;
      }
      ok := cluster.DestroyVm(Api, id, node, vmid, env.destroy);
      if !ok {
        return ServerError;
      }
      cluster.rows := cluster.rows[id := r.(actual := Destroyed, desired := DesiredDestroyed, vmid := None, node := None, updatedAt := env.now)];
      cluster.Record(Api, "destroy_complete", id);
      ReleaseReservation(id, env);
      return Accepted;
    }

    method ReleaseReservation(id: Id, env: DestroyEnv)
      requires Wired() && id in cluster.rows
      modifies cluster, cluster.kea
      ensures cluster.View() == ReleaseAfterDestroy(old(cluster.View()), id, env)
    {
      var r := cluster.rows[id];
      if r.sandboxIp.Some? && r.reservation.Some? {
        var e := network.ReleaseAddress(r.sandboxIp.value, env.listed, env.release);
        if e.None? {
          cluster.Record(Api, "sandbox_reservation_released", id);
        } else {
          cluster.Record(Api, "sandbox_reservation_release_failed", id);
        }
      }
    }

    method PostExtendTtl(id: Id, hours: int, now: int) returns (status: Status)
      modifies cluster
      ensures (cluster.View(), status) == ExtendTtl(old(cluster.View()), id, hours, settings, now)
    {
      if id !in cluster.rows {
        return NotFound;
      }
      if cluster.rows[id].runtimeClass != "sandbox" {
        return Unprocessable;
      }
      var capped := if hours < settings.maxTtlHours then hours else settings.maxTtlHours;
      var h := if capped < 1 then 1 else capped;
      cluster.rows := cluster.rows[id := Flushed(cluster.rows[id], cluster.rows[id].(expiresAt := Some(now + h * 3600)), now)];
      cluster.Record(Api, "sandbox_ttl_extended", id);
      return Accepted;
    }
  }
}
