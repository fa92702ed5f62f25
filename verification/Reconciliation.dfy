/** The desired-state reconciler (server_manager/agent_runtime_manager/services/reconciliation.py). Status reads
    are arbitrary (they may be stale); the existence and config reads of the ownership check are truthful when
    they get through. */
module Reconciliation {
  import opened Wrappers
  import opened SandboxNetwork
  import opened Fleet
  import opened Proxmox

  datatype Reading = ReadRunning | ReadStopped | ReadOther | ReadFailed

  datatype PveState = PveRunning | PveStopped | PveOther | PveAbsent | PveUnknown

  datatype Env = Env(now: int, status: Reading, answers: OwnershipReads, start: CallResult,
                     clean: CallResult, force: CallResult, firstPoll: Reading, polls: seq<Reading>)

  datatype Action = NoAction | StartedAction | ShutdownAction | ErrorAction

  datatype Outcome = Outcome(after: Actual, action: Action, error: Option<Fault>)

  /** _pve_vm_state */
  function PveStateOf(r: Row, reading: Reading): PveState {
    if r.node.None? || r.node == Some("") || r.vmid.None? then PveAbsent
    else match reading
      case ReadRunning => PveRunning
      case ReadStopped => PveStopped
      case ReadOther => PveOther
      case ReadFailed => PveUnknown
  }

  /** The last state of a poll that stops as soon as it sees a stopped VM. */
  function Polled(r: Row, first: Reading, rest: seq<Reading>): PveState
    decreases |rest|
  {
    if PveStateOf(r, first) == PveStopped || rest == [] then PveStateOf(r, first)
    else Polled(r, rest[0], rest[1..])
  }

  function Update(w: World, id: Id, r: Row): World {
    w.(rows := w.rows[id := r])
  }

  function OwnershipOf(w: World, id: Id, r: Row, s: Settings, env: Env): Ownership {
    if !Backed(r) then Refused
    else VerifyOwnership(w.vms, r.node.value, r.vmid.value, id, r, s.protectedVmids, env.answers)
  }

  /** An exception inside a pass: ownership errors and all others are recorded, never propagated. */
  function Raised(w: World, id: Id, before: Actual, why: Ownership): (World, Outcome) {
    if why == Refused then (Audited(w, Reconciler, "reconcile_refused", id), Outcome(before, ErrorAction, Some(OwnershipRefused)))
    else (Audited(w, Reconciler, "reconcile_failed", id), Outcome(before, ErrorAction, Some(CallFailed)))
  }

  function ReconcileRunning(w: World, id: Id, s: Settings, env: Env): (res: (World, Outcome))
    requires id in w.rows
    ensures res.0.rows.Keys == w.rows.Keys
  {
    var r := w.rows[id];
    var pve := PveStateOf(r, env.status);
    if pve == PveRunning then
      if r.actual != Running then
        (Audited(Update(w, id, r.(actual := Running, recoveryCount := 0, lastError := None)), Reconciler, "reconcile_observe", id),
         Outcome(Running, NoAction, None))
      else (w, Outcome(Running, NoAction, None))
    else if pve != PveStopped then (w, Outcome(r.actual, NoAction, None))
    else
      var owned := OwnershipOf(w, id, r, s, env);
      if owned != Owned then Raised(w, id, r.actual, owned)
      else if r.recoveryCount >= s.maxAttempts then
        var fault := Some(RecoveryExhausted(r.recoveryCount));
        (Audited(Update(w, id, r.(lastError := fault)), Reconciler, "reconcile_recovery_exhausted", id),
         Outcome(r.actual, ErrorAction, fault))
      else
        var w1 := if r.recoveryCount > 0 then Audited(w, Reconciler, "reconcile_backoff", id) else w;
        var w2 := Audited(w1, Reconciler, "reconcile_start", id);
        var w3 := StartedVm(w2, Reconciler, id, r.node.value, r.vmid.value, env.start);
        if !env.start.Returned? then Raised(w3, id, r.actual, Crashed)
        else (Update(w3, id, r.(actual := Running, recoveryCount := r.recoveryCount + 1, lastError := None)),
              Outcome(Running, StartedAction, None))
  }

  function ReconcileStopped(w: World, id: Id, s: Settings, env: Env): (res: (World, Outcome))
    requires id in w.rows
    ensures res.0.rows.Keys == w.rows.Keys
  {
    var r := w.rows[id];
    var pve := PveStateOf(r, env.status);
    if pve == PveStopped then
      if r.actual != Stopped then
        (Audited(Update(w, id, r.(actual := Stopped)), Reconciler, "reconcile_observe", id), Outcome(Stopped, NoAction, None))
      else (w, Outcome(Stopped, NoAction, None))
    else if pve == PveAbsent then (w, Outcome(r.actual, NoAction, None))
    else
      var owned := OwnershipOf(w, id, r, s, env);
      if owned != Owned then Raised(w, id, r.actual, owned)
      else
        var w1 := Audited(w, Reconciler, "reconcile_shutdown", id);
        var w2 := ShutDownVm(w1, Reconciler, id, r.node.value, r.vmid.value, env.clean, env.force);
        if !(env.clean.Returned? || env.force.Returned?) then Raised(w2, id, r.actual, Crashed)
        else if Polled(r, env.firstPoll, env.polls) == PveStopped then
          (Update(w2, id, r.(actual := Stopped, recoveryCount := 0, lastError := None)), Outcome(Stopped, ShutdownAction, None))
        else
          (Audited(Update(w2, id, r.(lastError := Some(NotConverged))), Reconciler, "reconcile_shutdown_unverified", id),
           Outcome(r.actual, ErrorAction, Some(NotConverged)))
  }

  /** _record: always dirties the row, so `updated_at` moves. */
  function Recorded(w: World, id: Id, res: Outcome, now: int): World
    requires id in w.rows
  {
    var r := w.rows[id];
    var expected := if r.desired == DesiredRunning then Running else Stopped;
    var lastError := if res.action == ErrorAction then res.error
                     else if res.after == expected then None else r.lastError;
    Update(w, id, r.(lastReconcile := Some(now), lastError := lastError, updatedAt := now))
  }

  /** What one pass over a row decides, before it is recorded. */
  function Attempt(w: World, id: Id, s: Settings, env: Env): (res: (World, Outcome))
    requires id in w.rows
    ensures res.0.rows.Keys == w.rows.Keys
  {
    var r := w.rows[id];
    if r.actual == Superseded || r.desired == DesiredDestroyed then (w, Outcome(r.actual, NoAction, None))
    else if PveStateOf(r, env.status) == PveUnknown then
      (Update(w, id, r.(lastError := Some(PveUnavailable))), Outcome(r.actual, ErrorAction, Some(PveUnavailable)))
    else if r.desired == DesiredRunning then ReconcileRunning(w, id, s, env)
    else ReconcileStopped(w, id, s, env)
  }

  function ReconcileRuntime(w: World, id: Id, s: Settings, env: Env): World {
    if id !in w.rows then w else
      var (w', res) := Attempt(w, id, s, env);
      Recorded(w', id, res, env.now)
  }

  predicate Stale(r: Row, now: int) {
    r.runtimeClass == "sandbox" && r.expiresAt.Some? && r.expiresAt.value < now && r.desired != DesiredDestroyed
  }

  /** One row of expire_stale_sandboxes: an expired sandbox becomes DESIRED_DESTROYED, with an event. */
  function Expired(w: World, id: Id, now: int): World {
    if id !in w.rows || !Stale(w.rows[id], now) then w
    else Audited(Update(w, id, w.rows[id].(desired := DesiredDestroyed, updatedAt := now)), Reconciler, "sandbox_ttl_expired", id)
  }

  /** The whole sweep, over the answer of its query. */
  function Sweep(w: World, stale: seq<Id>, now: int): World
    decreases |stale|
  {
    if stale == [] then w else Sweep(Expired(w, stale[0], now), stale[1..], now)
  }

  /** What the query may answer: the expired rows, in any order. */
  ghost predicate FindsStale(rows: map<Id, Row>, stale: seq<Id>, now: int) {
    && (forall id :: id in stale <==> id in rows && Stale(rows[id], now))
    && forall i, j :: 0 <= i < j < |stale| ==> stale[i] != stale[j]
  }

  /** The table after a sweep. */
  function Swept(rows: map<Id, Row>, now: int): map<Id, Row> {
    map id | id in rows :: if Stale(rows[id], now) then rows[id].(desired := DesiredDestroyed, updatedAt := now) else rows[id]
  }

  /** One row of a sweep brings the table closer to the swept one. */
  lemma ExpireOne(rows: map<Id, Row>, stale: seq<Id>, now: int)
    requires FindsStale(rows, stale, now) && stale != []
    ensures stale[0] in rows && Stale(rows[stale[0]], now)
    ensures var rows1 := rows[stale[0] := rows[stale[0]].(desired := DesiredDestroyed, updatedAt := now)];
            FindsStale(rows1, stale[1..], now) && Swept(rows1, now) == Swept(rows, now)
  {
    assert stale[0] in stale && stale == [stale[0]] + stale[1..];
    var rows1 := rows[stale[0] := rows[stale[0]].(desired := DesiredDestroyed, updatedAt := now)];
    forall id
      ensures id in stale[1..] <==> id in rows1 && Stale(rows1[id], now)
    {
      assert id in stale <==> id == stale[0] || id in stale[1..];
    }
  }

  /** The sweep leaves no expired sandbox wanted, writes no other row, logs one event for each, and touches nothing
      else. */
  lemma {:induction false} SweepExactly(w: World, stale: seq<Id>, now: int)
    requires FindsStale(w.rows, stale, now)
    ensures var w' := Sweep(w, stale, now);
            && w'.rows == Swept(w.rows, now)
            && w'.log == w.log + SweepEvents(stale) && w'.jobs == w.jobs && w'.vms == w.vms && w'.kea == w.kea
    decreases |stale|
  {
    if stale == [] {
      assert Swept(w.rows, now) == w.rows;
    } else {
      ExpireOne(w.rows, stale, now);
      SweepExactly(Expired(w, stale[0], now), stale[1..], now);
    }
  }

  function SweepEvents(stale: seq<Id>): seq<Entry> {
    if stale == [] then [] else [Audit(Reconciler, "sandbox_ttl_expired", stale[0])] + SweepEvents(stale[1..])
  }

  // ------------------------------------------------------------------ the service

  class ReconciliationService {
    const cluster: Cluster
    const settings: Settings

    constructor (cluster: Cluster, settings: Settings)
      ensures this.cluster == cluster && this.settings == settings
    {
      this.cluster, this.settings := cluster, settings;
    }

    /** `stale` is the answer of the database to the query for expired sandboxes. */
    method ExpireStaleSandboxes(stale: seq<Id>, now: int)
      requires FindsStale(cluster.rows, stale, now)
      modifies cluster
      ensures cluster.View() == Sweep(old(cluster.View()), stale, now)
      ensures cluster.rows == Swept(old(cluster.rows), now)
    {
      SweepExactly(cluster.View(), stale, now);
      var i := 0;
      while i < |stale|
        invariant 0 <= i <= |stale|
        invariant Sweep(cluster.View(), stale[i..], now) == Sweep(old(cluster.View()), stale, now)
        invariant forall id :: id in stale[i..] ==> id in cluster.rows && Stale(cluster.rows[id], now)
      {
        var id := stale[i];
        assert stale[i..][0] == id && stale[i..][1..] == stale[i + 1..];
        cluster.rows := cluster.rows[id := cluster.rows[id].(desired := DesiredDestroyed, updatedAt := now)];
        cluster.Record(Reconciler, "sandbox_ttl_expired", id);
        i := i + 1;
      }
    }

    method WaitStopped(r: Row, first: Reading, rest: seq<Reading>) returns (state: PveState)
      ensures state == Polled(r, first, rest)
    {
      state := PveStateOf(r, first);
      var left := rest;
      while state != PveStopped && left != []
        invariant Polled(r, first, rest) == (if state == PveStopped || left == [] then state else Polled(r, left[0], left[1..]))
        decreases |left|
      {
        state := PveStateOf(r, left[0]);
        left := left[1..];
      }
    }

    method Fail(id: Id, before: Actual, why: Ownership) returns (res: Outcome)
      modifies cluster
      ensures (cluster.View(), res) == Raised(old(cluster.View()), id, before, why)
    {
      if why == Refused {
        cluster.Record(Reconciler, "reconcile_refused", id);
        return Outcome(before, ErrorAction, Some(OwnershipRefused));
      }
      cluster.Record(Reconciler, "reconcile_failed", id);
      return Outcome(before, ErrorAction, Some(CallFailed));
    }

    method VerifyOwned(id: Id, env: Env) returns (owned: Ownership)
      requires id in cluster.rows
      ensures owned == OwnershipOf(cluster.View(), id, cluster.rows[id], settings, env)
    {
      var r := cluster.rows[id];
      if r.node.None? || r.vmid.None? {
        return Refused;
      }
      return VerifyOwnership(cluster.vms, r.node.value, r.vmid.value, id, r, settings.protectedVmids, env.answers);
    }

    method BringUp(id: Id, env: Env) returns (res: Outcome)
      requires id in cluster.rows
      modifies cluster
      ensures (cluster.View(), res) == ReconcileRunning(old(cluster.View()), id, settings, env)
    {
      var r := cluster.rows[id];
      var pve := PveStateOf(r, env.status);
      if pve == PveRunning {
        if r.actual != Running {
          cluster.rows := cluster.rows[id := r.(actual := Running, recoveryCount := 0, lastError := None)];
          cluster.Record(Reconciler, "reconcile_observe", id);
        }
        return Outcome(Running, NoAction, None);
      }
      if pve != PveStopped {
        return Outcome(r.actual, NoAction, None);
      }
      var owned := VerifyOwned(id, env);
      if owned != Owned {
        res := Fail(id, r.actual, owned);
        return;
      }
      if r.recoveryCount >= settings.maxAttempts {
        var fault := Some(RecoveryExhausted(r.recoveryCount));
        cluster.rows := cluster.rows[id := r.(lastError := fault)];
        cluster.Record(Reconciler, "reconcile_recovery_exhausted", id);
        return Outcome(r.actual, ErrorAction, fault);
      }
      if r.recoveryCount > 0 {
        cluster.Record(Reconciler, "reconcile_backoff", id);
      }
      cluster.Record(Reconciler, "reconcile_start", id);
      var ok := cluster.StartVm(Reconciler, id, r.node.value, r.vmid.value, env.start);
      if !ok {
        res := Fail(id, r.actual, Crashed);
        return;
      }
      cluster.rows := cluster.rows[id := r.(actual := Running, recoveryCount := r.recoveryCount + 1, lastError := None)];
      return Outcome(Running, StartedAction, None);
    }

    method BringDown(id: Id, env: Env) returns (res: Outcome)
      requires id in cluster.rows
      modifies cluster
      ensures (cluster.View(), res) == ReconcileStopped(old(cluster.View()), id, settings, env)
    {
      var r := cluster.rows[id];
      var pve := PveStateOf(r, env.status);
      if pve == PveStopped {
        if r.actual != Stopped {
          cluster.rows := cluster.rows[id := r.(actual := Stopped)];
          cluster.Record(Reconciler, "reconcile_observe", id);
        }
        return Outcome(Stopped, NoAction, None);
      }
      if pve == PveAbsent {
        return Outcome(r.actual, NoAction, None);
      }
      var owned := VerifyOwned(id, env);
      if owned != Owned {
        res := Fail(id, r.actual, owned);
        return;
      }
      cluster.Record(Reconciler, "reconcile_shutdown", id);
      var ok := cluster.ShutdownVm(Reconciler, id, r.node.value, r.vmid.value, env.clean, env.force);
      if !ok {
        res := Fail(id, r.actual, Crashed);
        return;
      }
      var after := WaitStopped(r, env.firstPoll, env.polls);
      if after == PveStopped {
        cluster.rows := cluster.rows[id := r.(actual := Stopped, recoveryCount := 0, lastError := None)];
        return Outcome(Stopped, ShutdownAction, None);
      }
      cluster.rows := cluster.rows[id := r.(lastError := Some(NotConverged))];
      cluster.Record(Reconciler, "reconcile_shutdown_unverified", id);
      return Outcome(r.actual, ErrorAction, Some(NotConverged));
    }

    method Reconcile(id: Id, env: Env)
      modifies cluster
      ensures cluster.View() == ReconcileRuntime(old(cluster.View()), id, settings, env)
    {
      if id !in cluster.rows {
        return;
      }
      var r := cluster.rows[id];
      var res := Outcome(r.actual, NoAction, None);
      if r.actual != Superseded && r.desired != DesiredDestroyed {
        if PveStateOf(r, env.status) == PveUnknown {
          cluster.rows := cluster.rows[id := r.(lastError := Some(PveUnavailable))];
          res := Outcome(r.actual, ErrorAction, Some(PveUnavailable));
        } else if r.desired == DesiredRunning {
          res := BringUp(id, env);
        } else {
          res := BringDown(id, env);
        }
      }
      var done := cluster.rows[id];
      var expected := if done.desired == DesiredRunning then Running else Stopped;
      done := done.(lastReconcile := Some(env.now), updatedAt := env.now);
      if res.action == ErrorAction {
        done := done.(lastError := res.error);
      } else if res.after == expected {
        done := done.(lastError := None);
      }
      cluster.rows := cluster.rows[id := done];
    }
  }
}
