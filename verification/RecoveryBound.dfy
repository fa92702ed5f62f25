/** How often the reconciler may start a VM. Only starts whose call returns are counted, as in the source. */
module RecoveryBound {
  import opened Wrappers
  import opened SandboxNetwork
  import opened Fleet
  import opened Proxmox
  import opened Reconciliation
  import opened Provisioning
  import opened ArmApi
  import opened Traces
  import opened Lifecycle
  import opened LifecycleRuns

  function Starts(w: World, id: Id): nat {
    Count(w.log, CountedStart, id)
  }

  /** The three things a step can do to the recovery counter of a row: leave it (and then a runtime that is up
      stays up while it is wanted up), reset it (never while it is up and wanted up), or count a start. */
  ghost predicate CounterStep(w: World, w': World, id: Id, max: nat) {
    && id in w.rows && id in w'.rows
    && var r, r' := w.rows[id], w'.rows[id];
    var wanted := r.desired == DesiredRunning && r'.desired == DesiredRunning;
    || (Starts(w', id) == Starts(w, id) && r'.recoveryCount == r.recoveryCount
        && (wanted && r.actual == Running ==> r'.actual == Running))
    || (Starts(w', id) == Starts(w, id) && r'.recoveryCount == 0
        && (wanted ==> r.actual != Running && r'.actual == Running))
    || (Starts(w', id) == Starts(w, id) + 1 && r'.recoveryCount == r.recoveryCount + 1 <= max && r'.actual == Running)
  }

  lemma StartCounts(w: World, actor: Actor, op: Op, id: Id, node: string, vmid: int, vms': map<int, VM>, how: CallResult, x: Id)
    ensures Starts(Acted(w, actor, op, id, node, vmid, vms', how), x)
         == Starts(w, x) + (if id == x && actor == Reconciler && op == Start && how.Returned? then 1 else 0)
  {
    CountAppend(w.log, Call(actor, op, id, node, vmid, Lookup(w.vms, node, vmid), w.kea, how.Returned?), CountedStart, x);
  }

  lemma AuditCounts(w: World, actor: Actor, action: string, id: Id, x: Id)
    ensures Starts(Audited(w, actor, action, id), x) == Starts(w, x)
  {
    CountAppend(w.log, Audit(actor, action, id), CountedStart, x);
  }

  lemma ShutdownCounts(w: World, actor: Actor, id: Id, node: string, vmid: int, clean: CallResult, force: CallResult, x: Id)
    ensures Starts(ShutDownVm(w, actor, id, node, vmid, clean, force), x) == Starts(w, x)
  {
    StartCounts(w, actor, Shutdown, id, node, vmid, Powered(w.vms, node, vmid, false), clean, x);
    var w1 := Acted(w, actor, Shutdown, id, node, vmid, Powered(w.vms, node, vmid, false), clean);
    StartCounts(w1, actor, StopForce, id, node, vmid, Powered(w1.vms, node, vmid, false), force, x);
  }

  lemma BringUpCounts(w: World, id: Id, s: Settings, env: Reconciliation.Env)
    requires id in w.rows && w.rows[id].desired == DesiredRunning && RowOk(w.rows[id], s.maxAttempts)
    ensures CounterStep(w, ReconcileRunning(w, id, s, env).0, id, s.maxAttempts)
  {
    var r := w.rows[id];
    var pve := PveStateOf(r, env.status);
    var w1 := if r.recoveryCount > 0 then Audited(w, Reconciler, "reconcile_backoff", id) else w;
    AuditCounts(w, Reconciler, "reconcile_backoff", id, id);
    if pve == PveRunning {
      AuditCounts(Update(w, id, r.(actual := Running, recoveryCount := 0, lastError := None)), Reconciler, "reconcile_observe", id, id);
    } else if pve == PveStopped {
      var owned := OwnershipOf(w, id, r, s, env);
      RaisedCounts(w, id, r.actual, owned);
      AuditCounts(Update(w, id, r.(lastError := Some(RecoveryExhausted(r.recoveryCount)))), Reconciler, "reconcile_recovery_exhausted", id, id);
      if owned == Owned && r.recoveryCount < s.maxAttempts {
        AuditCounts(w1, Reconciler, "reconcile_start", id, id);
        var w2 := Audited(w1, Reconciler, "reconcile_start", id);
        StartCounts(w2, Reconciler, Start, id, r.node.value, r.vmid.value, Powered(w2.vms, r.node.value, r.vmid.value, true), env.start, id);
        RaisedCounts(StartedVm(w2, Reconciler, id, r.node.value, r.vmid.value, env.start), id, r.actual, Crashed);
      }
    }
  }

  lemma RaisedCounts(w: World, id: Id, before: Actual, why: Ownership)
    ensures Starts(Raised(w, id, before, why).0, id) == Starts(w, id) && Raised(w, id, before, why).0.rows == w.rows
  {
    AuditCounts(w, Reconciler, "reconcile_refused", id, id);
    AuditCounts(w, Reconciler, "reconcile_failed", id, id);
  }

  lemma BringDownCounts(w: World, id: Id, s: Settings, env: Reconciliation.Env)
    requires id in w.rows && w.rows[id].desired == DesiredStopped && RowOk(w.rows[id], s.maxAttempts)
    ensures CounterStep(w, ReconcileStopped(w, id, s, env).0, id, s.maxAttempts)
    ensures ReconcileStopped(w, id, s, env).0.rows[id].desired == DesiredStopped
  {
    var r := w.rows[id];
    var owned := OwnershipOf(w, id, r, s, env);
    if PveStateOf(r, env.status) == PveStopped {
      AuditCounts(Update(w, id, r.(actual := Stopped)), Reconciler, "reconcile_observe", id, id);
    } else if owned != Owned {
      RaisedCounts(w, id, r.actual, owned);
    } else {
      AuditCounts(w, Reconciler, "reconcile_shutdown", id, id);
      StopCounts(w, Audited(w, Reconciler, "reconcile_shutdown", id), id, s, env);
    }
  }

  lemma StopCounts(w: World, w1: World, id: Id, s: Settings, env: Reconciliation.Env)
    requires id in w.rows && w.rows[id].desired == DesiredStopped && Backed(w.rows[id])
    requires w1.rows == w.rows && Starts(w1, id) == Starts(w, id)
    ensures var r := w.rows[id];
            var w2 := ShutDownVm(w1, Reconciler, id, r.node.value, r.vmid.value, env.clean, env.force);
            && CounterStep(w, Raised(w2, id, r.actual, Crashed).0, id, s.maxAttempts)
            && CounterStep(w, Update(w2, id, r.(actual := Stopped, recoveryCount := 0, lastError := None)), id, s.maxAttempts)
            && CounterStep(w, Audited(Update(w2, id, r.(lastError := Some(NotConverged))), Reconciler, "reconcile_shutdown_unverified", id), id, s.maxAttempts)
  {
    var r := w.rows[id];
    ShutdownCounts(w1, Reconciler, id, r.node.value, r.vmid.value, env.clean, env.force, id);
    var w2 := ShutDownVm(w1, Reconciler, id, r.node.value, r.vmid.value, env.clean, env.force);
    assert w2.rows == w.rows;
    RaisedCounts(w2, id, r.actual, Crashed);
    AuditCounts(Update(w2, id, r.(lastError := Some(NotConverged))), Reconciler, "reconcile_shutdown_unverified", id, id);
  }

  lemma PassCounts(w: World, id: Id, s: Settings, env: Reconciliation.Env)
    requires id in w.rows && RowOk(w.rows[id], s.maxAttempts)
    ensures CounterStep(w, ReconcileRuntime(w, id, s, env), id, s.maxAttempts)
  {
    var r := w.rows[id];
    if r.desired == DesiredRunning {
      BringUpCounts(w, id, s, env);
    } else if r.desired == DesiredStopped {
      BringDownCounts(w, id, s, env);
    }
  }

  lemma DestroyCounts(w: World, x: Id, s: Settings, env: DestroyEnv, id: Id)
    requires x in w.rows && id in w.rows
    ensures Starts(DestroyRuntime(w, x, s, env).0, id) == Starts(w, id)
    ensures id in DestroyRuntime(w, x, s, env).0.rows
    ensures var r, r' := w.rows[id], DestroyRuntime(w, x, s, env).0.rows[id]; r' == r || r' == r.(actual := Destroyed, desired := DesiredDestroyed, vmid := None, node := None, updatedAt := env.now)
  {
    var r := w.rows[x];
    if Backed(r) {
      match VerifyOwnership(w.vms, r.node.value, r.vmid.value, x, r, s.protectedVmids, env.answers)
      case Refused => AuditCounts(w, Api, "destroy_refused", x, id);
      case Crashed =>
      case Owned =>
        AuditCounts(w, Api, "destroy_audit", x, id);
        TeardownCounts(w, Audited(w, Api, "destroy_audit", x), x, env, id);
    }
  }

  lemma TeardownCounts(w: World, w1: World, x: Id, env: DestroyEnv, id: Id)
    requires x in w.rows && Backed(w.rows[x]) && w1.rows == w.rows && Starts(w1, id) == Starts(w, id)
    ensures var r := w.rows[x];
            var w2 := ShutDownVm(w1, Api, x, r.node.value, r.vmid.value, env.clean, env.force);
            var w3 := DestroyedVm(w2, Api, x, r.node.value, r.vmid.value, env.destroy);
            var r' := r.(actual := Destroyed, desired := DesiredDestroyed, vmid := None, node := None, updatedAt := env.now);
            var w5 := ReleaseAfterDestroy(Audited(Put(w3, x, r'), Api, "destroy_complete", x), x, env);
            && w2.rows == w.rows && Starts(w2, id) == Starts(w, id)
            && w3.rows == w.rows && Starts(w3, id) == Starts(w, id)
            && w5.rows == w.rows[x := r'] && Starts(w5, id) == Starts(w, id)
  {
    var r := w.rows[x];
    var node, vmid := r.node.value, r.vmid.value;
    ShutdownCounts(w1, Api, x, node, vmid, env.clean, env.force, id);
    var w2 := ShutDownVm(w1, Api, x, node, vmid, env.clean, env.force);
    StartCounts(w2, Api, Destroy, x, node, vmid, Removed(w2.vms, node, vmid), env.destroy, id);
    var w3 := DestroyedVm(w2, Api, x, node, vmid, env.destroy);
    var w4 := Put(w3, x, r.(actual := Destroyed, desired := DesiredDestroyed, vmid := None, node := None, updatedAt := env.now));
    AuditCounts(w4, Api, "destroy_complete", x, id);
    ReleaseCounts(Audited(w4, Api, "destroy_complete", x), x, env, id);
  }

  lemma ReleaseCounts(w: World, x: Id, env: DestroyEnv, id: Id)
    requires x in w.rows
    ensures Starts(ReleaseAfterDestroy(w, x, env), id) == Starts(w, id) && ReleaseAfterDestroy(w, x, env).rows == w.rows
  {
    var r := w.rows[x];
    if r.sandboxIp.Some? && r.reservation.Some? {
      var w1 := w.(kea := Release(w.kea, r.sandboxIp.value, env.listed, env.release).0);
      AuditCounts(w1, Api, "sandbox_reservation_released", x, id);
      AuditCounts(w1, Api, "sandbox_reservation_release_failed", x, id);
    }
  }

  /** Entries of another runtime, or by another actor, are not this runtime's starts. */
  lemma {:induction false} NoStarts(log: seq<Entry>, log': seq<Entry>, id: Id)
    requires log <= log'
    requires forall i :: |log| <= i < |log'| ==> !Matches(log'[i], CountedStart, id)
    ensures Count(log', CountedStart, id) == Count(log, CountedStart, id)
    decreases |log'|
  {
    if |log'| == |log| {
      assert log' == log;
    } else {
      NoStarts(log, log'[..|log'| - 1], id);
    }
  }

  lemma EffectCounts(w: World, w': World, jid: Id, s: Settings, env: JobEnv, id: Id)
    requires Runnable(w, jid) && JobEffect(w, w', jid, w.jobs[jid].runtimeId, s, env)
    requires id in w.rows && (w.jobs[jid].runtimeId == id ==> w.rows[id].actual != Running)
    ensures CounterStep(w, w', id, s.maxAttempts)
  {
    NoStarts(w.log, w'.log, id);
  }

  lemma JobCounts(w: World, jid: Id, s: Settings, env: JobEnv, id: Id)
    requires Invariant(w, s) && FreshUuid(w.kea, env.net.newUuid) && id in w.rows
    ensures CounterStep(w, RunJob(w, jid, s, env), id, s.maxAttempts)
  {
    if Runnable(w, jid) {
      QueuedIsFresh(w, jid, s);
      RunJobEffect(w, jid, s, env);
      assert RowOk(w.rows[w.jobs[jid].runtimeId], s.maxAttempts);
      EffectCounts(w, RunJob(w, jid, s, env), jid, s, env, id);
    }
  }

  lemma OtherRowCounts(w: World, w': World, x: Id, s: Settings, id: Id)
    requires RowStep(w, w', x, s) && x != id && id in w.rows
    ensures CounterStep(w, w', id, s.maxAttempts)
  {
    NoStarts(w.log, w'.log, id);
  }

  lemma RouteCounts(w: World, step: Step, s: Settings)
    requires (step.SetDesiredStep? || step.SupersedeStep? || step.ExtendTtlStep? || step.ExpireStep?) && step.id in w.rows
    requires RowOk(w.rows[step.id], s.maxAttempts)
    ensures CounterStep(w, Next(w, step, s), step.id, s.maxAttempts)
  {
    match step
    case SetDesiredStep(id, desired, now) =>
      AuditCounts(Put(w, id, Flushed(w.rows[id], w.rows[id].(desired := desired), now)), Api, "desired_state_set", id, id);
    case ExpireStep(id, now) =>
      AuditCounts(Put(w, id, w.rows[id].(desired := DesiredDestroyed, updatedAt := now)), Reconciler, "sandbox_ttl_expired", id, id);
    case SupersedeStep(id, live, now) =>
      AuditCounts(Put(w, id, w.rows[id].(actual := Superseded, updatedAt := now)), Api, "runtime_superseded", id, id);
    case ExtendTtlStep(id, hours, now) =>
      var w' := Next(w, step, s);
      if w' != w {
        AuditCounts(Put(w, id, w'.rows[id]), Api, "sandbox_ttl_extended", id, id);
      }
  }

  lemma SubmitCounts(w: World, req: Request, rid: Id, jid: Id, s: Settings, now: int, id: Id)
    requires id in w.rows && rid !in w.rows
    ensures CounterStep(w, Submit(w, req, rid, jid, s, now), id, s.maxAttempts)
  {
    CountAppend(w.log, Audit(Api, "provision_submitted", rid), CountedStart, id);
  }

  lemma StepCounts(w: World, step: Step, s: Settings, id: Id)
    requires Invariant(w, s) && Admissible(w, step) && id in w.rows
    ensures CounterStep(w, Next(w, step, s), id, s.maxAttempts)
  {
    assert RowOk(w.rows[id], s.maxAttempts);
    if step.SubmitStep? {
      SubmitCounts(w, step.req, step.runtimeId, step.jobId, s, step.now, id);
    } else if step.RunStep? {
      JobCounts(w, step.jobId, s, step.jobEnv, id);
    } else if !step.OutsideStep? && step.id in w.rows {
      if step.id != id {
        OwnRowStep(w, step, s);
        OtherRowCounts(w, Next(w, step, s), step.id, s, id);
      } else if step.ReconcileStep? {
        PassCounts(w, id, s, step.env);
      } else if step.DestroyStep? {
        DestroyCounts(w, id, s, step.destroyEnv, id);
      } else {
        RouteCounts(w, step, s);
      }
    }
  }

  /** The same, in numbers, for use in sums. */
  lemma StepNumbers(w: World, step: Step, s: Settings, id: Id)
    requires Invariant(w, s) && Admissible(w, step) && id in w.rows
    ensures var w' := Next(w, step, s);
            && Invariant(w', s) && id in w'.rows && w.rows[id].recoveryCount <= s.maxAttempts
            && var c0, c1, s0, s1 := w.rows[id].recoveryCount, w'.rows[id].recoveryCount, Starts(w, id), Starts(w', id);
               CountsOn(s0, s1, c0, c1)
  {
    assert RowOk(w.rows[id], s.maxAttempts);
    StepCounts(w, step, s, id);
    StepKeeps(w, step, s);
  }

  predicate Lowered(w: World, w': World, id: Id) {
    id in w.rows && id in w'.rows && w'.rows[id].recoveryCount < w.rows[id].recoveryCount
  }

  /** How many steps of a run lower the counter of `id`. */
  ghost function Resets(w: World, steps: seq<Step>, s: Settings, id: Id): nat
    decreases |steps|
  {
    if steps == [] then 0
    else (if Lowered(w, Next(w, steps[0], s), id) then 1 else 0) + Resets(Next(w, steps[0], s), steps[1..], s, id)
  }

  /** From counter c0 and s0 starts to cn and sn: every reset pays for at most max starts. */
  predicate Accounted(max: nat, resets: nat, s0: int, sn: int, c0: nat, cn: nat) {
    cn <= max && sn - s0 + c0 <= max * resets + cn
  }

  predicate CountsOn(s0: int, s1: int, c0: nat, c1: nat) {
    (s1 == s0 && c1 == c0) || (s1 == s0 && c1 == 0) || (s1 == s0 + 1 && c1 == c0 + 1)
  }

  /** Adding one step in front of a run whose starts are accounted for. */
  lemma Accumulates(max: nat, resets: nat, later: nat, s0: int, s1: int, sn: int, c0: nat, c1: nat, cn: nat)
    requires Accounted(max, later, s1, sn, c1, cn) && c0 <= max && CountsOn(s0, s1, c0, c1)
    requires resets == (if c1 < c0 then 1 else 0) + later
    ensures Accounted(max, resets, s0, sn, c0, cn)
  {
    assert max * (1 + later) == max + max * later;
  }

  lemma {:induction false} StartsAccumulate(w: World, steps: seq<Step>, s: Settings, id: Id)
    requires Invariant(w, s) && AdmissibleRun(w, steps, s) && id in w.rows
    ensures var w' := Run(w, steps, s);
            && id in w'.rows
            && Accounted(s.maxAttempts, Resets(w, steps, s, id), Starts(w, id), Starts(w', id),
                         w.rows[id].recoveryCount, w'.rows[id].recoveryCount)
    decreases |steps|
  {
    if steps == [] {
      assert RowOk(w.rows[id], s.maxAttempts);
    } else {
      var w1 := Next(w, steps[0], s);
      StepNumbers(w, steps[0], s, id);
      StartsAccumulate(w1, steps[1..], s, id);
      var w' := Run(w1, steps[1..], s);
      var resets, later := Resets(w, steps, s, id), Resets(w1, steps[1..], s, id);
      assert resets == (if w1.rows[id].recoveryCount < w.rows[id].recoveryCount then 1 else 0) + later;
      Accumulates(s.maxAttempts, resets, later, Starts(w, id), Starts(w1, id), Starts(w', id),
                  w.rows[id].recoveryCount, w1.rows[id].recoveryCount, w'.rows[id].recoveryCount);
    }
  }

  /** The starts that `resets` resets and a counter that began at c0 allow. */
  function Allowance(max: nat, resets: nat, c0: nat): int {
    max * (1 + resets) - c0
  }

  lemma OneMore(max: nat, resets: nat, s0: int, sn: int, c0: nat, cn: nat)
    requires Accounted(max, resets, s0, sn, c0, cn)
    ensures cn <= max && sn - s0 <= Allowance(max, resets, c0)
  {
    assert max * (1 + resets) == max + max * resets;
  }

  /** Over a whole run the counter stays within 0..max, and counted starts are at most max for every reset and
      one more, minus what the counter began at. */
  lemma StartsAreBounded(w: World, steps: seq<Step>, s: Settings, id: Id)
    requires Invariant(w, s) && AdmissibleRun(w, steps, s) && id in w.rows
    ensures var w' := Run(w, steps, s);
            && id in w'.rows && w'.rows[id].recoveryCount <= s.maxAttempts
            && Starts(w', id) - Starts(w, id) <= Allowance(s.maxAttempts, Resets(w, steps, s, id), w.rows[id].recoveryCount)
  {
    var resets, w' := Resets(w, steps, s, id), Run(w, steps, s);
    StartsAccumulate(w, steps, s, id);
    OneMore(s.maxAttempts, resets, Starts(w, id), Starts(w', id), w.rows[id].recoveryCount, w'.rows[id].recoveryCount);
  }

  /** `id` is wanted up in every state of the run. */
  ghost predicate WantedThroughout(w: World, steps: seq<Step>, s: Settings, id: Id)
    decreases |steps|
  {
    id in w.rows && w.rows[id].desired == DesiredRunning && (steps == [] || WantedThroughout(Next(w, steps[0], s), steps[1..], s, id))
  }

  /** While a runtime is wanted up without interruption at most max starts return, however long that is and however
      often the VM goes down: nothing resets the counter once the runtime has been seen up. */
  lemma {:induction false} StretchIsBounded(w: World, steps: seq<Step>, s: Settings, id: Id)
    requires Invariant(w, s) && AdmissibleRun(w, steps, s) && WantedThroughout(w, steps, s, id)
    ensures Starts(Run(w, steps, s), id) - Starts(w, id)
         <= if w.rows[id].actual == Running then s.maxAttempts - w.rows[id].recoveryCount else s.maxAttempts
    decreases |steps|
  {
    assert RowOk(w.rows[id], s.maxAttempts);
    if steps != [] {
      var w1 := Next(w, steps[0], s);
      StepCounts(w, steps[0], s, id);
      StepKeeps(w, steps[0], s);
      assert RowOk(w1.rows[id], s.maxAttempts);
      StretchIsBounded(w1, steps[1..], s, id);
    }
  }
}
