/** The promises of the lifecycle, over every run from an empty database. */
module LifecycleTheorems {
  import opened Wrappers
  import opened SandboxNetwork
  import opened Fleet
  import opened Proxmox
  import opened Placement
  import opened Reconciliation
  import opened Provisioning
  import opened ProvisioningFacts
  import opened ArmApi
  import opened Traces
  import opened Lifecycle
  import opened LifecycleRuns

  /** No runtime, no job, an empty log; any inventory, any reservation table with unique uuids and addresses. */
  ghost predicate Initial(w: World) {
    w.rows == map[] && w.jobs == map[] && w.log == [] && Sound(w.kea)
  }

  ghost predicate Reachable(w: World, s: Settings) {
    exists w0, steps :: Initial(w0) && AdmissibleRun(w0, steps, s) && w == Run(w0, steps, s)
  }

  lemma ReachableInvariant(w: World, s: Settings)
    requires Reachable(w, s)
    ensures Invariant(w, s)
  {
    var w0, steps :| Initial(w0) && AdmissibleRun(w0, steps, s) && w == Run(w0, steps, s);
    RunKeeps(w0, steps, s);
  }

  /** A runtime has a node and a VM id exactly when its actual state is RUNNING or STOPPED. */
  lemma VmExactlyWhenUp(w: World, s: Settings, id: Id)
    requires Reachable(w, s) && id in w.rows
    ensures var r := w.rows[id];
            && (r.node.Some? <==> r.vmid.Some?)
            && (r.node.Some? <==> r.actual == Running || r.actual == Stopped)
  {
    ReachableInvariant(w, s);
  }

  /** Placing a runtime anywhere but on its template's node always ends in a failed job: the config write goes to
      the template node, so a runtime that has a VM has it there. */
  lemma VmOnTemplateNode(w: World, s: Settings, id: Id)
    requires Reachable(w, s) && id in w.rows && w.rows[id].node.Some?
    ensures w.rows[id].node.value == w.rows[id].templateNode
  {
    ReachableInvariant(w, s);
  }

  /** Every start and stop by the reconciler and every stop and destroy by the API, in any run, met an existing,
      unprotected VM whose marker named exactly that runtime; the reconciler never destroys. */
  lemma TraceSafety(w: World, s: Settings, i: nat)
    requires Reachable(w, s) && i < |w.log| && w.log[i].Call? && w.log[i].actor != Provisioner
    ensures var e := w.log[i];
            && e.target.Some? && e.vmid !in s.protectedVmids && e.target.value.description.Object?
            && "server_runtime_id" in e.target.value.description.fields
            && e.target.value.description.fields["server_runtime_id"] == JString(e.runtime)
            && (e.actor == Reconciler ==> e.op in {Start, Shutdown, StopForce})
            && (e.actor == Api ==> e.op in {Shutdown, StopForce, Destroy})
  {
    ReachableInvariant(w, s);
    assert EntryOk(w.rows, w.log[i], s.protectedVmids);
  }

  /** A sandbox is started by its job only when a tagged reservation for the MAC on its NIC is already in the table. */
  lemma SandboxStartsPinned(w: World, s: Settings, i: nat)
    requires Reachable(w, s) && i < |w.log| && w.log[i].Call? && w.log[i].actor == Provisioner && w.log[i].op == Start
    requires w.log[i].runtime in w.rows && w.rows[w.log[i].runtime].runtimeClass == "sandbox"
    ensures var e := w.log[i];
            && e.target.Some? && e.target.value.mac.Some?
            && e.target.value.description.Object? && "server_runtime_id" in e.target.value.description.fields
            && e.target.value.description.fields["server_runtime_id"] == JString(e.runtime)
            && exists r :: r in e.reserved && "ACMS_SANDBOX" <= r.description && r.ip.Some? && MacNorm(r.hw) == MacNorm(e.target.value.mac.value)
  {
    ReachableInvariant(w, s);
    assert EntryOk(w.rows, w.log[i], s.protectedVmids);
  }

  /** One request, one runtime, at most one clone. */
  lemma OneClonePerRequest(w: World, s: Settings, a: Id, b: Id)
    requires Reachable(w, s) && a in w.rows && b in w.rows && w.rows[a].requestId == w.rows[b].requestId
    ensures a == b && Count(w.log, CloneCall, a) <= 1
  {
    ReachableInvariant(w, s);
    assert HasJob(w.jobs, a) && HasJob(w.jobs, b);
    var i :| i in w.jobs && w.jobs[i].runtimeId == a;
    var j :| j in w.jobs && w.jobs[j].runtimeId == b;
    assert JobOk(w, w.jobs[i]) && JobOk(w, w.jobs[j]);
  }

  /** A job that is not queued has ended, with exactly one terminal event; its steps are a prefix of 1..8 with all
      earlier ones done; a failed one has left its runtime without a VM. */
  lemma JobsEndOnce(w: World, s: Settings, jid: Id)
    requires Reachable(w, s) && jid in w.jobs
    ensures var job := w.jobs[jid];
            && job.runtimeId in w.rows
            && (exists m :: StepShape(job.steps, m) && (job.state == Queued ==> m == 0) && (job.state == Done ==> m == 8))
            && (job.state == Done ==> forall i :: 1 <= i <= 8 ==> i in job.steps && job.steps[i].state == StepDone)
            && var done, failed := Count(w.log, CompleteEvent, job.runtimeId), Count(w.log, FailedEvent, job.runtimeId);
               match job.state
               case Queued => done == 0 && failed == 0
               case JobRunning => false
               case Done => done == 1 && failed == 0
               case Failed => done == 0 && failed == 1 && w.rows[job.runtimeId].node.None? && w.rows[job.runtimeId].vmid.None?
  {
    ReachableInvariant(w, s);
    assert JobOk(w, w.jobs[jid]);
    assert RowOk(w.rows[w.jobs[jid].runtimeId], s.maxAttempts);
  }

  /** At most one inference-class runtime on each inference node. */
  lemma OneInferenceWorkerPerNode(w: World, s: Settings, n: string)
    requires Reachable(w, s) && n in {"miam00111", "miam00112", "miam00143", "miam00144"}
    ensures |set id | id in w.rows && w.rows[id].node == Some(n) && w.rows[id].runtimeClass in {"inference", "inference_worker", "gpu"}| <= 1
  {
    ReachableInvariant(w, s);
    assert n in INFERENCE_NODES;
    var placed := set id | id in w.rows && w.rows[id].node == Some(n) && w.rows[id].runtimeClass in {"inference", "inference_worker", "gpu"};
    forall id | id in placed
      ensures id in InferenceWorkers(w.rows, n)
    {
      assert RowOk(w.rows[id], s.maxAttempts);
    }
    if placed != {} {
      var i :| i in placed;
      assert placed == {i};
    }
  }

  // ------------------------------------------------------------------ foreign reservations

  lemma StepKeepsForeign(w: World, step: Step, s: Settings)
    requires Invariant(w, s) && Admissible(w, step)
    ensures Foreign(Next(w, step, s).kea) == Foreign(w.kea)
  {
    match step
    case SubmitStep(_, _, _, _) =>
    case OutsideStep(_) =>
    case RunStep(jid, env) =>
      if Runnable(w, jid) {
        QueuedIsFresh(w, jid, s);
        RunJobEffect(w, jid, s, env);
      }
    case _ =>
      if step.id in w.rows {
        OwnRowStep(w, step, s);
      }
  }

  /** No run ever changes the foreign reservations, and addresses and uuids stay unique. */
  lemma {:induction false} ForeignReservationsUntouched(w: World, steps: seq<Step>, s: Settings)
    requires Invariant(w, s) && AdmissibleRun(w, steps, s)
    ensures Foreign(Run(w, steps, s).kea) == Foreign(w.kea)
    ensures UniqueIps(Run(w, steps, s).kea) && UniqueUuids(Run(w, steps, s).kea)
    decreases |steps|
  {
    if steps != [] {
      StepKeepsForeign(w, steps[0], s);
      StepKeeps(w, steps[0], s);
      ForeignReservationsUntouched(Next(w, steps[0], s), steps[1..], s);
    }
  }

  // ------------------------------------------------------------------ retired runtimes

  /** Destroyed, or superseded after its job ended. */
  ghost predicate Retired(w: World, id: Id) {
    && id in w.rows
    && (w.rows[id].actual == Destroyed || w.rows[id].actual == Superseded)
    && forall j :: j in w.jobs && w.jobs[j].runtimeId == id ==> w.jobs[j].state != Queued
  }

  /** Nothing is done to a VM in the name of `id` between two logs. */
  ghost predicate Untouched(log: seq<Entry>, log': seq<Entry>, id: Id) {
    log <= log' && forall i :: |log| <= i < |log'| && log'[i].Call? ==> log'[i].runtime != id
  }

  lemma RetiredBeside(w: World, w': World, x: Id, s: Settings, id: Id)
    requires Retired(w, id) && x != id && RowStep(w, w', x, s)
    ensures Retired(w', id) && Untouched(w.log, w'.log, id)
  {
  }

  lemma RetiredDuringJob(w: World, w': World, jid: Id, s: Settings, env: JobEnv, id: Id)
    requires Retired(w, id) && Runnable(w, jid) && JobEffect(w, w', jid, w.jobs[jid].runtimeId, s, env)
    ensures Retired(w', id) && Untouched(w.log, w'.log, id)
  {
  }

  /** A pass over a retired row, or a route called for it, reaches no provider call. */
  lemma RetiredItself(w: World, step: Step, s: Settings, id: Id)
    requires Retired(w, id) && RowOk(w.rows[id], s.maxAttempts)
    requires !step.RunStep? && !step.SubmitStep? && !step.OutsideStep? && step.id == id
    ensures Retired(Next(w, step, s), id) && Untouched(w.log, Next(w, step, s).log, id)
  {
    if step.ReconcileStep? {
      var r := w.rows[id];
      assert PveStateOf(r, step.env.status) == PveAbsent;
      assert Attempt(w, id, s, step.env) == (w, Outcome(r.actual, NoAction, None));
    }
  }

  lemma RetiredAtSubmit(w: World, req: Request, rid: Id, jid: Id, s: Settings, now: int, id: Id)
    requires Retired(w, id) && rid !in w.rows && jid !in w.jobs
    ensures var w' := Submit(w, req, rid, jid, s, now); Retired(w', id) && Untouched(w.log, w'.log, id)
  {
  }

  lemma RetiredAtRun(w: World, jid: Id, s: Settings, env: JobEnv, id: Id)
    requires Invariant(w, s) && FreshUuid(w.kea, env.net.newUuid) && Retired(w, id)
    ensures var w' := RunJob(w, jid, s, env); Retired(w', id) && Untouched(w.log, w'.log, id)
  {
    if Runnable(w, jid) {
      QueuedIsFresh(w, jid, s);
      RunJobEffect(w, jid, s, env);
      RetiredDuringJob(w, RunJob(w, jid, s, env), jid, s, env, id);
    }
  }

  lemma RetiredStep(w: World, step: Step, s: Settings, id: Id)
    requires Invariant(w, s) && Admissible(w, step) && Retired(w, id)
    ensures Retired(Next(w, step, s), id) && Untouched(w.log, Next(w, step, s).log, id)
  {
    if step.SubmitStep? {
      RetiredAtSubmit(w, step.req, step.runtimeId, step.jobId, s, step.now, id);
    } else if step.RunStep? {
      RetiredAtRun(w, step.jobId, s, step.jobEnv, id);
    } else if !step.OutsideStep? {
      if step.id == id {
        assert RowOk(w.rows[id], s.maxAttempts);
        RetiredItself(w, step, s, id);
      } else if step.id in w.rows {
        OwnRowStep(w, step, s);
        RetiredBeside(w, Next(w, step, s), step.id, s, id);
      }
    }
  }

  /** A retired runtime never regains a VM, and no provider call is ever made for it again, whatever is asked for:
      setting its desired state back to DESIRED_RUNNING included. */
  lemma {:induction false} RetiredForGood(w: World, steps: seq<Step>, s: Settings, id: Id)
    requires Invariant(w, s) && AdmissibleRun(w, steps, s) && Retired(w, id)
    ensures var w' := Run(w, steps, s);
            && Retired(w', id) && w'.rows[id].node.None? && w'.rows[id].vmid.None?
            && Untouched(w.log, w'.log, id)
    decreases |steps|
  {
    assert RowOk(w.rows[id], s.maxAttempts);
    if steps != [] {
      RetiredStep(w, steps[0], s, id);
      StepKeeps(w, steps[0], s);
      RetiredForGood(Next(w, steps[0], s), steps[1..], s, id);
    }
  }
}
