/** Theorems about every run of the Agent Runtime Manager. */
module LifecycleRuns {
  import opened Wrappers
  import opened SandboxNetwork
  import opened Fleet
  import opened Proxmox
  import opened Placement
  import opened Reconciliation
  import opened Provisioning
  import opened ProvisioningFacts
  import opened ArmApi
  import opened Traces
  import opened Lifecycle

  // ------------------------------------------------------------------ submit

  lemma {:induction false} NoEntries(log: seq<Entry>, id: Id, kind: Kind)
    requires forall i :: 0 <= i < |log| ==> log[i].runtime != id
    ensures Count(log, kind, id) == 0
  {
    if log != [] {
      NoEntries(log[..|log| - 1], id, kind);
    }
  }

  lemma SubmitJobsOk(w: World, req: Request, rid: Id, jid: Id, s: Settings, now: int)
    requires JobsOk(w) && LogOk(w, s.protectedVmids) && rid !in w.rows && jid !in w.jobs && !Known(w, req.requestId)
    ensures var w' := Submit(w, req, rid, jid, s, now); forall j :: j in w'.jobs ==> JobOk(w', w'.jobs[j])
  {
    var w' := Submit(w, req, rid, jid, s, now);
    forall kind: Kind, x: Id
      ensures Count(w'.log, kind, x) == Count(w.log, kind, x) + (if Matches(Audit(Api, "provision_submitted", rid), kind, x) then 1 else 0)
      ensures Count(w.log, kind, rid) == 0
    {
      CountAppend(w.log, Audit(Api, "provision_submitted", rid), kind, x);
      assert forall i :: 0 <= i < |w.log| ==> EntryOk(w.rows, w.log[i], s.protectedVmids);
      NoEntries(w.log, rid, kind);
    }
    forall j | j in w'.jobs
      ensures JobOk(w', w'.jobs[j])
    {
      if j == jid {
        assert StepShape(w'.jobs[j].steps, 0);
      } else {
        assert JobOk(w, w.jobs[j]);
        assert StepsOk(w.jobs[j]);
      }
    }
  }

  lemma SubmitHasJobs(w: World, req: Request, rid: Id, jid: Id, s: Settings, now: int)
    requires JobsOk(w) && jid !in w.jobs && !Known(w, req.requestId)
    ensures var w' := Submit(w, req, rid, jid, s, now); forall id :: id in w'.rows ==> HasJob(w'.jobs, id)
  {
    var w' := Submit(w, req, rid, jid, s, now);
    forall id | id in w'.rows
      ensures HasJob(w'.jobs, id)
    {
      if id == rid {
        assert jid in w'.jobs;
      } else {
        assert HasJob(w.jobs, id);
        var j :| j in w.jobs && w.jobs[j].runtimeId == id;
        assert j in w'.jobs;
      }
    }
  }

  lemma SubmitJobs(w: World, req: Request, rid: Id, jid: Id, s: Settings, now: int)
    requires JobsOk(w) && LogOk(w, s.protectedVmids) && rid !in w.rows && jid !in w.jobs && !Known(w, req.requestId)
    ensures JobsOk(Submit(w, req, rid, jid, s, now))
  {
    SubmitJobsOk(w, req, rid, jid, s, now);
    SubmitHasJobs(w, req, rid, jid, s, now);
    forall j | j in w.jobs
      ensures w.jobs[j].runtimeId != rid && w.jobs[j].requestId != req.requestId
    {
      assert JobOk(w, w.jobs[j]);
    }
  }

  lemma SubmitCap(rows: map<Id, Row>, rid: Id, r: Row)
    requires CapOk(rows) && rid !in rows && r.node.None?
    ensures CapOk(rows[rid := r])
  {
    var rows' := rows[rid := r];
    forall n, i, j | n in INFERENCE_NODES && i in InferenceWorkers(rows', n) && j in InferenceWorkers(rows', n)
      ensures i == j
    {
      assert i in InferenceWorkers(rows, n) && j in InferenceWorkers(rows, n);
    }
  }

  lemma SubmitKeeps(w: World, req: Request, rid: Id, jid: Id, s: Settings, now: int)
    requires Invariant(w, s) && rid !in w.rows && jid !in w.jobs
    ensures Invariant(Submit(w, req, rid, jid, s, now), s)
  {
    if !Known(w, req.requestId) {
      var w' := Submit(w, req, rid, jid, s, now);
      assert LogOk(w', s.protectedVmids) by { LogKeeps(w, w', s.protectedVmids); }
      assert JobsOk(w') by { SubmitJobs(w, req, rid, jid, s, now); }
      assert CapOk(w'.rows) by { SubmitCap(w.rows, rid, NewRow(req, s, now)); }
    }
  }

  // ------------------------------------------------------------------ a job

  /** Everything a finished job changed. */
  ghost predicate JobEffect(w: World, w': World, jid: Id, id: Id, s: Settings, env: JobEnv) {
    && jid in w.jobs && id in w.rows && jid in w'.jobs && id in w'.rows
    && w'.rows == w.rows[id := w'.rows[id]] && w'.jobs == w.jobs[jid := w'.jobs[jid]]
    && var r, r', job, job' := w.rows[id], w'.rows[id], w.jobs[jid], w'.jobs[jid];
    && r' == r.(actual := r'.actual, node := r'.node, vmid := r'.vmid, sandboxIp := r'.sandboxIp, sandboxMac := r'.sandboxMac,
                reservation := r'.reservation, updatedAt := env.now)
    && job'.requestId == job.requestId && job'.runtimeId == job.runtimeId
    && (job'.state == Done || job'.state == Failed) && StepsOk(job')
    && (job'.state == Done ==>
          && Decide(w, r, env).Placed? && Decide(w, r, env).node == r.templateNode
          && r'.actual == Running && r'.node == Some(r.templateNode) && r'.vmid == env.nextVmid && env.nextVmid.Some?)
    && (job'.state == Failed ==> r'.actual == Error && r'.node == r.node && r'.vmid == r.vmid)
    && w.log <= w'.log
    && (forall i :: |w.log| <= i < |w'.log| ==> w'.log[i].runtime == id && w'.log[i].actor == Provisioner && EntryOk(w'.rows, w'.log[i], s.protectedVmids))
    && Count(w'.log, CloneCall, id) <= Count(w.log, CloneCall, id) + 1
    && Count(w'.log, CompleteEvent, id) == Count(w.log, CompleteEvent, id) + (if job'.state == Done then 1 else 0)
    && Count(w'.log, FailedEvent, id) == Count(w.log, FailedEvent, id) + (if job'.state == Failed then 1 else 0)
    && Sound(w'.kea) && Foreign(w'.kea) == Foreign(w.kea)
  }

  predicate Runnable(w: World, jid: Id) {
    jid in w.jobs && w.jobs[jid].state == Queued && w.jobs[jid].runtimeId in w.rows
  }

  lemma RunJobEffect(w: World, jid: Id, s: Settings, env: JobEnv)
    requires Runnable(w, jid) && StepShape(w.jobs[jid].steps, 0) && Sound(w.kea) && FreshUuid(w.kea, env.net.newUuid)
    ensures JobEffect(w, RunJob(w, jid, s, env), jid, w.jobs[jid].runtimeId, s, env)
  {
    var id, pv := w.jobs[jid].runtimeId, s.protectedVmids;
    var w0 := SetJob(w, jid, JobRunning);
    assert w0.rows == w0.rows[id := w0.rows[id]];
    assert w0.jobs == w0.jobs[jid := w0.jobs[jid].(steps := w0.jobs[jid].steps)];
    assert Progress(w0, w0, jid, id, pv, 0, 0);
    ProvisionFacts(w0, jid, id, s, env);
    var p := Provision(w0, jid, id, s, env);
    if p.Ok? {
      CompletedEffect(w, w0, p.w, jid, id, s, env, Decide(w, w.rows[id], env).node);
    } else {
      var k, d: nat :| d <= 1 && Progress(w0, p.w, jid, id, pv, k, d);
      FailedEffect(w, w0, p.w, jid, id, s, env, k, d);
    }
  }

  lemma LogEffect(w0: World, w1: World, rows: map<Id, Row>, jid: Id, id: Id, pv: set<int>, m: int, c: nat, e: Entry)
    requires Progress(w0, w1, jid, id, pv, m, c)
    requires id in rows && rows[id].runtimeClass == w0.rows[id].runtimeClass
    requires e.Audit? && e.runtime == id && e.actor == Provisioner
    ensures w0.log <= w1.log + [e]
    ensures forall i :: |w0.log| <= i < |w1.log + [e]| ==> (w1.log + [e])[i].runtime == id && (w1.log + [e])[i].actor == Provisioner && EntryOk(rows, (w1.log + [e])[i], pv)
  {
    forall i | |w0.log| <= i < |w1.log + [e]|
      ensures (w1.log + [e])[i].runtime == id && (w1.log + [e])[i].actor == Provisioner && EntryOk(rows, (w1.log + [e])[i], pv)
    {
      if i < |w1.log| {
        assert NewEntry(w1.log[i], id, w0.rows[id].runtimeClass == "sandbox", pv);
      }
    }
  }

  lemma CompletedEffect(w: World, w0: World, w1: World, jid: Id, id: Id, s: Settings, env: JobEnv, node: string)
    requires jid in w.jobs && id in w.rows && w0 == SetJob(w, jid, JobRunning) && w.jobs[jid].runtimeId == id
    requires Progress(w0, w1, jid, id, s.protectedVmids, 8, 1) && LastDone(w1.jobs[jid].steps, 8)
    requires env.nextVmid.Some? && Decide(w, w.rows[id], env).Placed? && Decide(w, w.rows[id], env).node == node == w.rows[id].templateNode
    requires id in w1.rows && jid in w1.jobs
    ensures JobEffect(w, Completed(w1, jid, id, node, env), jid, id, s, env)
  {
    var w' := Completed(w1, jid, id, node, env);
    var e := Audit(Provisioner, "provision_complete", id);
    LogEffect(w0, w1, w'.rows, jid, id, s.protectedVmids, 8, 1, e);
    CountAppend(w1.log, e, CloneCall, id);
    CountAppend(w1.log, e, CompleteEvent, id);
    CountAppend(w1.log, e, FailedEvent, id);
    assert StepShape(w'.jobs[jid].steps, 8) && LastDone(w'.jobs[jid].steps, 8);
    assert w'.rows == w.rows[id := w'.rows[id]];
    assert w'.jobs == w.jobs[jid := w'.jobs[jid]];
  }

  lemma FailedEffect(w: World, w0: World, w1: World, jid: Id, id: Id, s: Settings, env: JobEnv, m: int, c: nat)
    requires jid in w.jobs && id in w.rows && w0 == SetJob(w, jid, JobRunning) && w.jobs[jid].runtimeId == id
    requires Progress(w0, w1, jid, id, s.protectedVmids, m, c) && c <= 1
    requires id in w1.rows && jid in w1.jobs
    ensures JobEffect(w, JobFailed(w1, jid, id, env), jid, id, s, env)
  {
    var w' := JobFailed(w1, jid, id, env);
    var e := Audit(Provisioner, "provision_failed", id);
    LogEffect(w0, w1, w'.rows, jid, id, s.protectedVmids, m, c, e);
    CountAppend(w1.log, e, CloneCall, id);
    CountAppend(w1.log, e, CompleteEvent, id);
    CountAppend(w1.log, e, FailedEvent, id);
    assert StepShape(w'.jobs[jid].steps, m);
    assert w'.rows == w.rows[id := w'.rows[id]];
    assert w'.jobs == w.jobs[jid := w'.jobs[jid]];
  }

  lemma {:induction false} OtherCounts(log: seq<Entry>, log': seq<Entry>, id: Id, kind: Kind, x: Id)
    requires Extends(log, log', id) && x != id
    ensures Count(log', kind, x) == Count(log, kind, x)
    decreases |log'|
  {
    if |log'| == |log| {
      assert log' == log;
    } else {
      OtherCounts(log, log'[..|log'| - 1], id, kind, x);
    }
  }

  /** A job leaves every other job as it was. */
  lemma OtherJobKeeps(w: World, w': World, jid: Id, id: Id, s: Settings, env: JobEnv, j: Id)
    requires JobEffect(w, w', jid, id, s, env) && j in w.jobs && j != jid && w.jobs[j].runtimeId != id && JobOk(w, w.jobs[j])
    ensures JobOk(w', w'.jobs[j])
  {
    assert w'.jobs[j] == w.jobs[j];
    forall kind: Kind
      ensures Count(w'.log, kind, w.jobs[j].runtimeId) == Count(w.log, kind, w.jobs[j].runtimeId)
    {
      OtherCounts(w.log, w'.log, id, kind, w.jobs[j].runtimeId);
    }
  }

  lemma JobsKeepRuntimes(w: World, w': World, jid: Id, id: Id, s: Settings, env: JobEnv)
    requires JobsOk(w) && JobEffect(w, w', jid, id, s, env)
    ensures forall x :: x in w'.rows ==> HasJob(w'.jobs, x)
  {
    forall x | x in w'.rows
      ensures HasJob(w'.jobs, x)
    {
      assert HasJob(w.jobs, x);
      var j :| j in w.jobs && w.jobs[j].runtimeId == x;
      assert j in w'.jobs && w'.jobs[j].runtimeId == x;
    }
  }

  lemma JobKeepsJobs(w: World, w': World, jid: Id, id: Id, s: Settings, env: JobEnv)
    requires JobsOk(w) && Runnable(w, jid) && w.jobs[jid].runtimeId == id && JobEffect(w, w', jid, id, s, env)
    ensures JobsOk(w')
  {
    assert JobOk(w, w.jobs[jid]);
    forall j | j in w'.jobs
      ensures JobOk(w', w'.jobs[j])
    {
      if j != jid {
        assert JobOk(w, w.jobs[j]);
        OtherJobKeeps(w, w', jid, id, s, env, j);
      }
    }
    JobsKeepRuntimes(w, w', jid, id, s, env);
  }

  /** The cap survives a job: the selection saw no inference worker on the node it chose. */
  lemma JobKeepsCap(w: World, w': World, jid: Id, id: Id, s: Settings, env: JobEnv)
    requires CapOk(w.rows) && JobEffect(w, w', jid, id, s, env)
    requires w.rows[id].node.None?
    ensures CapOk(w'.rows)
  {
    var r, r' := w.rows[id], w'.rows[id];
    forall n
      ensures InferenceWorkers(w'.rows, n) == InferenceWorkers(w.rows, n) + (if InfersOn(r', n) then {id} else {})
      ensures n in INFERENCE_NODES && InfersOn(r', n) ==> InferenceWorkers(w.rows, n) == {}
    {
      assert !InfersOn(r, n);
      if n in INFERENCE_NODES && InfersOn(r', n) {
        CapRespected(w.rows, r.runtimeClass, r.templateNode, Candidates(env.listing));
      }
    }
  }

  lemma QueuedIsFresh(w: World, jid: Id, s: Settings)
    requires Invariant(w, s) && Runnable(w, jid)
    ensures StepShape(w.jobs[jid].steps, 0)
    ensures w.rows[w.jobs[jid].runtimeId].node.None? && w.rows[w.jobs[jid].runtimeId].vmid.None?
  {
    assert JobOk(w, w.jobs[jid]) && RowOk(w.rows[w.jobs[jid].runtimeId], s.maxAttempts);
  }

  lemma EffectKeepsLog(w: World, w': World, jid: Id, id: Id, s: Settings, env: JobEnv)
    requires LogOk(w, s.protectedVmids) && JobEffect(w, w', jid, id, s, env)
    ensures LogOk(w', s.protectedVmids)
  {
    LogKeeps(w, w', s.protectedVmids);
  }

  lemma EffectKeepsRows(w: World, w': World, jid: Id, id: Id, s: Settings, env: JobEnv)
    requires RowsOk(w.rows, s.maxAttempts) && JobEffect(w, w', jid, id, s, env) && w.rows[id].node.None? && w.rows[id].vmid.None?
    ensures RowsOk(w'.rows, s.maxAttempts)
  {
    forall i | i in w'.rows
      ensures RowOk(w'.rows[i], s.maxAttempts)
    {
      assert RowOk(w.rows[i], s.maxAttempts);
    }
  }

  lemma EffectKeeps(w: World, w': World, jid: Id, id: Id, s: Settings, env: JobEnv)
    requires Invariant(w, s) && Runnable(w, jid) && w.jobs[jid].runtimeId == id && JobEffect(w, w', jid, id, s, env)
    ensures Invariant(w', s)
  {
    QueuedIsFresh(w, jid, s);
    assert JobsOk(w') by { JobKeepsJobs(w, w', jid, id, s, env); }
    assert CapOk(w'.rows) by { JobKeepsCap(w, w', jid, id, s, env); }
    assert LogOk(w', s.protectedVmids) by { EffectKeepsLog(w, w', jid, id, s, env); }
    assert RowsOk(w'.rows, s.maxAttempts) by { EffectKeepsRows(w, w', jid, id, s, env); }
  }

  lemma RunJobKeeps(w: World, jid: Id, s: Settings, env: JobEnv)
    requires Invariant(w, s) && FreshUuid(w.kea, env.net.newUuid)
    ensures Invariant(RunJob(w, jid, s, env), s)
  {
    if Runnable(w, jid) {
      QueuedIsFresh(w, jid, s);
      RunJobEffect(w, jid, s, env);
      EffectKeeps(w, RunJob(w, jid, s, env), jid, w.jobs[jid].runtimeId, s, env);
    }
  }

  // ------------------------------------------------------------------ every step, every run

  lemma OwnRowStep(w: World, step: Step, s: Settings)
    requires Invariant(w, s)
    requires !step.RunStep? && !step.SubmitStep? && !step.OutsideStep? && step.id in w.rows
    ensures RowStep(w, Next(w, step, s), step.id, s)
  {
    assert RowOk(w.rows[step.id], s.maxAttempts);
    if step.ReconcileStep? {
      ReconcileIsPass(w, step.id, s, step.env);
    } else if step.DestroyStep? {
      DestroyIsRowStep(w, step.id, s, step.destroyEnv);
    } else {
      RouteIsRowStep(w, step, step.id, s);
    }
  }

  lemma StepKeeps(w: World, step: Step, s: Settings)
    requires Invariant(w, s) && Admissible(w, step)
    ensures Invariant(Next(w, step, s), s)
  {
    if step.SubmitStep? {
      SubmitKeeps(w, step.req, step.runtimeId, step.jobId, s, step.now);
    } else if step.RunStep? {
      RunJobKeeps(w, step.jobId, s, step.jobEnv);
    } else if step.OutsideStep? {
      OutsideKeeps(w, step.vms, s);
    } else if step.id in w.rows {
      OwnRowStep(w, step, s);
      RowStepKeeps(w, Next(w, step, s), step.id, s);
    }
  }

  lemma OutsideKeeps(w: World, vms: map<int, VM>, s: Settings)
    requires Invariant(w, s)
    ensures Invariant(w.(vms := vms), s)
  {
    forall j | j in w.jobs
      ensures JobOk(w.(vms := vms), w.jobs[j])
    {
      assert JobOk(w, w.jobs[j]);
    }
  }

  lemma {:induction false} RunKeeps(w: World, steps: seq<Step>, s: Settings)
    requires Invariant(w, s) && AdmissibleRun(w, steps, s)
    ensures Invariant(Run(w, steps, s), s)
    decreases |steps|
  {
    if steps != [] {
      StepKeeps(w, steps[0], s);
      RunKeeps(Next(w, steps[0], s), steps[1..], s);
    }
  }
}
