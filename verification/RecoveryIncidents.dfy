/** The recovery counter is not per incident: an example in every configuration. */
module RecoveryIncidents {
  import opened Wrappers
  import opened Sets
  import opened SandboxNetwork
  import opened Fleet
  import opened Proxmox
  import opened Placement
  import opened Reconciliation
  import opened Provisioning
  import opened ProvisioningFacts
  import opened Traces
  import opened Lifecycle
  import opened LifecycleRuns
  import opened LifecycleTheorems
  import opened RecoveryBound
  import opened Convergence

  /** Some VM was asked to start between two logs. */
  ghost predicate StartIssued(log: seq<Entry>, log': seq<Entry>) {
    exists i :: |log| <= i < |log'| && log'[i].Call? && log'[i].op == Start
  }

  /** A pass over a stopped, owned runtime that is wanted up asks for a start exactly while its counter is below the
      maximum; how the present incident relates to the earlier ones plays no part. */
  lemma StartExactly(w: World, id: Id, s: Settings, env: Reconciliation.Env)
    requires id in w.rows && w.rows[id].desired == DesiredRunning && w.rows[id].actual != Superseded
    requires PveStateOf(w.rows[id], env.status) == PveStopped && OwnershipOf(w, id, w.rows[id], s, env) == Owned
    ensures StartIssued(w.log, ReconcileRuntime(w, id, s, env).log) <==> w.rows[id].recoveryCount < s.maxAttempts
  {
    var r := w.rows[id];
    if r.recoveryCount < s.maxAttempts {
      var w1 := if r.recoveryCount > 0 then Audited(w, Reconciler, "reconcile_backoff", id) else w;
      var at := |w1.log| + 1;
      assert ReconcileRuntime(w, id, s, env).log[at].Call?;
    } else {
      ExhaustedPass(w, id, s, env);
    }
  }

  /** Once the counter is at the maximum, no pass that finds the VM stopped asks for a start or changes the inventory. */
  lemma ExhaustedPass(w: World, id: Id, s: Settings, env: Reconciliation.Env)
    requires id in w.rows && w.rows[id].desired == DesiredRunning && w.rows[id].recoveryCount >= s.maxAttempts
    requires PveStateOf(w.rows[id], env.status) == PveStopped
    ensures var w' := ReconcileRuntime(w, id, s, env);
            !StartIssued(w.log, w'.log) && w'.vms == w.vms
  {
  }

  // ------------------------------------------------------------------ reaching a state step by step

  lemma {:induction false} RunAppend(w: World, steps: seq<Step>, step: Step, s: Settings)
    requires AdmissibleRun(w, steps, s) && Admissible(Run(w, steps, s), step)
    ensures AdmissibleRun(w, steps + [step], s) && Run(w, steps + [step], s) == Next(Run(w, steps, s), step, s)
    decreases |steps|
  {
    if steps == [] {
      assert [step][1..] == [] && [] + [step] == [step];
      assert Run(Next(w, step, s), [], s) == Next(w, step, s);
    } else {
      assert (steps + [step])[0] == steps[0] && (steps + [step])[1..] == steps[1..] + [step];
      RunAppend(Next(w, steps[0], s), steps[1..], step, s);
    }
  }

  lemma ReachableStep(w: World, step: Step, s: Settings)
    requires Reachable(w, s) && Admissible(w, step)
    ensures Reachable(Next(w, step, s), s)
  {
    var w0, steps :| Initial(w0) && AdmissibleRun(w0, steps, s) && w == Run(w0, steps, s);
    RunAppend(w0, steps, step, s);
  }

  // ------------------------------------------------------------------ a runtime that is up, time and again

  const READS := OwnershipReads(true, true)

  /** A reachable state in which the runtime is wanted up, has its own VM, and has been started n times. */
  ghost predicate Started(w: World, s: Settings, id: Id, n: nat) {
    && Reachable(w, s) && id in w.rows && Backed(w.rows[id]) && w.rows[id].node.value != ""
    && w.rows[id].desired == DesiredRunning && w.rows[id].actual == Running && w.rows[id].recoveryCount == n
    && VerifyOwnership(w.vms, w.rows[id].node.value, w.rows[id].vmid.value, id, w.rows[id], s.protectedVmids, READS) == Owned
    && Starts(w, id) == n
  }

  /** An incident: the VM goes down behind the manager's back. */
  function Down(w: World, id: Id): World
    requires id in w.rows && Backed(w.rows[id]) && w.rows[id].vmid.value in w.vms
  {
    var vmid := w.rows[id].vmid.value;
    w.(vms := w.vms[vmid := w.vms[vmid].(running := false)])
  }

  lemma DownIsStarted(w: World, s: Settings, id: Id, n: nat)
    requires Started(w, s, id, n)
    ensures w.rows[id].vmid.value in w.vms && Started(Down(w, id), s, id, n)
  {
    var w' := Down(w, id);
    ReachableStep(w, OutsideStep(w'.vms), s);
  }

  function StoppedEnv(): Reconciliation.Env {
    Env(0, ReadStopped, READS, Returned, Returned, Returned, ReadStopped, [])
  }

  function RunningEnv(): Reconciliation.Env {
    Env(0, ReadRunning, READS, Returned, Returned, Returned, ReadRunning, [])
  }

  /** A pass starts the VM again, and counts. */
  lemma Recovered(w: World, s: Settings, id: Id, n: nat)
    requires Started(w, s, id, n) && n < s.maxAttempts && !w.vms[w.rows[id].vmid.value].running
    ensures var w' := ReconcileRuntime(w, id, s, StoppedEnv());
            Started(w', s, id, n + 1) && w'.vms[w'.rows[id].vmid.value].running
  {
    var env, w' := StoppedEnv(), ReconcileRuntime(w, id, s, StoppedEnv());
    ReachableInvariant(w, s);
    assert RowOk(w.rows[id], s.maxAttempts);
    ReachableStep(w, ReconcileStep(id, env), s);
    PassCounts(w, id, s, env);
    StartConverges(w, id, s, env);
    StartedRow(w, id, s, env);
    SameOwner(w.vms, w'.vms, w.rows[id], w'.rows[id], id, s);
  }

  lemma StartedRow(w: World, id: Id, s: Settings, env: Reconciliation.Env)
    requires id in w.rows && Backed(w.rows[id]) && w.rows[id].node.value != "" && w.rows[id].actual == Running
    requires w.rows[id].desired == DesiredRunning && w.rows[id].recoveryCount < s.maxAttempts
    requires env.status == ReadStopped && env.start.Returned? && OwnershipOf(w, id, w.rows[id], s, env) == Owned
    ensures var r, r' := w.rows[id], ReconcileRuntime(w, id, s, env).rows[id];
            r' == r.(recoveryCount := r.recoveryCount + 1, lastError := None, lastReconcile := Some(env.now), updatedAt := env.now)
  {
  }

  /** Switching a VM on or off does not change whose it is. */
  lemma SameOwner(vms: map<int, VM>, vms': map<int, VM>, r: Row, r': Row, id: Id, s: Settings)
    requires Backed(r) && r'.node == r.node && r'.vmid == r.vmid && r'.armCreated == r.armCreated
    requires r.vmid.value in vms && r.vmid.value in vms'
    requires vms'[r.vmid.value] == vms[r.vmid.value].(running := vms'[r.vmid.value].running)
    ensures VerifyOwnership(vms', r.node.value, r.vmid.value, id, r', s.protectedVmids, READS)
         == VerifyOwnership(vms, r.node.value, r.vmid.value, id, r, s.protectedVmids, READS)
  {
  }

  /** The next pass sees it running, and leaves the counter where it is. */
  lemma SeenRunning(w: World, s: Settings, id: Id, n: nat)
    requires Started(w, s, id, n)
    ensures var w' := ReconcileRuntime(w, id, s, RunningEnv()); Started(w', s, id, n) && w'.vms == w.vms
  {
    ReachableStep(w, ReconcileStep(id, RunningEnv()), s);
    assert ReconcileRuntime(w, id, s, RunningEnv()).log == w.log;
  }

  // ------------------------------------------------------------------ the first start, by a job

  lemma {:induction false} FreshVmid(taken: set<int>) returns (v: int)
    ensures forall x :: x in taken ==> x < v
    decreases |taken|
  {
    v := 0;
    if taken != {} {
      var x := Pick(taken);
      var u := FreshVmid(taken - {x});
      v := if u <= x then x + 1 else u;
      forall y | y in taken
        ensures y < v
      {
        assert y != x ==> y in taken - {x};
      }
    }
  }

  function AllGood(vmid: int): JobEnv {
    JobEnv(0, JNull, None, Some(vmid), true, Returned, true, Returned, 0, 0, 0, Returned, true,
           NetEnv(true, Some({}), {}, true, Returned, Returned, 0, true), Returned, true, true)
  }

  function Wanted(): Request {
    Request("request", "agent", "name", "dkms_service", "node", DesiredRunning, None)
  }

  function Submitted(s: Settings): World {
    World(map["runtime" := NewRow(Wanted(), s, 0)], map["job" := Job("request", "runtime", Queued, map[])],
          map[], [], [Audit(Api, "provision_submitted", "runtime")])
  }

  lemma SubmittedIsReachable(s: Settings)
    ensures Reachable(Submitted(s), s) && Starts(Submitted(s), "runtime") == 0
  {
    var w0 := World(map[], map[], map[], [], []);
    assert Initial(w0) && Run(w0, [], s) == w0 && AdmissibleRun(w0, [], s);
    ReachableStep(w0, SubmitStep(Wanted(), "runtime", "job", 0), s);
    assert Next(w0, SubmitStep(Wanted(), "runtime", "job", 0), s) == Submitted(s);
    CountAppend([], Audit(Api, "provision_submitted", "runtime"), CountedStart, "runtime");
    assert [] + [Audit(Api, "provision_submitted", "runtime")] == [Audit(Api, "provision_submitted", "runtime")];
  }

  lemma FirstStarted(s: Settings) returns (w: World)
    ensures Started(w, s, "runtime", 0)
  {
    var vmid := FreshVmid(s.protectedVmids);
    var w1, env, id := Submitted(s), AllGood(vmid), "runtime";
    SubmittedIsReachable(s);
    ReachableInvariant(w1, s);
    w := RunJob(w1, "job", s, env);
    ReachableStep(w1, RunStep("job", env), s);
    assert Provisionable(w1, w1.rows[id], s, env);
    DoneExactly(w1, "job", s, env);
    assert StepShape(w1.jobs["job"].steps, 0);
    RunJobEffect(w1, "job", s, env);
    JobCounts(w1, "job", s, env, id);
    OwnMarker(w, id, w1.rows[id], vmid, env, s);
  }

  lemma OwnMarker(w: World, id: Id, r: Row, vmid: int, env: JobEnv, s: Settings)
    requires id in w.rows && w.rows[id].armCreated && vmid !in s.protectedVmids && env.nextVmid == Some(vmid)
    requires vmid in w.vms && w.vms[vmid] == NewVm(id, r, env)
    ensures VerifyOwnership(w.vms, r.templateNode, vmid, id, w.rows[id], s.protectedVmids, READS) == Owned
  {
  }

  // ------------------------------------------------------------------ one incident too many

  /** Any number of incidents up to the maximum, each recovered from and seen recovered. */
  lemma {:induction false} AfterIncidents(s: Settings, n: nat) returns (w: World)
    requires n <= s.maxAttempts
    ensures Started(w, s, "runtime", n)
  {
    if n == 0 {
      w := FirstStarted(s);
    } else {
      var w0 := AfterIncidents(s, n - 1);
      DownIsStarted(w0, s, "runtime", n - 1);
      var w1 := Down(w0, "runtime");
      Recovered(w1, s, "runtime", n - 1);
      var w2 := ReconcileRuntime(w1, "runtime", s, StoppedEnv());
      SeenRunning(w2, s, "runtime", n);
      w := ReconcileRuntime(w2, "runtime", s, RunningEnv());
    }
  }

  /** In every configuration there is a run in which as many incidents as the maximum allows were each recovered from
      with one start, and in the next one, the runtime still wanted up and its own VM down, no pass ever starts it. */
  lemma NextIncidentUnattended(s: Settings) returns (w: World)
    ensures Started(w, s, "runtime", s.maxAttempts)
    ensures Lookup(w.vms, w.rows["runtime"].node.value, w.rows["runtime"].vmid.value).Some?
    ensures !w.vms[w.rows["runtime"].vmid.value].running
    ensures forall env: Reconciliation.Env :: env.status == ReadStopped ==>
              var w' := ReconcileRuntime(w, "runtime", s, env); !StartIssued(w.log, w'.log) && w'.vms == w.vms
  {
    var up := AfterIncidents(s, s.maxAttempts);
    DownIsStarted(up, s, "runtime", s.maxAttempts);
    w := Down(up, "runtime");
    forall env: Reconciliation.Env | env.status == ReadStopped
      ensures var w' := ReconcileRuntime(w, "runtime", s, env); !StartIssued(w.log, w'.log) && w'.vms == w.vms
    {
      ExhaustedPass(w, "runtime", s, env);
    }
  }
}
