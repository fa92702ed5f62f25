/** The Agent Runtime Manager as one state machine: every route, job and reconcile pass, in any order, with any
    external call failing and the Proxmox inventory changing behind its back between steps. */
module Lifecycle {
  import opened Wrappers
  import opened SandboxNetwork
  import opened Fleet
  import opened Proxmox
  import opened Placement
  import opened Reconciliation
  import opened Provisioning
  import opened ProvisioningFacts
  import opened ArmApi
  import opened Traces

  datatype Step =
    | SubmitStep(req: Request, runtimeId: Id, jobId: Id, now: int)
    | RunStep(jobId: Id, jobEnv: JobEnv)
    | ReconcileStep(id: Id, env: Reconciliation.Env)
    | ExpireStep(id: Id, now: int)
    | SetDesiredStep(id: Id, desired: Desired, now: int)
    | SupersedeStep(id: Id, live: Id, now: int)
    | DestroyStep(id: Id, destroyEnv: DestroyEnv)
    | ExtendTtlStep(id: Id, hours: int, now: int)
    | OutsideStep(vms: map<int, VM>)

  ghost function Next(w: World, step: Step, s: Settings): World {
    match step
    case SubmitStep(req, runtimeId, jobId, now) => Submit(w, req, runtimeId, jobId, s, now)
    case RunStep(jobId, env) => RunJob(w, jobId, s, env)
    case ReconcileStep(id, env) => ReconcileRuntime(w, id, s, env)
    case ExpireStep(id, now) => Expired(w, id, now)
    case SetDesiredStep(id, desired, now) => SetDesired(w, id, desired, now).0
    case SupersedeStep(id, live, now) => Supersede(w, id, live, now).0
    case DestroyStep(id, env) => DestroyRuntime(w, id, s, env).0
    case ExtendTtlStep(id, hours, now) => ExtendTtl(w, id, hours, s, now).0
    case OutsideStep(vms) => w.(vms := vms)
  }

  /** Generated identifiers are new: runtime and job ids, and the uuid Kea gives a new reservation. */
  ghost predicate Admissible(w: World, step: Step) {
    && (step.SubmitStep? ==> step.runtimeId !in w.rows && step.jobId !in w.jobs)
    && (step.RunStep? ==> FreshUuid(w.kea, step.jobEnv.net.newUuid))
  }

  ghost function Run(w: World, steps: seq<Step>, s: Settings): World
    decreases |steps|
  {
    if steps == [] then w else Run(Next(w, steps[0], s), steps[1..], s)
  }

  ghost predicate AdmissibleRun(w: World, steps: seq<Step>, s: Settings)
    decreases |steps|
  {
    steps == [] || (Admissible(w, steps[0]) && AdmissibleRun(Next(w, steps[0], s), steps[1..], s))
  }

  // ------------------------------------------------------------------ the invariant

  /** A row has a VM exactly when it is RUNNING or STOPPED, that VM is on the template node, and the recovery counter
      is within bounds. */
  predicate RowOk(r: Row, max: nat) {
    && (r.node.Some? <==> r.vmid.Some?)
    && (r.node.Some? <==> r.actual == Running || r.actual == Stopped)
    && (r.node.Some? ==> r.node.value == r.templateNode)
    && r.recoveryCount <= max
  }

  ghost predicate RowsOk(rows: map<Id, Row>, max: nat) {
    forall id :: id in rows ==> RowOk(rows[id], max)
  }

  ghost predicate StepsOk(job: Job) {
    exists m :: StepShape(job.steps, m) && (job.state == Done ==> m == 8 && LastDone(job.steps, m))
                && (job.state == Queued ==> m == 0)
  }

  /** The states a job leaves its row in, and the traces it leaves in the log. */
  ghost predicate JobOk(w: World, job: Job) {
    && job.runtimeId in w.rows
    && w.rows[job.runtimeId].requestId == job.requestId
    && StepsOk(job)
    && var r, id := w.rows[job.runtimeId], job.runtimeId;
    match job.state
    case Queued => r.actual in {Absent, Superseded} && Counts(w.log, id, 0, 0, 0)
    case JobRunning => false
    case Done => r.actual in {Running, Stopped, Destroyed, Superseded} && Counts(w.log, id, 1, 1, 0)
    case Failed => r.actual in {Error, Superseded} && Counts(w.log, id, 1, 0, 1)
  }

  /** At most `clones` clone calls, and exactly this many terminal events. */
  predicate Counts(log: seq<Entry>, id: Id, clones: nat, completed: nat, failed: nat) {
    && Count(log, CloneCall, id) <= clones
    && Count(log, CompleteEvent, id) == completed
    && Count(log, FailedEvent, id) == failed
  }

  ghost predicate HasJob(jobs: map<Id, Job>, id: Id) {
    exists j :: j in jobs && jobs[j].runtimeId == id
  }

  ghost predicate JobsOk(w: World) {
    && (forall j :: j in w.jobs ==> JobOk(w, w.jobs[j]))
    && (forall i, j :: i in w.jobs && j in w.jobs && i != j ==>
          w.jobs[i].requestId != w.jobs[j].requestId && w.jobs[i].runtimeId != w.jobs[j].runtimeId)
    && (forall id {:trigger HasJob(w.jobs, id)} :: id in w.rows ==> HasJob(w.jobs, id))
  }

  ghost predicate EntryOk(rows: map<Id, Row>, e: Entry, protectedVmids: set<int>) {
    && e.runtime in rows
    && SafeEntry(e, protectedVmids)
    && (rows[e.runtime].runtimeClass == "sandbox" ==> PinnedStart(e))
  }

  ghost predicate LogOk(w: World, protectedVmids: set<int>) {
    forall i :: 0 <= i < |w.log| ==> EntryOk(w.rows, w.log[i], protectedVmids)
  }

  /** At most one inference-class runtime on each inference node. */
  ghost predicate CapOk(rows: map<Id, Row>) {
    forall n, i, j :: n in INFERENCE_NODES && i in InferenceWorkers(rows, n) && j in InferenceWorkers(rows, n) ==> i == j
  }

  ghost predicate Invariant(w: World, s: Settings) {
    && RowsOk(w.rows, s.maxAttempts)
    && JobsOk(w)
    && LogOk(w, s.protectedVmids)
    && CapOk(w.rows)
    && Sound(w.kea)
  }

  // ------------------------------------------------------------------ steps that move no job

  /** How a row may change outside a job. */
  predicate Evolves(r: Row, r': Row) {
    && r'.requestId == r.requestId && r'.runtimeClass == r.runtimeClass && r'.armCreated == r.armCreated && r'.templateNode == r.templateNode
    && (|| (r'.actual == r.actual && r'.node == r.node && r'.vmid == r.vmid)
        || (Backed(r) && r.actual in {Running, Stopped} && r'.actual in {Running, Stopped} && r'.node == r.node && r'.vmid == r.vmid)
        || (Backed(r) && r'.actual == Destroyed && r'.node.None? && r'.vmid.None?)
        || (r.node.None? && r.vmid.None? && r.actual != Superseded && r'.actual == Superseded && r'.node.None? && r'.vmid.None?))
  }

  /** Log entries that no counter of a job sees. */
  predicate QuietEntry(e: Entry, protectedVmids: set<int>) {
    && SafeEntry(e, protectedVmids) && PinnedStart(e)
    && !Matches(e, CloneCall, e.runtime) && !Matches(e, CompleteEvent, e.runtime) && !Matches(e, FailedEvent, e.runtime)
  }

  ghost predicate QuietLog(log: seq<Entry>, log': seq<Entry>, id: Id, protectedVmids: set<int>) {
    log <= log' && forall i :: |log| <= i < |log'| ==> log'[i].runtime == id && QuietEntry(log'[i], protectedVmids)
  }

  /** A step that touches at most the row of `id`, moves no job, and logs quietly about `id`. */
  ghost predicate RowStep(w: World, w': World, id: Id, s: Settings) {
    && id in w.rows && id in w'.rows
    && w'.rows == w.rows[id := w'.rows[id]]
    && Evolves(w.rows[id], w'.rows[id])
    && (w.rows[id].recoveryCount <= s.maxAttempts ==> w'.rows[id].recoveryCount <= s.maxAttempts)
    && w'.jobs == w.jobs
    && QuietLog(w.log, w'.log, id, s.protectedVmids)
    && (Sound(w.kea) ==> Sound(w'.kea) && Foreign(w'.kea) == Foreign(w.kea))
  }

  lemma {:induction false} QuietCounts(log: seq<Entry>, log': seq<Entry>, id: Id, protectedVmids: set<int>, kind: Kind, x: Id)
    requires QuietLog(log, log', id, protectedVmids) && kind != CountedStart
    ensures Count(log', kind, x) == Count(log, kind, x)
    decreases |log'|
  {
    if |log'| == |log| {
      assert log' == log;
    } else {
      var shorter := log'[..|log'| - 1];
      assert log <= shorter;
      QuietCounts(log, shorter, id, protectedVmids, kind, x);
    }
  }

  lemma JobKeeps(w: World, w': World, job: Job)
    requires JobOk(w, job)
    requires job.runtimeId in w'.rows && Evolves(w.rows[job.runtimeId], w'.rows[job.runtimeId])
    requires RowOk(w.rows[job.runtimeId], w.rows[job.runtimeId].recoveryCount)
    requires forall kind :: kind != CountedStart ==> Count(w'.log, kind, job.runtimeId) == Count(w.log, kind, job.runtimeId)
    ensures JobOk(w', job)
  {
  }

  lemma CapKeeps(rows: map<Id, Row>, rows': map<Id, Row>, max: nat)
    requires CapOk(rows) && rows'.Keys == rows.Keys
    requires forall id :: id in rows ==> RowOk(rows[id], max) && Evolves(rows[id], rows'[id])
    ensures CapOk(rows')
  {
    forall n
      ensures InferenceWorkers(rows', n) <= InferenceWorkers(rows, n)
    {
    }
  }

  /** Entries stay in order as long as rows keep their class. */
  lemma LogKeeps(w: World, w': World, protectedVmids: set<int>)
    requires LogOk(w, protectedVmids) && w.log <= w'.log
    requires forall id :: id in w.rows ==> id in w'.rows && w'.rows[id].runtimeClass == w.rows[id].runtimeClass
    requires forall i :: |w.log| <= i < |w'.log| ==> EntryOk(w'.rows, w'.log[i], protectedVmids)
    ensures LogOk(w', protectedVmids)
  {
    forall i | 0 <= i < |w.log|
      ensures EntryOk(w'.rows, w'.log[i], protectedVmids)
    {
      assert w'.log[i] == w.log[i] && EntryOk(w.rows, w.log[i], protectedVmids);
    }
  }

  lemma RowStepCounts(w: World, w': World, id: Id, s: Settings, kind: Kind, x: Id)
    requires RowStep(w, w', id, s) && kind != CountedStart
    ensures Count(w'.log, kind, x) == Count(w.log, kind, x)
  {
    QuietCounts(w.log, w'.log, id, s.protectedVmids, kind, x);
  }

  /** One job of the table, its row stepped or not. */
  lemma RowStepJob(w: World, w': World, id: Id, s: Settings, j: Id)
    requires RowStep(w, w', id, s) && j in w.jobs && JobOk(w, w.jobs[j]) && RowOk(w.rows[w.jobs[j].runtimeId], s.maxAttempts)
    ensures JobOk(w', w.jobs[j])
  {
    forall kind: Kind | kind != CountedStart
      ensures Count(w'.log, kind, w.jobs[j].runtimeId) == Count(w.log, kind, w.jobs[j].runtimeId)
    {
      RowStepCounts(w, w', id, s, kind, w.jobs[j].runtimeId);
    }
    JobKeeps(w, w', w.jobs[j]);
  }

  lemma RowStepJobs(w: World, w': World, id: Id, s: Settings)
    requires RowStep(w, w', id, s) && JobsOk(w) && RowsOk(w.rows, s.maxAttempts)
    ensures JobsOk(w')
  {
    forall j | j in w'.jobs
      ensures JobOk(w', w'.jobs[j])
    {
      assert JobOk(w, w.jobs[j]);
      RowStepJob(w, w', id, s, j);
    }
  }

  lemma RowStepLog(w: World, w': World, id: Id, s: Settings)
    requires RowStep(w, w', id, s) && LogOk(w, s.protectedVmids)
    ensures LogOk(w', s.protectedVmids)
  {
    LogKeeps(w, w', s.protectedVmids);
  }

  lemma RowStepKeeps(w: World, w': World, id: Id, s: Settings)
    requires Invariant(w, s) && RowStep(w, w', id, s)
    ensures Invariant(w', s)
  {
    assert CapOk(w'.rows) by { CapKeeps(w.rows, w'.rows, s.maxAttempts); }
    assert JobsOk(w') by { RowStepJobs(w, w', id, s); }
    assert LogOk(w', s.protectedVmids) by { RowStepLog(w, w', id, s); }
  }

  // ------------------------------------------------------------------ what reconcile and the routes do to a row

  lemma QuietOne(log: seq<Entry>, log': seq<Entry>, e: Entry, id: Id, pv: set<int>)
    requires QuietLog(log, log', id, pv) && e.runtime == id && QuietEntry(e, pv)
    ensures QuietLog(log, log' + [e], id, pv)
  {
  }

  predicate QuietAction(action: string) {
    action != "provision_complete" && action != "provision_failed"
  }

  lemma QuietAudit(w0: World, w: World, actor: Actor, action: string, id: Id, pv: set<int>)
    requires QuietLog(w0.log, w.log, id, pv) && QuietAction(action)
    ensures QuietLog(w0.log, Audited(w, actor, action, id).log, id, pv)
  {
    QuietOne(w0.log, w.log, Audit(actor, action, id), id, pv);
  }

  /** A start or stop by the reconciler, a stop or destroy by the API, on a VM that is the runtime's own. */
  lemma QuietAct(w0: World, w: World, actor: Actor, op: Op, id: Id, node: string, vmid: int, vms': map<int, VM>, how: CallResult, pv: set<int>)
    requires QuietLog(w0.log, w.log, id, pv) && OwnTarget(Lookup(w.vms, node, vmid), vmid, id, pv)
    requires (actor == Reconciler && op in {Start, Shutdown, StopForce}) || (actor == Api && op in {Shutdown, StopForce, Destroy})
    ensures QuietLog(w0.log, Acted(w, actor, op, id, node, vmid, vms', how).log, id, pv)
  {
    QuietOne(w0.log, w.log, Call(actor, op, id, node, vmid, Lookup(w.vms, node, vmid), w.kea, how.Returned?), id, pv);
  }

  /** A shutdown acts on the same own VM in both of its attempts, and leaves it in place. */
  lemma QuietShutdown(w0: World, w: World, actor: Actor, id: Id, node: string, vmid: int, clean: CallResult, force: CallResult, pv: set<int>)
    requires QuietLog(w0.log, w.log, id, pv) && OwnTarget(Lookup(w.vms, node, vmid), vmid, id, pv) && actor != Provisioner
    ensures var w' := ShutDownVm(w, actor, id, node, vmid, clean, force);
            QuietLog(w0.log, w'.log, id, pv) && OwnTarget(Lookup(w'.vms, node, vmid), vmid, id, pv)
            && w'.rows == w.rows && w'.jobs == w.jobs && w'.kea == w.kea
  {
    QuietAct(w0, w, actor, Shutdown, id, node, vmid, Powered(w.vms, node, vmid, false), clean, pv);
    var w1 := Acted(w, actor, Shutdown, id, node, vmid, Powered(w.vms, node, vmid, false), clean);
    QuietAct(w0, w1, actor, StopForce, id, node, vmid, Powered(w1.vms, node, vmid, false), force, pv);
  }

  /** The row after a pass, before it is recorded. */
  ghost predicate PassStep(w: World, w': World, id: Id, s: Settings) {
    && RowStep(w, w', id, s) && w'.kea == w.kea
    && w'.rows[id].node == w.rows[id].node && w'.rows[id].vmid == w.rows[id].vmid
    && w'.rows[id].desired == w.rows[id].desired
  }

  lemma RaisedIsPass(w0: World, w: World, id: Id, before: Actual, why: Ownership, s: Settings)
    requires PassStep(w0, w, id, s)
    ensures PassStep(w0, Raised(w, id, before, why).0, id, s)
  {
    QuietAudit(w0, w, Reconciler, "reconcile_refused", id, s.protectedVmids);
    QuietAudit(w0, w, Reconciler, "reconcile_failed", id, s.protectedVmids);
  }

  lemma UpdateIsPass(w0: World, w: World, id: Id, r: Row, s: Settings)
    requires PassStep(w0, w, id, s) && w.rows == w0.rows
    requires Evolves(w0.rows[id], r) && r.node == w0.rows[id].node && r.vmid == w0.rows[id].vmid && r.desired == w0.rows[id].desired
    requires w0.rows[id].recoveryCount <= s.maxAttempts ==> r.recoveryCount <= s.maxAttempts
    ensures PassStep(w0, Update(w, id, r), id, s)
  {
  }

  lemma AuditIsPass(w0: World, w: World, id: Id, action: string, s: Settings)
    requires PassStep(w0, w, id, s) && QuietAction(action)
    ensures PassStep(w0, Audited(w, Reconciler, action, id), id, s)
  {
    QuietAudit(w0, w, Reconciler, action, id, s.protectedVmids);
  }

  lemma StayIsPass(w: World, id: Id, s: Settings)
    requires id in w.rows
    ensures PassStep(w, w, id, s)
  {
  }

  lemma BringUpIsPass(w: World, id: Id, s: Settings, env: Reconciliation.Env)
    requires id in w.rows && RowOk(w.rows[id], s.maxAttempts)
    ensures PassStep(w, ReconcileRunning(w, id, s, env).0, id, s)
  {
    var r, pv := w.rows[id], s.protectedVmids;
    StayIsPass(w, id, s);
    var pve := PveStateOf(r, env.status);
    if pve == PveRunning && r.actual != Running {
      var r' := r.(actual := Running, recoveryCount := 0, lastError := None);
      UpdateIsPass(w, w, id, r', s);
      AuditIsPass(w, Update(w, id, r'), id, "reconcile_observe", s);
    } else if pve == PveStopped {
      var owned := OwnershipOf(w, id, r, s, env);
      if owned != Owned {
        RaisedIsPass(w, w, id, r.actual, owned, s);
      } else if r.recoveryCount >= s.maxAttempts {
        var r' := r.(lastError := Some(RecoveryExhausted(r.recoveryCount)));
        UpdateIsPass(w, w, id, r', s);
        AuditIsPass(w, Update(w, id, r'), id, "reconcile_recovery_exhausted", s);
      } else {
        AuditIsPass(w, w, id, "reconcile_backoff", s);
        var w1 := if r.recoveryCount > 0 then Audited(w, Reconciler, "reconcile_backoff", id) else w;
        StartIsPass(w, w1, id, s, env);
      }
    }
  }

  lemma StartIsPass(w: World, w1: World, id: Id, s: Settings, env: Reconciliation.Env)
    requires id in w.rows && RowOk(w.rows[id], s.maxAttempts) && Backed(w.rows[id])
    requires PassStep(w, w1, id, s) && w1.rows == w.rows && w1.vms == w.vms
    requires OwnershipOf(w, id, w.rows[id], s, env) == Owned && w.rows[id].recoveryCount < s.maxAttempts
    ensures var r := w.rows[id];
            var w2 := Audited(w1, Reconciler, "reconcile_start", id);
            var w3 := StartedVm(w2, Reconciler, id, r.node.value, r.vmid.value, env.start);
            && PassStep(w, Raised(w3, id, r.actual, Crashed).0, id, s)
            && PassStep(w, Update(w3, id, r.(actual := Running, recoveryCount := r.recoveryCount + 1, lastError := None)), id, s)
  {
    var r, pv := w.rows[id], s.protectedVmids;
    var node, vmid := r.node.value, r.vmid.value;
    OwnedMeansOwn(w.vms, node, vmid, id, r, pv, env.answers);
    AuditIsPass(w, w1, id, "reconcile_start", s);
    var w2 := Audited(w1, Reconciler, "reconcile_start", id);
    QuietAct(w, w2, Reconciler, Start, id, node, vmid, Powered(w2.vms, node, vmid, true), env.start, pv);
    var w3 := StartedVm(w2, Reconciler, id, node, vmid, env.start);
    assert PassStep(w, w3, id, s);
    RaisedIsPass(w, w3, id, r.actual, Crashed, s);
    UpdateIsPass(w, w3, id, r.(actual := Running, recoveryCount := r.recoveryCount + 1, lastError := None), s);
  }

  lemma BringDownIsPass(w: World, id: Id, s: Settings, env: Reconciliation.Env)
    requires id in w.rows && RowOk(w.rows[id], s.maxAttempts)
    ensures PassStep(w, ReconcileStopped(w, id, s, env).0, id, s)
  {
    var r := w.rows[id];
    StayIsPass(w, id, s);
    var pve := PveStateOf(r, env.status);
    if pve == PveStopped && r.actual != Stopped {
      UpdateIsPass(w, w, id, r.(actual := Stopped), s);
      AuditIsPass(w, Update(w, id, r.(actual := Stopped)), id, "reconcile_observe", s);
    } else if pve != PveStopped && pve != PveAbsent {
      var owned := OwnershipOf(w, id, r, s, env);
      if owned != Owned {
        RaisedIsPass(w, w, id, r.actual, owned, s);
      } else {
        StopIsPass(w, id, s, env);
      }
    }
  }

  lemma StopIsPass(w: World, id: Id, s: Settings, env: Reconciliation.Env)
    requires id in w.rows && RowOk(w.rows[id], s.maxAttempts) && Backed(w.rows[id])
    requires OwnershipOf(w, id, w.rows[id], s, env) == Owned
    ensures var r := w.rows[id];
            var w1 := Audited(w, Reconciler, "reconcile_shutdown", id);
            var w2 := ShutDownVm(w1, Reconciler, id, r.node.value, r.vmid.value, env.clean, env.force);
            && PassStep(w, Raised(w2, id, r.actual, Crashed).0, id, s)
            && PassStep(w, Update(w2, id, r.(actual := Stopped, recoveryCount := 0, lastError := None)), id, s)
            && PassStep(w, Audited(Update(w2, id, r.(lastError := Some(NotConverged))), Reconciler, "reconcile_shutdown_unverified", id), id, s)
  {
    var r, pv := w.rows[id], s.protectedVmids;
    var node, vmid := r.node.value, r.vmid.value;
    OwnedMeansOwn(w.vms, node, vmid, id, r, pv, env.answers);
    StayIsPass(w, id, s);
    AuditIsPass(w, w, id, "reconcile_shutdown", s);
    var w1 := Audited(w, Reconciler, "reconcile_shutdown", id);
    QuietShutdown(w, w1, Reconciler, id, node, vmid, env.clean, env.force, pv);
    var w2 := ShutDownVm(w1, Reconciler, id, node, vmid, env.clean, env.force);
    assert PassStep(w, w2, id, s);
    RaisedIsPass(w, w2, id, r.actual, Crashed, s);
    UpdateIsPass(w, w2, id, r.(actual := Stopped, recoveryCount := 0, lastError := None), s);
    UpdateIsPass(w, w2, id, r.(lastError := Some(NotConverged)), s);
    AuditIsPass(w, Update(w2, id, r.(lastError := Some(NotConverged))), id, "reconcile_shutdown_unverified", s);
  }

  lemma AttemptIsPass(w: World, id: Id, s: Settings, env: Reconciliation.Env)
    requires id in w.rows && RowOk(w.rows[id], s.maxAttempts)
    ensures PassStep(w, Attempt(w, id, s, env).0, id, s)
  {
    var r := w.rows[id];
    StayIsPass(w, id, s);
    UpdateIsPass(w, w, id, r.(lastError := Some(PveUnavailable)), s);
    BringUpIsPass(w, id, s, env);
    BringDownIsPass(w, id, s, env);
  }

  /** A reconcile pass moves no job, keeps the row's VM and desired state, and never destroys. */
  lemma ReconcileIsPass(w: World, id: Id, s: Settings, env: Reconciliation.Env)
    requires id in w.rows && RowOk(w.rows[id], s.maxAttempts)
    ensures PassStep(w, ReconcileRuntime(w, id, s, env), id, s)
    ensures ReconcileRuntime(w, id, s, env).rows[id].updatedAt == env.now
    ensures ReconcileRuntime(w, id, s, env).rows[id].lastReconcile == Some(env.now)
  {
    AttemptIsPass(w, id, s, env);
  }

  /** Only the owner's VM is stopped and destroyed, and the row then has none. */
  lemma DestroyIsRowStep(w: World, id: Id, s: Settings, env: DestroyEnv)
    requires id in w.rows && RowOk(w.rows[id], s.maxAttempts)
    ensures RowStep(w, DestroyRuntime(w, id, s, env).0, id, s)
  {
    var r, pv := w.rows[id], s.protectedVmids;
    if Backed(r) {
      var node, vmid := r.node.value, r.vmid.value;
      QuietAudit(w, w, Api, "destroy_refused", id, pv);
      if VerifyOwnership(w.vms, node, vmid, id, r, pv, env.answers) == Owned {
        OwnedMeansOwn(w.vms, node, vmid, id, r, pv, env.answers);
        QuietAudit(w, w, Api, "destroy_audit", id, pv);
        var w1 := Audited(w, Api, "destroy_audit", id);
        QuietShutdown(w, w1, Api, id, node, vmid, env.clean, env.force, pv);
        var w2 := ShutDownVm(w1, Api, id, node, vmid, env.clean, env.force);
        QuietAct(w, w2, Api, Destroy, id, node, vmid, Removed(w2.vms, node, vmid), env.destroy, pv);
        var w3 := DestroyedVm(w2, Api, id, node, vmid, env.destroy);
        if env.destroy.Returned? {
          DestroyedRow(w, w3, id, s, env);
        }
      }
    }
  }

  lemma DestroyedRow(w: World, w3: World, id: Id, s: Settings, env: DestroyEnv)
    requires id in w.rows && RowOk(w.rows[id], s.maxAttempts) && Backed(w.rows[id])
    requires RowStep(w, w3, id, s) && w3.rows == w.rows && w3.kea == w.kea
    ensures var r := w.rows[id].(actual := Destroyed, desired := DesiredDestroyed, vmid := None, node := None, updatedAt := env.now);
            RowStep(w, ReleaseAfterDestroy(Audited(Put(w3, id, r), Api, "destroy_complete", id), id, env), id, s)
  {
    var pv := s.protectedVmids;
    var r := w.rows[id].(actual := Destroyed, desired := DesiredDestroyed, vmid := None, node := None, updatedAt := env.now);
    var w4 := Put(w3, id, r);
    QuietAudit(w, w4, Api, "destroy_complete", id, pv);
    var w5 := Audited(w4, Api, "destroy_complete", id);
    assert RowStep(w, w5, id, s);
    if r.sandboxIp.Some? && r.reservation.Some? {
      if Sound(w.kea) {
        ReleaseSafe(w5.kea, r.sandboxIp.value, env.listed, env.release);
      }
      var w6 := w5.(kea := Release(w5.kea, r.sandboxIp.value, env.listed, env.release).0);
      QuietAudit(w, w6, Api, "sandbox_reservation_released", id, pv);
      QuietAudit(w, w6, Api, "sandbox_reservation_release_failed", id, pv);
    }
  }

  lemma PutIsRowStep(w: World, id: Id, r: Row, action: string, s: Settings)
    requires id in w.rows && Evolves(w.rows[id], r) && r.recoveryCount == w.rows[id].recoveryCount && QuietAction(action)
    ensures RowStep(w, Audited(Put(w, id, r), Api, action, id), id, s)
  {
    QuietAudit(w, Put(w, id, r), Api, action, id, s.protectedVmids);
  }

  lemma ExpireIsRowStep(w: World, id: Id, now: int, s: Settings)
    requires id in w.rows
    ensures RowStep(w, Expired(w, id, now), id, s)
  {
    var r := w.rows[id].(desired := DesiredDestroyed, updatedAt := now);
    QuietAudit(w, Put(w, id, r), Reconciler, "sandbox_ttl_expired", id, s.protectedVmids);
  }

  lemma RouteIsRowStep(w: World, step: Step, id: Id, s: Settings)
    requires id in w.rows && RowOk(w.rows[id], s.maxAttempts)
    requires (step.SetDesiredStep? || step.SupersedeStep? || step.ExtendTtlStep? || step.ExpireStep?) && step.id == id
    ensures RowStep(w, Next(w, step, s), id, s)
  {
    var r, r' := w.rows[id], Next(w, step, s).rows[id];
    StayIsPass(w, id, s);
    match step {
      case SetDesiredStep(_, _, _) => PutIsRowStep(w, id, r', "desired_state_set", s);
      case SupersedeStep(_, _, _) => if r' != r { PutIsRowStep(w, id, r', "runtime_superseded", s); }
      case ExpireStep(_, _) => ExpireIsRowStep(w, id, step.now, s);
      case ExtendTtlStep(_, _, _) => PutIsRowStep(w, id, if r' != r then r' else r, "sandbox_ttl_extended", s);
    }
  }
}
