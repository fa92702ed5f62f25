/** How long a sandbox is kept: the deadline a submit or an extension sets, and the sweep that enforces it. */
module Lifetimes {
  import opened Wrappers
  import opened SandboxNetwork
  import opened Fleet
  import opened Proxmox
  import opened Reconciliation
  import opened Provisioning
  import opened ArmApi
  import opened Lifecycle
  import opened LifecycleRuns
  import opened Convergence

  // ------------------------------------------------------------------ one sweep

  /** A sandbox whose deadline is past. */
  predicate Overdue(r: Row, now: int) {
    r.runtimeClass == "sandbox" && r.expiresAt.Some? && r.expiresAt.value < now
  }

  /** After a sweep a runtime is DESIRED_DESTROYED exactly if it was before or is a sandbox whose deadline is past, and
      no other row is written. */
  lemma SweepDestroysOverdue(w: World, stale: seq<Id>, now: int, id: Id)
    requires forall x :: x in stale <==> x in w.rows && Overdue(w.rows[x], now) && w.rows[x].desired != DesiredDestroyed
    requires forall i, j :: 0 <= i < j < |stale| ==> stale[i] != stale[j]
    requires id in w.rows
    ensures var w', r := Sweep(w, stale, now), w.rows[id];
            var overdue := Overdue(r, now);
            && w'.rows.Keys == w.rows.Keys
            && (w'.rows[id].desired == DesiredDestroyed <==> r.desired == DesiredDestroyed || overdue)
            && (r.desired == DesiredDestroyed || !overdue ==> w'.rows[id] == r)
            && (overdue && r.desired != DesiredDestroyed ==> w'.rows[id] == r.(desired := DesiredDestroyed, updatedAt := now))
  {
    SweepExactly(w, stale, now);
  }

  /** Whatever rows a sweep is told to look at, it leaves a sandbox alone until its deadline is past. */
  lemma {:induction false} SweepSpares(w: World, stale: seq<Id>, now: int, id: Id)
    requires id in w.rows && w.rows[id].expiresAt.Some? && now <= w.rows[id].expiresAt.value
    ensures id in Sweep(w, stale, now).rows && Sweep(w, stale, now).rows[id] == w.rows[id]
    decreases |stale|
  {
    if stale != [] {
      SweepSpares(Expired(w, stale[0], now), stale[1..], now, id);
    }
  }

  // ------------------------------------------------------------------ a deadline holds over a run

  predicate Extends(step: Step, id: Id) {
    step.ExtendTtlStep? && step.id == id
  }

  lemma PassKeepsExpiry(w: World, id: Id, s: Settings, env: Reconciliation.Env)
    requires id in w.rows
    ensures var r := ReconcileRuntime(w, id, s, env).rows[id];
            r.expiresAt == w.rows[id].expiresAt && r.runtimeClass == w.rows[id].runtimeClass
  {
    RunningKeepsExpiry(w, id, s, env);
    StoppedKeepsExpiry(w, id, s, env);
  }

  lemma RunningKeepsExpiry(w: World, id: Id, s: Settings, env: Reconciliation.Env)
    requires id in w.rows
    ensures var r := ReconcileRunning(w, id, s, env).0.rows[id];
            r.expiresAt == w.rows[id].expiresAt && r.runtimeClass == w.rows[id].runtimeClass
  {
  }

  lemma StoppedKeepsExpiry(w: World, id: Id, s: Settings, env: Reconciliation.Env)
    requires id in w.rows
    ensures var r := ReconcileStopped(w, id, s, env).0.rows[id];
            r.expiresAt == w.rows[id].expiresAt && r.runtimeClass == w.rows[id].runtimeClass
  {
  }

  lemma JobKeepsExpiry(w: World, jid: Id, s: Settings, env: JobEnv, id: Id)
    requires Invariant(w, s) && FreshUuid(w.kea, env.net.newUuid) && id in w.rows
    ensures var w' := RunJob(w, jid, s, env);
            id in w'.rows && w'.rows[id].expiresAt == w.rows[id].expiresAt && w'.rows[id].runtimeClass == w.rows[id].runtimeClass
  {
    if Runnable(w, jid) {
      QueuedIsFresh(w, jid, s);
      RunJobEffect(w, jid, s, env);
    }
  }

  lemma OwnStepKeepsExpiry(w: World, step: Step, s: Settings, id: Id)
    requires id in w.rows && !step.RunStep? && !step.SubmitStep? && !step.OutsideStep? && !step.ExtendTtlStep? && step.id == id
    ensures var w' := Next(w, step, s);
            id in w'.rows && w'.rows[id].expiresAt == w.rows[id].expiresAt && w'.rows[id].runtimeClass == w.rows[id].runtimeClass
  {
    if step.ReconcileStep? {
      PassKeepsExpiry(w, id, s, step.env);
    } else if step.DestroyStep? && Backed(w.rows[id]) {
      DestroyExactly(w, id, s, step.destroyEnv);
    }
  }

  lemma StepKeepsExpiry(w: World, step: Step, s: Settings, id: Id)
    requires Invariant(w, s) && Admissible(w, step) && id in w.rows && !Extends(step, id)
    ensures var w' := Next(w, step, s);
            id in w'.rows && w'.rows[id].expiresAt == w.rows[id].expiresAt && w'.rows[id].runtimeClass == w.rows[id].runtimeClass
  {
    if step.RunStep? {
      JobKeepsExpiry(w, step.jobId, s, step.jobEnv, id);
    } else if !step.SubmitStep? && !step.OutsideStep? && step.id in w.rows {
      if step.id == id {
        OwnStepKeepsExpiry(w, step, s, id);
      } else {
        OwnRowStep(w, step, s);
      }
    }
  }

  lemma {:induction false} RunKeepsExpiry(w: World, steps: seq<Step>, s: Settings, id: Id)
    requires Invariant(w, s) && AdmissibleRun(w, steps, s) && id in w.rows
    requires forall i :: 0 <= i < |steps| ==> !Extends(steps[i], id)
    ensures var w' := Run(w, steps, s);
            id in w'.rows && w'.rows[id].expiresAt == w.rows[id].expiresAt && w'.rows[id].runtimeClass == w.rows[id].runtimeClass
    decreases |steps|
  {
    if steps != [] {
      assert !Extends(steps[0], id);
      StepKeepsExpiry(w, steps[0], s, id);
      StepKeeps(w, steps[0], s);
      RunKeepsExpiry(Next(w, steps[0], s), steps[1..], s, id);
    }
  }

  /** A deadline is honoured to the second: in every run that does not extend it, a sweep at any time up to it leaves
      the sandbox as it is, and one at any later time makes it DESIRED_DESTROYED. */
  lemma DeadlineHonoured(w: World, id: Id, deadline: int, s: Settings, steps: seq<Step>, stale: seq<Id>, now: int)
    requires Invariant(w, s) && AdmissibleRun(w, steps, s)
    requires forall i :: 0 <= i < |steps| ==> !Extends(steps[i], id)
    requires id in w.rows && w.rows[id].runtimeClass == "sandbox" && w.rows[id].expiresAt == Some(deadline)
    ensures var w' := Run(w, steps, s);
            && id in w'.rows
            && (now <= deadline ==> id in Sweep(w', stale, now).rows && Sweep(w', stale, now).rows[id] == w'.rows[id])
            && (deadline < now ==> Expired(w', id, now).rows[id].desired == DesiredDestroyed)
  {
    RunKeepsExpiry(w, steps, s, id);
    if now <= deadline {
      SweepSpares(Run(w, steps, s), stale, now, id);
    }
  }

  function Clamped(hours: int, max: int): int {
    if hours < 1 || max < 1 then 1 else if hours < max then hours else max
  }

  /** The deadline an extension sets. */
  lemma ExtendedDeadline(w: World, id: Id, hours: int, s: Settings, t: int)
    requires Invariant(w, s) && ExtendTtl(w, id, hours, s, t).1 == Accepted
    ensures var w1 := ExtendTtl(w, id, hours, s, t).0;
            && Invariant(w1, s) && id in w1.rows && w1.rows[id].runtimeClass == "sandbox"
            && w1.rows[id].expiresAt == Some(t + 3600 * Clamped(hours, s.maxTtlHours))
  {
    StepKeeps(w, ExtendTtlStep(id, hours, t), s);
    ExtendedRow(w, id, hours, s, t);
  }

  lemma ExtendedRow(w: World, id: Id, hours: int, s: Settings, t: int)
    requires ExtendTtl(w, id, hours, s, t).1 == Accepted
    ensures var w1 := ExtendTtl(w, id, hours, s, t).0;
            id in w1.rows && w1.rows[id].runtimeClass == "sandbox" && w1.rows[id].expiresAt == Some(t + 3600 * Clamped(hours, s.maxTtlHours))
  {
  }

  /** An extension asked for at t keeps a sandbox for the hours asked, at least one and at most the maximum: in every run
      until the next extension, no sweep up to t + 3600 * hours touches it, and every later one ends it. */
  lemma ExtensionHonoured(w: World, id: Id, hours: int, s: Settings, t: int, steps: seq<Step>, stale: seq<Id>, now: int)
    requires Invariant(w, s) && ExtendTtl(w, id, hours, s, t).1 == Accepted
    requires AdmissibleRun(ExtendTtl(w, id, hours, s, t).0, steps, s)
    requires forall i :: 0 <= i < |steps| ==> !Extends(steps[i], id)
    ensures var w', deadline := Run(ExtendTtl(w, id, hours, s, t).0, steps, s), t + 3600 * Clamped(hours, s.maxTtlHours);
            && id in w'.rows
            && (now <= deadline ==> id in Sweep(w', stale, now).rows && Sweep(w', stale, now).rows[id] == w'.rows[id])
            && (deadline < now ==> Expired(w', id, now).rows[id].desired == DesiredDestroyed)
  {
    ExtendedDeadline(w, id, hours, s, t);
    DeadlineHonoured(ExtendTtl(w, id, hours, s, t).0, id, t + 3600 * Clamped(hours, s.maxTtlHours), s, steps, stale, now);
  }

  /** An extension is accepted exactly for a sandbox. */
  lemma ExtensionExactly(w: World, id: Id, hours: int, s: Settings, t: int)
    ensures ExtendTtl(w, id, hours, s, t).1 == Accepted <==> id in w.rows && w.rows[id].runtimeClass == "sandbox"
    ensures ExtendTtl(w, id, hours, s, t).1 != Accepted ==> ExtendTtl(w, id, hours, s, t).0 == w
  {
  }

  /** A sandbox submitted at t is kept for the hours asked for, or the default if none or zero are, clamped alike. */
  lemma FirstLifeHonoured(w: World, req: Request, rid: Id, jid: Id, s: Settings, t: int, steps: seq<Step>, stale: seq<Id>, now: int)
    requires Invariant(w, s) && rid !in w.rows && jid !in w.jobs && req.runtimeClass == "sandbox"
    requires forall j :: j in w.jobs ==> w.jobs[j].requestId != req.requestId
    requires AdmissibleRun(Submit(w, req, rid, jid, s, t), steps, s)
    requires forall i :: 0 <= i < |steps| ==> !Extends(steps[i], rid)
    ensures var hours := if req.ttlHours.None? || req.ttlHours == Some(0) then s.defaultTtlHours else req.ttlHours.value;
            var w', deadline := Run(Submit(w, req, rid, jid, s, t), steps, s), t + 3600 * Clamped(hours, s.maxTtlHours);
            && rid in w'.rows
            && (now <= deadline ==> rid in Sweep(w', stale, now).rows && Sweep(w', stale, now).rows[rid] == w'.rows[rid])
            && (deadline < now ==> Expired(w', rid, now).rows[rid].desired == DesiredDestroyed)
  {
    var hours := if req.ttlHours.None? || req.ttlHours == Some(0) then s.defaultTtlHours else req.ttlHours.value;
    SubmitKeeps(w, req, rid, jid, s, t);
    DeadlineHonoured(Submit(w, req, rid, jid, s, t), rid, t + 3600 * Clamped(hours, s.maxTtlHours), s, steps, stale, now);
  }
}
