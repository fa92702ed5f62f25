/** reconcile_all: one bounded pass over the runtimes that have waited longest
    (server_manager/agent_runtime_manager/services/reconciliation.py). */
module Fairness {
  import opened Wrappers
  import opened Sets
  import opened SandboxNetwork
  import opened Fleet
  import opened Reconciliation
  import opened Provisioning
  import opened ArmApi
  import opened Lifecycle
  import opened LifecycleRuns
  import opened Convergence

  predicate Eligible(r: Row) {
    r.desired != DesiredDestroyed && r.armCreated
  }

  /** The eligible runtimes. */
  function Candidates(rows: map<Id, Row>): set<Id> {
    set id | id in rows && Eligible(rows[id])
  }

  predicate NoYounger(rows: map<Id, Row>, a: Id, b: Id) {
    a in rows && b in rows && rows[a].updatedAt <= rows[b].updatedAt
  }

  /** `ORDER BY updated_at ASC LIMIT limit`, with ties in any order. */
  ghost predicate OldestFirst(rows: map<Id, Row>, limit: nat, chosen: seq<Id>) {
    && (forall c :: c in chosen ==> c in Candidates(rows))
    && (forall i, j :: 0 <= i < j < |chosen| ==> chosen[i] != chosen[j] && NoYounger(rows, chosen[i], chosen[j]))
    && |chosen| <= limit
    && (forall c, y :: c in chosen && y in Candidates(rows) && y !in chosen ==> NoYounger(rows, c, y))
    && (forall y :: y in Candidates(rows) && y !in chosen ==> |chosen| == limit)
  }

  // ------------------------------------------------------------------ such a selection exists

  lemma {:induction false} OldestExists(rows: map<Id, Row>, todo: set<Id>) returns (oldest: Id)
    requires todo != {} && todo <= rows.Keys
    ensures oldest in todo && forall y :: y in todo ==> rows[oldest].updatedAt <= rows[y].updatedAt
    decreases |todo|
  {
    oldest := Pick(todo);
    var rest := todo - {oldest};
    if rest != {} {
      var other := OldestExists(rows, rest);
      if rows[other].updatedAt < rows[oldest].updatedAt {
        oldest := other;
      }
    }
    forall y | y in todo
      ensures rows[oldest].updatedAt <= rows[y].updatedAt
    {
      assert y in rest || rest == todo - {y};
    }
  }

  lemma {:induction false} SelectionExists(rows: map<Id, Row>, limit: nat) returns (chosen: seq<Id>)
    ensures OldestFirst(rows, limit, chosen)
  {
    chosen := [];
    var left := Candidates(rows);
    while |chosen| < limit && left != {}
      invariant left <= Candidates(rows)
      invariant forall c :: c in chosen <==> c in Candidates(rows) && c !in left
      invariant forall i, j :: 0 <= i < j < |chosen| ==> chosen[i] != chosen[j] && NoYounger(rows, chosen[i], chosen[j])
      invariant forall c, y :: c in chosen && y in left ==> NoYounger(rows, c, y)
      invariant |chosen| <= limit
      decreases left
    {
      var next := OldestExists(rows, left);
      chosen, left := chosen + [next], left - {next};
    }
  }

  // ------------------------------------------------------------------ the pass

  /** The sweep, then every selected runtime in turn. */
  function Pass(w: World, s: Settings, now: int, stale: seq<Id>, chosen: seq<Id>, envs: seq<Reconciliation.Env>): World
    requires |envs| == |chosen|
  {
    Visited(Sweep(w, stale, now), s, chosen, envs)
  }

  function Visited(w: World, s: Settings, chosen: seq<Id>, envs: seq<Reconciliation.Env>): World
    requires |envs| == |chosen|
    decreases |chosen|
  {
    if chosen == [] then w else Visited(ReconcileRuntime(w, chosen[0], s, envs[0]), s, chosen[1..], envs[1..])
  }

  class ReconcileLoop {
    const service: ReconciliationService

    constructor (service: ReconciliationService)
      ensures this.service == service
    {
      this.service := service;
    }

    /** `stale` is the answer of the database to the sweep's query, `chosen` to the selection after the sweep. */
    method ReconcileAll(now: int, limit: nat, stale: seq<Id>, chosen: seq<Id>, envs: seq<Reconciliation.Env>)
      requires FindsStale(service.cluster.rows, stale, now)
      requires OldestFirst(Swept(service.cluster.rows, now), limit, chosen) && |envs| == |chosen|
      modifies service.cluster
      ensures service.cluster.View() == Pass(old(service.cluster.View()), service.settings, now, stale, chosen, envs)
    {
      ghost var expected := Pass(service.cluster.View(), service.settings, now, stale, chosen, envs);
      service.ExpireStaleSandboxes(stale, now);
      var i := 0;
      while i < |chosen|
        invariant 0 <= i <= |chosen|
        invariant Visited(service.cluster.View(), service.settings, chosen[i..], envs[i..]) == expected
      {
        assert chosen[i..][1..] == chosen[i + 1..] && envs[i..][1..] == envs[i + 1..];
        service.Reconcile(chosen[i], envs[i]);
        i := i + 1;
      }
    }
  }

  /** A pass writes the rows it selected and no others; each of them is stamped with the time of its visit. */
  lemma {:induction false} PassVisits(w: World, s: Settings, chosen: seq<Id>, envs: seq<Reconciliation.Env>)
    requires |envs| == |chosen| && forall c :: c in chosen ==> c in w.rows
    requires forall i, j :: 0 <= i < j < |chosen| ==> chosen[i] != chosen[j]
    ensures var w' := Visited(w, s, chosen, envs);
            && w'.rows.Keys == w.rows.Keys
            && (forall y :: y in w.rows && y !in chosen ==> w'.rows[y] == w.rows[y])
            && (forall i :: 0 <= i < |chosen| ==> w'.rows[chosen[i]].lastReconcile == Some(envs[i].now)
                                                  && w'.rows[chosen[i]].updatedAt == envs[i].now)
    decreases |chosen|
  {
    if chosen != [] {
      VisitOne(w, chosen[0], s, envs[0]);
      PassVisits(ReconcileRuntime(w, chosen[0], s, envs[0]), s, chosen[1..], envs[1..]);
    }
  }

  /** A sandbox the sweep of a call is about to end. */
  predicate Expiring(r: Row, now: int) {
    r.runtimeClass == "sandbox" && r.expiresAt.Some? && r.expiresAt.value < now && r.desired != DesiredDestroyed
  }

  /** A row a call may reconcile: created by this manager, and not to be destroyed even after the sweep. */
  predicate Selectable(r: Row, now: int) {
    r.armCreated && r.desired != DesiredDestroyed && !Expiring(r, now)
  }

  /** A whole call: it reconciles only rows of this manager that are to be kept, all of them if there are fewer than the
      limit. The rows it selected are stamped with the time of their visit, expired sandboxes are no longer
      wanted, and it writes no other row. */
  lemma PassWrites(w: World, s: Settings, limit: nat, now: int, stale: seq<Id>, chosen: seq<Id>, envs: seq<Reconciliation.Env>)
    requires FindsStale(w.rows, stale, now) && OldestFirst(Swept(w.rows, now), limit, chosen) && |envs| == |chosen|
    ensures var w' := Pass(w, s, now, stale, chosen, envs);
            && w'.rows.Keys == w.rows.Keys
            && |chosen| <= limit && (|chosen| < limit ==> forall y :: y in w.rows && Selectable(w.rows[y], now) ==> y in chosen)
            && (forall y :: y in w.rows && y !in chosen ==>
                  w'.rows[y] == if Expiring(w.rows[y], now) then w.rows[y].(desired := DesiredDestroyed, updatedAt := now) else w.rows[y])
            && (forall i :: 0 <= i < |chosen| ==> chosen[i] in w.rows && Selectable(w.rows[chosen[i]], now)
                                                  && w'.rows[chosen[i]].lastReconcile == Some(envs[i].now)
                                                  && w'.rows[chosen[i]].updatedAt == envs[i].now)
  {
    SweepExactly(w, stale, now);
    forall c | c in chosen
      ensures c in w.rows && Selectable(w.rows[c], now)
    {
      assert c in Candidates(Swept(w.rows, now));
    }
    forall y | y in w.rows && Selectable(w.rows[y], now)
      ensures y in Candidates(Swept(w.rows, now))
    {
    }
    PassVisits(Sweep(w, stale, now), s, chosen, envs);
  }

  lemma VisitOne(w: World, id: Id, s: Settings, env: Reconciliation.Env)
    requires id in w.rows
    ensures var w' := ReconcileRuntime(w, id, s, env);
            w'.rows == w.rows[id := w'.rows[id]] && w'.rows[id].lastReconcile == Some(env.now) && w'.rows[id].updatedAt == env.now
  {
    AttemptOne(w, id, s, env);
  }

  lemma AttemptOne(w: World, id: Id, s: Settings, env: Reconciliation.Env)
    requires id in w.rows
    ensures var w' := Attempt(w, id, s, env).0; w'.rows == w.rows[id := w'.rows[id]]
  {
    VisitRunning(w, id, s, env);
    VisitStopped(w, id, s, env);
  }

  lemma VisitRunning(w: World, id: Id, s: Settings, env: Reconciliation.Env)
    requires id in w.rows
    ensures var w' := ReconcileRunning(w, id, s, env).0; w'.rows == w.rows[id := w'.rows[id]]
  {
  }

  lemma VisitStopped(w: World, id: Id, s: Settings, env: Reconciliation.Env)
    requires id in w.rows
    ensures var w' := ReconcileStopped(w, id, s, env).0; w'.rows == w.rows[id := w'.rows[id]]
  {
  }

  // ------------------------------------------------------------------ time moves on

  /** The clock reads more than `t` when the step is taken. */
  predicate After(step: Step, t: int) {
    match step
    case SubmitStep(_, _, _, now) => now > t
    case RunStep(_, env) => env.now > t
    case ReconcileStep(_, env) => env.now > t
    case ExpireStep(_, now) => now > t
    case SetDesiredStep(_, _, now) => now > t
    case SupersedeStep(_, _, now) => now > t
    case DestroyStep(_, env) => env.now > t
    case ExtendTtlStep(_, _, now) => now > t
    case OutsideStep(_) => true
  }

  /** Every row is as it was, or has been written after `t`. */
  ghost predicate Fresher(rows: map<Id, Row>, rows': map<Id, Row>, t: int) {
    && rows.Keys <= rows'.Keys
    && forall y :: y in rows' ==> (y in rows && rows'[y] == rows[y]) || rows'[y].updatedAt > t
  }

  lemma JobStamps(w: World, jid: Id, s: Settings, env: JobEnv)
    requires Invariant(w, s) && FreshUuid(w.kea, env.net.newUuid)
    ensures Fresher(w.rows, RunJob(w, jid, s, env).rows, env.now - 1)
  {
    if Runnable(w, jid) {
      QueuedIsFresh(w, jid, s);
      RunJobEffect(w, jid, s, env);
      JobRowStamped(w, jid, s, env);
      JobRowOnly(w, RunJob(w, jid, s, env), jid, w.jobs[jid].runtimeId, s, env);
    }
  }

  lemma JobRowOnly(w: World, w': World, jid: Id, id: Id, s: Settings, env: JobEnv)
    requires JobEffect(w, w', jid, id, s, env) && w'.rows[id].updatedAt == env.now
    ensures Fresher(w.rows, w'.rows, env.now - 1)
  {
  }

  lemma JobRowStamped(w: World, jid: Id, s: Settings, env: JobEnv)
    requires Runnable(w, jid)
    ensures var id, w' := w.jobs[jid].runtimeId, RunJob(w, jid, s, env); id in w'.rows && w'.rows[id].updatedAt == env.now
  {
  }

  lemma RowStamps(w: World, step: Step, s: Settings, t: int)
    requires After(step, t)
    requires !step.RunStep? && !step.SubmitStep? && !step.OutsideStep?
    ensures Fresher(w.rows, Next(w, step, s).rows, t)
  {
    if step.ReconcileStep? {
      if step.id in w.rows {
        VisitOne(w, step.id, s, step.env);
      }
    } else if step.DestroyStep? {
      DestroyStamps(w, step.id, s, step.destroyEnv);
    } else {
      RouteStamps(w, step, s, t);
    }
  }

  lemma RouteStamps(w: World, step: Step, s: Settings, t: int)
    requires After(step, t)
    requires step.SetDesiredStep? || step.SupersedeStep? || step.ExtendTtlStep? || step.ExpireStep?
    ensures Fresher(w.rows, Next(w, step, s).rows, t)
  {
    match step
    case SetDesiredStep(id, desired, now) => assert Fresher(w.rows, SetDesired(w, id, desired, now).0.rows, t);
    case SupersedeStep(id, live, now) => assert Fresher(w.rows, Supersede(w, id, live, now).0.rows, t);
    case ExtendTtlStep(id, hours, now) => ExtendStamps(w, id, hours, s, now);
    case ExpireStep(id, now) => assert Fresher(w.rows, Expired(w, id, now).rows, t);
  }

  lemma ExtendStamps(w: World, id: Id, hours: int, s: Settings, now: int)
    ensures Fresher(w.rows, ExtendTtl(w, id, hours, s, now).0.rows, now - 1)
  {
  }

  lemma DestroyStamps(w: World, id: Id, s: Settings, env: DestroyEnv)
    ensures Fresher(w.rows, DestroyRuntime(w, id, s, env).0.rows, env.now - 1)
  {
    if id in w.rows && Backed(w.rows[id]) {
      DestroyExactly(w, id, s, env);
    }
  }

  /** Whatever writes a row bumps its `updated_at`. */
  lemma StepStamps(w: World, step: Step, s: Settings, t: int)
    requires Invariant(w, s) && Admissible(w, step) && After(step, t)
    ensures Fresher(w.rows, Next(w, step, s).rows, t)
  {
    match step
    case RunStep(jid, env) => JobStamps(w, jid, s, env);
    case SubmitStep(_, _, _, _) =>
    case OutsideStep(_) =>
    case _ => RowStamps(w, step, s, t);
  }

  lemma FresherThen(rows: map<Id, Row>, rows1: map<Id, Row>, rows2: map<Id, Row>, t: int)
    requires Fresher(rows, rows1, t) && Fresher(rows1, rows2, t)
    ensures Fresher(rows, rows2, t)
  {
  }

  lemma {:induction false} RunStamps(w: World, steps: seq<Step>, s: Settings, t: int)
    requires Invariant(w, s) && AdmissibleRun(w, steps, s)
    requires forall i :: 0 <= i < |steps| ==> After(steps[i], t)
    ensures Fresher(w.rows, Run(w, steps, s).rows, t) && Invariant(Run(w, steps, s), s)
    decreases |steps|
  {
    if steps != [] {
      var w1 := Next(w, steps[0], s);
      StepStamps(w, steps[0], s, t);
      StepKeeps(w, steps[0], s);
      RunStamps(w1, steps[1..], s, t);
      FresherThen(w.rows, w1.rows, Run(w, steps, s).rows, t);
    }
  }

  /** After a run, every row it reconciled has been written since `t`. */
  lemma {:induction false} RunVisits(w: World, steps: seq<Step>, s: Settings, t: int, i: nat)
    requires Invariant(w, s) && AdmissibleRun(w, steps, s)
    requires forall i :: 0 <= i < |steps| ==> After(steps[i], t)
    requires i < |steps| && steps[i].ReconcileStep? && steps[i].id in w.rows
    ensures var w' := Run(w, steps, s); steps[i].id in w'.rows && w'.rows[steps[i].id].updatedAt > t
    decreases |steps|
  {
    var w1 := Next(w, steps[0], s);
    StepStamps(w, steps[0], s, t);
    StepKeeps(w, steps[0], s);
    if i == 0 {
      VisitOne(w, steps[0].id, s, steps[0].env);
      RunStamps(w1, steps[1..], s, t);
    } else {
      assert steps[1..][i - 1] == steps[i];
      RunVisits(w1, steps[1..], s, t, i - 1);
    }
  }

  // ------------------------------------------------------------------ nobody waits forever

  /** One call of reconcile_all, up to the next: the sweep, the selection, and then every step until the next call,
      which include a reconcile of everything selected, in any order and interleaved with anything else. */
  datatype Round = Round(now: int, stale: seq<Id>, chosen: seq<Id>, rest: seq<Step>)

  ghost function AfterSweep(w: World, r: Round): World {
    Sweep(w, r.stale, r.now)
  }

  ghost function AfterRound(w: World, r: Round, s: Settings): World {
    Run(AfterSweep(w, r), r.rest, s)
  }

  /** A round that could happen at `w`, all of it after time `t`. */
  ghost predicate RoundOk(w: World, r: Round, s: Settings, limit: nat, t: int) {
    && r.now > t
    && FindsStale(w.rows, r.stale, r.now)
    && OldestFirst(Swept(w.rows, r.now), limit, r.chosen)
    && AdmissibleRun(AfterSweep(w, r), r.rest, s)
    && (forall i :: 0 <= i < |r.rest| ==> After(r.rest[i], t))
    && (forall c :: c in r.chosen ==> exists i :: 0 <= i < |r.rest| && r.rest[i].ReconcileStep? && r.rest[i].id == c)
  }

  /** The visits of a pass as steps of the state machine. */
  function PassSteps(chosen: seq<Id>, envs: seq<Reconciliation.Env>): seq<Step>
    requires |envs| == |chosen|
  {
    if chosen == [] then [] else [ReconcileStep(chosen[0], envs[0])] + PassSteps(chosen[1..], envs[1..])
  }

  lemma {:induction false} VisitsAreSteps(w: World, s: Settings, chosen: seq<Id>, envs: seq<Reconciliation.Env>)
    requires |envs| == |chosen|
    ensures Run(w, PassSteps(chosen, envs), s) == Visited(w, s, chosen, envs)
    ensures AdmissibleRun(w, PassSteps(chosen, envs), s)
    ensures |PassSteps(chosen, envs)| == |chosen|
    ensures forall i :: 0 <= i < |chosen| ==> PassSteps(chosen, envs)[i] == ReconcileStep(chosen[i], envs[i])
    decreases |chosen|
  {
    if chosen != [] {
      VisitsAreSteps(ReconcileRuntime(w, chosen[0], s, envs[0]), s, chosen[1..], envs[1..]);
      assert PassSteps(chosen, envs)[1..] == PassSteps(chosen[1..], envs[1..]);
    }
  }

  /** A call of reconcile_all with nothing in between is a round. */
  lemma PassIsRound(w: World, s: Settings, limit: nat, now: int, stale: seq<Id>, chosen: seq<Id>, envs: seq<Reconciliation.Env>, t: int)
    requires FindsStale(w.rows, stale, now) && OldestFirst(Swept(w.rows, now), limit, chosen) && |envs| == |chosen|
    requires now > t && forall i :: 0 <= i < |envs| ==> envs[i].now > t
    ensures var r := Round(now, stale, chosen, PassSteps(chosen, envs));
            RoundOk(w, r, s, limit, t) && AfterRound(w, r, s) == Pass(w, s, now, stale, chosen, envs)
  {
    var r := Round(now, stale, chosen, PassSteps(chosen, envs));
    SweepExactly(w, stale, now);
    VisitsAreSteps(AfterSweep(w, r), s, chosen, envs);
    forall c | c in chosen
      ensures exists i :: 0 <= i < |r.rest| && r.rest[i].ReconcileStep? && r.rest[i].id == c
    {
      var i :| 0 <= i < |chosen| && chosen[i] == c;
      assert r.rest[i].ReconcileStep?;
    }
  }

  /** A schedule of rounds and the states they start from and end in, all after time `t`. */
  ghost predicate Schedule(ws: seq<World>, rounds: seq<Round>, s: Settings, limit: nat, t: int) {
    && |ws| == |rounds| + 1
    && forall i :: 0 <= i < |rounds| ==> RoundOk(ws[i], rounds[i], s, limit, t) && ws[i + 1] == AfterRound(ws[i], rounds[i], s)
  }

  predicate PassedOverUntil(rounds: seq<Round>, n: nat, x: Id) {
    forall i :: 0 <= i < n && i < |rounds| ==> x !in rounds[i].chosen
  }

  /** Until `x` is selected nothing else writes its row, the sweep included. */
  ghost predicate LeftAlone(ws: seq<World>, rounds: seq<Round>, x: Id, r: Row)
    requires |ws| == |rounds| + 1
  {
    forall i :: 0 <= i <= |rounds| && PassedOverUntil(rounds, i, x) ==>
      x in ws[i].rows && ws[i].rows[x] == r && (i < |rounds| ==> Swept(ws[i].rows, rounds[i].now)[x] == r)
  }

  /** The eligible rows ahead of `x`. */
  function Older(rows: map<Id, Row>, x: Id): set<Id>
    requires x in rows
  {
    set y | y in rows && y != x && Eligible(rows[y]) && rows[y].updatedAt <= rows[x].updatedAt
  }

  lemma {:induction false} Distinct(chosen: seq<Id>)
    requires forall i, j :: 0 <= i < j < |chosen| ==> chosen[i] != chosen[j]
    ensures |set c | c in chosen| == |chosen|
  {
    if chosen != [] {
      Distinct(chosen[1..]);
      assert (set c | c in chosen) == {chosen[0]} + set c | c in chosen[1..];
    } else {
      assert (set c | c in chosen) == {};
    }
  }

  /** A row that is passed over had `limit` older rows ahead of it. */
  lemma PassedOver(rows: map<Id, Row>, limit: nat, chosen: seq<Id>, x: Id)
    requires OldestFirst(rows, limit, chosen) && x in Candidates(rows) && x !in chosen
    ensures (set c | c in chosen) <= Older(rows, x) && |set c | c in chosen| == limit
  {
    Distinct(chosen);
  }

  /** The queue ahead of `x` never grows: rows only leave it when time moves on. */
  lemma QueueShrinks(rows: map<Id, Row>, rows': map<Id, Row>, x: Id, t: int)
    requires x in rows && x in rows' && rows'[x] == rows[x] && rows[x].updatedAt == t && Fresher(rows, rows', t)
    ensures Older(rows', x) <= Older(rows, x)
    ensures forall c :: c in rows' && rows'[c].updatedAt > t ==> c !in Older(rows', x)
  {
  }

  lemma {:induction false} SweepKeeps(w: World, stale: seq<Id>, now: int, s: Settings)
    requires Invariant(w, s)
    ensures Invariant(Sweep(w, stale, now), s)
    decreases |stale|
  {
    if stale != [] {
      StepKeeps(w, ExpireStep(stale[0], now), s);
      SweepKeeps(Expired(w, stale[0], now), stale[1..], now, s);
    }
  }

  /** What a round does to the table, whatever else happens in it. */
  lemma RoundFacts(w: World, r: Round, s: Settings, limit: nat, t: int)
    requires Invariant(w, s) && RoundOk(w, r, s, limit, t)
    ensures Invariant(AfterRound(w, r, s), s) && Fresher(AfterSweep(w, r).rows, AfterRound(w, r, s).rows, t)
    ensures forall c :: c in r.chosen ==> c in AfterRound(w, r, s).rows && AfterRound(w, r, s).rows[c].updatedAt > t
  {
    SweepKeeps(w, r.stale, r.now, s);
    SweepExactly(w, r.stale, r.now);
    AllVisited(AfterSweep(w, r), r, s, limit, t);
  }

  lemma AllVisited(w: World, r: Round, s: Settings, limit: nat, t: int)
    requires Invariant(w, s) && AdmissibleRun(w, r.rest, s)
    requires forall i :: 0 <= i < |r.rest| ==> After(r.rest[i], t)
    requires forall c :: c in r.chosen ==> c in w.rows && exists i :: 0 <= i < |r.rest| && r.rest[i].ReconcileStep? && r.rest[i].id == c
    ensures var w' := Run(w, r.rest, s);
            && Invariant(w', s) && Fresher(w.rows, w'.rows, t)
            && forall c :: c in r.chosen ==> c in w'.rows && w'.rows[c].updatedAt > t
  {
    RunStamps(w, r.rest, s, t);
    forall c | c in r.chosen
      ensures c in Run(w, r.rest, s).rows && Run(w, r.rest, s).rows[c].updatedAt > t
    {
      var i :| 0 <= i < |r.rest| && r.rest[i].ReconcileStep? && r.rest[i].id == c;
      RunVisits(w, r.rest, s, t, i);
    }
  }

  lemma TableShrinks(rows: map<Id, Row>, rows1: map<Id, Row>, rows2: map<Id, Row>, limit: nat, chosen: seq<Id>, x: Id, t: int)
    requires x in rows && x in rows1 && x in rows2 && rows1[x] == rows[x] && rows2[x] == rows[x]
    requires Eligible(rows[x]) && rows[x].updatedAt == t
    requires Fresher(rows, rows1, t) && Fresher(rows1, rows2, t)
    requires OldestFirst(rows1, limit, chosen) && x !in chosen
    requires forall c :: c in chosen ==> c in rows2 && rows2[c].updatedAt > t
    ensures |Older(rows2, x)| + limit <= |Older(rows, x)|
  {
    PassedOver(rows1, limit, chosen, x);
    QueueShrinks(rows, rows1, x, t);
    QueueShrinks(rows1, rows2, x, t);
    var gone := set c | c in chosen;
    Cards(Older(rows2, x), gone, Older(rows, x));
  }

  lemma Cards(a: set<Id>, b: set<Id>, c: set<Id>)
    requires a <= c && b <= c && a !! b
    ensures |a| + |b| <= |c|
  {
    assert c == (a + b) + (c - (a + b));
  }

  /** The calls of reconcile_all that serve a row with k others ahead of it. */
  function Calls(k: nat, limit: nat): nat
    requires limit > 0
  {
    k / limit + 1
  }

  /** A round that passes over `x` takes at least `limit` rows out of the queue ahead of it. */
  lemma RoundShrinks(w: World, round: Round, s: Settings, limit: nat, x: Id)
    requires Invariant(w, s) && x in w.rows && Eligible(w.rows[x]) && x !in round.chosen
    requires RoundOk(w, round, s, limit, w.rows[x].updatedAt) && Swept(w.rows, round.now)[x] == w.rows[x]
    requires var w' := AfterRound(w, round, s); x in w'.rows && w'.rows[x] == w.rows[x]
    ensures Invariant(AfterRound(w, round, s), s)
    ensures |Older(AfterRound(w, round, s).rows, x)| + limit <= |Older(w.rows, x)|
  {
    RoundFacts(w, round, s, limit, w.rows[x].updatedAt);
    SweepExactly(w, round.stale, round.now);
    TableShrinks(w.rows, AfterSweep(w, round).rows, AfterRound(w, round, s).rows, limit, round.chosen, x, w.rows[x].updatedAt);
  }

  /** How many rows `calls` rounds take out of a queue. */
  function Capacity(limit: nat, calls: nat): nat {
    if calls == 0 then 0 else limit + Capacity(limit, calls - 1)
  }

  lemma {:induction false} CapacityIs(limit: nat, calls: nat)
    ensures Capacity(limit, calls) == limit * calls
  {
    if calls > 0 {
      CapacityIs(limit, calls - 1);
      assert limit * calls == limit + limit * (calls - 1);
    }
  }

  /** Every round that passes over `x` takes at least `limit` rows out of the queue ahead of it. */
  lemma {:induction false} QueueAfter(ws: seq<World>, rounds: seq<Round>, s: Settings, limit: nat, x: Id, r: Row, n: nat)
    requires Schedule(ws, rounds, s, limit, r.updatedAt) && LeftAlone(ws, rounds, x, r)
    requires Invariant(ws[0], s) && Eligible(r) && n <= |rounds| && PassedOverUntil(rounds, n, x)
    ensures Invariant(ws[n], s) && x in ws[0].rows && x in ws[n].rows && ws[n].rows[x] == r
    ensures |Older(ws[n].rows, x)| + Capacity(limit, n) <= |Older(ws[0].rows, x)|
  {
    assert PassedOverUntil(rounds, 0, x);
    if n > 0 {
      assert PassedOverUntil(rounds, n - 1, x);
      QueueAfter(ws, rounds, s, limit, x, r, n - 1);
      assert RoundOk(ws[n - 1], rounds[n - 1], s, limit, r.updatedAt);
      RoundShrinks(ws[n - 1], rounds[n - 1], s, limit, x);
    }
  }

  /** No runtime starves: with k eligible rows ahead of it, a row nothing else writes is selected within
      floor(k / limit) + 1 calls of reconcile_all, whatever is added, touched or destroyed in between. */
  lemma NobodyStarves(ws: seq<World>, rounds: seq<Round>, s: Settings, limit: nat, x: Id, r: Row)
    requires Schedule(ws, rounds, s, limit, r.updatedAt) && LeftAlone(ws, rounds, x, r)
    requires Invariant(ws[0], s) && Eligible(r) && limit > 0
    ensures x in ws[0].rows && ws[0].rows[x] == r
    ensures |rounds| >= Calls(|Older(ws[0].rows, x)|, limit) ==>
              exists i :: 0 <= i < Calls(|Older(ws[0].rows, x)|, limit) && x in rounds[i].chosen
  {
    assert PassedOverUntil(rounds, 0, x);
    var k := |Older(ws[0].rows, x)|;
    var calls := Calls(k, limit);
    if |rounds| >= calls && PassedOverUntil(rounds, calls, x) {
      QueueAfter(ws, rounds, s, limit, x, r, calls);
      CapacityIs(limit, calls);
      Enough(k, limit);
    }
  }

  lemma Enough(k: nat, limit: nat)
    requires limit > 0
    ensures k < limit * Calls(k, limit)
  {
    assert k == limit * (k / limit) + k % limit;
  }
}
