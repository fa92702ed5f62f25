/** How often the recovery engine can act on a host, over every run. */
module RecoveryRate {
  import opened Wrappers
  import opened RecoveryEngine

  const WINDOW_S := 30 * 60

  function KindOf(op: Op): string {
    if op == Start then VM_START else SERVICE_RESTART
  }

  /** The least time between two actions on a host. */
  function Gap(op: Op): nat {
    if op == Start then 0 else 180
  }

  /** The times of the events of one kind about one host, in order of insertion. */
  function Stamps(events: seq<Event>, ip: string, kind: string): seq<int> {
    if events == [] then []
    else
      var last := |events| - 1;
      Stamps(events[..last], ip, kind) + (if events[last].ip == ip && events[last].kind == kind then [events[last].at] else [])
  }

  /** The times at which `op` was sent to `ip`. */
  function Acts(actions: seq<Action>, ip: string, op: Op): seq<int> {
    if actions == [] then []
    else
      var last := |actions| - 1;
      Acts(actions[..last], ip, op) + (if actions[last].ip == ip && actions[last].op == op then [actions[last].at] else [])
  }

  /** How many of the times lie in [from, to). */
  function Within(ts: seq<int>, from: int, to: int): nat {
    if ts == [] then 0 else Within(ts[..|ts| - 1], from, to) + (if from <= ts[|ts| - 1] < to then 1 else 0)
  }

  /** Any two are a gap apart, any three span a whole window. */
  predicate Spread(ts: seq<int>, gap: nat) {
    && (forall i, j :: 0 <= i < j < |ts| ==> ts[j] - ts[i] >= gap)
    && (forall i, j :: 0 <= i && i + 2 <= j < |ts| ==> ts[j] - ts[i] >= WINDOW_S)
  }

  /** The times of the events a run has added to a table of `n0` rows. */
  function New(s: State, n0: nat, ip: string, op: Op): seq<int>
    requires n0 <= |s.events|
  {
    Stamps(s.events[n0..], ip, KindOf(op))
  }

  /** Whatever was recorded was sent. */
  ghost predicate Sent(ts: seq<int>, acts: seq<int>) {
    forall a, b :: Within(ts, a, b) <= Within(acts, a, b)
  }

  /** What is recorded is well spread out and was sent; if every insert succeeded (`complete`) it is all that was. */
  ghost predicate Book(ts: seq<int>, acts: seq<int>, gap: nat, clock: int, complete: bool) {
    && Spread(ts, gap)
    && (ts != [] ==> ts[|ts| - 1] <= clock)
    && Sent(ts, acts)
    && (complete ==> ts == acts)
  }

  /** The book of one kind of recovery of one host. */
  ghost predicate Ledger(s: State, n0: nat, ip: string, op: Op, complete: bool) {
    n0 <= |s.events| && Book(New(s, n0, ip, op), Acts(s.actions, ip, op), Gap(op), s.clock, complete)
  }

  lemma WithinAppend(ts: seq<int>, t: int, a: int, b: int)
    ensures Within(ts + [t], a, b) == Within(ts, a, b) + (if a <= t < b then 1 else 0)
  {
    assert (ts + [t])[..|ts|] == ts;
  }

  /** The time is late enough after the last two. */
  predicate Due(ts: seq<int>, gap: nat, clock: int) {
    && (|ts| >= 1 ==> ts[|ts| - 1] <= clock - gap)
    && (|ts| >= 2 ==> ts[|ts| - 2] <= clock - WINDOW_S)
  }

  /** Adding one more time to a spread-out list. */
  lemma SpreadMore(ts: seq<int>, gap: nat, t: int)
    requires Spread(ts, gap) && Due(ts, gap, t)
    ensures Spread(ts + [t], gap)
  {
    forall i, j | 0 <= i < j < |ts + [t]|
      ensures (ts + [t])[j] - (ts + [t])[i] >= gap
    {
      if j == |ts| && i < |ts| - 1 {
        assert ts[|ts| - 1] - ts[i] >= gap;
      }
    }
    forall i, j | 0 <= i && i + 2 <= j < |ts + [t]|
      ensures (ts + [t])[j] - (ts + [t])[i] >= WINDOW_S
    {
      if j == |ts| && i < |ts| - 2 {
        assert ts[|ts| - 2] - ts[i] >= gap;
      }
    }
  }

  /** Sending without a record: more was sent than is recorded. */
  lemma BookLost(ts: seq<int>, acts: seq<int>, gap: nat, clock: int, t: int)
    requires Book(ts, acts, gap, clock, false)
    ensures Book(ts, acts + [t], gap, clock, false)
  {
    forall a, b
      ensures Within(ts, a, b) <= Within(acts + [t], a, b)
    {
      WithinAppend(acts, t, a, b);
    }
  }

  lemma BookBoth(ts: seq<int>, acts: seq<int>, gap: nat, clock: int, complete: bool, t: int)
    requires Book(ts, acts, gap, clock, complete) && Due(ts, gap, t)
    ensures Book(ts + [t], acts + [t], gap, t, complete)
  {
    SpreadMore(ts, gap, t);
    forall a, b
      ensures Within(ts + [t], a, b) <= Within(acts + [t], a, b)
    {
      WithinAppend(ts, t, a, b);
      WithinAppend(acts, t, a, b);
    }
  }

  // ------------------------------------------------------------------ what a count says about the last events

  lemma {:induction false} StampsConcat(a: seq<Event>, b: seq<Event>, ip: string, kind: string)
    ensures Stamps(a + b, ip, kind) == Stamps(a, ip, kind) + Stamps(b, ip, kind)
  {
    if b == [] {
      assert a + b == a;
    } else {
      var last := |b| - 1;
      assert (a + b)[..|a + b| - 1] == a + b[..last];
      StampsConcat(a, b[..last], ip, kind);
    }
  }

  lemma {:induction false} LastCounts(events: seq<Event>, ip: string, kind: string, since: int)
    ensures var ts, n := Stamps(events, ip, kind), CountRecent(events, ip, kind, since);
            && (|ts| >= 1 && ts[|ts| - 1] > since ==> n >= 1)
            && (|ts| >= 2 && ts[|ts| - 1] > since && ts[|ts| - 2] > since ==> n >= 2)
  {
    if events != [] {
      LastCounts(events[..|events| - 1], ip, kind, since);
    }
  }

  /** Below the cap, the last two events do not both lie in the window; with none counted, no event does. */
  lemma CountSpaces(s: State, n0: nat, ip: string, op: Op, since: int)
    requires n0 <= |s.events| && Spread(New(s, n0, ip, op), Gap(op))
    ensures var ts, n := New(s, n0, ip, op), CountRecent(s.events, ip, KindOf(op), since);
            && (n < 2 && |ts| >= 2 ==> ts[|ts| - 2] <= since)
            && (n < 1 && |ts| >= 1 ==> ts[|ts| - 1] <= since)
  {
    var kind := KindOf(op);
    assert s.events == s.events[..n0] + s.events[n0..];
    StampsConcat(s.events[..n0], s.events[n0..], ip, kind);
    LastCounts(s.events, ip, kind, since);
    SuffixSpaces(Stamps(s.events[..n0], ip, kind), Stamps(s.events[n0..], ip, kind), Gap(op), CountRecent(s.events, ip, kind, since), since);
  }

  lemma SuffixSpaces(earlier: seq<int>, ts: seq<int>, gap: nat, n: nat, since: int)
    requires Spread(ts, gap)
    requires var all := earlier + ts;
             && (|all| >= 1 && all[|all| - 1] > since ==> n >= 1)
             && (|all| >= 2 && all[|all| - 1] > since && all[|all| - 2] > since ==> n >= 2)
    ensures n < 2 && |ts| >= 2 ==> ts[|ts| - 2] <= since
    ensures n < 1 && |ts| >= 1 ==> ts[|ts| - 1] <= since
  {
    if |ts| >= 2 {
      assert ts[|ts| - 1] - ts[|ts| - 2] >= gap;
    }
  }

  // ------------------------------------------------------------------ what keeps the book

  predicate OtherKind(kind: string) {
    kind != VM_START && kind != SERVICE_RESTART
  }

  lemma OtherKinds()
    ensures VM_START != SERVICE_RESTART
    ensures OtherKind("recovery_success") && OtherKind("recovery_failed") && OtherKind("outage_detected")
    ensures OtherKind("service_degraded") && OtherKind("maintenance_skip") && OtherKind("intentional_state_pending")
  {
    assert |VM_START| == 17 && |SERVICE_RESTART| == 24;
    assert |"recovery_success"| == 16 && |"recovery_failed"| == 15 && |"outage_detected"| == 15 && |"service_degraded"| == 16;
    assert |"maintenance_skip"| == 16 && |"intentional_state_pending"| == 25;
  }

  lemma StampsAppend(events: seq<Event>, e: Event, ip: string, kind: string)
    ensures if e.ip == ip && e.kind == kind then Stamps(events + [e], ip, kind) == Stamps(events, ip, kind) + [e.at]
            else Stamps(events + [e], ip, kind) == Stamps(events, ip, kind)
  {
    assert (events + [e])[..|events|] == events;
    assert Stamps(events, ip, kind) + [] == Stamps(events, ip, kind);
  }

  lemma ActsAppend(actions: seq<Action>, a: Action, ip: string, op: Op)
    ensures if a.ip == ip && a.op == op then Acts(actions + [a], ip, op) == Acts(actions, ip, op) + [a.at]
            else Acts(actions + [a], ip, op) == Acts(actions, ip, op)
  {
    assert (actions + [a])[..|actions|] == actions;
    assert Acts(actions, ip, op) + [] == Acts(actions, ip, op);
  }

  lemma NewAppend(s: State, e: Event, n0: nat, ip: string, op: Op)
    requires n0 <= |s.events|
    ensures var s' := s.(events := s.events + [e]);
            if e.ip == ip && e.kind == KindOf(op) then New(s', n0, ip, op) == New(s, n0, ip, op) + [e.at]
            else New(s', n0, ip, op) == New(s, n0, ip, op)
  {
    assert (s.events + [e])[n0..] == s.events[n0..] + [e];
    StampsAppend(s.events[n0..], e, ip, KindOf(op));
  }

  /** An event that is not of this kind about this host changes nothing. */
  lemma NoteKeeps(s: State, x: string, kind: string, w: Write, n0: nat, ip: string, op: Op, complete: bool)
    requires Ledger(s, n0, ip, op, complete) && (x != ip || kind != KindOf(op))
    ensures Ledger(Audited(s, x, kind, w), n0, ip, op, complete)
  {
    NoteUnseen(s, x, kind, w, n0, ip, op);
    BookLater(New(s, n0, ip, op), Acts(s.actions, ip, op), Gap(op), s.clock, Audited(s, x, kind, w).clock, complete);
  }

  lemma NoteUnseen(s: State, x: string, kind: string, w: Write, n0: nat, ip: string, op: Op)
    requires n0 <= |s.events| && (x != ip || kind != KindOf(op))
    ensures var after := Audited(s, x, kind, w);
            && n0 <= |after.events| && New(after, n0, ip, op) == New(s, n0, ip, op)
            && after.actions == s.actions && after.clock == s.clock + w.delay
  {
    NewAppend(s, Event(x, kind, s.clock + w.delay), n0, ip, op);
  }

  lemma BookLater(ts: seq<int>, acts: seq<int>, gap: nat, clock: int, later: int, complete: bool)
    requires Book(ts, acts, gap, clock, complete) && clock <= later
    ensures Book(ts, acts, gap, later, complete)
  {
  }

  /** Sending without a record. */
  lemma LostKeeps(s: State, x: string, o: Op, n0: nat, ip: string, op: Op, complete: bool)
    requires Ledger(s, n0, ip, op, complete) && (complete ==> x != ip || o != op)
    ensures Ledger(Acted(s, x, o), n0, ip, op, complete)
  {
    ActsAppend(s.actions, Action(x, o, s.clock), ip, op);
    if x == ip && o == op {
      BookLost(New(s, n0, ip, op), Acts(s.actions, ip, op), Gap(op), s.clock, s.clock);
    }
  }

  /** An action that is recorded, and due. */
  lemma RecordedKeeps(s: State, w: Write, n0: nat, ip: string, op: Op, complete: bool)
    requires Ledger(s, n0, ip, op, complete) && w.ok && Due(New(s, n0, ip, op), Gap(op), s.clock)
    ensures Ledger(Acted(Audited(s, ip, KindOf(op), w), ip, op), n0, ip, op, complete)
  {
    var at := s.clock + w.delay;
    NewAppend(s, Event(ip, KindOf(op), at), n0, ip, op);
    ActsAppend(s.actions, Action(ip, op, at), ip, op);
    BookBoth(New(s, n0, ip, op), Acts(s.actions, ip, op), Gap(op), s.clock, complete, at);
  }

  /** The audit and the action of a recovery, of whichever host and kind, recorded or not. */
  lemma ActKeeps(s: State, x: string, o: Op, w: Write, n0: nat, ip: string, op: Op, complete: bool)
    requires Ledger(s, n0, ip, op, complete)
    requires x == ip && o == op ==> Due(New(s, n0, ip, op), Gap(op), s.clock) && (complete ==> w.ok)
    ensures Ledger(Acted(Audited(s, x, KindOf(o), w), x, o), n0, ip, op, complete)
  {
    OtherKinds();
    if x == ip && o == op && w.ok {
      RecordedKeeps(s, w, n0, ip, op, complete);
    } else {
      if x == ip && o == op {
        assert Ledger(Audited(s, x, KindOf(o), w), n0, ip, op, complete);
      } else {
        NoteKeeps(s, x, KindOf(o), w, n0, ip, op, complete);
      }
      LostKeeps(Audited(s, x, KindOf(o), w), x, o, n0, ip, op, complete);
    }
  }

  lemma TimeKeeps(s: State, delay: nat, n0: nat, ip: string, op: Op, complete: bool)
    requires Ledger(s, n0, ip, op, complete)
    ensures Ledger(After(s, delay), n0, ip, op, complete)
  {
  }

  lemma {:induction false} WaitKeeps(s: State, x: string, polls: seq<Poll>, rounds: nat, success: Write, n0: nat, ip: string, op: Op, complete: bool)
    requires Ledger(s, n0, ip, op, complete)
    ensures Ledger(Waited(s, x, polls, rounds, success).0, n0, ip, op, complete)
    decreases |polls|
  {
    if polls != [] && rounds > 0 {
      var s1 := After(s, polls[0].delay);
      TimeKeeps(s, polls[0].delay, n0, ip, op, complete);
      match polls[0].answer
      case Raised =>
      case Healthy =>
        OtherKinds();
        NoteKeeps(s1, x, "recovery_success", success, n0, ip, op, complete);
      case NotYet => WaitKeeps(s1, x, polls[1..], rounds - 1, success, n0, ip, op, complete);
    }
  }

  /** Fewer than two starts counted: the next one is due. */
  lemma StartDue(s: State, env: StartEnv, n0: nat, ip: string, complete: bool)
    requires Ledger(s, n0, ip, Start, complete)
    requires var count := RecentCount(s, ip, VM_START, WINDOW_MINUTES, env.first); count.Some? && count.value < VM_START_MAX
    ensures var s2 := After(After(s, env.first.delay), env.second.delay); Due(New(s2, n0, ip, Start), 0, s2.clock)
  {
    CountSpaces(s, n0, ip, Start, s.clock + env.first.delay - WINDOW_S);
  }

  lemma StartKeeps(s: State, x: string, env: StartEnv, n0: nat, ip: string, op: Op, complete: bool)
    requires Ledger(s, n0, ip, op, complete) && (complete && x == ip && op == Start ==> env.write.ok)
    ensures Ledger(RecoverVmStart(s, x, env).0, n0, ip, op, complete)
  {
    var s1 := After(s, env.first.delay);
    var s2 := After(s1, env.second.delay);
    TimeKeeps(s, env.first.delay, n0, ip, op, complete);
    TimeKeeps(s1, env.second.delay, n0, ip, op, complete);
    var count := RecentCount(s, x, VM_START, WINDOW_MINUTES, env.first);
    if count.Some? && count.value >= VM_START_MAX {
      OtherKinds();
      NoteKeeps(s1, x, "recovery_failed", env.exhausted, n0, ip, op, complete);
    } else if count.Some? {
      if x == ip && op == Start {
        StartDue(s, env, n0, ip, complete);
      }
      ActKeeps(s2, x, Start, env.write, n0, ip, op, complete);
      WaitKeeps(Acted(Audited(s2, x, VM_START, env.write), x, Start), x, env.polls, 40, env.success, n0, ip, op, complete);
    }
  }

  /** A service that is not cooling down has no restart recorded in the last 3 minutes. */
  lemma CooldownSpaces(s: State, ip: string, env: ServiceEnv, n0: nat)
    requires n0 <= |s.events| && Spread(New(s, n0, ip, Restart), Gap(Restart)) && CoolingDown(s, ip, env) == Some(false)
    ensures var ts := New(s, n0, ip, Restart);
            |ts| >= 1 ==> ts[|ts| - 1] <= s.clock + CooldownDelay(s, ip, env) - 180
  {
    var since := s.clock + env.cooldown.delay - 180;
    if RecentCount(s, ip, SERVICE_RESTART, 3, env.cooldown) == Some(0) {
      CountSpaces(s, n0, ip, Restart, since);
    } else {
      CountSpaces(s, n0, ip, Restart, since + env.again.delay);
    }
  }

  /** Fewer than two restarts counted, and no cooldown: the next one is due. */
  lemma RestartDue(s: State, env: ServiceEnv, n0: nat, ip: string, complete: bool)
    requires Ledger(s, n0, ip, Restart, complete)
    requires var count := RecentCount(s, ip, SERVICE_RESTART, WINDOW_MINUTES, env.first); count.Some? && count.value < SERVICE_RESTART_MAX
    requires CoolingDown(After(s, env.first.delay), ip, env) == Some(false)
    ensures var s1 := After(s, env.first.delay);
            var s3 := After(After(s1, CooldownDelay(s1, ip, env)), env.attempt.delay);
            Due(New(s3, n0, ip, Restart), Gap(Restart), s3.clock)
  {
    CountSpaces(s, n0, ip, Restart, s.clock + env.first.delay - WINDOW_S);
    CooldownSpaces(After(s, env.first.delay), ip, env, n0);
  }

  lemma ServiceKeeps(s: State, x: string, env: ServiceEnv, n0: nat, ip: string, op: Op, complete: bool)
    requires Ledger(s, n0, ip, op, complete) && (complete && x == ip && op == Restart ==> env.write.ok)
    ensures Ledger(RecoverService(s, x, env).0, n0, ip, op, complete)
  {
    var s1 := After(s, env.first.delay);
    var s2 := After(s1, CooldownDelay(s1, x, env));
    var s3 := After(s2, env.attempt.delay);
    TimeKeeps(s, env.first.delay, n0, ip, op, complete);
    TimeKeeps(s1, CooldownDelay(s1, x, env), n0, ip, op, complete);
    TimeKeeps(s2, env.attempt.delay, n0, ip, op, complete);
    var count := RecentCount(s, x, SERVICE_RESTART, WINDOW_MINUTES, env.first);
    if count.Some? && count.value >= SERVICE_RESTART_MAX {
      OtherKinds();
      NoteKeeps(s1, x, "recovery_failed", env.exhausted, n0, ip, op, complete);
    } else if count.Some? && CoolingDown(s1, x, env) == Some(false) {
      if x == ip && op == Restart {
        RestartDue(s, env, n0, ip, complete);
      }
      ActKeeps(s3, x, Restart, env.write, n0, ip, op, complete);
      WaitKeeps(Acted(Audited(s3, x, SERVICE_RESTART, env.write), x, Restart), x, env.polls, 60, env.success, n0, ip, op, complete);
    }
  }

  /** The insert that records `op`. */
  function WriteOf(env: HostEnv, op: Op): Write {
    if op == Start then env.start.write else env.service.write
  }

  lemma HostKeeps(s: State, h: Host, states: map<string, string>, env: HostEnv, n0: nat, ip: string, op: Op, complete: bool)
    requires Ledger(s, n0, ip, op, complete) && (complete && h.ip == ip ==> WriteOf(env, op).ok)
    ensures Ledger(TickHost(s, h, states, env).0, n0, ip, op, complete)
  {
    OtherKinds();
    if h.desired == "STOPPED_INTENTIONAL" {
      NoteKeeps(s, h.ip, "intentional_state_pending", env.note, n0, ip, op, complete);
    } else if env.status != Some("running") {
      NoteKeeps(s, h.ip, "outage_detected", env.note, n0, ip, op, complete);
      StartKeeps(Audited(s, h.ip, "outage_detected", env.note), h.ip, env.start, n0, ip, op, complete);
    } else if h.service == "MAINTENANCE" {
      NoteKeeps(s, h.ip, "maintenance_skip", env.note, n0, ip, op, complete);
    } else {
      NoteKeeps(s, h.ip, "service_degraded", env.note, n0, ip, op, complete);
      ServiceKeeps(Audited(s, h.ip, "service_degraded", env.note), h.ip, env.service, n0, ip, op, complete);
    }
  }

  /** Every insert that would record `op` on `ip` succeeds; nothing is said of other hosts. */
  predicate Recorded(hosts: seq<Host>, each: seq<HostEnv>, ip: string, op: Op)
    requires |each| == |hosts|
  {
    forall i :: 0 <= i < |hosts| && hosts[i].ip == ip ==> WriteOf(each[i], op).ok
  }

  lemma {:induction false} HostsKeep(s: State, hosts: seq<Host>, states: map<string, string>, each: seq<HostEnv>, n0: nat, ip: string, op: Op, complete: bool)
    requires |each| == |hosts| && Ledger(s, n0, ip, op, complete) && (complete ==> Recorded(hosts, each, ip, op))
    ensures Ledger(TickHosts(s, hosts, states, each), n0, ip, op, complete)
    decreases |hosts|
  {
    if hosts != [] {
      HostKeeps(s, hosts[0], states, each[0], n0, ip, op, complete);
      HostsKeep(TickHost(s, hosts[0], states, each[0]).0, hosts[1..], states, each[1..], n0, ip, op, complete);
    }
  }

  // ------------------------------------------------------------------ runs

  predicate WellShaped(ticks: seq<TickEnv>) {
    forall t :: t in ticks ==> |t.each| == |t.hosts|
  }

  function Run(s: State, ticks: seq<TickEnv>): State
    requires WellShaped(ticks)
    decreases |ticks|
  {
    if ticks == [] then s else Run(Tick(s, ticks[0]), ticks[1..])
  }

  predicate InsertsSucceed(ticks: seq<TickEnv>, ip: string, op: Op)
    requires WellShaped(ticks)
  {
    forall t :: t in ticks ==> Recorded(t.hosts, t.each, ip, op)
  }

  lemma {:induction false} RunKeeps(s: State, ticks: seq<TickEnv>, n0: nat, ip: string, op: Op, complete: bool)
    requires WellShaped(ticks) && Ledger(s, n0, ip, op, complete) && (complete ==> InsertsSucceed(ticks, ip, op))
    ensures Ledger(Run(s, ticks), n0, ip, op, complete)
    decreases |ticks|
  {
    if ticks != [] {
      var t := ticks[0];
      if t.states.Some? {
        HostsKeep(s, t.hosts, t.states.value, t.each, n0, ip, op, complete);
      }
      RunKeeps(Tick(s, t), ticks[1..], n0, ip, op, complete);
    }
  }

  lemma {:induction false} WindowHoldsTwo(ts: seq<int>, gap: nat, from: int)
    requires Spread(ts, gap)
    ensures Within(ts, from, from + WINDOW_S) <= 2
  {
    var n := |ts|;
    if n > 0 && from <= ts[n - 1] < from + WINDOW_S {
      if n > 1 {
        assert ts[..n - 1][..n - 2] == ts[..n - 2];
        NoneBefore(ts[..n - 2], gap, from);
      }
    } else if n > 0 {
      WindowHoldsTwo(ts[..n - 1], gap, from);
    }
  }

  lemma {:induction false} NoneBefore(ts: seq<int>, gap: nat, from: int)
    requires Spread(ts, gap) && (ts != [] ==> ts[|ts| - 1] < from)
    ensures Within(ts, from, from + WINDOW_S) == 0
  {
    if |ts| > 0 {
      NoneBefore(ts[..|ts| - 1], gap, from);
    }
  }

  function Begin(events: seq<Event>, clock: int): State {
    State(events, [], clock)
  }

  /** In every run, whatever the table held before and whichever inserts fail: of what is recorded, any 30 minutes hold
      at most two events of a kind per host, recorded restarts are at least 3 minutes apart, and all of it was sent. */
  lemma RecordedRateLimited(events: seq<Event>, clock: int, ticks: seq<TickEnv>, ip: string, op: Op, from: int)
    requires WellShaped(ticks)
    ensures var s := Run(Begin(events, clock), ticks);
            && |events| <= |s.events|
            && var recorded := New(s, |events|, ip, op);
            && Within(recorded, from, from + WINDOW_S) <= 2
            && Within(recorded, from, from + WINDOW_S) <= Within(Acts(s.actions, ip, op), from, from + WINDOW_S)
            && forall i, j :: 0 <= i < j < |recorded| ==> recorded[j] - recorded[i] >= Gap(op)
  {
    assert events[|events|..] == [];
    RunKeeps(Begin(events, clock), ticks, |events|, ip, op, false);
    WindowHoldsTwo(New(Run(Begin(events, clock), ticks), |events|, ip, op), Gap(op), from);
  }

  /** In every run that records what it sends to a host, whatever the table held before and whatever is lost about
      others: any 30 minutes hold at most two VM starts and two service restarts of the host, and restarts are at
      least 3 minutes apart. */
  lemma RateLimited(events: seq<Event>, clock: int, ticks: seq<TickEnv>, ip: string, op: Op, from: int)
    requires WellShaped(ticks) && InsertsSucceed(ticks, ip, op)
    ensures var acts := Acts(Run(Begin(events, clock), ticks).actions, ip, op);
            && Within(acts, from, from + 30 * 60) <= (if op == Start then VM_START_MAX else SERVICE_RESTART_MAX)
            && (op == Restart ==> forall i, j :: 0 <= i < j < |acts| ==> acts[j] - acts[i] >= 180)
  {
    assert events[|events|..] == [];
    RunKeeps(Begin(events, clock), ticks, |events|, ip, op, true);
    WindowHoldsTwo(New(Run(Begin(events, clock), ticks), |events|, ip, op), Gap(op), from);
  }

  // ------------------------------------------------------------------ who is acted on

  /** The tick may send `op` to the host. */
  predicate Entitled(h: Host, op: Op, states: map<string, string>) {
    && h.mode == "MANAGED" && h.desired != "STOPPED_INTENTIONAL"
    && (op == Restart ==> h.service != "MAINTENANCE" && h.ip in states && states[h.ip] == "unhealthy")
  }

  ghost predicate OnlyEntitled(actions: seq<Action>, actions': seq<Action>, hosts: seq<Host>, states: map<string, string>) {
    && actions <= actions'
    && forall i :: |actions| <= i < |actions'| ==> exists h :: h in hosts && h.ip == actions'[i].ip && Entitled(h, actions'[i].op, states)
  }

  lemma {:induction false} WaitActs(s: State, ip: string, polls: seq<Poll>, rounds: nat, success: Write)
    ensures Waited(s, ip, polls, rounds, success).0.actions == s.actions
    decreases |polls|
  {
    if polls != [] && rounds > 0 {
      WaitActs(After(s, polls[0].delay), ip, polls[1..], rounds - 1, success);
    }
  }

  lemma StartActs(s: State, ip: string, env: StartEnv)
    ensures var s' := RecoverVmStart(s, ip, env).0;
            s'.actions == s.actions || exists at :: s'.actions == s.actions + [Action(ip, Start, at)]
  {
    var s2 := Audited(After(After(s, env.first.delay), env.second.delay), ip, VM_START, env.write);
    WaitActs(Acted(s2, ip, Start), ip, env.polls, 40, env.success);
  }

  lemma ServiceActs(s: State, ip: string, env: ServiceEnv)
    ensures var s' := RecoverService(s, ip, env).0;
            s'.actions == s.actions || exists at :: s'.actions == s.actions + [Action(ip, Restart, at)]
  {
    var s1 := After(s, env.first.delay);
    var s3 := Audited(After(After(s1, CooldownDelay(s1, ip, env)), env.attempt.delay), ip, SERVICE_RESTART, env.write);
    WaitActs(Acted(s3, ip, Restart), ip, env.polls, 60, env.success);
  }

  lemma HostActs(s: State, h: Host, states: map<string, string>, env: HostEnv)
    ensures OnlyEntitled(s.actions, TickHost(s, h, states, env).0.actions, [h], states)
  {
    assert h in [h];
    StartActs(Audited(s, h.ip, "outage_detected", env.note), h.ip, env.start);
    ServiceActs(Audited(s, h.ip, "service_degraded", env.note), h.ip, env.service);
  }

  lemma {:induction false} HostsAct(s: State, hosts: seq<Host>, states: map<string, string>, each: seq<HostEnv>)
    requires |each| == |hosts|
    ensures OnlyEntitled(s.actions, TickHosts(s, hosts, states, each).actions, hosts, states)
    decreases |hosts|
  {
    if hosts != [] {
      var s1 := TickHost(s, hosts[0], states, each[0]).0;
      HostActs(s, hosts[0], states, each[0]);
      HostsAct(s1, hosts[1..], states, each[1..]);
      assert hosts[0] in hosts && forall h :: h in hosts[1..] ==> h in hosts;
    }
  }

  /** No host that is unmanaged or intentionally stopped in the tick's snapshot is acted on, and no service is
      restarted in maintenance or unless the probe called it unhealthy. */
  lemma HandsOff(s: State, env: TickEnv, i: nat, h: Host)
    requires |env.each| == |env.hosts|
    requires |s.actions| <= i < |Tick(s, env).actions| && h in env.hosts && h.ip == Tick(s, env).actions[i].ip
    requires forall a, b :: a in env.hosts && b in env.hosts && a.ip == b.ip ==> a == b
    ensures env.states.Some? && Entitled(h, Tick(s, env).actions[i].op, env.states.value)
  {
    if env.states.Some? {
      HostsAct(s, env.hosts, env.states.value, env.each);
    }
  }

  // ------------------------------------------------------------------ when it acts

  /** The recorded times in (since, now] are what the query counts. */
  lemma {:induction false} CountIsWithin(events: seq<Event>, ip: string, kind: string, since: int, now: int)
    requires forall i :: 0 <= i < |Stamps(events, ip, kind)| ==> Stamps(events, ip, kind)[i] <= now
    ensures CountRecent(events, ip, kind, since) == Within(Stamps(events, ip, kind), since + 1, now + 1)
  {
    if events != [] {
      var last := |events| - 1;
      var before, e := Stamps(events[..last], ip, kind), events[last];
      assert events == events[..last] + [e];
      StampsAppend(events[..last], e, ip, kind);
      assert forall i :: 0 <= i < |before| ==> Stamps(events, ip, kind)[i] == before[i];
      CountIsWithin(events[..last], ip, kind, since, now);
      if e.ip == ip && e.kind == kind {
        assert Stamps(events, ip, kind)[|before|] == e.at;
        WithinAppend(before, e.at, since + 1, now + 1);
      }
    }
  }

  /** With the table readable, a VM is powered on exactly when fewer than two starts are recorded younger than 30
      minutes. */
  lemma StartsUnlessExhausted(s: State, ip: string, env: StartEnv)
    requires env.first.db == Reachable && env.second.db != Broken
    ensures RecoverVmStart(s, ip, env).0.actions != s.actions
       <==> CountRecent(s.events, ip, VM_START, s.clock + env.first.delay - WINDOW_S) < VM_START_MAX
  {
    var s2 := Audited(After(After(s, env.first.delay), env.second.delay), ip, VM_START, env.write);
    WaitActs(Acted(s2, ip, Start), ip, env.polls, 40, env.success);
    assert |Acted(s2, ip, Start).actions| == |s.actions| + 1;
  }

  /** With the table readable, a service is restarted exactly when fewer than two restarts are recorded younger than 30
      minutes and one of the two looks at the last 3 minutes finds none; 15 minutes play no part. */
  lemma RestartsUnlessExhausted(s: State, ip: string, env: ServiceEnv)
    requires env.first.db == Reachable && env.cooldown.db == Reachable && env.again.db == Reachable && env.attempt.db != Broken
    ensures var t := s.clock + env.first.delay;
            var exhausted := CountRecent(s.events, ip, SERVICE_RESTART, t - WINDOW_S) >= SERVICE_RESTART_MAX;
            var look1 := CountRecent(s.events, ip, SERVICE_RESTART, t + env.cooldown.delay - 180);
            var look2 := CountRecent(s.events, ip, SERVICE_RESTART, t + env.cooldown.delay + env.again.delay - 180);
            RecoverService(s, ip, env).0.actions != s.actions <==> !exhausted && (look1 == 0 || look2 == 0)
  {
    var s1 := After(s, env.first.delay);
    var s3 := After(After(s1, CooldownDelay(s1, ip, env)), env.attempt.delay);
    var s4 := Audited(s3, ip, SERVICE_RESTART, env.write);
    WaitActs(Acted(s4, ip, Restart), ip, env.polls, 60, env.success);
    assert |Acted(s4, ip, Restart).actions| == |s.actions| + 1;
  }

  /** A third start. In every state a run reaches from an empty table, whichever inserts failed: of the starts sent to
      the host in the last 30 minutes at most two are recorded, and one more is sent exactly when fewer than two are. */
  lemma ThirdStart(clock: int, ticks: seq<TickEnv>, ip: string, env: StartEnv)
    requires WellShaped(ticks) && env.first.db == Reachable && env.second.db != Broken
    ensures var s := Run(Begin([], clock), ticks);
            var now := s.clock + env.first.delay;
            var sent := Within(Acts(s.actions, ip, Start), now - WINDOW_S + 1, now + 1);
            var recorded := Within(Stamps(s.events, ip, VM_START), now - WINDOW_S + 1, now + 1);
            && recorded <= sent && recorded <= 2
            && (RecoverVmStart(s, ip, env).0.actions != s.actions <==> recorded < 2)
  {
    var s := Run(Begin([], clock), ticks);
    var now := s.clock + env.first.delay;
    RunFromEmpty(clock, ticks, ip);
    WindowHoldsTwo(Stamps(s.events, ip, VM_START), 0, now - WINDOW_S + 1);
    CountIsWithin(s.events, ip, VM_START, now - WINDOW_S, now);
    StartsUnlessExhausted(s, ip, env);
  }

  lemma RunFromEmpty(clock: int, ticks: seq<TickEnv>, ip: string)
    requires WellShaped(ticks)
    ensures var s := Run(Begin([], clock), ticks);
            var ts := Stamps(s.events, ip, VM_START);
            && Spread(ts, 0) && Sent(ts, Acts(s.actions, ip, Start)) && forall i :: 0 <= i < |ts| ==> ts[i] <= s.clock
  {
    var s := Run(Begin([], clock), ticks);
    assert Begin([], clock).events[0..] == [];
    RunKeeps(Begin([], clock), ticks, 0, ip, Start, false);
    assert s.events[0..] == s.events;
  }

  /** Without a database neither recovery acts. */
  lemma NoDatabaseNoAction(s: State, ip: string, start: StartEnv, service: ServiceEnv)
    requires start.first.db != Reachable && service.first.db != Reachable
    ensures RecoverVmStart(s, ip, start).0.actions == s.actions && RecoverService(s, ip, service).0.actions == s.actions
  {
  }

  // ------------------------------------------------------------------ unrecorded starts are not limited

  function UnloggedTick(ip: string): TickEnv {
    var lost, read := Write(0, false), Read(0, Reachable);
    var start := StartEnv(read, read, lost, lost, true, [], lost);
    TickEnv(Some(map[]), Reachable, [Host(ip, "RUNNING", "MANAGED", "SERVING")],
            [HostEnv(Some("stopped"), lost, start, ServiceEnv(read, read, read, read, lost, lost, [], lost))])
  }

  function Repeat(t: TickEnv, n: nat): (r: seq<TickEnv>)
    ensures |r| == n && forall x :: x in r ==> x == t
  {
    if n == 0 then [] else [t] + Repeat(t, n - 1)
  }

  /** When the inserts fail the limit is gone: n ticks send n starts in the same second. */
  lemma {:induction false} UnloggedStartsUnlimited(ip: string, actions: seq<Action>, clock: int, n: nat)
    ensures Run(State([], actions, clock), Repeat(UnloggedTick(ip), n))
         == State([], actions + seq(n, _ => Action(ip, Start, clock)), clock)
    decreases n
  {
    if n == 0 {
      assert actions + seq(0, _ => Action(ip, Start, clock)) == actions;
    } else {
      var s, t := State([], actions, clock), UnloggedTick(ip);
      var ticks := Repeat(t, n);
      assert ticks[0] == t && ticks[1..] == Repeat(t, n - 1);
      OneUnlogged(ip, actions, clock);
      UnloggedStartsUnlimited(ip, actions + [Action(ip, Start, clock)], clock, n - 1);
      assert actions + [Action(ip, Start, clock)] + seq(n - 1, _ => Action(ip, Start, clock))
          == actions + seq(n, _ => Action(ip, Start, clock));
    }
  }

  lemma OneUnlogged(ip: string, actions: seq<Action>, clock: int)
    ensures Tick(State([], actions, clock), UnloggedTick(ip)) == State([], actions + [Action(ip, Start, clock)], clock)
  {
    var s, t := State([], actions, clock), UnloggedTick(ip);
    var s' := State([], actions + [Action(ip, Start, clock)], clock);
    assert "stopped"[0] != "running"[0];
    assert RecoverVmStart(s, ip, t.each[0].start) == (s', true);
    assert TickHost(s, t.hosts[0], map[], t.each[0]) == (s', true);
    assert TickHosts(s', t.hosts[1..], map[], t.each[1..]) == s';
  }

  // ------------------------------------------------------------------ restarts three minutes apart

  function RestartTick(ip: string, wait: nat): TickEnv {
    var done, read := Write(0, true), Read(0, Reachable);
    var restart := ServiceEnv(Read(wait, Reachable), read, read, read, done, done, [], done);
    TickEnv(Some(map[ip := "unhealthy"]), Reachable, [Host(ip, "RUNNING", "MANAGED", "SERVING")],
            [HostEnv(Some("running"), done, StartEnv(read, read, done, done, true, [], done), restart)])
  }

  lemma OneRestart(s: State, ip: string, wait: nat)
    requires var since := s.clock + wait - 180;
             CountRecent(s.events, ip, SERVICE_RESTART, s.clock + wait - WINDOW_S) < 2 && CountRecent(s.events, ip, SERVICE_RESTART, since) == 0
    ensures Tick(s, RestartTick(ip, wait))
         == State(s.events + [Event(ip, "service_degraded", s.clock), Event(ip, SERVICE_RESTART, s.clock + wait)],
                  s.actions + [Action(ip, Restart, s.clock + wait)], s.clock + wait)
  {
    var t := RestartTick(ip, wait);
    var env := t.each[0];
    var s1 := Audited(s, ip, "service_degraded", env.note);
    var s' := State(s.events + [Event(ip, "service_degraded", s.clock), Event(ip, SERVICE_RESTART, s.clock + wait)],
                    s.actions + [Action(ip, Restart, s.clock + wait)], s.clock + wait);
    OtherKinds();
    assert s1.events[..|s1.events| - 1] == s.events;
    assert s1.events + [Event(ip, SERVICE_RESTART, s.clock + wait)] == s'.events;
    assert "MANAGED" != "STOPPED_INTENTIONAL" && "SERVING"[0] != "MAINTENANCE"[0] && "RUNNING"[0] != "STOPPED_INTENTIONAL"[0];
    assert RecoverService(s1, ip, env.service) == (s', true);
    assert TickHost(s, t.hosts[0], t.states.value, env) == (s', true);
    assert TickHosts(s', t.hosts[1..], t.states.value, t.each[1..]) == s';
  }

  lemma TwoEvents(a: Event, b: Event, ip: string, kind: string, since: int)
    ensures CountRecent([a, b], ip, kind, since)
         == (if Recent(a, ip, kind, since) then 1 else 0) + (if Recent(b, ip, kind, since) then 1 else 0)
  {
    assert [a, b][..1] == [a];
    assert CountRecent([a], ip, kind, since) == CountRecent([], ip, kind, since) + (if Recent(a, ip, kind, since) then 1 else 0)
      by { assert [a][..0] == []; }
  }

  /** Two ticks with every insert recorded restart a service twice, 180 seconds apart. */
  lemma RestartsThreeMinutesApart(ip: string)
    ensures var ticks := [RestartTick(ip, 0), RestartTick(ip, 180)];
            && WellShaped(ticks) && InsertsSucceed(ticks, ip, Restart)
            && Run(Begin([], 0), ticks).actions == [Action(ip, Restart, 0), Action(ip, Restart, 180)]
  {
    var s0 := Begin([], 0);
    var ticks := [RestartTick(ip, 0), RestartTick(ip, 180)];
    OneRestart(s0, ip, 0);
    var s1 := Tick(s0, ticks[0]);
    OtherKinds();
    assert s1.events == [Event(ip, "service_degraded", 0), Event(ip, SERVICE_RESTART, 0)];
    TwoEvents(s1.events[0], s1.events[1], ip, SERVICE_RESTART, 180 - WINDOW_S);
    TwoEvents(s1.events[0], s1.events[1], ip, SERVICE_RESTART, 0);
    OneRestart(s1, ip, 180);
    assert ticks[1..] == [RestartTick(ip, 180)] && ticks[1..][1..] == [];
    assert Run(s1, ticks[1..]) == Tick(s1, ticks[1]);
  }
}
