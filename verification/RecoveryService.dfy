/** Whom a tick of the recovery engine serves: every host in turn, whatever the others are. */
module RecoveryService {
  import opened Wrappers
  import opened RecoveryEngine
  import opened RecoveryRate

  predicate NoPollRaises(polls: seq<Poll>) {
    forall p :: p in polls ==> p.answer != Raised
  }

  /** No status call, count, power call or poll of the host raises. */
  predicate Calm(env: HostEnv) {
    && env.status.Some?
    && env.start.first.db != Broken && env.start.second.db != Broken && env.start.powered && NoPollRaises(env.start.polls)
    && env.service.first.db != Broken && env.service.cooldown.db != Broken && env.service.again.db != Broken
    && env.service.attempt.db != Broken && NoPollRaises(env.service.polls)
  }

  lemma {:induction false} WaitReturns(s: State, ip: string, polls: seq<Poll>, rounds: nat, success: Write)
    requires NoPollRaises(polls)
    ensures Waited(s, ip, polls, rounds, success).1
    decreases |polls|
  {
    if polls != [] && rounds > 0 {
      assert polls[0] in polls && NoPollRaises(polls[1..]);
      WaitReturns(After(s, polls[0].delay), ip, polls[1..], rounds - 1, success);
    }
  }

  lemma StartReturns(s: State, ip: string, env: StartEnv)
    requires env.first.db != Broken && env.second.db != Broken && env.powered && NoPollRaises(env.polls)
    ensures RecoverVmStart(s, ip, env).1
  {
    var s2 := Audited(After(After(s, env.first.delay), env.second.delay), ip, VM_START, env.write);
    WaitReturns(Acted(s2, ip, Start), ip, env.polls, 40, env.success);
  }

  lemma RestartReturns(s: State, ip: string, env: ServiceEnv)
    requires env.first.db != Broken && env.cooldown.db != Broken && env.again.db != Broken && env.attempt.db != Broken
    requires NoPollRaises(env.polls)
    ensures RecoverService(s, ip, env).1
  {
    var s1 := After(s, env.first.delay);
    var s3 := Audited(After(After(s1, CooldownDelay(s1, ip, env)), env.attempt.delay), ip, SERVICE_RESTART, env.write);
    WaitReturns(Acted(s3, ip, Restart), ip, env.polls, 60, env.success);
  }

  lemma HostReturns(s: State, h: Host, states: map<string, string>, env: HostEnv)
    requires Calm(env)
    ensures TickHost(s, h, states, env).1
  {
    StartReturns(Audited(s, h.ip, "outage_detected", env.note), h.ip, env.start);
    RestartReturns(Audited(s, h.ip, "service_degraded", env.note), h.ip, env.service);
  }

  /** The first i hosts of a tick. */
  function Upto(env: TickEnv, i: nat): TickEnv
    requires |env.each| == |env.hosts| && i <= |env.hosts|
  {
    env.(hosts := env.hosts[..i], each := env.each[..i])
  }

  /** If nothing raises for the first i hosts the rest of the tick starts where they leave off. */
  lemma {:induction false} TickResumes(s: State, hosts: seq<Host>, states: map<string, string>, each: seq<HostEnv>, i: nat)
    requires |each| == |hosts| && i <= |hosts| && forall j :: 0 <= j < i ==> Calm(each[j])
    ensures TickHosts(s, hosts, states, each) == TickHosts(TickHosts(s, hosts[..i], states, each[..i]), hosts[i..], states, each[i..])
    decreases i
  {
    if i == 0 {
      assert hosts[0..] == hosts && each[0..] == each;
    } else {
      HostReturns(s, hosts[0], states, each[0]);
      var s1 := TickHost(s, hosts[0], states, each[0]).0;
      assert hosts[..i][1..] == hosts[1..][..i - 1] && each[..i][1..] == each[1..][..i - 1];
      assert hosts[1..][i - 1..] == hosts[i..] && each[1..][i - 1..] == each[i..];
      TickResumes(s1, hosts[1..], states, each[1..], i - 1);
    }
  }

  /** The part of a tick that is about host i. */
  lemma HostTurn(s: State, env: TickEnv, i: nat)
    requires |env.each| == |env.hosts| && i < |env.hosts| && env.states.Some? && env.db == Reachable
    requires forall j :: 0 <= j < i ==> Calm(env.each[j])
    ensures Tick(s, Upto(env, i + 1)) == TickHost(Tick(s, Upto(env, i)), env.hosts[i], env.states.value, env.each[i]).0
    ensures Tick(s, Upto(env, i + 1)).actions <= Tick(s, env).actions
  {
    var states, before := env.states.value, Tick(s, Upto(env, i));
    var hosts, each := env.hosts[..i + 1], env.each[..i + 1];
    assert hosts[..i] == env.hosts[..i] && each[..i] == env.each[..i];
    assert hosts[i..] == [env.hosts[i]] && each[i..] == [env.each[i]];
    TickResumes(s, hosts, states, each, i);
    TickResumes(s, env.hosts, states, env.each, i);
    var (s1, ok) := TickHost(before, env.hosts[i], states, env.each[i]);
    assert TickHosts(s1, [], states, []) == s1;
    assert env.hosts[i..][0] == env.hosts[i] && env.each[i..][0] == env.each[i];
    if ok {
      HostsAct(s1, env.hosts[i..][1..], states, env.each[i..][1..]);
    }
  }

  /** A tick does nothing when the sync failed or the hosts cannot be read, and ends at the first status call that
      raises. */
  lemma TickEnds(s: State, env: TickEnv, i: nat)
    requires |env.each| == |env.hosts| && i < |env.hosts|
    requires forall j :: 0 <= j < i ==> Calm(env.each[j])
    ensures env.states.None? || env.db != Reachable ==> Tick(s, env) == s
    ensures env.each[i].status.None? ==> Tick(s, env) == Tick(s, Upto(env, i))
  {
    if env.states.Some? && env.db == Reachable {
      TickResumes(s, env.hosts, env.states.value, env.each, i);
      assert env.hosts[i..][0] == env.hosts[i] && env.each[i..][0] == env.each[i];
    }
  }

  lemma StartRaises(s: State, ip: string, env: StartEnv)
    requires || env.first.db == Broken
             || (env.first.db == Reachable && CountRecent(s.events, ip, VM_START, s.clock + env.first.delay - 30 * 60) < 2
                 && (env.second.db == Broken || !env.powered))
    ensures !RecoverVmStart(s, ip, env).1
  {
  }

  /** A count or a power call that raises in a recovery ends the tick there. */
  lemma RaiseEndsTick(s: State, env: TickEnv, i: nat)
    requires |env.each| == |env.hosts| && i < |env.hosts| && env.states.Some? && env.db == Reachable
    requires forall j :: 0 <= j < i ==> Calm(env.each[j])
    requires env.hosts[i].mode == "MANAGED" && env.hosts[i].desired != "STOPPED_INTENTIONAL"
    requires env.each[i].status.Some? && env.each[i].status.value != "running"
    requires var before, e := Tick(s, Upto(env, i)), env.each[i].start;
             || e.first.db == Broken
             || (e.first.db == Reachable && (e.second.db == Broken || !e.powered)
                 && CountRecent(before.events, env.hosts[i].ip, "recovery_vm_start",
                                before.clock + env.each[i].note.delay + e.first.delay - 30 * 60) < 2)
    ensures Tick(s, env) == Tick(s, Upto(env, i + 1))
  {
    var before, ip, e := Tick(s, Upto(env, i)), env.hosts[i].ip, env.each[i];
    HostTurn(s, env, i);
    TickResumes(s, env.hosts, env.states.value, env.each, i);
    assert env.hosts[i..][0] == env.hosts[i] && env.each[i..][0] == env.each[i];
    var noted := Audited(before, ip, "outage_detected", e.note);
    OtherKinds();
    NoteUncounted(before, ip, "outage_detected", e.note, ip, VM_START, noted.clock + e.start.first.delay - 30 * 60);
    StartRaises(noted, ip, e.start);
  }

  // ------------------------------------------------------------------ what a tick does for a host

  lemma StartSends(s: State, ip: string, env: StartEnv)
    requires env.first.db == Reachable && env.second.db != Broken
    ensures RecoverVmStart(s, ip, env).0.actions ==
              s.actions + if CountRecent(s.events, ip, VM_START, s.clock + env.first.delay - 30 * 60) < 2
                          then [Action(ip, Start, s.clock + env.first.delay + env.second.delay + env.write.delay)] else []
  {
    var s2 := Audited(After(After(s, env.first.delay), env.second.delay), ip, VM_START, env.write);
    WaitActs(Acted(s2, ip, Start), ip, env.polls, 40, env.success);
  }

  /** Fewer than two restarts recorded in the 30 minutes before t, and none in the 3 minutes before one of two looks. */
  predicate RestartAllowed(events: seq<Event>, ip: string, t: int, look1: int, look2: int) {
    && CountRecent(events, ip, "recovery_service_restart", t - 30 * 60) < 2
    && (CountRecent(events, ip, "recovery_service_restart", look1 - 3 * 60) == 0
        || CountRecent(events, ip, "recovery_service_restart", look2 - 3 * 60) == 0)
  }

  lemma RestartSends(s: State, ip: string, env: ServiceEnv)
    requires env.first.db == Reachable && env.cooldown.db == Reachable && env.again.db == Reachable && env.attempt.db != Broken
    ensures var t := s.clock + env.first.delay;
            var allowed := RestartAllowed(s.events, ip, t, t + env.cooldown.delay, t + env.cooldown.delay + env.again.delay);
            && (!allowed ==> RecoverService(s, ip, env).0.actions == s.actions)
            && (allowed ==> exists at :: RecoverService(s, ip, env).0.actions == s.actions + [Action(ip, Restart, at)])
  {
    ServiceActs(s, ip, env);
    RestartsUnlessExhausted(s, ip, env);
  }

  lemma NoteUncounted(s: State, x: string, note: string, w: Write, ip: string, kind: string, since: int)
    requires note != kind
    ensures CountRecent(Audited(s, x, note, w).events, ip, kind, since) == CountRecent(s.events, ip, kind, since)
  {
    if w.ok {
      assert Audited(s, x, note, w).events[..|s.events|] == s.events;
    }
  }

  /** Every managed host that is wanted up and found down is powered on in its turn, exactly if fewer than two starts
      of it are recorded in the last 30 minutes: whatever the hosts before it are, as long as none of their calls raises,
      and whatever comes after. */
  lemma DownHostServed(s: State, env: TickEnv, i: nat)
    requires |env.each| == |env.hosts| && i < |env.hosts| && env.states.Some? && env.db == Reachable
    requires forall j :: 0 <= j < i ==> Calm(env.each[j])
    requires env.hosts[i].mode == "MANAGED" && env.hosts[i].desired != "STOPPED_INTENTIONAL"
    requires env.each[i].status.Some? && env.each[i].status.value != "running"
    requires env.each[i].start.first.db == Reachable && env.each[i].start.second.db != Broken
    ensures var before, after, ip := Tick(s, Upto(env, i)), Tick(s, Upto(env, i + 1)), env.hosts[i].ip;
            var since := before.clock + env.each[i].note.delay + env.each[i].start.first.delay - 30 * 60;
            && after.actions <= Tick(s, env).actions
            && if CountRecent(before.events, ip, "recovery_vm_start", since) < 2
               then exists at :: after.actions == before.actions + [Action(ip, Start, at)]
               else after.actions == before.actions
  {
    var before, ip, e := Tick(s, Upto(env, i)), env.hosts[i].ip, env.each[i];
    HostTurn(s, env, i);
    var noted := Audited(before, ip, "outage_detected", e.note);
    OtherKinds();
    NoteUncounted(before, ip, "outage_detected", e.note, ip, VM_START, noted.clock + e.start.first.delay - 30 * 60);
    StartSends(noted, ip, e.start);
    assert before.actions + [] == before.actions;
  }

  lemma NoteAllows(s: State, ip: string, w: Write, t: int, look1: int, look2: int)
    ensures RestartAllowed(Audited(s, ip, "service_degraded", w).events, ip, t, look1, look2) <==> RestartAllowed(s.events, ip, t, look1, look2)
  {
    OtherKinds();
    NoteUncounted(s, ip, "service_degraded", w, ip, SERVICE_RESTART, t - 30 * 60);
    NoteUncounted(s, ip, "service_degraded", w, ip, SERVICE_RESTART, look1 - 3 * 60);
    NoteUncounted(s, ip, "service_degraded", w, ip, SERVICE_RESTART, look2 - 3 * 60);
  }

  /** Every managed host that is wanted up, running, unhealthy and not in maintenance has its service restarted in its
      turn, exactly if fewer than two restarts of it are recorded in the last 30 minutes and one of the two looks at the
      last 3 minutes finds none. */
  lemma UnhealthyHostServed(s: State, env: TickEnv, i: nat)
    requires |env.each| == |env.hosts| && i < |env.hosts| && env.states.Some? && env.db == Reachable
    requires forall j :: 0 <= j < i ==> Calm(env.each[j])
    requires var h := env.hosts[i];
             h.mode == "MANAGED" && h.desired != "STOPPED_INTENTIONAL" && h.service != "MAINTENANCE"
             && h.ip in env.states.value && env.states.value[h.ip] == "unhealthy"
    requires env.each[i].status == Some("running")
    requires var e := env.each[i].service;
             e.first.db == Reachable && e.cooldown.db == Reachable && e.again.db == Reachable && e.attempt.db != Broken
    ensures var before, after, ip := Tick(s, Upto(env, i)), Tick(s, Upto(env, i + 1)), env.hosts[i].ip;
            var e := env.each[i].service;
            var t := before.clock + env.each[i].note.delay + e.first.delay;
            var allowed := RestartAllowed(before.events, ip, t, t + e.cooldown.delay, t + e.cooldown.delay + e.again.delay);
            && after.actions <= Tick(s, env).actions
            && (allowed ==> exists at :: after.actions == before.actions + [Action(ip, Restart, at)])
            && (!allowed ==> after.actions == before.actions)
  {
    var before, ip, e := Tick(s, Upto(env, i)), env.hosts[i].ip, env.each[i];
    HostTurn(s, env, i);
    var noted := Audited(before, ip, "service_degraded", e.note);
    var t := noted.clock + e.service.first.delay;
    var look1 := t + e.service.cooldown.delay;
    var look2 := look1 + e.service.again.delay;
    NoteAllows(before, ip, e.note, t, look1, look2);
    RestartSends(noted, ip, e.service);
    assert Tick(s, Upto(env, i + 1)) == RecoverService(noted, ip, e.service).0;
    assert noted.actions == before.actions;
  }

  /** The first thing a tick records about a host that needs attention, if the insert succeeds. */
  lemma HostNoted(s: State, env: TickEnv, i: nat)
    requires |env.each| == |env.hosts| && i < |env.hosts| && env.states.Some? && env.db == Reachable
    requires forall j :: 0 <= j < i ==> Calm(env.each[j])
    requires env.hosts[i].mode == "MANAGED" && env.each[i].status.Some? && env.each[i].note.ok
    ensures var before, after, h := Tick(s, Upto(env, i)), Tick(s, Upto(env, i + 1)), env.hosts[i];
            var running := env.each[i].status.value == "running";
            var unhealthy := h.ip in env.states.value && env.states.value[h.ip] == "unhealthy";
            var kind := if h.desired == "STOPPED_INTENTIONAL" then (if running then Some("intentional_state_pending") else None)
                        else if !running then Some("outage_detected")
                        else if !unhealthy then None
                        else if h.service == "MAINTENANCE" then Some("maintenance_skip") else Some("service_degraded");
            && (kind.None? ==> after == before)
            && (kind.Some? ==> |before.events| < |after.events| && after.events[..|before.events|] == before.events
                               && after.events[|before.events|] == Event(h.ip, kind.value, before.clock + env.each[i].note.delay))
  {
    var before, h, e := Tick(s, Upto(env, i)), env.hosts[i], env.each[i];
    HostTurn(s, env, i);
    StartRecords(Audited(before, h.ip, "outage_detected", e.note), h.ip, e.start);
    RestartRecords(Audited(before, h.ip, "service_degraded", e.note), h.ip, e.service);
  }

  lemma {:induction false} WaitRecords(s: State, ip: string, polls: seq<Poll>, rounds: nat, success: Write)
    ensures s.events <= Waited(s, ip, polls, rounds, success).0.events
    decreases |polls|
  {
    if polls != [] && rounds > 0 {
      WaitRecords(After(s, polls[0].delay), ip, polls[1..], rounds - 1, success);
    }
  }

  lemma StartRecords(s: State, ip: string, env: StartEnv)
    ensures s.events <= RecoverVmStart(s, ip, env).0.events
  {
    var s2 := Audited(After(After(s, env.first.delay), env.second.delay), ip, VM_START, env.write);
    WaitRecords(Acted(s2, ip, Start), ip, env.polls, 40, env.success);
  }

  lemma RestartRecords(s: State, ip: string, env: ServiceEnv)
    ensures s.events <= RecoverService(s, ip, env).0.events
  {
    var s1 := After(s, env.first.delay);
    var s3 := Audited(After(After(s1, CooldownDelay(s1, ip, env)), env.attempt.delay), ip, SERVICE_RESTART, env.write);
    WaitRecords(Acted(s3, ip, Restart), ip, env.polls, 60, env.success);
  }

  // ------------------------------------------------------------------ how a recovery ends

  /** The first k polls get no answer. */
  predicate Silent(polls: seq<Poll>, k: nat) {
    forall j :: 0 <= j < k && j < |polls| ==> polls[j].answer == NotYet
  }

  /** One event of that kind was added, if its insert succeeded, and nothing else. */
  ghost predicate Told(before: seq<Event>, after: seq<Event>, ip: string, kind: string, w: Write) {
    if w.ok then exists at :: after == before + [Event(ip, kind, at)] else after == before
  }

  /** A wait ends at the first answer: it is recorded if it is a healthy one; after the last round nothing is. */
  lemma {:induction false} WaitExactly(s: State, ip: string, polls: seq<Poll>, rounds: nat, success: Write, k: nat)
    requires Silent(polls, k) && k <= rounds && k <= |polls|
    ensures var (s', ok) := Waited(s, ip, polls, rounds, success);
            && (k == rounds || k == |polls| ==> ok && s'.events == s.events)
            && (k < rounds && k < |polls| && polls[k].answer == Raised ==> !ok && s'.events == s.events)
            && (k < rounds && k < |polls| && polls[k].answer == Healthy ==> ok && Told(s.events, s'.events, ip, "recovery_success", success))
    decreases k
  {
    if k > 0 {
      assert polls[0].answer == NotYet;
      assert Silent(polls[1..], k - 1) by {
        assert forall j :: 0 <= j < k - 1 && j < |polls[1..]| ==> polls[1..][j] == polls[j + 1];
      }
      WaitExactly(After(s, polls[0].delay), ip, polls[1..], rounds - 1, success, k - 1);
    }
  }

  /** How the events of a recovery end, after `rounds` rounds at most, from those when the action was sent. */
  ghost predicate Awaited(sent: seq<Event>, events: seq<Event>, ip: string, polls: seq<Poll>, rounds: nat, success: Write, k: nat) {
    && (k >= rounds || k >= |polls| ==> events == sent)
    && (k < rounds && k < |polls| && polls[k].answer == Healthy ==> Told(sent, events, ip, "recovery_success", success))
  }

  /** A VM start is recorded before it is sent, and then waited for in forty rounds at most. */
  lemma StartWaits(s: State, ip: string, env: StartEnv, k: nat)
    requires env.first.db == Reachable && env.second.db != Broken && env.powered && Silent(env.polls, k) && k <= |env.polls|
    requires CountRecent(s.events, ip, "recovery_vm_start", s.clock + env.first.delay - 30 * 60) < 2
    ensures exists sent :: Told(s.events, sent, ip, "recovery_vm_start", env.write)
                           && Awaited(sent, RecoverVmStart(s, ip, env).0.events, ip, env.polls, 40, env.success, k)
  {
    var s2 := Audited(After(After(s, env.first.delay), env.second.delay), ip, VM_START, env.write);
    WaitExactly(Acted(s2, ip, Start), ip, env.polls, 40, env.success, if k < 40 then k else 40);
    assert Told(s.events, s2.events, ip, "recovery_vm_start", env.write);
  }

  /** So is a service restart, in sixty. */
  lemma RestartWaits(s: State, ip: string, env: ServiceEnv, k: nat)
    requires env.first.db == Reachable && env.cooldown.db == Reachable && env.again.db == Reachable && env.attempt.db != Broken
    requires Silent(env.polls, k) && k <= |env.polls| && RecoverService(s, ip, env).0.actions != s.actions
    ensures exists sent :: Told(s.events, sent, ip, "recovery_service_restart", env.write)
                           && Awaited(sent, RecoverService(s, ip, env).0.events, ip, env.polls, 60, env.success, k)
  {
    var s1 := After(s, env.first.delay);
    var s3 := After(After(s1, CooldownDelay(s1, ip, env)), env.attempt.delay);
    var s4 := Audited(s3, ip, SERVICE_RESTART, env.write);
    WaitExactly(Acted(s4, ip, Restart), ip, env.polls, 60, env.success, if k < 60 then k else 60);
    assert Told(s.events, s4.events, ip, "recovery_service_restart", env.write);
  }

  /** A recovery that is out of attempts sends nothing and records that. */
  lemma GivenUp(s: State, ip: string, start: StartEnv, service: ServiceEnv)
    ensures var t := s.clock + start.first.delay;
            start.first.db == Reachable && CountRecent(s.events, ip, "recovery_vm_start", t - 30 * 60) >= 2 ==>
              RecoverVmStart(s, ip, start).0 == Audited(After(s, start.first.delay), ip, "recovery_failed", start.exhausted)
    ensures var t := s.clock + service.first.delay;
            service.first.db == Reachable && CountRecent(s.events, ip, "recovery_service_restart", t - 30 * 60) >= 2 ==>
              RecoverService(s, ip, service).0 == Audited(After(s, service.first.delay), ip, "recovery_failed", service.exhausted)
  {
  }
}
