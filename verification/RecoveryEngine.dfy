/** The inference recovery engine (service/app/v011_recovery.py): bounded VM starts and service restarts, counted in
    the recovery_events table. Times are in seconds of the database clock. */
module RecoveryEngine {
  import opened Wrappers

  const VM_START_MAX := 2
  const SERVICE_RESTART_MAX := 2
  const SERVICE_RESTART_COOLDOWN_S := 15 * 60
  const WINDOW_MINUTES := 30
  const NO_DB := 99

  const VM_START := "recovery_vm_start"
  const SERVICE_RESTART := "recovery_service_restart"

  /** A row of recovery_events. */
  datatype Event = Event(ip: string, kind: string, at: int)

  datatype Op = Start | Restart

  /** A power-on or a service restart that was sent, with the time of its audit. */
  datatype Action = Action(ip: string, op: Op, at: int)

  datatype State = State(events: seq<Event>, actions: seq<Action>, clock: int)

  /** What a connection attempt meets: the table, no connection, or a query that raises. */
  datatype Db = Reachable | Unreachable | Broken

  datatype Read = Read(delay: nat, db: Db)

  /** An insert into recovery_events; one that fails is swallowed. */
  datatype Write = Write(delay: nat, ok: bool)

  datatype Answer = NotYet | Healthy | Raised

  datatype Poll = Poll(delay: nat, answer: Answer)

  datatype StartEnv = StartEnv(first: Read, second: Read, exhausted: Write, write: Write, powered: bool,
                               polls: seq<Poll>, success: Write)

  datatype ServiceEnv = ServiceEnv(first: Read, cooldown: Read, again: Read, attempt: Read, exhausted: Write,
                                   write: Write, polls: seq<Poll>, success: Write)

  /** A row of hosts, as one tick reads it. */
  datatype Host = Host(ip: string, desired: string, mode: string, service: string)

  /** `status` is None when the status call raises. */
  datatype HostEnv = HostEnv(status: Option<string>, note: Write, start: StartEnv, service: ServiceEnv)

  /** `states` is None when the registry sync reports an error. */
  datatype TickEnv = TickEnv(states: Option<map<string, string>>, db: Db, hosts: seq<Host>, each: seq<HostEnv>)

  // ------------------------------------------------------------------ the events table

  predicate Recent(e: Event, ip: string, kind: string, since: int) {
    e.ip == ip && e.kind == kind && e.at > since
  }

  /** SELECT COUNT(*) ... AND created_at > since */
  function CountRecent(events: seq<Event>, ip: string, kind: string, since: int): nat {
    if events == [] then 0
    else
      var last := |events| - 1;
      CountRecent(events[..last], ip, kind, since) + (if Recent(events[last], ip, kind, since) then 1 else 0)
  }

  function After(s: State, delay: nat): State {
    s.(clock := s.clock + delay)
  }

  /** recent_count: None when the query raises. */
  function RecentCount(s: State, ip: string, kind: string, minutes: nat, r: Read): Option<nat> {
    match r.db
    case Reachable => Some(CountRecent(s.events, ip, kind, s.clock + r.delay - minutes * 60))
    case Unreachable => Some(NO_DB)
    case Broken => None
  }

  function Audited(s: State, ip: string, kind: string, w: Write): State {
    var s := After(s, w.delay);
    if w.ok then s.(events := s.events + [Event(ip, kind, s.clock)]) else s
  }

  function Acted(s: State, ip: string, op: Op): State {
    s.(actions := s.actions + [Action(ip, op, s.clock)])
  }

  /** Polls until the backend answers; false when a poll raises. */
  function Waited(s: State, ip: string, polls: seq<Poll>, rounds: nat, success: Write): (State, bool)
    decreases |polls|
  {
    if polls == [] || rounds == 0 then (s, true)
    else
      var s := After(s, polls[0].delay);
      match polls[0].answer
      case Raised => (s, false)
      case Healthy => (Audited(s, ip, "recovery_success", success), true)
      case NotYet => Waited(s, ip, polls[1..], rounds - 1, success)
  }

  // ------------------------------------------------------------------ the two recoveries; false when one raises

  function RecoverVmStart(s: State, ip: string, env: StartEnv): (State, bool) {
    var count := RecentCount(s, ip, VM_START, WINDOW_MINUTES, env.first);
    var s := After(s, env.first.delay);
    if count.None? then (s, false)
    else if count.value >= VM_START_MAX then (Audited(s, ip, "recovery_failed", env.exhausted), true)
    else
      var attempt := RecentCount(s, ip, VM_START, WINDOW_MINUTES, env.second);
      var s := After(s, env.second.delay);
      if attempt.None? then (s, false)
      else
        var s := Acted(Audited(s, ip, VM_START, env.write), ip, Start);
        if !env.powered then (s, false) else Waited(s, ip, env.polls, 40, env.success)
  }

  /** The cooldown after a restart: None when a query raises, otherwise whether to leave the service alone. */
  function CoolingDown(s: State, ip: string, env: ServiceEnv): Option<bool> {
    match RecentCount(s, ip, SERVICE_RESTART, 3, env.cooldown)
    case None => None
    case Some(last) =>
      if last != 0 && SERVICE_RESTART_COOLDOWN_S > 180 then
        match RecentCount(After(s, env.cooldown.delay), ip, SERVICE_RESTART, 3, env.again)
        case None => None
        case Some(n) => Some(n >= 1)
      else Some(false)
  }

  function CooldownDelay(s: State, ip: string, env: ServiceEnv): nat {
    match RecentCount(s, ip, SERVICE_RESTART, 3, env.cooldown)
    case None => env.cooldown.delay
    case Some(last) => env.cooldown.delay + if last != 0 && SERVICE_RESTART_COOLDOWN_S > 180 then env.again.delay else 0
  }

  function RecoverService(s: State, ip: string, env: ServiceEnv): (State, bool) {
    var count := RecentCount(s, ip, SERVICE_RESTART, WINDOW_MINUTES, env.first);
    var s := After(s, env.first.delay);
    if count.None? then (s, false)
    else if count.value >= SERVICE_RESTART_MAX then (Audited(s, ip, "recovery_failed", env.exhausted), true)
    else
      var cooling := CoolingDown(s, ip, env);
      var s := After(s, CooldownDelay(s, ip, env));
      if cooling.None? then (s, false)
      else if cooling.value then (s, true)
      else
        var attempt := RecentCount(s, ip, SERVICE_RESTART, WINDOW_MINUTES, env.attempt);
        var s := After(s, env.attempt.delay);
        if attempt.None? then (s, false)
        else Waited(Acted(Audited(s, ip, SERVICE_RESTART, env.write), ip, Restart), ip, env.polls, 60, env.success)
  }

  // ------------------------------------------------------------------ a tick

  function TickHost(s: State, h: Host, states: map<string, string>, env: HostEnv): (State, bool) {
    if env.status.None? then (s, false)
    else if h.mode != "MANAGED" then (s, true)
    else if h.desired == "STOPPED_INTENTIONAL" then
      (if env.status.value == "running" then Audited(s, h.ip, "intentional_state_pending", env.note) else s, true)
    else if env.status.value != "running" then
      RecoverVmStart(Audited(s, h.ip, "outage_detected", env.note), h.ip, env.start)
    else if h.ip in states && states[h.ip] == "unhealthy" then
      if h.service == "MAINTENANCE" then (Audited(s, h.ip, "maintenance_skip", env.note), true)
      else RecoverService(Audited(s, h.ip, "service_degraded", env.note), h.ip, env.service)
    else (s, true)
  }

  /** The hosts in turn; an exception ends the tick. */
  function TickHosts(s: State, hosts: seq<Host>, states: map<string, string>, each: seq<HostEnv>): State
    requires |each| == |hosts|
    decreases |hosts|
  {
    if hosts == [] then s
    else
      var (s', ok) := TickHost(s, hosts[0], states, each[0]);
      if ok then TickHosts(s', hosts[1..], states, each[1..]) else s'
  }

  function Tick(s: State, env: TickEnv): State
    requires |env.each| == |env.hosts|
  {
    if env.states.None? || env.db != Reachable then s else TickHosts(s, env.hosts, env.states.value, env.each)
  }

  // ------------------------------------------------------------------ the engine

  class Engine {
    var events: seq<Event>
    var actions: seq<Action>
    var clock: int

    constructor (events: seq<Event>, clock: int)
      ensures View() == State(events, [], clock)
    {
      this.events, actions, this.clock := events, [], clock;
    }

    function View(): State
      reads this
    {
      State(events, actions, clock)
    }

    method Audit(ip: string, kind: string, w: Write)
      modifies this
      ensures View() == Audited(old(View()), ip, kind, w)
    {
      clock := clock + w.delay;
      if w.ok {
        events := events + [Event(ip, kind, clock)];
      }
    }

    method ReadCount(ip: string, kind: string, minutes: nat, r: Read) returns (count: Option<nat>)
      modifies this`clock
      ensures View() == After(old(View()), r.delay)
      ensures count == RecentCount(old(View()), ip, kind, minutes, r)
    {
      clock := clock + r.delay;
      match r.db {
        case Unreachable => return Some(NO_DB);
        case Broken => return None;
        case Reachable =>
      }
      var i, n, since := 0, 0, clock - minutes * 60;
      while i < |events|
        invariant 0 <= i <= |events|
        invariant n == CountRecent(events[..i], ip, kind, since)
      {
        assert events[..i + 1][..i] == events[..i];
        if Recent(events[i], ip, kind, since) {
          n := n + 1;
        }
        i := i + 1;
      }
      assert events[..i] == events;
      return Some(n);
    }

    method WaitHealthy(ip: string, polls: seq<Poll>, rounds: nat, success: Write) returns (ok: bool)
      modifies this
      ensures (View(), ok) == Waited(old(View()), ip, polls, rounds, success)
    {
      var i := 0;
      while i < rounds && i < |polls|
        invariant 0 <= i <= |polls| && i <= rounds
        invariant Waited(View(), ip, polls[i..], rounds - i, success) == Waited(old(View()), ip, polls, rounds, success)
      {
        assert polls[i..][0] == polls[i] && polls[i..][1..] == polls[i + 1..];
        clock := clock + polls[i].delay;
        if polls[i].answer == Raised {
          return false;
        }
        if polls[i].answer == Healthy {
          Audit(ip, "recovery_success", success);
          return true;
        }
        i := i + 1;
      }
      return true;
    }

    method StartVm(ip: string, env: StartEnv) returns (ok: bool)
      modifies this
      ensures (View(), ok) == RecoverVmStart(old(View()), ip, env)
    {
      var count := ReadCount(ip, VM_START, WINDOW_MINUTES, env.first);
      if count.None? {
        return false;
      }
      if count.value >= VM_START_MAX {
        Audit(ip, "recovery_failed", env.exhausted);
        return true;
      }
      var attempt := ReadCount(ip, VM_START, WINDOW_MINUTES, env.second);
      if attempt.None? {
        return false;
      }
      Audit(ip, VM_START, env.write);
      actions := actions + [Action(ip, Start, clock)];
      if !env.powered {
        return false;
      }
      ok := WaitHealthy(ip, env.polls, 40, env.success);
    }

    method RestartService(ip: string, env: ServiceEnv) returns (ok: bool)
      modifies this
      ensures (View(), ok) == RecoverService(old(View()), ip, env)
    {
      var count := ReadCount(ip, SERVICE_RESTART, WINDOW_MINUTES, env.first);
      if count.None? {
        return false;
      }
      if count.value >= SERVICE_RESTART_MAX {
        Audit(ip, "recovery_failed", env.exhausted);
        return true;
      }
      var last := ReadCount(ip, SERVICE_RESTART, 3, env.cooldown);
      if last.None? {
        return false;
      }
      if last.value != 0 && SERVICE_RESTART_COOLDOWN_S > 180 {
        last := ReadCount(ip, SERVICE_RESTART, 3, env.again);
        if last.None? {
          return false;
        }
        if last.value >= 1 {
          return true;
        }
      }
      var attempt := ReadCount(ip, SERVICE_RESTART, WINDOW_MINUTES, env.attempt);
      if attempt.None? {
        return false;
      }
      Audit(ip, SERVICE_RESTART, env.write);
      actions := actions + [Action(ip, Restart, clock)];
      ok := WaitHealthy(ip, env.polls, 60, env.success);
    }

    method Visit(h: Host, states: map<string, string>, env: HostEnv) returns (ok: bool)
      modifies this
      ensures (View(), ok) == TickHost(old(View()), h, states, env)
    {
      if env.status.None? {
        return false;
      }
      if h.mode != "MANAGED" {
        return true;
      }
      if h.desired == "STOPPED_INTENTIONAL" {
        if env.status.value == "running" {
          Audit(h.ip, "intentional_state_pending", env.note);
        }
        return true;
      }
      if env.status.value != "running" {
        Audit(h.ip, "outage_detected", env.note);
        ok := StartVm(h.ip, env.start);
        return;
      }
      if h.ip in states && states[h.ip] == "unhealthy" {
        if h.service == "MAINTENANCE" {
          Audit(h.ip, "maintenance_skip", env.note);
          return true;
        }
        Audit(h.ip, "service_degraded", env.note);
        ok := RestartService(h.ip, env.service);
        return;
      }
      return true;
    }

    method RunTick(env: TickEnv)
      requires |env.each| == |env.hosts|
      modifies this
      ensures View() == Tick(old(View()), env)
    {
      if env.states.None? || env.db != Reachable {
        return;
      }
      var i, ok := 0, true;
      while i < |env.hosts| && ok
        invariant 0 <= i <= |env.hosts|
        invariant Tick(old(View()), env)
               == if ok then TickHosts(View(), env.hosts[i..], env.states.value, env.each[i..]) else View()
      {
        assert env.hosts[i..][1..] == env.hosts[i + 1..] && env.each[i..][1..] == env.each[i + 1..];
        ok := Visit(env.hosts[i], env.states.value, env.each[i]);
        i := i + 1;
      }
    }
  }
}
