/** The OpenRouter spend guard of the gateway (service/app/spend_guard.py). Amounts are exact; times are in seconds.
    The hook awaits nothing, so it is one step, and a request's startTime is taken to be the time of its hook. */
module SpendGuard {
  import opened Wrappers

  const CAPS_TTL := 30
  const DAY_S := 86400

  /** A cap that is missing or does not parse is None. */
  datatype Caps = Caps(daily: Option<real>, monthly: Option<real>, warning: Option<real>)

  const NO_CAPS := Caps(None, None, None)

  /** A row of LiteLLM_SpendLogs. */
  datatype Row = Row(model: string, spend: real, startTime: int)

  datatype Verdict = Pass(warned: bool) | DailyCapReached | MonthlyCapReached | TelemetryUnreachable

  predicate ContainsAt(s: string, part: string, i: nat) {
    i + |part| <= |s| && s[i..i + |part|] == part
  }

  /** "openrouter" in model: the request is gated. */
  predicate Gated(model: string) {
    exists i :: 0 <= i <= |model| && ContainsAt(model, "openrouter", i)
  }

  /** model LIKE 'openrouter/%': the row is summed. */
  predicate Counted(model: string) {
    "openrouter/" <= model
  }

  function SpendSince(log: seq<Row>, start: int): real {
    if log == [] then 0.0
    else
      var last := log[|log| - 1];
      SpendSince(log[..|log| - 1], start) + (if Counted(last.model) && last.startTime >= start then last.spend else 0.0)
  }

  function DayStart(t: int): int {
    t - t % DAY_S
  }

  /** The checks in their order: month, then day, then the warning. */
  function Decide(caps: Caps, daily: real, monthly: real): Verdict {
    if caps.monthly.Some? && monthly >= caps.monthly.value then MonthlyCapReached
    else if caps.daily.Some? && daily >= caps.daily.value then DailyCapReached
    else Pass(caps.warning.Some? && (daily >= caps.warning.value || monthly >= caps.warning.value))
  }

  /** The caps a hook works with: the cached ones for 30 seconds, whether or not they could be read. */
  function CapsAt(cache: Option<(Caps, int)>, now: int, read: Option<Caps>): Caps {
    if cache.Some? && now - cache.value.1 < CAPS_TTL then cache.value.0 else read.GetOr(NO_CAPS)
  }

  function CacheAt(cache: Option<(Caps, int)>, now: int, read: Option<Caps>): Option<(Caps, int)> {
    if cache.Some? && now - cache.value.1 < CAPS_TTL then cache else Some((read.GetOr(NO_CAPS), now))
  }

  function Judge(model: string, caps: Caps, log: seq<Row>, readable: bool, day: int, month: int): Verdict {
    if !Gated(model) then Pass(false)
    else if !readable then TelemetryUnreachable
    else Decide(caps, SpendSince(log, day), SpendSince(log, month))
  }

  class Guard {
    var cache: Option<(Caps, int)>

    constructor ()
      ensures cache == None
    {
      cache := None;
    }

    /** `read` is None when the settings cannot be read; that answer is cached too. */
    method GetCaps(now: int, read: Option<Caps>) returns (caps: Caps)
      modifies this
      ensures caps == CapsAt(old(cache), now, read) && cache == CacheAt(old(cache), now, read)
    {
      if cache.Some? && now - cache.value.1 < CAPS_TTL {
        return cache.value.0;
      }
      caps := read.GetOr(NO_CAPS);
      cache := Some((caps, now));
    }

    method GetSpend(log: seq<Row>, day: int, month: int) returns (daily: real, monthly: real)
      ensures daily == SpendSince(log, day) && monthly == SpendSince(log, month)
    {
      daily, monthly := 0.0, 0.0;
      var i := 0;
      while i < |log|
        invariant 0 <= i <= |log|
        invariant daily == SpendSince(log[..i], day) && monthly == SpendSince(log[..i], month)
      {
        assert log[..i + 1][..i] == log[..i];
        if Counted(log[i].model) {
          if log[i].startTime >= day {
            daily := daily + log[i].spend;
          }
          if log[i].startTime >= month {
            monthly := monthly + log[i].spend;
          }
        }
        i := i + 1;
      }
      assert log[..i] == log;
    }

    /** Local traffic never touches the caps or the spend. */
    method PreCallHook(model: string, now: int, read: Option<Caps>, log: seq<Row>, readable: bool, month: int) returns (verdict: Verdict)
      modifies this
      ensures verdict == Judge(model, CapsAt(old(cache), now, read), log, readable, DayStart(now), month)
      ensures cache == if Gated(model) then CacheAt(old(cache), now, read) else old(cache)
      ensures !Gated(model) ==> verdict == Pass(false)
    {
      if !Gated(model) {
        return Pass(false);
      }
      var caps := GetCaps(now, read);
      if !readable {
        return TelemetryUnreachable;
      }
      var daily, monthly := GetSpend(log, DayStart(now), month);
      if caps.monthly.Some? && monthly >= caps.monthly.value {
        return MonthlyCapReached;
      }
      if caps.daily.Some? && daily >= caps.daily.value {
        return DailyCapReached;
      }
      return Pass(caps.warning.Some? && (daily >= caps.warning.value || monthly >= caps.warning.value));
    }
  }

  /** Whatever is summed was gated. */
  lemma CountedIsGated(model: string)
    requires Counted(model)
    ensures Gated(model)
  {
    assert model[..11] == "openrouter/";
    assert model[0..10] == model[..11][0..10] == "openrouter";
    assert ContainsAt(model, "openrouter", 0);
  }

  // ------------------------------------------------------------------ requests in flight

  datatype Request = Request(model: string, start: int)

  /** Requests let through and not yet in the spend log. */
  datatype System = System(now: int, cache: Option<(Caps, int)>, log: seq<Row>, inFlight: map<nat, Request>)

  datatype Step =
    | Tick(delay: nat)
    | Arrive(id: nat, model: string, read: Option<Caps>, readable: bool)
    | Finish(id: nat, cost: real)

  /** `month` gives the start of the calendar month of a time. */
  ghost predicate Calendar(start: int -> int) {
    forall t :: start(t) <= t && forall u :: start(t) <= u <= t ==> start(u) == start(t)
  }

  function Next(s: System, step: Step, month: int -> int): System {
    match step
    case Tick(delay) => s.(now := s.now + delay)
    case Arrive(id, model, read, readable) =>
      if id in s.inFlight then s
      else
        var verdict := Judge(model, CapsAt(s.cache, s.now, read), s.log, readable, DayStart(s.now), month(s.now));
        var s := if Gated(model) then s.(cache := CacheAt(s.cache, s.now, read)) else s;
        if verdict.Pass? then s.(inFlight := s.inFlight[id := Request(model, s.now)]) else s
    case Finish(id, cost) =>
      if id !in s.inFlight then s
      else s.(inFlight := s.inFlight - {id}, log := s.log + [Row(s.inFlight[id].model, cost, s.inFlight[id].start)])
  }

  /** An arriving request is what the guard's hook decides on. */
  method Arriving(guard: Guard, s: System, id: nat, model: string, read: Option<Caps>, readable: bool, month: int -> int) returns (s': System)
    requires guard.cache == s.cache && id !in s.inFlight
    modifies guard
    ensures s' == Next(s, Arrive(id, model, read, readable), month) && guard.cache == s'.cache
  {
    var verdict := guard.PreCallHook(model, s.now, read, s.log, readable, month(s.now));
    s' := s.(cache := guard.cache);
    if verdict.Pass? {
      s' := s'.(inFlight := s'.inFlight[id := Request(model, s.now)]);
    }
  }

  function Run(s: System, steps: seq<Step>, month: int -> int): System
    decreases |steps|
  {
    if steps == [] then s else Run(Next(s, steps[0], month), steps[1..], month)
  }

  // ------------------------------------------------------------------ the bound

  datatype Period = Day | Month

  function Start(p: Period, month: int -> int, t: int): int {
    if p == Day then DayStart(t) else month(t)
  }

  function CapOf(p: Period, caps: Caps): Option<real> {
    if p == Day then caps.daily else caps.monthly
  }

  /** The spend of the requests that started in the period beginning at `begin`. */
  function SpendIn(log: seq<Row>, p: Period, month: int -> int, begin: int): real {
    if log == [] then 0.0
    else
      var last := log[|log| - 1];
      SpendIn(log[..|log| - 1], p, month, begin)
      + (if Counted(last.model) && Start(p, month, last.startTime) == begin then last.spend else 0.0)
  }

  /** The requests in flight whose cost will fall into that period. */
  function Pending(inFlight: map<nat, Request>, p: Period, month: int -> int, begin: int): set<nat> {
    set id | id in inFlight && Counted(inFlight[id].model) && Start(p, month, inFlight[id].start) == begin
  }

  function Times(c: real, n: nat): real {
    if n == 0 then 0.0 else c + Times(c, n - 1)
  }

  lemma {:induction false} TimesGrows(c: real, m: nat, n: nat)
    requires c >= 0.0 && m <= n
    ensures Times(c, m) <= Times(c, n)
  {
    if m < n {
      TimesGrows(c, m, n - 1);
    }
  }

  lemma {:induction false} TimesIs(c: real, n: nat)
    ensures Times(c, n) == n as real * c
  {
    if n > 0 {
      TimesIs(c, n - 1);
      assert (n - 1) as real == n as real - 1.0;
    }
  }

  lemma DaysAreACalendar()
    ensures Calendar(DayStart)
  {
    forall t, u | DayStart(t) <= u <= t
      ensures DayStart(u) == DayStart(t)
    {
      assert t == DAY_S * (t / DAY_S) + t % DAY_S;
      assert u == DAY_S * (u / DAY_S) + u % DAY_S;
      SameDay(t / DAY_S, t % DAY_S, u / DAY_S, u % DAY_S);
    }
  }

  lemma SameDay(q: int, r: int, q': int, r': int)
    requires 0 <= r < 86400 && 0 <= r' < 86400
    requires 86400 * q <= 86400 * q' + r' <= 86400 * q + r
    ensures q == q'
  {
  }

  lemma PeriodIsCalendar(p: Period, month: int -> int, t: int, u: int)
    requires Calendar(month)
    ensures Start(p, month, t) <= t
    ensures Start(p, month, t) <= u <= t ==> Start(p, month, u) == Start(p, month, t)
  {
    DaysAreACalendar();
  }

  /** The sum the gate reads is the spend of the current period: nothing starts in the future. */
  lemma {:induction false} GateReadsPeriod(log: seq<Row>, p: Period, month: int -> int, now: int)
    requires Calendar(month) && forall i :: 0 <= i < |log| ==> log[i].startTime <= now
    ensures SpendSince(log, Start(p, month, now)) == SpendIn(log, p, month, Start(p, month, now))
  {
    if log != [] {
      GateReadsPeriod(log[..|log| - 1], p, month, now);
      var t := log[|log| - 1].startTime;
      PeriodIsCalendar(p, month, now, t);
      PeriodIsCalendar(p, month, t, t);
    }
  }

  /** What a period may still come to: the spend so far and at most c for each request in flight. */
  ghost predicate Bounded(s: System, p: Period, month: int -> int, begin: int, cap: real, limit: nat, c: real) {
    var spend, pending := SpendIn(s.log, p, month, begin), Pending(s.inFlight, p, month, begin);
    || (spend == 0.0 && pending == {})
    || spend + Times(c, |pending|) < cap + Times(c, limit)
  }

  ghost predicate Past(s: System) {
    && (forall i :: 0 <= i < |s.log| ==> s.log[i].startTime <= s.now)
    && (forall id :: id in s.inFlight ==> s.inFlight[id].start <= s.now)
  }

  ghost predicate Invariant(s: System, p: Period, month: int -> int, caps: Caps, limit: nat, c: real) {
    && Past(s)
    && (s.cache.Some? ==> s.cache.value.0 == caps)
    && (CapOf(p, caps).Some? ==> forall begin :: Bounded(s, p, month, begin, CapOf(p, caps).value, limit, c))
  }

  /** The settings are readable and fixed, a request costs at most c, and at most `limit` are in flight. */
  ghost predicate Admissible(s: System, step: Step, month: int -> int, caps: Caps, limit: nat, c: real) {
    && (step.Arrive? ==> step.read == Some(caps))
    && (step.Finish? ==> step.cost <= c)
    && |Next(s, step, month).inFlight| <= limit
  }

  ghost predicate AdmissibleRun(s: System, steps: seq<Step>, month: int -> int, caps: Caps, limit: nat, c: real)
    decreases |steps|
  {
    steps == [] || (Admissible(s, steps[0], month, caps, limit, c)
                    && AdmissibleRun(Next(s, steps[0], month), steps[1..], month, caps, limit, c))
  }

  lemma PendingFits(inFlight: map<nat, Request>, p: Period, month: int -> int, begin: int)
    ensures |Pending(inFlight, p, month, begin)| <= |inFlight|
  {
    SubsetCard(Pending(inFlight, p, month, begin), inFlight.Keys);
    assert |inFlight.Keys| == |inFlight|;
  }

  lemma {:induction false} SubsetCard(a: set<nat>, b: set<nat>)
    requires a <= b
    ensures |a| <= |b|
  {
    assert b == a + (b - a);
  }

  /** A request that is let through found the spend of its own period below the cap. */
  lemma ArriveBounded(s: System, id: nat, model: string, readable: bool, month: int -> int, p: Period, begin: int, caps: Caps, limit: nat, c: real)
    requires Calendar(month) && c >= 0.0 && Invariant(s, p, month, caps, limit, c) && id !in s.inFlight && CapOf(p, caps).Some?
    requires Admissible(s, Arrive(id, model, Some(caps), readable), month, caps, limit, c)
    ensures Bounded(Next(s, Arrive(id, model, Some(caps), readable), month), p, month, begin, CapOf(p, caps).value, limit, c)
  {
    var s' := Next(s, Arrive(id, model, Some(caps), readable), month);
    assert Bounded(s, p, month, begin, CapOf(p, caps).value, limit, c);
    if s'.inFlight != s.inFlight {
      if Counted(model) && Start(p, month, s.now) == begin {
        CountedIsGated(model);
        GateReadsPeriod(s.log, p, month, s.now);
        assert SpendIn(s.log, p, month, begin) < CapOf(p, caps).value;
        PendingFits(s'.inFlight, p, month, begin);
        TimesGrows(c, |Pending(s'.inFlight, p, month, begin)|, limit);
      } else {
        assert Pending(s'.inFlight, p, month, begin) == Pending(s.inFlight, p, month, begin);
      }
    }
  }

  lemma FinishPending(inFlight: map<nat, Request>, id: nat, p: Period, month: int -> int, begin: int)
    requires id in inFlight
    ensures var before, after := Pending(inFlight, p, month, begin), Pending(inFlight - {id}, p, month, begin);
            && |before| == |after| + (if id in before then 1 else 0)
            && (id !in before ==> before == after)
  {
    var before, after := Pending(inFlight, p, month, begin), Pending(inFlight - {id}, p, month, begin);
    assert after == before - {id};
  }

  lemma SpendAppend(log: seq<Row>, row: Row, p: Period, month: int -> int, begin: int)
    ensures SpendIn(log + [row], p, month, begin)
         == SpendIn(log, p, month, begin) + (if Counted(row.model) && Start(p, month, row.startTime) == begin then row.spend else 0.0)
  {
    assert (log + [row])[..|log|] == log;
  }

  lemma FinishBounded(s: System, id: nat, cost: real, month: int -> int, p: Period, begin: int, cap: real, limit: nat, c: real)
    requires Bounded(s, p, month, begin, cap, limit, c) && id in s.inFlight && cost <= c
    ensures Bounded(Next(s, Finish(id, cost), month), p, month, begin, cap, limit, c)
  {
    SpendAppend(s.log, Row(s.inFlight[id].model, cost, s.inFlight[id].start), p, month, begin);
    FinishPending(s.inFlight, id, p, month, begin);
  }

  lemma StepKeeps(s: System, step: Step, month: int -> int, p: Period, caps: Caps, limit: nat, c: real)
    requires Calendar(month) && c >= 0.0 && Invariant(s, p, month, caps, limit, c) && Admissible(s, step, month, caps, limit, c)
    ensures Invariant(Next(s, step, month), p, month, caps, limit, c)
  {
    if CapOf(p, caps).Some? {
      forall begin
        ensures Bounded(Next(s, step, month), p, month, begin, CapOf(p, caps).value, limit, c)
      {
        assert Bounded(s, p, month, begin, CapOf(p, caps).value, limit, c);
        match step
        case Tick(_) =>
        case Arrive(id, model, read, readable) =>
          if id !in s.inFlight { ArriveBounded(s, id, model, readable, month, p, begin, caps, limit, c); }
        case Finish(id, cost) =>
          if id in s.inFlight { FinishBounded(s, id, cost, month, p, begin, CapOf(p, caps).value, limit, c); }
      }
    }
  }

  lemma {:induction false} RunKeeps(s: System, steps: seq<Step>, month: int -> int, p: Period, caps: Caps, limit: nat, c: real)
    requires Calendar(month) && c >= 0.0 && Invariant(s, p, month, caps, limit, c) && AdmissibleRun(s, steps, month, caps, limit, c)
    ensures Invariant(Run(s, steps, month), p, month, caps, limit, c)
    decreases |steps|
  {
    if steps != [] {
      StepKeeps(s, steps[0], month, p, caps, limit, c);
      RunKeeps(Next(s, steps[0], month), steps[1..], month, p, caps, limit, c);
    }
  }

  /** No day and no month ever costs more than its cap and the requests in flight: whatever began in the period comes
      to less than cap + K * c, unless it comes to nothing at all. */
  lemma SpendIsBounded(now: int, steps: seq<Step>, month: int -> int, p: Period, begin: int, caps: Caps, limit: nat, c: real)
    requires Calendar(month) && c >= 0.0 && CapOf(p, caps).Some?
    requires AdmissibleRun(System(now, None, [], map[]), steps, month, caps, limit, c)
    ensures var spend := SpendIn(Run(System(now, None, [], map[]), steps, month).log, p, month, begin);
            spend == 0.0 || spend < CapOf(p, caps).value + limit as real * c
  {
    var s0 := System(now, None, [], map[]);
    var s := Run(s0, steps, month);
    RunKeeps(s0, steps, month, p, caps, limit, c);
    assert Bounded(s, p, month, begin, CapOf(p, caps).value, limit, c);
    TimesGrows(c, 0, |Pending(s.inFlight, p, month, begin)|);
    TimesIs(c, limit);
  }

  // ------------------------------------------------------------------ who is stopped, and who is not

  /** A gated request passes exactly when every cap that is set is above the spend so far; without spend telemetry it
      never passes. */
  lemma PassesIffBelowCaps(model: string, caps: Caps, log: seq<Row>, readable: bool, day: int, month: int)
    requires Gated(model)
    ensures Judge(model, caps, log, readable, day, month).Pass? <==>
              && readable
              && (caps.daily.Some? ==> SpendSince(log, day) < caps.daily.value)
              && (caps.monthly.Some? ==> SpendSince(log, month) < caps.monthly.value)
  {
  }

  predicate Fresh(cache: Option<(Caps, int)>, now: int) {
    cache.Some? && now - cache.value.1 < 30
  }

  predicate CapReached(caps: Caps, daily: real, monthly: real) {
    || (caps.daily.Some? && daily >= caps.daily.value)
    || (caps.monthly.Some? && monthly >= caps.monthly.value)
  }

  /** The caps in force: those cached less than 30 seconds ago, else those just read; none if that failed. */
  predicate InForce(caps: Caps, cache: Option<(Caps, int)>, now: int, read: Option<Caps>) {
    if Fresh(cache, now) then caps == cache.value.0 else read == Some(caps)
  }

  /** A gated request is stopped exactly when the spend cannot be read or a cap in force is reached. */
  lemma StoppedExactly(cache: Option<(Caps, int)>, now: int, read: Option<Caps>, model: string, log: seq<Row>, readable: bool, day: int, month: int)
    requires Gated(model)
    ensures !Judge(model, CapsAt(cache, now, read), log, readable, day, month).Pass? <==>
              !readable || exists caps :: InForce(caps, cache, now, read) && CapReached(caps, SpendSince(log, day), SpendSince(log, month))
  {
    var caps := CapsAt(cache, now, read);
    PassesIffBelowCaps(model, caps, log, readable, day, month);
    assert InForce(caps, cache, now, read) || caps == NO_CAPS;
  }

  /** When the caps cannot be read the guard fails closed exactly if the spend cannot be read either, or a cap that was
      cached less than 30 seconds ago is reached. */
  lemma UnreadableCapsExactly(cache: Option<(Caps, int)>, now: int, model: string, log: seq<Row>, readable: bool, day: int, month: int)
    requires Gated(model)
    ensures !Judge(model, CapsAt(cache, now, None), log, readable, day, month).Pass? <==>
              !readable || (Fresh(cache, now) && CapReached(cache.value.0, SpendSince(log, day), SpendSince(log, month)))
  {
    PassesIffBelowCaps(model, CapsAt(cache, now, None), log, readable, day, month);
  }

  /** The settings cannot be read in any step of the run. */
  predicate Unreadable(steps: seq<Step>) {
    forall i :: 0 <= i < |steps| && steps[i].Arrive? ==> steps[i].read.None?
  }

  lemma {:induction false} CacheRunsOut(s: System, steps: seq<Step>, month: int -> int)
    requires Unreadable(steps)
    ensures var s' := Run(s, steps, month);
            && s.now <= s'.now
            && (s'.cache == s.cache || (s'.cache.Some? && s'.cache.value.0 == NO_CAPS))
    decreases |steps|
  {
    if steps != [] {
      assert Unreadable(steps[1..]);
      CacheRunsOut(Next(s, steps[0], month), steps[1..], month);
    }
  }

  /** While the settings stay unreadable the guard is open for good 30 seconds after the last caps it had: every gated
      request whose spend can be read passes, whatever was spent in between. */
  lemma OpenWhileUnreadable(s: System, steps: seq<Step>, month: int -> int, model: string)
    requires Unreadable(steps)
    requires s.cache.Some? ==> Run(s, steps, month).now - s.cache.value.1 >= CAPS_TTL
    ensures var s' := Run(s, steps, month);
            Judge(model, CapsAt(s'.cache, s'.now, None), s'.log, true, DayStart(s'.now), month(s'.now)).Pass?
  {
    CacheRunsOut(s, steps, month);
  }

  /** Settings that cannot be read once open the gate for half a minute: the empty caps are cached, and until they
      expire every request passes, whatever has been spent and whatever the caps are by then. */
  lemma UnreadableCapsOpenTheGate(cache: Option<(Caps, int)>, t: int, model: string, now: int, read: Option<Caps>, log: seq<Row>, day: int, month: int)
    requires cache.Some? ==> t - cache.value.1 >= CAPS_TTL
    requires t <= now < t + CAPS_TTL
    ensures Judge(model, CapsAt(CacheAt(cache, t, None), now, read), log, true, day, month).Pass?
  {
  }

  // ------------------------------------------------------------------ what is gated, what is counted, and from when

  /** A request is gated exactly if its model mentions openrouter anywhere, and a row is counted exactly if its model is
      one of the openrouter provider's. */
  lemma GatedAndCounted(model: string)
    ensures Gated(model) <==> exists a, b: string :: model == a + "openrouter" + b
    ensures Counted(model) <==> exists rest: string :: model == "openrouter/" + rest
  {
    if Gated(model) {
      var i :| 0 <= i <= |model| && ContainsAt(model, "openrouter", i);
      assert model == model[..i] + "openrouter" + model[i + 10..];
    }
    if a, b: string :| model == a + "openrouter" + b {
      assert model[|a|..|a| + 10] == "openrouter";
      assert ContainsAt(model, "openrouter", |a|);
    }
    if Counted(model) {
      assert model == "openrouter/" + model[11..];
    }
  }

  /** The daily window begins at midnight: two times share it exactly if they are on the same day. */
  lemma DayStartExactly(t: int, u: int)
    ensures DayStart(t) == 86400 * (t / 86400)
    ensures DayStart(t) == DayStart(u) <==> t / 86400 == u / 86400
  {
    assert t == 86400 * (t / 86400) + t % 86400 && u == 86400 * (u / 86400) + u % 86400;
  }

  /** Which answer a gated request gets: the month is checked before the day, spend that cannot be read stops it, and one
      that passes is warned about exactly at or above the warning threshold. */
  lemma VerdictExactly(model: string, caps: Caps, log: seq<Row>, readable: bool, day: int, month: int)
    requires Gated(model)
    ensures var v, daily, monthly := Judge(model, caps, log, readable, day, month), SpendSince(log, day), SpendSince(log, month);
            && (v == TelemetryUnreachable <==> !readable)
            && (v == MonthlyCapReached <==> readable && caps.monthly.Some? && monthly >= caps.monthly.value)
            && (v == DailyCapReached <==> readable && !(caps.monthly.Some? && monthly >= caps.monthly.value)
                                          && caps.daily.Some? && daily >= caps.daily.value)
            && (v.Pass? ==> (v.warned <==> caps.warning.Some? && (daily >= caps.warning.value || monthly >= caps.warning.value)))
  {
  }

  /** Caps that were read stay in force for half a minute, whatever the settings say by then and however many requests
      come, and not longer. */
  lemma CapsStayInForce(cache: Option<(Caps, int)>, t: int, caps: Caps, u: int, other: Option<Caps>, now: int, read: Option<Caps>)
    requires !Fresh(cache, t)
    ensures var after := CacheAt(cache, t, Some(caps));
            && CapsAt(cache, t, Some(caps)) == caps
            && (t <= u <= now < t + 30 ==> CapsAt(CacheAt(after, u, other), now, read) == caps)
            && (t <= u < t + 30 <= now && read.Some? ==> CapsAt(CacheAt(after, u, other), now, read) == read.value)
  {
  }
}
