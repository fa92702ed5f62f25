/** The cache of active placements (service/app/active_deployments.py). A cache belongs to a process and is shared by
    its threads under a lock; the table is shared by all processes. Times are in seconds. */
module ActiveDeployments {
  import opened Wrappers

  const CACHE_TTL_S := 30

  datatype Entry = Entry(ip: Option<string>, stamp: int)

  type Cache = map<string, Entry>

  /** The entry of a host, when a reader that started at `now` may still use it. */
  function Hit(cache: Cache, host: string, now: int): Option<Entry> {
    if host in cache && now - cache[host].stamp < CACHE_TTL_S then Some(cache[host]) else None
  }

  /** What the table gives: None when the read fails or there is no row. */
  function Fetch(db: map<string, string>, host: string, readable: bool): Option<string> {
    if readable && host in db then Some(db[host]) else None
  }

  function OrElse(ip: Option<string>, fallback: Option<string>): Option<string> {
    if ip.None? then fallback else ip
  }

  // ------------------------------------------------------------------ one process

  /** A call that nothing interrupts: what it returns, and the cache it leaves. */
  function Call(cache: Cache, host: string, fallback: Option<string>, now: int, db: map<string, string>, readable: bool): (Option<string>, Cache) {
    var fetched := OrElse(Fetch(db, host, readable), fallback);
    match Hit(cache, host, now)
    case Some(entry) => (entry.ip, cache)
    case None => (fetched, cache[host := Entry(fetched, now)])
  }

  class PlacementCache {
    var cache: Cache

    constructor ()
      ensures cache == map[]
    {
      cache := map[];
    }

    /** active_ip_for when nothing else runs meanwhile. */
    method ActiveIpFor(host: string, fallback: Option<string>, now: int, db: map<string, string>, readable: bool)
      returns (ip: Option<string>)
      modifies this
      ensures (ip, cache) == Call(old(cache), host, fallback, now, db, readable)
      ensures host in old(cache) && now - old(cache)[host].stamp < 30 ==> ip == old(cache)[host].ip && cache == old(cache)
      ensures host !in old(cache) || now - old(cache)[host].stamp >= 30 ==>
                && ip == (if readable && host in db then Some(db[host]) else fallback)
                && cache == old(cache)[host := Entry(ip, now)]
    {
      if host in cache && now - cache[host].stamp < CACHE_TTL_S {
        return cache[host].ip;
      }
      ip := None;
      if readable && host in db {
        ip := Some(db[host]);
      }
      if ip == None {
        ip := fallback;
      }
      cache := cache[host := Entry(ip, now)];
    }

    /** set_active: the table first, then this process's own cache. */
    method SetActive(host: string, ip: string, db: map<string, string>, writable: bool) returns (db': map<string, string>)
      modifies this
      ensures db' == if writable then db[host := ip] else db
      ensures cache == if writable then old(cache) - {host} else old(cache)
    {
      if !writable {
        return db;
      }
      db' := db[host := ip];
      cache := cache - {host};
    }
  }

  // ------------------------------------------------------------------ many threads in many processes

  /** A call of active_ip_for: it took its time stamp, found the cache stale, then has a value to store. */
  datatype Stage = Started | Missed | Fetched(ip: Option<string>)

  datatype Reader = Reader(process: nat, host: string, fallback: Option<string>, started: int, stage: Stage)

  /** What held at each instant: the table, or a reader that got nothing from it and fell back. */
  datatype Event = Held(now: int, db: map<string, string>) | FellBack(now: int, process: nat, host: string, ip: Option<string>)

  datatype Return = Return(call: nat, process: nat, host: string, started: int, at: int, ip: Option<string>)

  /** Calls are numbered in the order they begin; `calls` is the number of the next one. */
  datatype System = System(now: int, db: map<string, string>, caches: map<nat, Cache>, calls: nat, readers: map<nat, Reader>,
                           history: seq<Event>, answers: seq<Return>)

  datatype Step =
    | Tick(delay: nat)
    | Begin(process: nat, host: string, fallback: Option<string>)
    | LookUp(reader: nat)
    | Query(reader: nat, readable: bool)
    | Store(reader: nat)
    | Write(db: map<string, string>)                  // any commit to the table, by any process or by hand
    | Pop(process: nat, host: string)                 // the end of a set_active

  function CacheOf(s: System, process: nat): Cache {
    if process in s.caches then s.caches[process] else map[]
  }

  function Saw(s: System): System {
    s.(history := s.history + [Held(s.now, s.db)])
  }

  function Returned(s: System, reader: nat, ip: Option<string>): System
    requires reader in s.readers
  {
    var r := s.readers[reader];
    s.(readers := s.readers - {reader}, answers := s.answers + [Return(reader, r.process, r.host, r.started, s.now, ip)])
  }

  function AtStage(s: System, reader: nat, stage: Stage): System
    requires reader in s.readers
  {
    s.(readers := s.readers[reader := s.readers[reader].(stage := stage)])
  }

  function DoLookUp(s: System, reader: nat): System
    requires reader in s.readers
  {
    var r := s.readers[reader];
    match Hit(CacheOf(s, r.process), r.host, r.started)
    case Some(entry) => Returned(s, reader, entry.ip)
    case None => AtStage(s, reader, Missed)
  }

  function DoQuery(s: System, reader: nat, readable: bool): System
    requires reader in s.readers
  {
    var r := s.readers[reader];
    match Fetch(s.db, r.host, readable)
    case Some(ip) => AtStage(Saw(s), reader, Fetched(Some(ip)))
    case None =>
      AtStage(s.(history := s.history + [FellBack(s.now, r.process, r.host, r.fallback)]), reader, Fetched(r.fallback))
  }

  function DoStore(s: System, reader: nat): System
    requires reader in s.readers && s.readers[reader].stage.Fetched?
  {
    var r := s.readers[reader];
    var cache := CacheOf(s, r.process)[r.host := Entry(r.stage.ip, r.started)];
    Returned(s.(caches := s.caches[r.process := cache]), reader, r.stage.ip)
  }

  function Next(s: System, step: Step): System {
    match step
    case Tick(delay) => s.(now := s.now + delay)
    case Begin(process, host, fallback) =>
      s.(readers := s.readers[s.calls := Reader(process, host, fallback, s.now, Started)], calls := s.calls + 1)
    case LookUp(reader) =>
      if reader in s.readers && s.readers[reader].stage.Started? then DoLookUp(s, reader) else s
    case Query(reader, readable) =>
      if reader in s.readers && s.readers[reader].stage.Missed? then DoQuery(s, reader, readable) else s
    case Store(reader) =>
      if reader in s.readers && s.readers[reader].stage.Fetched? then DoStore(s, reader) else s
    case Write(db) => Saw(s.(db := db))
    case Pop(process, host) => s.(caches := s.caches[process := CacheOf(s, process) - {host}])
  }

  function Run(s: System, steps: seq<Step>): System
    decreases |steps|
  {
    if steps == [] then s else Run(Next(s, steps[0]), steps[1..])
  }

  lemma RunCons(s: System, a: Step, rest: seq<Step>)
    ensures Run(s, [a] + rest) == Run(Next(s, a), rest)
  {
    assert ([a] + rest)[1..] == rest;
  }

  lemma RunFour(s: System, a: Step, b: Step, c: Step, d: Step)
    ensures Run(s, [a, b, c, d]) == Next(Next(Next(Next(s, a), b), c), d)
  {
    assert [a, b, c, d] == [a] + ([b] + ([c] + ([d] + [])));
    RunCons(s, a, [b] + ([c] + ([d] + [])));
    RunCons(Next(s, a), b, [c] + ([d] + []));
    RunCons(Next(Next(s, a), b), c, [d] + []);
    RunCons(Next(Next(Next(s, a), b), c), d, []);
  }

  /** Call numbers are used once. */
  ghost predicate Numbered(s: System) {
    && (forall i :: i in s.readers ==> i < s.calls)
    && (forall i :: 0 <= i < |s.answers| ==> s.answers[i].call < s.calls)
  }

  lemma BeginAndLookUp(s: System, process: nat, host: string, fallback: Option<string>)
    requires s.calls !in s.readers
    ensures var s' := Next(Next(s, Begin(process, host, fallback)), LookUp(s.calls));
            match Hit(CacheOf(s, process), host, s.now)
            case Some(entry) => s' == s.(calls := s.calls + 1, answers := s.answers + [Return(s.calls, process, host, s.now, s.now, entry.ip)])
            case None => s' == s.(calls := s.calls + 1, readers := s.readers[s.calls := Reader(process, host, fallback, s.now, Missed)])
  {
    var r := Reader(process, host, fallback, s.now, Started);
    assert s.readers[s.calls := r] - {s.calls} == s.readers;
    assert s.readers[s.calls := r][s.calls := r.(stage := Missed)] == s.readers[s.calls := r.(stage := Missed)];
  }

  lemma QueryAndStore(s: System, reader: nat, r: Reader, readable: bool)
    requires reader !in s.readers && r.stage == Missed && r.started == s.now
    ensures var s' := Next(Next(s.(readers := s.readers[reader := r]), Query(reader, readable)), Store(reader));
            var ip := OrElse(Fetch(s.db, r.host, readable), r.fallback);
            && s'.answers == s.answers + [Return(reader, r.process, r.host, s.now, s.now, ip)] && s'.readers == s.readers && s'.db == s.db
            && s'.caches == s.caches[r.process := CacheOf(s, r.process)[r.host := Entry(ip, s.now)]]
  {
    var ip := OrElse(Fetch(s.db, r.host, readable), r.fallback);
    var readers := s.readers[reader := r];
    var s1 := Next(s.(readers := readers), Query(reader, readable));
    assert s1.readers == readers[reader := r.(stage := Fetched(ip))];
    assert s1.readers - {reader} == s.readers;
  }

  /** The state after the four steps of a call. */
  function CallRun(s: System, process: nat, host: string, fallback: Option<string>, readable: bool): System {
    var looked := Next(Next(s, Begin(process, host, fallback)), LookUp(s.calls));
    Next(Next(looked, Query(s.calls, readable)), Store(s.calls))
  }

  lemma CallHits(s: System, process: nat, host: string, fallback: Option<string>, readable: bool)
    requires s.calls !in s.readers && Hit(CacheOf(s, process), host, s.now).Some?
    ensures var ip := Hit(CacheOf(s, process), host, s.now).value.ip;
            CallRun(s, process, host, fallback, readable) == s.(calls := s.calls + 1, answers := s.answers + [Return(s.calls, process, host, s.now, s.now, ip)])
  {
    BeginAndLookUp(s, process, host, fallback);
  }

  lemma CallMisses(s: System, process: nat, host: string, fallback: Option<string>, readable: bool)
    requires s.calls !in s.readers && Hit(CacheOf(s, process), host, s.now).None?
    ensures var s', ip := CallRun(s, process, host, fallback, readable), OrElse(Fetch(s.db, host, readable), fallback);
            && s'.answers == s.answers + [Return(s.calls, process, host, s.now, s.now, ip)] && s'.readers == s.readers && s'.db == s.db
            && s'.caches == s.caches[process := CacheOf(s, process)[host := Entry(ip, s.now)]]
  {
    BeginAndLookUp(s, process, host, fallback);
    QueryAndStore(s.(calls := s.calls + 1), s.calls, Reader(process, host, fallback, s.now, Missed), readable);
  }

  /** The steps of a call, taken in a row, are the uninterrupted call. */
  lemma CallIsSteps(s: System, process: nat, host: string, fallback: Option<string>, readable: bool)
    requires Numbered(s)
    ensures var s' := Run(s, [Begin(process, host, fallback), LookUp(s.calls), Query(s.calls, readable), Store(s.calls)]);
            var call := Call(CacheOf(s, process), host, fallback, s.now, s.db, readable);
            && s'.answers == s.answers + [Return(s.calls, process, host, s.now, s.now, call.0)]
            && CacheOf(s', process) == call.1 && s'.db == s.db && s'.readers == s.readers
  {
    RunFour(s, Begin(process, host, fallback), LookUp(s.calls), Query(s.calls, readable), Store(s.calls));
    if Hit(CacheOf(s, process), host, s.now).Some? {
      CallHits(s, process, host, fallback, readable);
    } else {
      CallMisses(s, process, host, fallback, readable);
    }
  }

  /** A call that finds no usable entry reads what was last written. */
  lemma FreshReadSeesWrite(s: System, db: map<string, string>, process: nat, host: string, fallback: Option<string>)
    requires Numbered(s) && host in db && Hit(CacheOf(s, process), host, s.now).None?
    ensures var w := Next(s, Write(db));
            var s' := Run(w, [Begin(process, host, fallback), LookUp(w.calls), Query(w.calls, true), Store(w.calls)]);
            s'.answers == s.answers + [Return(s.calls, process, host, s.now, s.now, Some(db[host]))]
  {
    CallIsSteps(Next(s, Write(db)), process, host, fallback, true);
  }

  // ------------------------------------------------------------------ every value has a recent source

  /** At some instant in [from, to] the table held `ip` for the host, or it gave this process nothing and `ip` is
      what the reader fell back on. */
  predicate SourceAt(e: Event, process: nat, host: string, ip: Option<string>, from: int, to: int) {
    from <= e.now <= to
    && match e
       case Held(_, db) => host in db && ip == Some(db[host])
       case FellBack(_, p, h, v) => p == process && h == host && v == ip
  }

  ghost predicate Sourced(history: seq<Event>, process: nat, host: string, ip: Option<string>, from: int, to: int) {
    exists k :: 0 <= k < |history| && SourceAt(history[k], process, host, ip, from, to)
  }

  ghost predicate CachesSourced(s: System) {
    forall p, h :: p in s.caches && h in s.caches[p] ==>
      Sourced(s.history, p, h, s.caches[p][h].ip, s.caches[p][h].stamp, s.now)
  }

  ghost predicate ReadersSourced(s: System) {
    forall i :: i in s.readers ==>
      && s.readers[i].started <= s.now
      && (s.readers[i].stage.Fetched? ==>
            Sourced(s.history, s.readers[i].process, s.readers[i].host, s.readers[i].stage.ip, s.readers[i].started, s.now))
  }

  /** A value returned by a call that started at time t had its source in (t - 30, return]. */
  ghost predicate ReturnOk(history: seq<Event>, r: Return) {
    Sourced(history, r.process, r.host, r.ip, r.started - CACHE_TTL_S + 1, r.at)
  }

  ghost predicate ReturnsSourced(s: System) {
    forall i :: 0 <= i < |s.answers| ==> ReturnOk(s.history, s.answers[i])
  }

  ghost predicate Invariant(s: System) {
    Numbered(s) && CachesSourced(s) && ReadersSourced(s) && ReturnsSourced(s)
  }

  lemma SourcedLater(history: seq<Event>, history': seq<Event>, process: nat, host: string, ip: Option<string>, from: int, to: int, from': int, to': int)
    requires Sourced(history, process, host, ip, from, to) && history <= history' && from' <= from && to <= to'
    ensures Sourced(history', process, host, ip, from', to')
  {
    var k :| 0 <= k < |history| && SourceAt(history[k], process, host, ip, from, to);
    assert SourceAt(history'[k], process, host, ip, from', to');
  }

  /** Time and history only ever grow. */
  lemma HistoryKeeps(s: System, s': System)
    requires Invariant(s) && s.history <= s'.history && s.now <= s'.now
    ensures forall p, h :: p in s.caches && h in s.caches[p] ==>
              Sourced(s'.history, p, h, s.caches[p][h].ip, s.caches[p][h].stamp, s'.now)
    ensures forall i :: i in s.readers && s.readers[i].stage.Fetched? ==>
              Sourced(s'.history, s.readers[i].process, s.readers[i].host, s.readers[i].stage.ip, s.readers[i].started, s'.now)
    ensures forall i :: 0 <= i < |s.answers| ==> ReturnOk(s'.history, s.answers[i])
  {
    forall p, h | p in s.caches && h in s.caches[p]
      ensures Sourced(s'.history, p, h, s.caches[p][h].ip, s.caches[p][h].stamp, s'.now)
    {
      var e := s.caches[p][h];
      SourcedLater(s.history, s'.history, p, h, e.ip, e.stamp, s.now, e.stamp, s'.now);
    }
    forall i | i in s.readers && s.readers[i].stage.Fetched?
      ensures Sourced(s'.history, s.readers[i].process, s.readers[i].host, s.readers[i].stage.ip, s.readers[i].started, s'.now)
    {
      var r := s.readers[i];
      SourcedLater(s.history, s'.history, r.process, r.host, r.stage.ip, r.started, s.now, r.started, s'.now);
    }
    forall i | 0 <= i < |s.answers|
      ensures ReturnOk(s'.history, s.answers[i])
    {
      var r := s.answers[i];
      SourcedLater(s.history, s'.history, r.process, r.host, r.ip, r.started - CACHE_TTL_S + 1, r.at, r.started - CACHE_TTL_S + 1, r.at);
    }
  }

  lemma LookUpKeeps(s: System, reader: nat)
    requires Invariant(s) && reader in s.readers && s.readers[reader].stage.Started?
    ensures Invariant(DoLookUp(s, reader))
  {
    var r := s.readers[reader];
    var hit := Hit(CacheOf(s, r.process), r.host, r.started);
    if hit.Some? {
      SourcedLater(s.history, s.history, r.process, r.host, hit.value.ip, hit.value.stamp, s.now, r.started - CACHE_TTL_S + 1, s.now);
    }
  }

  lemma QueryKeeps(s: System, reader: nat, readable: bool)
    requires Invariant(s) && reader in s.readers && s.readers[reader].stage.Missed?
    ensures Invariant(DoQuery(s, reader, readable))
  {
    var r, s' := s.readers[reader], DoQuery(s, reader, readable);
    HistoryKeeps(s, s');
    assert SourceAt(s'.history[|s.history|], r.process, r.host, s'.readers[reader].stage.ip, r.started, s'.now);
  }

  lemma StoreKeeps(s: System, reader: nat)
    requires Invariant(s) && reader in s.readers && s.readers[reader].stage.Fetched?
    ensures Invariant(DoStore(s, reader))
  {
    var r := s.readers[reader];
    SourcedLater(s.history, s.history, r.process, r.host, r.stage.ip, r.started, s.now, r.started - CACHE_TTL_S + 1, s.now);
  }

  lemma StepKeeps(s: System, step: Step)
    requires Invariant(s)
    ensures Invariant(Next(s, step))
  {
    HistoryKeeps(s, Next(s, step));
    match step
    case LookUp(reader) => if reader in s.readers && s.readers[reader].stage.Started? { LookUpKeeps(s, reader); }
    case Query(reader, readable) => if reader in s.readers && s.readers[reader].stage.Missed? { QueryKeeps(s, reader, readable); }
    case Store(reader) => if reader in s.readers && s.readers[reader].stage.Fetched? { StoreKeeps(s, reader); }
    case _ =>
  }

  lemma {:induction false} RunKeeps(s: System, steps: seq<Step>)
    requires Invariant(s)
    ensures Invariant(Run(s, steps))
    decreases |steps|
  {
    if steps != [] {
      StepKeeps(s, steps[0]);
      RunKeeps(Next(s, steps[0]), steps[1..]);
    }
  }

  ghost predicate Initial(s: System) {
    s.caches == map[] && s.readers == map[] && s.history == [Held(s.now, s.db)] && s.answers == []
  }

  /** Staleness is bounded: under any interleaving of readers and writers in any number of processes, a value returned
      by a call that started at time t was in the table, or was the fallback of a reader the table gave nothing, at
      some instant after t - 30 and no later than the return. */
  lemma BoundedStaleness(s: System, steps: seq<Step>, i: nat)
    requires Initial(s) && i < |Run(s, steps).answers|
    ensures var s', r := Run(s, steps), Run(s, steps).answers[i];
            exists k :: 0 <= k < |s'.history| && r.started - 30 < s'.history[k].now <= r.at
                        && SourceAt(s'.history[k], r.process, r.host, r.ip, s'.history[k].now, s'.history[k].now)
  {
    RunKeeps(s, steps);
    var s' := Run(s, steps);
    var r := s'.answers[i];
    assert ReturnOk(s'.history, r);
    var k :| 0 <= k < |s'.history| && SourceAt(s'.history[k], r.process, r.host, r.ip, r.started - CACHE_TTL_S + 1, r.at);
  }

  // ------------------------------------------------------------------ reading your own write

  /** A reader of the process that has another value than `ip`, yet to be stored, and began in the 30 seconds before
      `now` or later. */
  ghost predicate Racing(s: System, reader: nat, process: nat, host: string, ip: string, now: int) {
    && reader in s.readers && s.readers[reader].process == process && s.readers[reader].host == host
    && s.readers[reader].stage.Fetched? && s.readers[reader].stage.ip != Some(ip) && now - s.readers[reader].started < CACHE_TTL_S
  }

  /** The step neither changes the table for the host nor fails to read it. */
  ghost predicate Quiet(s: System, step: Step, process: nat, host: string, ip: string) {
    match step
    case Write(db) => host in db && db[host] == ip
    case Query(reader, readable) =>
      reader in s.readers && s.readers[reader].process == process && s.readers[reader].host == host ==> readable
    case _ => true
  }

  ghost predicate QuietRun(s: System, steps: seq<Step>, process: nat, host: string, ip: string)
    decreases |steps|
  {
    steps == [] || (Quiet(s, steps[0], process, host, ip) && QuietRun(Next(s, steps[0]), steps[1..], process, host, ip))
  }

  /** Every call from number `first` on that has returned gave `ip`. */
  ghost predicate AllRead(answers: seq<Return>, first: nat, process: nat, host: string, ip: string) {
    forall i :: 0 <= i < |answers| && answers[i].call >= first && answers[i].process == process && answers[i].host == host ==>
      answers[i].ip == Some(ip)
  }

  /** Since time `since`, when call `first` was the next: the table holds `ip`, and whatever else the process has or
      will store for the host is too old for any call from `first` on. */
  ghost predicate Settled(s: System, process: nat, host: string, ip: string, first: nat, since: int) {
    && host in s.db && s.db[host] == ip && s.now >= since && s.calls >= first
    && (host in CacheOf(s, process) ==> CacheOf(s, process)[host].ip == Some(ip) || CacheOf(s, process)[host].stamp <= since - CACHE_TTL_S)
    && (forall i :: !Racing(s, i, process, host, ip, since))
    && (forall i :: i in s.readers && i >= first ==> s.readers[i].started >= since)
    && AllRead(s.answers, first, process, host, ip)
  }

  lemma LookUpSettled(s: System, reader: nat, process: nat, host: string, ip: string, first: nat, since: int)
    requires Settled(s, process, host, ip, first, since) && reader in s.readers && s.readers[reader].stage.Started?
    ensures Settled(DoLookUp(s, reader), process, host, ip, first, since)
  {
    var s' := DoLookUp(s, reader);
    forall i
      ensures !Racing(s', i, process, host, ip, since)
    {
      assert !Racing(s, i, process, host, ip, since);
    }
  }

  lemma QuerySettled(s: System, reader: nat, readable: bool, process: nat, host: string, ip: string, first: nat, since: int)
    requires Settled(s, process, host, ip, first, since) && reader in s.readers && s.readers[reader].stage.Missed?
    requires Quiet(s, Query(reader, readable), process, host, ip)
    ensures Settled(DoQuery(s, reader, readable), process, host, ip, first, since)
  {
    var s' := DoQuery(s, reader, readable);
    forall i
      ensures !Racing(s', i, process, host, ip, since)
    {
      assert !Racing(s, i, process, host, ip, since);
    }
  }

  lemma StoreSettled(s: System, reader: nat, process: nat, host: string, ip: string, first: nat, since: int)
    requires Settled(s, process, host, ip, first, since) && reader in s.readers && s.readers[reader].stage.Fetched?
    ensures Settled(DoStore(s, reader), process, host, ip, first, since)
  {
    var s' := DoStore(s, reader);
    assert !Racing(s, reader, process, host, ip, since);
    forall i
      ensures !Racing(s', i, process, host, ip, since)
    {
      assert !Racing(s, i, process, host, ip, since);
    }
  }

  lemma OtherSettled(s: System, step: Step, process: nat, host: string, ip: string, first: nat, since: int)
    requires Settled(s, process, host, ip, first, since) && Quiet(s, step, process, host, ip)
    requires !step.LookUp? && !step.Query? && !step.Store?
    ensures Settled(Next(s, step), process, host, ip, first, since)
  {
    var s' := Next(s, step);
    forall i
      ensures !Racing(s', i, process, host, ip, since)
    {
      assert !Racing(s, i, process, host, ip, since);
    }
  }

  lemma StepSettled(s: System, step: Step, process: nat, host: string, ip: string, first: nat, since: int)
    requires Settled(s, process, host, ip, first, since) && Quiet(s, step, process, host, ip)
    ensures Settled(Next(s, step), process, host, ip, first, since)
  {
    if step.LookUp? {
      if step.reader in s.readers && s.readers[step.reader].stage.Started? {
        LookUpSettled(s, step.reader, process, host, ip, first, since);
      }
    } else if step.Query? {
      if step.reader in s.readers && s.readers[step.reader].stage.Missed? {
        QuerySettled(s, step.reader, step.readable, process, host, ip, first, since);
      }
    } else if step.Store? {
      if step.reader in s.readers && s.readers[step.reader].stage.Fetched? {
        StoreSettled(s, step.reader, process, host, ip, first, since);
      }
    } else {
      OtherSettled(s, step, process, host, ip, first, since);
    }
  }

  lemma {:induction false} RunSettled(s: System, steps: seq<Step>, process: nat, host: string, ip: string, first: nat, since: int)
    requires Settled(s, process, host, ip, first, since) && QuietRun(s, steps, process, host, ip)
    ensures AllRead(Run(s, steps).answers, first, process, host, ip)
    decreases |steps|
  {
    if steps != [] {
      StepSettled(s, steps[0], process, host, ip, first, since);
      RunSettled(Next(s, steps[0]), steps[1..], process, host, ip, first, since);
    }
  }

  /** Dropping the cached entry settles the process when no recent reader races. */
  lemma PopSettles(s: System, process: nat, host: string, ip: string)
    requires Numbered(s) && host in s.db && s.db[host] == ip
    requires forall i :: !Racing(s, i, process, host, ip, s.now)
    ensures Settled(Next(s, Pop(process, host)), process, host, ip, s.calls, s.now)
  {
    var s' := Next(s, Pop(process, host));
    assert CacheOf(s', process) == CacheOf(s, process) - {host} && s'.readers == s.readers;
    forall i
      ensures !Racing(s', i, process, host, ip, s.now)
    {
      assert !Racing(s, i, process, host, ip, s.now);
    }
  }

  /** A racing reader that began less than 30 seconds ago stores what it had, and a call begun after set_active was
      done returns that. */
  lemma RacingReaderSpoils(s: System, reader: nat, process: nat, host: string, ip: string)
    requires Numbered(s) && Racing(s, reader, process, host, ip, s.now)
    ensures var after := Next(s, Pop(process, host));
            var steps := [Begin(process, host, Some(ip)), Store(reader), LookUp(s.calls)];
            QuietRun(after, steps, process, host, ip) && !AllRead(Run(after, steps).answers, s.calls, process, host, ip)
  {
    var after := Next(s, Pop(process, host));
    var steps := [Begin(process, host, Some(ip)), Store(reader), LookUp(s.calls)];
    var s1 := Next(after, steps[0]);
    var s2 := Next(s1, steps[1]);
    var s3 := Next(s2, steps[2]);
    RunFour(s, Pop(process, host), steps[0], steps[1], steps[2]);
    RunCons(s, Pop(process, host), steps);
    assert [Pop(process, host)] + steps == [Pop(process, host), steps[0], steps[1], steps[2]];
    assert steps[1..][1..] == steps[2..] && steps[2..][1..] == [];
    assert QuietRun(s2, steps[2..], process, host, ip) && QuietRun(s1, steps[1..], process, host, ip);
    assert s3.answers[|s3.answers| - 1].call == s.calls;
  }

  /** Reading one's own write. After set_active has committed and dropped the cached entry, every call begun from then
      on returns the new value, in every run in which the table keeps it and can be read, exactly if no reader of that
      process and host that has another value began within the last 30 seconds. */
  lemma ReadsFollowWrite(s: System, process: nat, host: string, ip: string)
    requires Numbered(s) && host in s.db && s.db[host] == ip
    ensures var after := Next(s, Pop(process, host));
            (forall steps :: QuietRun(after, steps, process, host, ip) ==> AllRead(Run(after, steps).answers, s.calls, process, host, ip))
            <==> forall i :: !Racing(s, i, process, host, ip, s.now)
  {
    var after := Next(s, Pop(process, host));
    if forall i :: !Racing(s, i, process, host, ip, s.now) {
      PopSettles(s, process, host, ip);
      forall steps | QuietRun(after, steps, process, host, ip)
        ensures AllRead(Run(after, steps).answers, s.calls, process, host, ip)
      {
        RunSettled(after, steps, process, host, ip, s.calls, s.now);
      }
    } else {
      var reader :| Racing(s, reader, process, host, ip, s.now);
      RacingReaderSpoils(s, reader, process, host, ip);
    }
  }
}
