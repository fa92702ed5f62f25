/** Whole runs of the telemetry tables: ingest, incremental rollup, prune and hourly retention interleaved. */
module RetentionRuns {
  import opened Wrappers
  import opened Sequences
  import opened Retention

  datatype Event =
    | Ingest(at: int, host: Option<int>, gpu: int, util: Option<real>, mem: Option<real>, power: Option<real>)
    | RollupRun(at: int)
    | PruneRun(at: int)
    | MaintenanceRun(at: int)
    | BackfillRun(at: int)
    | Configure(at: int, newRawDays: Option<int>, newHourlyDays: Option<int>, newBackup: bool)

  /** The tables, and what the proof remembers: every sample `ever` ingested, the largest raw (`horizon`) and
      hourly (`kept`) cutoff so far, and the time of the last rollup. */
  datatype History = History(raw: seq<Sample>, hourly: map<Key, Bucket>,
                             rawDays: Option<int>, hourlyDays: Option<int>, backup: bool,
                             ever: seq<Sample>, horizon: int, kept: int, clock: int, rolled: int)

  function Max(a: int, b: int): int {
    if a < b then b else a
  }

  ghost function Apply(h: History, e: Event): History {
    match e
    case Ingest(at, host, gpu, util, mem, power) =>
      var s := Sample(at, host, gpu, util, mem, power);
      h.(raw := h.raw + [s], ever := h.ever + [s], clock := at)
    case RollupRun(at) =>
      h.(hourly := IncrementalRollup(h.hourly, h.raw, at), rolled := at, clock := at)
    case PruneRun(at) =>
      var cutoff := at - h.rawDays.GetOr(90) * DAY;
      if GatesPass(true, h.hourly, h.raw, h.backup)
      then h.(raw := Since(h.raw, cutoff), horizon := Max(h.horizon, cutoff), clock := at)
      else h.(clock := at)
    case MaintenanceRun(at) =>
      var cutoff := at - h.hourlyDays.GetOr(730) * DAY;
      h.(hourly := DropBuckets(IncrementalRollup(h.hourly, h.raw, at), cutoff),
         kept := Max(h.kept, cutoff), rolled := at, clock := at)
    case BackfillRun(at) =>
      h.(hourly := Backfill(h.hourly, h.raw), clock := at)
    case Configure(at, rawDays, hourlyDays, backup) =>
      h.(rawDays := rawDays, hourlyDays := hourlyDays, backup := backup, clock := at)
  }

  /** The store and the history hold the same tables and settings. */
  ghost predicate Matches(store: GpuStore, h: History)
    reads store
  {
    && store.raw == h.raw && store.hourly == h.hourly && store.hourlyTableExists
    && store.rawDays == h.rawDays && store.hourlyDays == h.hourlyDays && store.backupVerified == h.backup
  }

  method Prune(store: GpuStore, ghost h: History, at: int)
    requires Matches(store, h)
    modifies store
    ensures Matches(store, Apply(h, PruneRun(at)))
  {
    var _ := store.CmdPrune(at);
  }

  method Maintain(store: GpuStore, ghost h: History, at: int)
    requires Matches(store, h)
    modifies store
    ensures Matches(store, Apply(h, MaintenanceRun(at)))
  {
    Maintained(h, at);
    store.CmdMaintenance(at);
  }

  lemma Maintained(h: History, at: int)
    ensures var after := Apply(h, MaintenanceRun(at));
            && after.raw == h.raw && after.rawDays == h.rawDays && after.hourlyDays == h.hourlyDays && after.backup == h.backup
            && after.hourly == DropBuckets(IncrementalRollup(h.hourly, h.raw, at), at - h.hourlyDays.GetOr(730) * DAY)
  {
  }

  method Settle(store: GpuStore, ghost h: History, e: Event)
    requires Matches(store, h) && (e.RollupRun? || e.BackfillRun?)
    modifies store
    ensures Matches(store, Apply(h, e))
  {
    if e.RollupRun? {
      store.CmdRollup(e.at);
    } else {
      store.CmdBackfill();
    }
  }

  /** What an event of a run stands for: a row that comes in, one of the commands, or a change of the settings. */
  method Perform(store: GpuStore, ghost h: History, e: Event)
    requires Matches(store, h)
    modifies store
    ensures Matches(store, Apply(h, e))
  {
    if e.Ingest? {
      store.raw := store.raw + [Sample(e.at, e.host, e.gpu, e.util, e.mem, e.power)];
    } else if e.PruneRun? {
      Prune(store, h, e.at);
    } else if e.MaintenanceRun? {
      Maintain(store, h, e.at);
    } else if e.Configure? {
      store.rawDays, store.hourlyDays, store.backupVerified := e.newRawDays, e.newHourlyDays, e.newBackup;
    } else {
      Settle(store, h, e);
    }
  }

  ghost function Run(h: History, es: seq<Event>): History
    decreases |es|
  {
    if es == [] then h else Run(Apply(h, es[0]), es[1..])
  }

  /** A backfill would aggregate the sample: it is still in the raw table, and it is not the newest one in a run that
      stops short of it. */
  predicate Covered(h: History, s: Sample) {
    && h.raw != []
    && h.horizon <= s.ts
    && (s.ts < MaxTs(h.raw) || !MissesNewest(BackfillStart(h.hourly, h.raw), MaxTs(h.raw)))
  }

  /** A backfill would aggregate some samples of the hour and not others. */
  ghost predicate Split(h: History, k: Key) {
    exists s, t :: s in Group(h.ever, k) && t in Group(h.ever, k) && Covered(h, s) && !Covered(h, t)
  }

  /** Time moves forward, rollups are at most three hours apart, raw retention is at least one day, and a backfill is
      not run while it would split an hour that is already rolled up. */
  ghost predicate Admissible(h: History, e: Event) {
    && h.clock <= e.at
    && (e.RollupRun? || e.MaintenanceRun? ==> e.at <= h.rolled + 3 * HOUR)
    && (e.PruneRun? ==> h.rawDays.GetOr(90) >= 1)
    && (e.BackfillRun? ==> forall k: Key :: k.hour + HOUR <= h.rolled ==> !Split(h, k))
  }

  ghost predicate AdmissibleRun(h: History, es: seq<Event>)
    decreases |es|
  {
    es == [] || (Admissible(h, es[0]) && AdmissibleRun(Apply(h, es[0]), es[1..]))
  }

  /** The row of `k`, if there is one, aggregates every sample ever ingested for `k`, and it is there unless
      hourly retention has dropped it. */
  ghost predicate Exact(h: History, k: Key) {
    && (k in h.hourly ==> Group(h.ever, k) != [] && h.hourly[k] == Summarise(Group(h.ever, k)))
    && (Group(h.ever, k) != [] && h.kept <= k.hour ==> k in h.hourly)
  }

  ghost predicate Invariant(h: History) {
    && h.rolled <= h.clock
    && h.horizon <= h.clock - DAY
    && h.raw == Since(h.ever, h.horizon)
    && (forall s :: s in h.ever ==> s.ts <= h.clock)
    && (forall k :: k in h.hourly ==> Group(h.ever, k) != [])
    && (forall k: Key {:trigger Exact(h, k)} :: k.hour + HOUR <= h.rolled ==> Exact(h, k))
  }

  // ------------------------------------------------------------------ groups across the two histories

  /** No raw row of an hour at or after the horizon has been deleted. */
  lemma SurvivingGroup(ever: seq<Sample>, horizon: int, k: Key)
    requires horizon <= k.hour
    ensures Group(Since(ever, horizon), k) == Group(ever, k)
  {
    FilterFilter(ever, (s: Sample) => horizon <= s.ts, s => InGroup(s, k), s => InGroup(s, k));
  }

  lemma SinceSince(s: seq<Sample>, a: int, b: int)
    ensures Since(Since(s, a), b) == Since(s, Max(a, b))
  {
    FilterFilter(s, (x: Sample) => a <= x.ts, (x: Sample) => b <= x.ts, (x: Sample) => Max(a, b) <= x.ts);
  }

  lemma AppendOne(ever: seq<Sample>, s: Sample, horizon: int)
    requires horizon <= s.ts
    ensures Since(ever + [s], horizon) == Since(ever, horizon) + [s]
    ensures forall k :: Group(ever + [s], k) == Group(ever, k) + (if InGroup(s, k) then [s] else [])
  {
    FilterConcat(ever, [s], (x: Sample) => horizon <= x.ts);
    forall k
      ensures Group(ever + [s], k) == Group(ever, k) + (if InGroup(s, k) then [s] else [])
    {
      FilterConcat(ever, [s], x => InGroup(x, k));
    }
  }

  lemma GroupsAreAligned(ever: seq<Sample>, k: Key)
    requires Group(ever, k) != []
    ensures k.hour % HOUR == 0
  {
    var s := Group(ever, k)[0];
    assert s in Group(ever, k);
  }

  lemma EmptyGroup(all: seq<Sample>, some: seq<Sample>, k: Key)
    requires Group(all, k) == []
    requires forall s :: s in some ==> s in all
    ensures Group(some, k) == []
  {
    forall s | s in some
      ensures !InGroup(s, k)
    {
      assert InGroup(s, k) ==> s in Group(all, k);
    }
    FilterNone(some, s => InGroup(s, k));
  }

  // ------------------------------------------------------------------ each event keeps the invariant

  lemma IngestKeeps(h: History, e: Event)
    requires Invariant(h) && Admissible(h, e) && e.Ingest?
    ensures Invariant(Apply(h, e))
  {
    var h' := Apply(h, e);
    var s := Sample(e.at, e.host, e.gpu, e.util, e.mem, e.power);
    AppendOne(h.ever, s, h.horizon);
    forall k: Key | k.hour + HOUR <= h'.rolled
      ensures Exact(h', k)
    {
      assert Exact(h, k);
      assert !InGroup(s, k);
      assert Group(h'.ever, k) == Group(h.ever, k);
    }
    forall k | k in h'.hourly
      ensures Group(h'.ever, k) != []
    {
      assert Group(h.ever, k) != [];
    }
  }

  lemma AlignedApart(a: int, b: int)
    requires a % HOUR == 0 && b % HOUR == 0 && a < b
    ensures a + HOUR <= b
  {
  }

  /** The two ways a row comes out of a rollup: rebuilt from every sample of its group, or left as it was. */
  lemma RolledRow(hourly: map<Key, Bucket>, ever: seq<Sample>, horizon: int, since: int, until: int, k: Key)
    requires forall s :: s in ever ==> s.ts < until
    requires since % HOUR == 0 && horizon <= since
    ensures var r := Rollup(hourly, Since(ever, horizon), since, until);
            if Group(ever, k) != [] && since <= k.hour
            then k in r && r[k] == Summarise(Group(ever, k))
            else (k in r <==> k in hourly) && (k in r ==> r[k] == hourly[k])
  {
    var raw := Since(ever, horizon);
    RollupAt(hourly, raw, since, until, k);
    if Group(ever, k) == [] {
      EmptyGroup(ever, Between(raw, since, until), k);
    } else if since <= k.hour {
      SurvivingGroup(ever, horizon, k);
      WindowGroup(raw, since, until, k);
    } else {
      GroupsAreAligned(ever, k);
      AlignedApart(k.hour, since);
      WindowGroup(raw, since, until, k);
    }
  }

  lemma RolledExact(h: History, at: int, since: int, k: Key)
    requires Invariant(h) && h.clock <= at <= h.rolled + 3 * HOUR
    requires since % HOUR == 0 && since <= at - 3 * HOUR && h.horizon <= since
    ensures var h' := h.(hourly := Rollup(h.hourly, h.raw, since, at + 300 * SECOND), rolled := at, clock := at);
            && (k in h'.hourly ==> Group(h'.ever, k) != [])
            && (k.hour + HOUR <= at ==> Exact(h', k))
  {
    RolledRow(h.hourly, h.ever, h.horizon, since, at + 300 * SECOND, k);
    if Group(h.ever, k) != [] {
      GroupsAreAligned(h.ever, k);
      if k.hour < since {
        AlignedApart(k.hour, since);
        assert Exact(h, k);
      }
    }
  }

  /** A rollup within three hours of the last one leaves every hour closed by now exact. */
  lemma RollupKeeps(h: History, at: int)
    requires Invariant(h) && h.clock <= at <= h.rolled + 3 * HOUR
    ensures Invariant(Apply(h, RollupRun(at)))
  {
    var h' := Apply(h, RollupRun(at));
    forall k: Key
      ensures k in h'.hourly ==> Group(h'.ever, k) != []
      ensures k.hour + HOUR <= at ==> Exact(h', k)
    {
      RolledExact(h, at, FloorHour(at - 3 * HOUR), k);
    }
  }

  /** What the invariant says about the hourly table does not depend on the raw one. */
  lemma SameHourly(h: History, h': History)
    requires Invariant(h)
    requires h'.hourly == h.hourly && h'.ever == h.ever && h'.kept == h.kept && h'.rolled == h.rolled
    requires h.clock <= h'.clock && h'.horizon <= h'.clock - DAY && h'.raw == Since(h'.ever, h'.horizon)
    ensures Invariant(h')
  {
    forall k: Key | k.hour + HOUR <= h'.rolled
      ensures Exact(h', k)
    {
      assert Exact(h, k);
    }
  }

  lemma PruneKeeps(h: History, e: Event)
    requires Invariant(h) && Admissible(h, e) && e.PruneRun?
    ensures Invariant(Apply(h, e))
  {
    var cutoff := e.at - h.rawDays.GetOr(90) * DAY;
    SinceSince(h.ever, h.horizon, cutoff);
    var pruned := h.(raw := Since(h.raw, cutoff), horizon := Max(h.horizon, cutoff), clock := e.at);
    SameHourly(h, pruned);
    SameHourly(h, h.(clock := e.at));
    assert Apply(h, e) == pruned || Apply(h, e) == h.(clock := e.at);
  }

  lemma DropKeeps(m: History, cutoff: int)
    requires Invariant(m)
    ensures Invariant(m.(hourly := DropBuckets(m.hourly, cutoff), kept := Max(m.kept, cutoff)))
  {
    var h' := m.(hourly := DropBuckets(m.hourly, cutoff), kept := Max(m.kept, cutoff));
    forall k: Key | k.hour + HOUR <= h'.rolled
      ensures Exact(h', k)
    {
      assert Exact(m, k);
    }
  }

  lemma MaintenanceKeeps(h: History, e: Event)
    requires Invariant(h) && Admissible(h, e) && e.MaintenanceRun?
    ensures Invariant(Apply(h, e))
  {
    RollupKeeps(h, e.at);
    DropKeeps(Apply(h, RollupRun(e.at)), e.at - h.hourlyDays.GetOr(730) * DAY);
  }

  /** The window of a backfill holds exactly the samples it covers. */
  lemma CoveredWindow(h: History)
    requires h.raw == Since(h.ever, h.horizon) && h.raw != []
    ensures var start := BackfillStart(h.hourly, h.raw);
            Between(h.raw, start, BackfillEnd(start, MaxTs(h.raw))) == Filter(h.ever, (s: Sample) => Covered(h, s))
  {
    var hi, start := MaxTs(h.raw), BackfillStart(h.hourly, h.raw);
    var end := BackfillEnd(start, hi);
    BackfillCoversNewest(start, hi);
    var c := (s: Sample) => Covered(h, s);
    forall s | s in h.ever
      ensures c(s) <==> h.horizon <= s.ts && start <= s.ts < end
    {
      assert h.horizon <= s.ts ==> s in h.raw;
    }
    FilterFilter(h.ever, (s: Sample) => h.horizon <= s.ts, (s: Sample) => start <= s.ts < end, c);
  }

  /** A part of a group that a filter leaves: nothing, all, or properly less. */
  lemma FilteredGroup(ever: seq<Sample>, c: Sample -> bool, k: Key)
    ensures var part, whole := Group(Filter(ever, c), k), Group(ever, k);
            && (part == [] <==> forall s :: s in whole ==> !c(s))
            && (|part| == |whole| <==> forall s :: s in whole ==> c(s))
            && (|part| == |whole| ==> part == whole)
  {
    var q, both := s => InGroup(s, k), (s: Sample) => c(s) && InGroup(s, k);
    FilterFilter(ever, c, q, both);
    FilterFilter(ever, q, c, both);
    var whole := Group(ever, k);
    assert Group(Filter(ever, c), k) == Filter(whole, c);
    FilterAll(whole, c);
    if Filter(whole, c) != [] {
      assert Filter(whole, c)[0] in Filter(whole, c);
    }
  }

  /** What a backfill finds of an hour: the samples it covers, and so all of them or a proper part. */
  lemma BackfilledGroup(h: History, k: Key)
    requires h.raw == Since(h.ever, h.horizon) && h.raw != []
    ensures var start := BackfillStart(h.hourly, h.raw);
            var part := Group(Between(h.raw, start, BackfillEnd(start, MaxTs(h.raw))), k);
            var whole := Group(h.ever, k);
            && (part == [] <==> forall s :: s in whole ==> !Covered(h, s))
            && (|part| == |whole| <==> forall s :: s in whole ==> Covered(h, s))
            && (|part| == |whole| ==> part == whole)
  {
    CoveredWindow(h);
    FilteredGroup(h.ever, (s: Sample) => Covered(h, s), k);
  }

  /** A backfill, row by row. It writes the row of an hour iff it covers one of its samples, and what it writes is the
      aggregate of all samples ever ingested iff it covers them all; any other row it leaves as it was. */
  lemma BackfilledRow(h: History, k: Key)
    requires h.raw == Since(h.ever, h.horizon)
    ensures var hourly, whole := Backfill(h.hourly, h.raw), Group(h.ever, k);
            if exists s :: s in whole && Covered(h, s)
            then k in hourly && (hourly[k] == Summarise(whole) <==> !Split(h, k))
            else (k in hourly <==> k in h.hourly) && (k in hourly ==> hourly[k] == h.hourly[k])
  {
    if h.raw != [] {
      var start := BackfillStart(h.hourly, h.raw);
      var end := BackfillEnd(start, MaxTs(h.raw));
      BackfilledGroup(h, k);
      RollupAt(h.hourly, h.raw, start, end, k);
      var part, whole := Group(Between(h.raw, start, end), k), Group(h.ever, k);
      assert part != [] && |part| != |whole| ==> Summarise(part).count != Summarise(whole).count;
    }
  }

  /** The row of `k` is the aggregate of every sample ever ingested for it, and absent if there is none. */
  ghost predicate Right(hourly: map<Key, Bucket>, ever: seq<Sample>, k: Key) {
    && (k in hourly <==> Group(ever, k) != [])
    && (k in hourly ==> hourly[k] == Summarise(Group(ever, k)))
  }

  /** After a backfill, on any tables, a row is right exactly if its hour was not split, or, where the backfill found
      nothing of it, if it was right before. */
  lemma BackfillExactly(h: History, k: Key)
    requires h.raw == Since(h.ever, h.horizon)
    ensures Right(Backfill(h.hourly, h.raw), h.ever, k) <==>
              if exists s :: s in Group(h.ever, k) && Covered(h, s) then !Split(h, k) else Right(h.hourly, h.ever, k)
  {
    BackfilledRow(h, k);
  }

  lemma BackfillKeepsRow(h: History, at: int, k: Key)
    requires Invariant(h)
    ensures var h' := h.(hourly := Backfill(h.hourly, h.raw), clock := at);
            && (k in h'.hourly ==> Group(h'.ever, k) != [])
            && (k.hour + HOUR <= h.rolled ==> (Exact(h', k) <==> !Split(h, k)))
  {
    BackfilledRow(h, k);
    assert k.hour + HOUR <= h.rolled ==> Exact(h, k);
    if s :| s in Group(h.ever, k) && Covered(h, s) {
      assert Group(h.ever, k) != [];
    } else {
      assert !Split(h, k);
    }
  }

  /** In a run, a backfill keeps what the run has established exactly when it splits no hour rolled up so far. */
  lemma BackfillKeepsExactly(h: History, at: int)
    requires Invariant(h) && h.clock <= at
    ensures Invariant(Apply(h, BackfillRun(at))) <==> forall k: Key :: k.hour + HOUR <= h.rolled ==> !Split(h, k)
  {
    var h' := h.(hourly := Backfill(h.hourly, h.raw), clock := at);
    assert Apply(h, BackfillRun(at)) == h';
    forall k: Key
      ensures k in h'.hourly ==> Group(h'.ever, k) != []
      ensures k.hour + HOUR <= h.rolled ==> (Exact(h', k) <==> !Split(h, k))
    {
      BackfillKeepsRow(h, at, k);
    }
    if Invariant(h') {
      forall k: Key | k.hour + HOUR <= h.rolled
        ensures !Split(h, k)
      {
        assert Exact(h', k);
      }
    }
  }

  lemma BackfillKeeps(h: History, at: int)
    requires Invariant(h) && Admissible(h, BackfillRun(at))
    ensures Invariant(Apply(h, BackfillRun(at)))
  {
    BackfillKeepsExactly(h, at);
  }

  lemma {:induction false} RunKeeps(h: History, es: seq<Event>)
    requires Invariant(h) && AdmissibleRun(h, es)
    ensures Invariant(Run(h, es))
    decreases |es|
  {
    if es != [] {
      match es[0] {
        case Ingest(_, _, _, _, _, _) => IngestKeeps(h, es[0]);
        case RollupRun(at) => RollupKeeps(h, at);
        case PruneRun(_) => PruneKeeps(h, es[0]);
        case MaintenanceRun(_) => MaintenanceKeeps(h, es[0]);
        case BackfillRun(at) => BackfillKeeps(h, at);
        case Configure(_, _, _, _) => SameHourly(h, Apply(h, es[0]));
      }
      RunKeeps(Apply(h, es[0]), es[1..]);
    }
  }

  // ------------------------------------------------------------------ starting with a backfill

  /** Before the first backfill: nothing has been pruned, and every hourly row belongs to some raw sample. */
  ghost predicate Fresh(h: History) {
    && h.raw == h.ever
    && h.horizon <= h.clock - DAY
    && (forall s :: s in h.ever ==> h.horizon <= s.ts <= h.clock && h.kept <= FloorHour(s.ts))
    && (forall k :: k in h.hourly ==> Group(h.ever, k) != [])
  }

  /** The first backfill makes every row it covers exact. It settles every hour closed by now; when its end points leave the
      newest sample out, only the hours before that sample's. */
  ghost function AfterBackfill(h: History): History {
    var hourly := Backfill(h.hourly, h.raw);
    var settled := if h.raw == [] || !MissesNewest(BackfillStart(h.hourly, h.raw), MaxTs(h.raw))
                   then h.clock else FloorHour(MaxTs(h.raw));
    h.(hourly := hourly, rolled := settled)
  }

  lemma BackfillSettles(h: History)
    requires Fresh(h)
    ensures Invariant(AfterBackfill(h))
    ensures forall k: Key :: (forall s :: s in Group(h.ever, k) ==> Covered(h, s)) && Group(h.ever, k) != [] ==> Exact(AfterBackfill(h), k)
  {
    var h' := AfterBackfill(h);
    FilterAll(h.ever, (s: Sample) => h.horizon <= s.ts);
    if h.raw == [] {
      assert h.hourly == map[];
      return;
    }
    CoveredRowsExact(h);
    var hi, start := MaxTs(h.raw), BackfillStart(h.hourly, h.raw);
    var end := BackfillEnd(start, hi);
    BackfillCoversNewest(start, hi);
    forall k: Key
      ensures k in h'.hourly ==> Group(h'.ever, k) != []
      ensures k.hour + HOUR <= h'.rolled ==> Exact(h', k)
    {
      RollupAt(h.hourly, h.raw, start, end, k);
      if Group(h.ever, k) == [] {
        EmptyGroup(h.ever, Between(h.raw, start, end), k);
      }
      if k.hour + HOUR <= h'.rolled {
        BackfillGroup(h.raw, start, end, k);
      }
    }
  }

  lemma CoveredRowsExact(h: History)
    requires h.raw == Since(h.ever, h.horizon)
    ensures forall k: Key :: (forall s :: s in Group(h.ever, k) ==> Covered(h, s)) && Group(h.ever, k) != [] ==> Exact(AfterBackfill(h), k)
  {
    forall k: Key | (forall s :: s in Group(h.ever, k) ==> Covered(h, s)) && Group(h.ever, k) != []
      ensures Exact(AfterBackfill(h), k)
    {
      assert Group(h.ever, k)[0] in Group(h.ever, k);
      BackfilledRow(h, k);
    }
  }

  lemma BackfillGroup(raw: seq<Sample>, start: int, end: int, k: Key)
    requires forall s :: s in raw ==> start <= s.ts
    requires (forall s :: s in raw ==> s.ts < end) || k.hour + HOUR <= end
    ensures Group(Between(raw, start, end), k) == Group(raw, k)
  {
    FilterFilter(raw, (s: Sample) => start <= s.ts < end, s => InGroup(s, k), s => InGroup(s, k));
  }

  /** The main result: in every admissible run that starts with a backfill, the row of every hour that was rolled
      up after it closed is the aggregate of all samples ever ingested for it, pruned or not. */
  lemma RollupsStayExact(h: History, es: seq<Event>, k: Key)
    requires Fresh(h) && AdmissibleRun(AfterBackfill(h), es)
    requires k.hour + HOUR <= Run(AfterBackfill(h), es).rolled
    ensures Exact(Run(AfterBackfill(h), es), k)
  {
    BackfillSettles(h);
    RunKeeps(AfterBackfill(h), es);
  }

  /** Samples without a host never reach the hourly table. */
  lemma NullHostsAreExcluded(samples: seq<Sample>, k: Key, s: Sample)
    requires s.host.None?
    ensures s !in Group(samples, k)
    ensures KeysOf(samples + [s]) == KeysOf(samples)
  {
    assert forall x :: x in samples + [s] && x.host.Some? <==> x in samples && x.host.Some?;
  }

  // ------------------------------------------------------------------ three hours is exactly the bound

  /** A rollup at `t` aggregates the whole of a closed hour exactly when it runs in the three hours after it. */
  lemma WindowCatchesHour(hour: int, t: int)
    requires hour % HOUR == 0
    ensures hour + HOUR <= t && FloorHour(t - 3 * HOUR) <= hour <==> hour + HOUR <= t < hour + 4 * HOUR
  {
  }

  /** Rollups at most three hours apart catch every hour that closes between them. */
  lemma ShortGapCatches(hour: int, t1: int, t2: int)
    requires hour % HOUR == 0
    requires t1 < hour + HOUR <= t2 <= t1 + 3 * HOUR
    ensures FloorHour(t2 - 3 * HOUR) <= hour && hour + HOUR <= t2
  {
    WindowCatchesHour(hour, t2);
  }

  /** Time moves forward and nobody runs a backfill. */
  ghost predicate Forward(h: History, es: seq<Event>)
    decreases |es|
  {
    es == [] || (h.clock <= es[0].at && !es[0].BackfillRun? && Forward(Apply(h, es[0]), es[1..]))
  }

  lemma PastTheWindow(hourly: map<Key, Bucket>, raw: seq<Sample>, at: int, k: Key)
    requires k.hour + HOUR <= FloorHour(at - 3 * HOUR)
    ensures var r := IncrementalRollup(hourly, raw, at);
            (k in r <==> k in hourly) && (k in r ==> r[k] == hourly[k])
  {
    var since, until := FloorHour(at - 3 * HOUR), at + 300 * SECOND;
    WindowGroup(raw, since, until, k);
    RollupAt(hourly, raw, since, until, k);
  }

  /** Once the rollup window has moved past an hour, nothing but hourly retention ever touches its row again, short of
      another backfill. */
  lemma {:induction false} MissedForGood(h: History, es: seq<Event>, k: Key)
    requires Forward(h, es)
    requires k.hour + HOUR <= FloorHour(h.clock - 3 * HOUR)
    ensures k in Run(h, es).hourly ==> k in h.hourly && Run(h, es).hourly[k] == h.hourly[k]
    decreases |es|
  {
    if es != [] {
      PastTheWindow(h.hourly, h.raw, es[0].at, k);
      MissedForGood(Apply(h, es[0]), es[1..], k);
    }
  }

  ghost function Blank(t: int): History {
    History([], map[], None, None, false, [], t - DAY, t - DAY, t, t)
  }

  /** Every gap above three hours, however little, loses an hour for good in some run. */
  lemma LongGapMisses(gap: int, later: seq<Event>)
    requires gap > 3 * HOUR
    requires Forward(Run(Blank(HOUR - 1), [Ingest(HOUR - 1, Some(0), 0, None, None, None), RollupRun(HOUR - 1 + gap)]), later)
    ensures var h := Blank(HOUR - 1);
            var first := [Ingest(HOUR - 1, Some(0), 0, None, None, None), RollupRun(HOUR - 1 + gap)];
            var k := Key(0, 0, 0);
            && Invariant(h)
            && Group(Run(Run(h, first), later).ever, k) != []
            && k !in Run(Run(h, first), later).hourly
  {
    var k := Key(0, 0, 0);
    var t2 := HOUR - 1 + gap;
    var s := Sample(HOUR - 1, Some(0), 0, None, None, None);
    var first := [Ingest(HOUR - 1, Some(0), 0, None, None, None), RollupRun(t2)];
    var h0 := Blank(HOUR - 1);
    var h1 := Apply(h0, first[0]);
    assert first[1..] == [RollupRun(t2)] && first[1..][1..] == [];
    assert Run(h0, first) == Run(h1, first[1..]);
    var h2 := Apply(h1, RollupRun(t2));
    assert Run(h1, first[1..]) == Run(h2, []) == h2;
    assert HOUR <= FloorHour(t2 - 3 * HOUR);
    PastTheWindow(h1.hourly, h1.raw, t2, k);
    MissedForGood(h2, later, k);
    assert s in h2.ever && InGroup(s, k);
    EverGrows(h2, later, s);
    assert s in Group(Run(h2, later).ever, k);
    assert Invariant(h0) by {
      forall j: Key
        ensures Exact(h0, j)
      {
      }
    }
  }

  lemma {:induction false} EverGrows(h: History, es: seq<Event>, s: Sample)
    requires s in h.ever
    ensures s in Run(h, es).ever
    decreases |es|
  {
    if es != [] {
      EverGrows(Apply(h, es[0]), es[1..], s);
    }
  }

  // ------------------------------------------------------------------ when a backfill splits an hour

  /** After hour-aligned prunes a backfill that gets to the newest sample splits no hour. */
  lemma AlignedPruneIsSafe(h: History, k: Key)
    requires h.horizon % HOUR == 0
    requires h.raw != [] ==> !MissesNewest(BackfillStart(h.hourly, h.raw), MaxTs(h.raw))
    ensures !Split(h, k)
  {
    forall s, t | s in Group(h.ever, k) && t in Group(h.ever, k)
      ensures !(Covered(h, s) && !Covered(h, t))
    {
      AlignedSeparates(s.ts, h.horizon);
      AlignedSeparates(t.ts, h.horizon);
    }
  }

  /** Tables, and all that was ever ingested, at a time when nothing else matters. */
  function Tables(raw: seq<Sample>, hourly: map<Key, Bucket>, ever: seq<Sample>, horizon: int): History {
    History(raw, hourly, None, None, false, ever, horizon, 0, 0, 0)
  }

  /** An unaligned prune can split an hour: two samples of it, the first pruned, and the row falls from two to one. */
  lemma UnalignedPruneThenBackfill()
    ensures var a, b := Sample(0, Some(1), 0, None, None, None), Sample(2 * SECOND, Some(1), 0, None, None, None);
            var k := Key(0, 1, 0);
            var h := Tables([b], map[k := Summarise([a, b])], [a, b], SECOND);
            && h.raw == Since(h.ever, h.horizon) && !MissesNewest(BackfillStart(h.hourly, h.raw), MaxTs(h.raw))
            && Right(h.hourly, h.ever, k) && Split(h, k)
            && Backfill(h.hourly, h.raw) == map[k := Summarise([b])] && h.hourly[k].count == 2
  {
    var a, b := Sample(0, Some(1), 0, None, None, None), Sample(2 * SECOND, Some(1), 0, None, None, None);
    var k := Key(0, 1, 0);
    var before := map[k := Summarise([a, b])];
    var h := Tables([b], before, [a, b], SECOND);
    PairOfSamples(a, b, SECOND, k);
    LoneSampleBackfill(before, b, k);
    assert BackfillStart(before, [b]) == 0 && MaxTs([b]) == 2 * SECOND;
    assert Covered(h, b) && !Covered(h, a);
  }

  lemma PairOfSamples(a: Sample, b: Sample, horizon: int, k: Key)
    requires InGroup(a, k) && InGroup(b, k) && a.ts < horizon <= b.ts
    ensures Since([a, b], horizon) == [b] && Group([a, b], k) == [a, b]
  {
    assert [a, b][1..] == [b] && [b][1..] == [];
    FilterAll([a, b], s => InGroup(s, k));
    assert Filter([b], (s: Sample) => horizon <= s.ts) == [b];
  }

  lemma LoneSampleBackfill(before: map<Key, Bucket>, b: Sample, k: Key)
    requires before.Keys == {k} && InGroup(b, k) && k.hour < b.ts < k.hour + HOUR - SECOND
    ensures Backfill(before, [b]) == map[k := Summarise([b])]
  {
    assert BackfillStart(before, [b]) == k.hour;
    assert MaxTs([b]) == b.ts;
    var end := b.ts + SECOND;
    assert ChunkEnd(k.hour, b.ts) == end && BackfillEnd(end, b.ts) == end;
    assert BackfillEnd(k.hour, b.ts) == end;
    assert Between([b], k.hour, end) == [b];
    assert Group([b], k) == [b];
    RollupAt(before, [b], k.hour, end, k);
    assert KeysOf([b]) == {k};
  }

  lemma OneOfThree(a: Sample, b: Sample, c: Sample, k: Key)
    requires !InGroup(a, k) && InGroup(b, k) && InGroup(c, k)
    ensures Group([a, b, c], k) == [b, c]
  {
    var q := s => InGroup(s, k);
    assert [a, b, c] == [a] + [b, c];
    FilterConcat([a], [b, c], q);
    FilterNone([a], q);
    FilterAll([b, c], q);
  }

  lemma InOrder(a: Sample, b: Sample, c: Sample)
    requires 0 <= a.ts < b.ts < c.ts
    ensures Since([a, b, c], 0) == [a, b, c] && MinTs([a, b, c]) == a.ts && MaxTs([a, b, c]) == c.ts
  {
    FilterAll([a, b, c], (s: Sample) => 0 <= s.ts);
    assert a in [a, b, c] && c in [a, b, c];
  }

  /** So can the newest sample, with nothing pruned: it comes exactly a day after the first, the backfill stops on it,
      and the complete row of its hour becomes that of the sample before it. */
  lemma NewestSampleSplit()
    ensures var a, b, c := Sample(HOUR / 2, None, 0, None, None, None), Sample(DAY + 600 * SECOND, Some(1), 0, None, None, None),
                           Sample(DAY + HOUR / 2, Some(1), 0, None, None, None);
            var k := Key(DAY, 1, 0);
            var h := Tables([a, b, c], map[k := Summarise([b, c])], [a, b, c], 0);
            && h.raw == Since(h.ever, h.horizon)
            && Right(h.hourly, h.ever, k) && Split(h, k) && !Right(Backfill(h.hourly, h.raw), h.ever, k)
  {
    var a, b, c := Sample(HOUR / 2, None, 0, None, None, None), Sample(DAY + 600 * SECOND, Some(1), 0, None, None, None),
                   Sample(DAY + HOUR / 2, Some(1), 0, None, None, None);
    var k := Key(DAY, 1, 0);
    FloorHourUnique(b.ts, DAY);
    FloorHourUnique(c.ts, DAY);
    OneOfThree(a, b, c, k);
    InOrder(a, b, c);
    SplitByNewest(Tables([a, b, c], map[k := Summarise([b, c])], [a, b, c], 0), a, b, c, k);
  }

  lemma SplitByNewest(h: History, a: Sample, b: Sample, c: Sample, k: Key)
    requires h.raw == h.ever == [a, b, c] && h.raw == Since(h.ever, h.horizon) && h.hourly == map[k := Summarise([b, c])]
    requires Group(h.ever, k) == [b, c] && MinTs(h.raw) == a.ts && MaxTs(h.raw) == c.ts
    requires a.ts <= k.hour && c.ts - a.ts == DAY && h.horizon <= b.ts < c.ts
    ensures Right(h.hourly, h.ever, k) && Split(h, k) && !Right(Backfill(h.hourly, h.raw), h.ever, k)
  {
    NewestMissed(h, a, b, c, k);
    assert b in Group(h.ever, k) && c in Group(h.ever, k);
    BackfillExactly(h, k);
  }

  lemma NewestMissed(h: History, a: Sample, b: Sample, c: Sample, k: Key)
    requires h.raw != [] && MinTs(h.raw) == a.ts && MaxTs(h.raw) == c.ts && h.hourly.Keys == {k}
    requires a.ts <= k.hour && c.ts - a.ts == DAY && h.horizon <= b.ts < c.ts
    ensures Covered(h, b) && !Covered(h, c)
  {
    assert BackfillStart(h.hourly, h.raw) == a.ts;
  }
}
