/** GPU telemetry retention: hourly rollup, backfill and pruning (service/app/gpu_retention.py).
    Timestamps are whole microseconds, the resolution of a PostgreSQL timestamp. */
module Retention {
  import opened Wrappers
  import opened Sequences

  const SECOND := 1_000_000
  const HOUR := 3_600_000_000
  const DAY := 86_400_000_000

  const PRUNE_BATCH_ROWS: nat := 50_000

  /** A row of `gpu_samples`; the table is kept in `sample_id` order. */
  datatype Sample = Sample(ts: int, host: Option<int>, gpu: int,
                           util: Option<real>, mem: Option<real>, power: Option<real>)

  datatype Key = Key(hour: int, host: int, gpu: int)

  /** min, max and avg of a column; SQL returns NULL for all three when every value is NULL. */
  datatype Stat = Null | Stat(min: real, max: real, avg: real)

  datatype Bucket = Bucket(count: nat, util: Stat, mem: Stat, power: Stat, powerSum: real, lastTs: int)

  // ------------------------------------------------------------------ hours

  /** date_trunc('hour', t) */
  function FloorHour(t: int): (h: int)
    ensures h <= t < h + HOUR && h % HOUR == 0
  {
    t - t % HOUR
  }

  lemma FloorHourUnique(t: int, h: int)
    requires h % HOUR == 0 && h <= t < h + HOUR
    ensures h == FloorHour(t)
  {
  }

  /** An hour-aligned instant separates whole hours. */
  lemma AlignedSeparates(t: int, b: int)
    requires b % HOUR == 0
    ensures t < b ==> FloorHour(t) + HOUR <= b
    ensures FloorHour(t) < b <==> t < b
  {
  }

  // ------------------------------------------------------------------ aggregates

  predicate InGroup(s: Sample, k: Key) {
    s.host == Some(k.host) && s.gpu == k.gpu && FloorHour(s.ts) == k.hour
  }

  function Group(samples: seq<Sample>, k: Key): seq<Sample> {
    Filter(samples, s => InGroup(s, k))
  }

  function Between(samples: seq<Sample>, since: int, until: int): seq<Sample> {
    Filter(samples, (s: Sample) => since <= s.ts < until)
  }

  /** What survives deleting every row older than `cutoff`. */
  function Since(samples: seq<Sample>, cutoff: int): seq<Sample> {
    Filter(samples, (s: Sample) => cutoff <= s.ts)
  }

  /** The non-NULL values of a column. */
  function Column(g: seq<Sample>, f: Sample -> Option<real>): seq<real> {
    if g == [] then []
    else if f(g[0]).Some? then [f(g[0]).value] + Column(g[1..], f)
    else Column(g[1..], f)
  }

  lemma {:induction false} ColumnHas(g: seq<Sample>, f: Sample -> Option<real>, s: Sample)
    requires s in g && f(s).Some?
    ensures f(s).value in Column(g, f)
  {
    if s != g[0] {
      assert g == [g[0]] + g[1..];
      ColumnHas(g[1..], f, s);
    }
  }

  lemma {:induction false} ColumnFrom(g: seq<Sample>, f: Sample -> Option<real>, x: real) returns (s: Sample)
    requires x in Column(g, f)
    ensures s in g && f(s) == Some(x)
  {
    if f(g[0]) == Some(x) {
      s := g[0];
    } else {
      s := ColumnFrom(g[1..], f, x);
    }
  }

  function Sum(v: seq<real>): real {
    if v == [] then 0.0 else v[0] + Sum(v[1..])
  }

  function Least(v: seq<real>): (m: real)
    requires v != []
    ensures m in v && forall x :: x in v ==> m <= x
  {
    if |v| == 1 then v[0] else
      var m := Least(v[1..]);
      assert v == [v[0]] + v[1..];
      if v[0] < m then v[0] else m
  }

  function Greatest(v: seq<real>): (m: real)
    requires v != []
    ensures m in v && forall x :: x in v ==> x <= m
  {
    if |v| == 1 then v[0] else
      var m := Greatest(v[1..]);
      assert v == [v[0]] + v[1..];
      if v[0] > m then v[0] else m
  }

  function StatOf(v: seq<real>): Stat {
    if v == [] then Null else Stat(Least(v), Greatest(v), Mean(v))
  }

  function MaxTs(g: seq<Sample>): (m: int)
    requires g != []
    ensures (exists s :: s in g && s.ts == m) && forall s :: s in g ==> s.ts <= m
  {
    if |g| == 1 then g[0].ts else
      var m := MaxTs(g[1..]);
      if g[0].ts > m then g[0].ts else m
  }

  function MinTs(g: seq<Sample>): (m: int)
    requires g != []
    ensures (exists s :: s in g && s.ts == m) && forall s :: s in g ==> m <= s.ts
  {
    if |g| == 1 then g[0].ts else
      var m := MinTs(g[1..]);
      if g[0].ts < m then g[0].ts else m
  }

  function Summarise(g: seq<Sample>): (b: Bucket)
    requires g != []
    ensures b.count == |g|
  {
    Bucket(|g|,
           StatOf(Column(g, (s: Sample) => s.util)),
           StatOf(Column(g, (s: Sample) => s.mem)),
           StatOf(Column(g, (s: Sample) => s.power)),
           Sum(Column(g, (s: Sample) => Some(s.power.GetOr(0.0)))),
           MaxTs(g))
  }

  /** The aggregates of a nullable column: absent when every value is NULL, else bounds that are attained. */
  predicate Describes(st: Stat, g: seq<Sample>, f: Sample -> Option<real>) {
    && (st.Null? <==> forall s :: s in g ==> f(s).None?)
    && (st.Stat? ==> (exists s :: s in g && f(s) == Some(st.min)) && exists s :: s in g && f(s) == Some(st.max))
    && (st.Stat? ==> forall s :: s in g && f(s).Some? ==> st.min <= f(s).value <= st.max)
  }

  /** Times the number of values, it is their sum. */
  predicate IsMean(m: real, v: seq<real>) {
    m * |v| as real == Sum(v)
  }

  /** The average of the values that are not NULL. */
  predicate Averages(st: Stat, g: seq<Sample>, f: Sample -> Option<real>) {
    st.Stat? ==> IsMean(st.avg, Column(g, f))
  }

  function Mean(v: seq<real>): (m: real)
    requires v != []
    ensures IsMean(m, v)
  {
    Sum(v) / |v| as real
  }

  lemma ColumnDescribed(g: seq<Sample>, f: Sample -> Option<real>)
    ensures Describes(StatOf(Column(g, f)), g, f)
  {
    var v := Column(g, f);
    var st := StatOf(v);
    forall s | s in g && f(s).Some?
      ensures st.Stat? && st.min <= f(s).value <= st.max
    {
      ColumnHas(g, f, s);
    }
    if v != [] {
      var lo := ColumnFrom(g, f, st.min);
      var hi := ColumnFrom(g, f, st.max);
    }
  }

  lemma BucketMeaning(g: seq<Sample>)
    requires g != []
    ensures var b := Summarise(g);
            && b.count == |g|
            && Describes(b.util, g, (s: Sample) => s.util)
            && Describes(b.mem, g, (s: Sample) => s.mem)
            && Describes(b.power, g, (s: Sample) => s.power)
            && b.powerSum == Sum(Column(g, (s: Sample) => s.power))
            && Averages(b.util, g, (s: Sample) => s.util)
            && Averages(b.mem, g, (s: Sample) => s.mem)
            && Averages(b.power, g, (s: Sample) => s.power)
            && (exists s :: s in g && s.ts == b.lastTs) && forall s :: s in g ==> s.ts <= b.lastTs
  {
    ColumnDescribed(g, (s: Sample) => s.util);
    ColumnDescribed(g, (s: Sample) => s.mem);
    ColumnDescribed(g, (s: Sample) => s.power);
    ColumnAveraged(g, (s: Sample) => s.util);
    ColumnAveraged(g, (s: Sample) => s.mem);
    ColumnAveraged(g, (s: Sample) => s.power);
    CoalescedSum(g);
  }

  lemma ColumnAveraged(g: seq<Sample>, f: Sample -> Option<real>)
    ensures Averages(StatOf(Column(g, f)), g, f)
  {
    var v := Column(g, f);
    if v != [] {
      assert StatOf(v).avg == Mean(v) && IsMean(Mean(v), v);
    }
  }

  lemma {:induction false} CoalescedSum(g: seq<Sample>)
    ensures Sum(Column(g, (s: Sample) => Some(s.power.GetOr(0.0)))) == Sum(Column(g, (s: Sample) => s.power))
  {
    if g != [] {
      var f, p := (s: Sample) => Some(s.power.GetOr(0.0)), (s: Sample) => s.power;
      CoalescedSum(g[1..]);
      assert ([g[0].power.GetOr(0.0)] + Column(g[1..], f))[1..] == Column(g[1..], f);
      if g[0].power.Some? {
        assert ([g[0].power.value] + Column(g[1..], p))[1..] == Column(g[1..], p);
      }
    }
  }

  // ------------------------------------------------------------------ rollup

  function KeyOf(s: Sample): Key
    requires s.host.Some?
  {
    Key(FloorHour(s.ts), s.host.value, s.gpu)
  }

  function KeysOf(samples: seq<Sample>): set<Key> {
    set s | s in samples && s.host.Some? :: KeyOf(s)
  }

  lemma KeysHaveGroups(samples: seq<Sample>, k: Key)
    ensures k in KeysOf(samples) <==> Group(samples, k) != []
  {
    if k in KeysOf(samples) {
      var s :| s in samples && s.host.Some? && KeyOf(s) == k;
      assert s in Group(samples, k);
    }
    if Group(samples, k) != [] {
      var s := Group(samples, k)[0];
      assert s in Group(samples, k);
      assert KeyOf(s) == k;
    }
  }

  /** INSERT ... GROUP BY ... ON CONFLICT DO UPDATE over the rows of one window. */
  function Rollup(hourly: map<Key, Bucket>, raw: seq<Sample>, since: int, until: int): (r: map<Key, Bucket>)
    ensures r.Keys == hourly.Keys + KeysOf(Between(raw, since, until))
  {
    var win := Between(raw, since, until);
    map k | k in hourly.Keys + KeysOf(win) ::
      (KeysHaveGroups(win, k); if k in KeysOf(win) then Summarise(Group(win, k)) else hourly[k])
  }

  /** The upsert, key by key: a group in the window replaces its row, an hour with no rows keeps the old one. */
  lemma RollupAt(hourly: map<Key, Bucket>, raw: seq<Sample>, since: int, until: int, k: Key)
    ensures var g := Group(Between(raw, since, until), k);
            var r := Rollup(hourly, raw, since, until);
            && (g != [] ==> k in r && r[k] == Summarise(g))
            && (g == [] ==> (k in r <==> k in hourly) && (k in hourly ==> r[k] == hourly[k]))
  {
    KeysHaveGroups(Between(raw, since, until), k);
  }

  /** A whole hour inside the window is aggregated from every raw sample it has; one outside is not touched. */
  lemma WindowGroup(raw: seq<Sample>, since: int, until: int, k: Key)
    ensures since <= k.hour && k.hour + HOUR <= until ==> Group(Between(raw, since, until), k) == Group(raw, k)
    ensures since <= k.hour && (forall s :: s in raw ==> s.ts < until)
            ==> Group(Between(raw, since, until), k) == Group(raw, k)
    ensures k.hour + HOUR <= since || until <= k.hour ==> Group(Between(raw, since, until), k) == []
  {
    var p := (s: Sample) => since <= s.ts < until;
    var q := s => InGroup(s, k);
    if since <= k.hour && (k.hour + HOUR <= until || forall s :: s in raw ==> s.ts < until) {
      FilterFilter(raw, p, q, q);
    }
    if k.hour + HOUR <= since || until <= k.hour {
      FilterNone(Between(raw, since, until), q);
    }
  }

  /** Two adjacent windows that meet on an hour boundary roll up like one window. */
  lemma RollupSplit(hourly: map<Key, Bucket>, raw: seq<Sample>, a: int, b: int, c: int)
    requires a <= b <= c
    requires a == b || b % HOUR == 0
    ensures Rollup(Rollup(hourly, raw, a, b), raw, b, c) == Rollup(hourly, raw, a, c)
  {
    var first := Rollup(hourly, raw, a, b);
    var both, one := Rollup(first, raw, b, c), Rollup(hourly, raw, a, c);
    forall k
      ensures k in both <==> k in one
      ensures k in both ==> both[k] == one[k]
    {
      GroupSplit(raw, a, b, c, k);
      RollupAt(hourly, raw, a, b, k);
      RollupAt(first, raw, b, c, k);
      RollupAt(hourly, raw, a, c, k);
    }
    assert both.Keys == one.Keys;
  }

  lemma GroupSplit(raw: seq<Sample>, a: int, b: int, c: int, k: Key)
    requires a <= b <= c
    requires a == b || b % HOUR == 0
    ensures var l, r := Group(Between(raw, a, b), k), Group(Between(raw, b, c), k);
            Group(Between(raw, a, c), k) == if r == [] then l else r
  {
    var l, r := Group(Between(raw, a, b), k), Group(Between(raw, b, c), k);
    var q := s => InGroup(s, k);
    var ab, bc, ac := (s: Sample) => a <= s.ts < b, (s: Sample) => b <= s.ts < c, (s: Sample) => a <= s.ts < c;
    var x, y, z := (s: Sample) => a <= s.ts < b && InGroup(s, k), (s: Sample) => b <= s.ts < c && InGroup(s, k),
                   (s: Sample) => a <= s.ts < c && InGroup(s, k);
    FilterFilter(raw, ab, q, x);
    FilterFilter(raw, bc, q, y);
    FilterFilter(raw, ac, q, z);
    forall s | s in raw && InGroup(s, k)
      ensures a != b ==> (s.ts < b <==> k.hour < b)
    {
      if a != b {
        AlignedSeparates(s.ts, b);
      }
    }
    if r == [] {
      forall s | s in raw ensures x(s) <==> z(s) {
        assert y(s) ==> s in r;
      }
      FilterSame(raw, x, z);
    } else {
      assert r[0] in r;
      FilterSame(raw, y, z);
    }
  }

  // ------------------------------------------------------------------ backfill

  function BackfillStart(hourly: map<Key, Bucket>, raw: seq<Sample>): (start: int)
    requires raw != []
    ensures start <= MinTs(raw)
    ensures forall k :: k in hourly ==> start <= k.hour
    ensures start == MinTs(raw) || exists k :: k in hourly && start == k.hour
  {
    var lo := MinTs(raw);
    if hourly == map[] then lo else
      var covered := MinHour(hourly.Keys);
      if covered < lo then covered else lo
  }

  /** min(hour_bucket) of a non-empty table. */
  function MinHour(keys: set<Key>): (m: int)
    requires keys != {}
    ensures (exists k :: k in keys && k.hour == m) && forall k :: k in keys ==> m <= k.hour
  {
    LeastExists(keys);
    var k :| k in keys && forall j :: j in keys ==> k.hour <= j.hour;
    k.hour
  }

  lemma {:induction false} LeastExists(keys: set<Key>)
    requires keys != {}
    ensures exists k :: k in keys && forall j :: j in keys ==> k.hour <= j.hour
  {
    var k :| k in keys;
    if exists j :: j in keys && j.hour < k.hour {
      var rest := set j | j in keys && j.hour < k.hour;
      var j :| j in keys && j.hour < k.hour;
      assert j in rest && k !in rest && rest < keys;
      LeastExists(rest);
      var m :| m in rest && forall j :: j in rest ==> m.hour <= j.hour;
      assert forall j :: j in keys ==> m.hour <= j.hour;
    }
  }

  /** The end of the chunk that begins at `cur`. */
  function ChunkEnd(cur: int, hi: int): (next: int)
    requires cur < hi
    ensures cur < next
    ensures next < hi ==> next % HOUR == 0
  {
    var next := if cur + DAY < hi + SECOND then cur + DAY else hi + SECOND;
    if next < hi then FloorHour(next) else next
  }

  /** Where the backfill loop stops. */
  function BackfillEnd(cur: int, hi: int): (end: int)
    ensures hi <= end || cur > hi
    ensures cur <= end
    decreases hi - cur
  {
    if cur < hi then BackfillEnd(ChunkEnd(cur, hi), hi) else cur
  }

  /** The one input family for which the newest raw sample is left out, readable from the two end points. */
  predicate MissesNewest(start: int, hi: int) {
    || start == hi
    || hi - start == DAY
    || (hi - start > DAY && (hi - FloorHour(start + DAY)) % DAY == 0)
  }

  /** The backfill covers the newest raw sample exactly when its end points avoid the family above. */
  lemma BackfillCoversNewest(start: int, hi: int)
    requires start <= hi
    ensures BackfillEnd(start, hi) > hi <==> !MissesNewest(start, hi)
    ensures MissesNewest(start, hi) ==> BackfillEnd(start, hi) == hi
  {
    if start < hi {
      var next := ChunkEnd(start, hi);
      if next < hi {
        AlignedEnd(next, hi);
      }
    }
  }

  /** The simplest such table: a first backfill of a single sample writes nothing. */
  lemma LoneSampleMissed(s: Sample)
    ensures MissesNewest(BackfillStart(map[], [s]), MaxTs([s])) && Backfill(map[], [s]) == map[]
  {
    assert BackfillStart(map[], [s]) == s.ts && MaxTs([s]) == s.ts && BackfillEnd(s.ts, s.ts) == s.ts;
    FilterNone([s], (x: Sample) => s.ts <= x.ts < s.ts);
    assert Between([s], s.ts, s.ts) == [];
  }

  lemma {:induction false} AlignedEnd(cur: int, hi: int)
    requires cur % HOUR == 0 && cur < hi
    ensures BackfillEnd(cur, hi) > hi <==> (hi - cur) % DAY != 0
    ensures BackfillEnd(cur, hi) >= hi
    decreases hi - cur
  {
    var next := ChunkEnd(cur, hi);
    if next < hi {
      assert DAY % HOUR == 0;
      FloorHourUnique(cur + DAY, cur + DAY);
      assert next == cur + DAY;
      AlignedEnd(next, hi);
      assert (hi - cur) % DAY == (hi - next) % DAY;
    }
  }

  // ------------------------------------------------------------------ prune

  /** DELETE ... WHERE sample_id IN (SELECT ... WHERE ts < cutoff ORDER BY sample_id LIMIT limit) */
  function DeleteBatch(raw: seq<Sample>, cutoff: int, limit: nat): (r: seq<Sample>)
    ensures |r| <= |raw|
    ensures |raw| - |r| <= limit
    ensures |r| == |raw| ==> r == raw && (limit == 0 || forall s :: s in raw ==> cutoff <= s.ts)
  {
    if raw == [] then []
    else if raw[0].ts < cutoff && limit > 0 then DeleteBatch(raw[1..], cutoff, limit - 1)
    else
      assert raw == [raw[0]] + raw[1..];
      [raw[0]] + DeleteBatch(raw[1..], cutoff, limit)
  }

  lemma {:induction false} BatchKeepsSurvivors(raw: seq<Sample>, cutoff: int, limit: nat)
    ensures Since(DeleteBatch(raw, cutoff, limit), cutoff) == Since(raw, cutoff)
  {
    if raw != [] {
      if raw[0].ts < cutoff && limit > 0 {
        BatchKeepsSurvivors(raw[1..], cutoff, limit - 1);
      } else {
        var rest := DeleteBatch(raw[1..], cutoff, limit);
        BatchKeepsSurvivors(raw[1..], cutoff, limit);
        assert ([raw[0]] + rest)[1..] == rest;
      }
    }
  }

  // ------------------------------------------------------------------ the tables

  class GpuStore {
    var raw: seq<Sample>
    var hourly: map<Key, Bucket>
    var hourlyTableExists: bool
    var backupVerified: bool
    /** manager_settings rows; None when the row is missing or not an integer */
    var rawDays: Option<int>
    var hourlyDays: Option<int>

    constructor ()
      ensures raw == [] && hourly == map[] && hourlyTableExists && !backupVerified
      ensures rawDays == None && hourlyDays == None
    {
      raw, hourly := [], map[];
      hourlyTableExists, backupVerified := true, false;
      rawDays, hourlyDays := None, None;
    }

    method CmdRollup(now: int)
      modifies this`hourly
      ensures hourly == IncrementalRollup(old(hourly), raw, now)
    {
      var since := FloorHour(now - 3 * HOUR);
      hourly := Rollup(hourly, raw, since, now + 300 * SECOND);
    }

    /** Chunked backfill; its chunks add up to one rollup over [start, end). */
    method CmdBackfill()
      modifies this`hourly
      ensures hourly == Backfill(old(hourly), raw)
    {
      if raw == [] {
        return;
      }
      var hi := MaxTs(raw);
      var start := BackfillStart(hourly, raw);
      var cur := start;
      FilterNone(raw, (s: Sample) => start <= s.ts < start);
      assert Rollup(hourly, raw, start, start) == hourly;
      while cur < hi
        invariant start <= cur
        invariant cur == start || cur >= hi || cur % HOUR == 0
        invariant BackfillEnd(cur, hi) == BackfillEnd(start, hi)
        invariant hourly == Rollup(old(hourly), raw, start, cur)
        decreases hi - cur
      {
        var next := ChunkEnd(cur, hi);
        RollupSplit(old(hourly), raw, start, cur, next);
        hourly := Rollup(hourly, raw, cur, next);
        cur := next;
      }
    }

    method PruneGates() returns (ok: bool)
      ensures ok <==> GatesPass(hourlyTableExists, hourly, raw, backupVerified)
    {
      if !hourlyTableExists {
        return false;
      }
      if |hourly| < 1 {
        return false;
      }
      var lo := MinHour(hourly.Keys);
      if raw != [] {
        var rawLo := MinTs(raw);
        if rawLo < lo {
          return false;
        }
      }
      return backupVerified;
    }

    /** Deletes in bounded batches until a batch deletes nothing. */
    method CmdPrune(now: int) returns (rc: int)
      modifies this`raw
      ensures rc == 0 <==> GatesPass(hourlyTableExists, hourly, old(raw), backupVerified)
      ensures rc == 0 ==> raw == Since(old(raw), now - rawDays.GetOr(90) * DAY)
      ensures rc != 0 ==> raw == old(raw)
      ensures raw != old(raw) ==> hourlyTableExists && backupVerified && Covers(hourly, old(raw))
    {
      GatesExactly(hourlyTableExists, hourly, raw, backupVerified);
      var ok := PruneGates();
      if !ok {
        return 1;
      }
      var cutoff := now - rawDays.GetOr(90) * DAY;
      var deleted := 1;
      while deleted != 0
        invariant Since(raw, cutoff) == Since(old(raw), cutoff)
        invariant deleted == 0 ==> forall s :: s in raw ==> cutoff <= s.ts
        decreases deleted != 0, |raw|
      {
        var rest := DeleteBatch(raw, cutoff, PRUNE_BATCH_ROWS);
        BatchKeepsSurvivors(raw, cutoff, PRUNE_BATCH_ROWS);
        deleted := |raw| - |rest|;
        raw := rest;
      }
      FilterAll(raw, (s: Sample) => cutoff <= s.ts);
      return 0;
    }

    method CmdMaintenance(now: int)
      modifies this`hourly
      ensures hourly == DropBuckets(IncrementalRollup(old(hourly), raw, now), now - hourlyDays.GetOr(730) * DAY)
      ensures forall k :: k in hourly <==> k in IncrementalRollup(old(hourly), raw, now) && k.hour >= now - hourlyDays.GetOr(730) * DAY
    {
      CmdRollup(now);
      var cutoff := now - hourlyDays.GetOr(730) * DAY;
      hourly := map k | k in hourly && k.hour >= cutoff :: hourly[k];
    }
  }

  function IncrementalRollup(hourly: map<Key, Bucket>, raw: seq<Sample>, now: int): map<Key, Bucket> {
    Rollup(hourly, raw, FloorHour(now - 3 * HOUR), now + 300 * SECOND)
  }

  /** The whole backfill as one rollup. */
  function Backfill(hourly: map<Key, Bucket>, raw: seq<Sample>): map<Key, Bucket> {
    if raw == [] then hourly else
      var start := BackfillStart(hourly, raw);
      Rollup(hourly, raw, start, BackfillEnd(start, MaxTs(raw)))
  }

  function DropBuckets(hourly: map<Key, Bucket>, cutoff: int): map<Key, Bucket> {
    map k | k in hourly && cutoff <= k.hour :: hourly[k]
  }

  /** The prune gates: a rollup exists, it starts no later than the raw rows, and a backup is on record. */
  ghost predicate GatesPass(tableExists: bool, hourly: map<Key, Bucket>, raw: seq<Sample>, backupVerified: bool) {
    && tableExists
    && backupVerified
    && exists k :: k in hourly && forall j :: j in hourly ==> k.hour <= j.hour && forall s :: s in raw ==> k.hour <= s.ts
  }

  /** There are hourly rows, and one of them is at or before the oldest raw sample. */
  ghost predicate Covers(hourly: map<Key, Bucket>, raw: seq<Sample>) {
    hourly != map[] && forall s :: s in raw ==> exists k :: k in hourly && k.hour <= s.ts
  }

  /** A prune is let through exactly when the hourly table is there and covers the raw one, and a backup is recorded. */
  lemma GatesExactly(tableExists: bool, hourly: map<Key, Bucket>, raw: seq<Sample>, backupVerified: bool)
    ensures GatesPass(tableExists, hourly, raw, backupVerified) <==> tableExists && backupVerified && Covers(hourly, raw)
  {
    if hourly != map[] {
      LeastExists(hourly.Keys);
      var k :| k in hourly.Keys && forall j :: j in hourly.Keys ==> k.hour <= j.hour;
      if Covers(hourly, raw) {
        forall s | s in raw
          ensures k.hour <= s.ts
        {
          var j :| j in hourly && j.hour <= s.ts;
        }
      }
    }
  }

  /** The incremental rollup: from the start of the hour three hours ago to five minutes from now, and nothing else. */
  lemma IncrementalExactly(hourly: map<Key, Bucket>, raw: seq<Sample>, now: int, k: Key)
    ensures var from := FloorHour(now - 3 * 3_600_000_000);
            var window := Group(Between(raw, from, now + 5 * 60 * 1_000_000), k);
            var r := IncrementalRollup(hourly, raw, now);
            if window != [] then k in r && r[k] == Summarise(window)
            else (k in r <==> k in hourly) && (k in r ==> r[k] == hourly[k])
  {
    RollupAt(hourly, raw, FloorHour(now - 3 * HOUR), now + 300 * SECOND, k);
  }
}
