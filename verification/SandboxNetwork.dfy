/** Sandbox addresses: allocate, reserve, verify and release in a Kea reservation table that also holds
    foreign entries (server_manager/agent_runtime_manager/services/sandbox_network.py). Addresses are integers,
    the value of the dotted quad. */
module SandboxNetwork {
  import opened Wrappers
  import opened Sequences
  import opened Sets

  const TAG := "ACMS_SANDBOX"

  datatype Reservation = Reservation(uuid: int, ip: Option<int>, hw: string, hostname: string, description: string)

  datatype Record = Record(ip: int, mac: string, hostname: string, uuid: int, description: string)

  datatype NetError = Unavailable | PoolExhausted | InvalidMac | NotReserved | ForeignReservation

  /** How an external call that changes something can end: it may raise before or after taking effect. */
  datatype CallResult = Returned | RaisedBefore | RaisedAfter {
    predicate Applied() { !RaisedBefore? }
  }

  predicate StartsWith(s: string, prefix: string) {
    |prefix| <= |s| && s[..|prefix|] == prefix
  }

  /** Reservations this service made; every other one is foreign. */
  predicate Tagged(r: Reservation) {
    StartsWith(r.description, TAG)
  }

  // ------------------------------------------------------------------ MAC addresses

  predicate IsSpace(c: char) {
    c == ' ' || c == '\t' || c == '\n' || c == '\r'
  }

  function Strip(s: string): (r: string)
    ensures r != "" ==> !IsSpace(r[0]) && !IsSpace(r[|r| - 1])
    ensures s != "" && !IsSpace(s[0]) && !IsSpace(s[|s| - 1]) ==> r == s
  {
    if s == "" then s
    else if IsSpace(s[0]) then Strip(s[1..])
    else if IsSpace(s[|s| - 1]) then Strip(s[..|s| - 1])
    else s
  }

  function NormChar(c: char): char {
    if 'A' <= c <= 'Z' then c - 'A' + 'a' else if c == '-' then ':' else c
  }

  function MacNorm(mac: string): string {
    var s := Strip(mac);
    seq(|s|, i requires 0 <= i < |s| => NormChar(s[i]))
  }

  predicate IsHex(c: char) {
    '0' <= c <= '9' || 'a' <= c <= 'f'
  }

  predicate ValidMac(mac: string) {
    var n := MacNorm(mac);
    |n| == 17 && forall i :: 0 <= i < 17 ==> if i % 3 == 2 then n[i] == ':' else IsHex(n[i])
  }

  /** Normalising a normalised address changes nothing, so comparing normal forms is comparing addresses. */
  lemma MacNormIdempotent(mac: string)
    ensures MacNorm(MacNorm(mac)) == MacNorm(mac)
  {
    var s, n := Strip(mac), MacNorm(mac);
    if n != "" {
      assert !IsSpace(n[0]) && !IsSpace(n[|n| - 1]);
      assert Strip(n) == n;
    }
  }

  // ------------------------------------------------------------------ the reservation table

  ghost predicate UniqueUuids(rs: seq<Reservation>) {
    forall i, j :: 0 <= i < j < |rs| ==> rs[i].uuid != rs[j].uuid
  }

  ghost predicate UniqueIps(rs: seq<Reservation>) {
    forall i, j :: 0 <= i < j < |rs| && rs[i].ip.Some? ==> rs[i].ip != rs[j].ip
  }

  function Foreign(rs: seq<Reservation>): seq<Reservation> {
    Filter(rs, r => !Tagged(r))
  }

  /** The last row listed for each address. */
  function ReservedIps(rs: seq<Reservation>): (m: map<int, Reservation>)
    ensures forall ip :: ip in m ==> m[ip] in rs && m[ip].ip == Some(ip)
    ensures forall r :: r in rs && r.ip.Some? ==> r.ip.value in m
  {
    if rs == [] then map[] else
      var last, m := rs[|rs| - 1], ReservedIps(rs[..|rs| - 1]);
      assert rs == rs[..|rs| - 1] + [last];
      if last.ip.Some? then m[last.ip.value := last] else m
  }

  function FindUuid(rs: seq<Reservation>, uuid: int): (r: Option<Reservation>)
    ensures r.Some? ==> r.value in rs && r.value.uuid == uuid
    ensures r.None? ==> forall x :: x in rs ==> x.uuid != uuid
  {
    if rs == [] then None
    else if rs[|rs| - 1].uuid == uuid then Some(rs[|rs| - 1])
    else
      assert rs == rs[..|rs| - 1] + [rs[|rs| - 1]];
      FindUuid(rs[..|rs| - 1], uuid)
  }

  function Without(rs: seq<Reservation>, uuid: int): seq<Reservation> {
    Filter(rs, (r: Reservation) => r.uuid != uuid)
  }

  function Others(rs: seq<Reservation>, ip: int): seq<Reservation> {
    Filter(rs, (r: Reservation) => r.ip != Some(ip))
  }

  // ------------------------------------------------------------------ allocation

  predicate ForeignIp(reserved: map<int, Reservation>, ip: int) {
    ip in reserved && !Tagged(reserved[ip])
  }

  /** A pool address that is neither foreign nor actively leased. */
  predicate Candidate(reserved: map<int, Reservation>, leased: set<int>, ip: int) {
    !ForeignIp(reserved, ip) && ip !in leased
  }

  /** The lowest candidate in lo..hi outside `seen`. */
  function Lowest(reserved: map<int, Reservation>, leased: set<int>, seen: set<int>, lo: int, hi: int): (r: Option<int>)
    ensures r.Some? ==> lo <= r.value <= hi && Candidate(reserved, leased, r.value) && r.value !in seen
    ensures r.Some? ==> forall x :: lo <= x < r.value && Candidate(reserved, leased, x) ==> x in seen
    ensures r.None? ==> forall x :: lo <= x <= hi && Candidate(reserved, leased, x) ==> x in seen
    decreases hi - lo
  {
    if lo > hi then None
    else if Candidate(reserved, leased, lo) && lo !in seen then Some(lo)
    else Lowest(reserved, leased, seen, lo + 1, hi)
  }

  /** The addresses the allocator knows to be alive. It probes once, at the first candidate: only that address
      when it is unreserved, and every tagged or unreserved pool address when it is one of its own. */
  function Probed(reserved: map<int, Reservation>, alive: set<int>, first: int): set<int> {
    if first in reserved then set ip | ip in alive && !ForeignIp(reserved, ip) else alive * {first}
  }

  function Allocation(rs: seq<Reservation>, leased: set<int>, alive: set<int>, lo: int, hi: int)
    : Result<(int, Option<int>), NetError>
  {
    var reserved := ReservedIps(rs);
    var first := Lowest(reserved, leased, {}, lo, hi);
    if first.None? then Failure(PoolExhausted) else
      var seen := Probed(reserved, alive, first.value);
      var chosen := Lowest(reserved, leased, seen, lo, hi);
      if chosen.None? then Failure(PoolExhausted)
      else Success((chosen.value, if chosen.value in reserved then Some(reserved[chosen.value].uuid) else None))
  }

  /** What a caller of the allocator may rely on. */
  lemma AllocationIsSafe(rs: seq<Reservation>, leased: set<int>, alive: set<int>, lo: int, hi: int)
    ensures var a, reserved := Allocation(rs, leased, alive, lo, hi), ReservedIps(rs);
            && (a.Failure? ==> forall ip :: lo <= ip <= hi ==> ForeignIp(reserved, ip) || ip in leased || ip in alive)
            && (a.Success? ==>
                  var (ip, uuid) := a.value;
                  && lo <= ip <= hi && !ForeignIp(reserved, ip) && ip !in leased
                  && (uuid.Some? <==> ip in reserved)
                  && (uuid.Some? ==> Tagged(reserved[ip]) && uuid.value == reserved[ip].uuid)
                  && (forall x :: lo <= x < ip ==> ForeignIp(reserved, x) || x in leased || x in alive))
  {
    var reserved := ReservedIps(rs);
    var first := Lowest(reserved, leased, {}, lo, hi);
    forall ip | lo <= ip <= hi
      ensures Candidate(reserved, leased, ip) || ForeignIp(reserved, ip) || ip in leased
    {
    }
    if first.Some? {
      var seen := Probed(reserved, alive, first.value);
      assert seen <= alive;
    }
  }

  /** The allocator hands out a live address exactly when its first candidate is unreserved and alive and the
      next candidate is alive too: that second address is never probed. */
  lemma AllocationLiveness(rs: seq<Reservation>, leased: set<int>, alive: set<int>, lo: int, hi: int)
    ensures var a, reserved := Allocation(rs, leased, alive, lo, hi), ReservedIps(rs);
            var first := Lowest(reserved, leased, {}, lo, hi);
            (a.Success? && a.value.0 in alive)
            <==> (&& first.Some? && first.value !in reserved && first.value in alive
                  && var second := Lowest(reserved, leased, {}, first.value + 1, hi);
                     second.Some? && second.value in alive)
  {
    var reserved := ReservedIps(rs);
    var first := Lowest(reserved, leased, {}, lo, hi);
    if first.Some? {
      var seen := Probed(reserved, alive, first.value);
      var chosen := Lowest(reserved, leased, seen, lo, hi);
      var second := Lowest(reserved, leased, {}, first.value + 1, hi);
      if first.value !in reserved && first.value in alive {
        assert seen == {first.value};
      }
    }
  }

  /** The pool has an address the allocator will give: one it finds silent, or one it does not probe. */
  ghost predicate AddressLeft(rs: seq<Reservation>, leased: set<int>, alive: set<int>, lo: int, hi: int) {
    var reserved := ReservedIps(rs);
    exists first :: lo <= first <= hi && Candidate(reserved, leased, first)
      && (forall x :: lo <= x < first ==> !Candidate(reserved, leased, x))
      && if first in reserved then exists c :: lo <= c <= hi && Candidate(reserved, leased, c) && c !in alive
         else first !in alive || exists c :: first < c <= hi && Candidate(reserved, leased, c)
  }

  lemma AllocationSucceedsExactly(rs: seq<Reservation>, leased: set<int>, alive: set<int>, lo: int, hi: int)
    ensures Allocation(rs, leased, alive, lo, hi).Success? <==> AddressLeft(rs, leased, alive, lo, hi)
  {
    var reserved := ReservedIps(rs);
    var first := Lowest(reserved, leased, {}, lo, hi);
    if first.Some? {
      var seen := Probed(reserved, alive, first.value);
      assert forall x :: lo <= x <= hi && Candidate(reserved, leased, x) && first.value in reserved ==> (x in seen <==> x in alive);
      assert forall f :: lo <= f <= hi && Candidate(reserved, leased, f) && (forall x :: lo <= x < f ==> !Candidate(reserved, leased, x)) ==> f == first.value;
    }
  }

  /** Two free pool addresses, both alive on the wire: the second is handed out. */
  lemma LiveAddressHandedOut()
    ensures Allocation([], {}, {1, 2}, 1, 2) == Success((2, None))
  {
    var reserved := ReservedIps([]);
    assert Lowest(reserved, {}, {}, 1, 2) == Some(1);
    var seen := Probed(reserved, {1, 2}, 1);
    assert seen == {1};
    assert Lowest(reserved, {}, seen, 1, 2) == Some(2);
  }

  // ------------------------------------------------------------------ reservation life cycle

  datatype NetEnv = NetEnv(listed: bool, leased: Option<set<int>>, alive: set<int>, relisted: bool,
                           delete: CallResult, create: CallResult, newUuid: int, verified: bool)

  function Description(work: string, agent: string, host: string): (d: string)
    ensures StartsWith(d, TAG)
  {
    var d := TAG + ": work=" + work + " agent=" + agent + " host=" + host;
    assert d[..|TAG|] == TAG;
    d
  }

  /** del_reservation: an unknown uuid is refused. */
  function Deleted(rs: seq<Reservation>, uuid: int, how: CallResult): (seq<Reservation>, bool) {
    if FindUuid(rs, uuid).None? then (rs, false)
    else (if how.Applied() then Without(rs, uuid) else rs, how.Returned?)
  }

  /** reserve_for_mac, up to the wording of the description. */
  function Reserve(rs: seq<Reservation>, ip: int, mac: string, host: string, desc: string,
                   existing: Option<int>, env: NetEnv): (seq<Reservation>, Result<Record, NetError>)
  {
    if !ValidMac(mac) then (rs, Failure(InvalidMac))
    else if existing.None? then Create(rs, Reservation(env.newUuid, Some(ip), MacNorm(mac), host, desc), ip, env.create)
    else if !env.relisted then (rs, Failure(Unavailable))
    else
      var known := FindUuid(rs, existing.value);
      if known.Some? && known.value.ip == Some(ip) && MacNorm(known.value.hw) == MacNorm(mac) then
        (rs, Success(Record(ip, MacNorm(mac), host, existing.value, known.value.description)))
      else
        var (cleared, ok) := Deleted(rs, existing.value, env.delete);
        if !ok then (cleared, Failure(Unavailable))
        else Create(cleared, Reservation(env.newUuid, Some(ip), MacNorm(mac), host, desc), ip, env.create)
  }

  function Create(rs: seq<Reservation>, r: Reservation, ip: int, how: CallResult): (seq<Reservation>, Result<Record, NetError>) {
    (if how.Applied() then rs + [r] else rs,
     if how.Returned? then Success(Record(ip, r.hw, r.hostname, r.uuid, r.description)) else Failure(Unavailable))
  }

  function Verify(rs: seq<Reservation>, ip: int, env: NetEnv): Option<NetError> {
    if !env.verified then Some(Unavailable) else if ip !in ReservedIps(rs) then Some(NotReserved) else None
  }

  /** One provisioning cycle: allocate, reserve for the MAC, verify. */
  function Cycle(rs: seq<Reservation>, lo: int, hi: int, mac: string, host: string, work: string, agent: string,
                 env: NetEnv): (seq<Reservation>, Result<Record, NetError>)
  {
    if !env.listed || env.leased.None? then (rs, Failure(Unavailable)) else
      match Allocation(rs, env.leased.value, env.alive, lo, hi)
      case Failure(e) => (rs, Failure(e))
      case Success((ip, existing)) =>
        var (rs', r) := Reserve(rs, ip, mac, host, Description(work, agent, host), existing, env);
        match r
        case Failure(e) => (rs', Failure(e))
        case Success(rec) =>
          match Verify(rs', ip, env)
          case Some(e) => (rs', Failure(e))
          case None => (rs', Success(rec))
  }

  /** The calls that pinning `mac` to `ip` takes: none if a reservation already does, a deletion if one pins another. */
  ghost predicate CallsReturn(rs: seq<Reservation>, ip: int, mac: string, env: NetEnv) {
    var reserved := ReservedIps(rs);
    if ip !in reserved then env.create.Returned?
    else
      var known := FindUuid(rs, reserved[ip].uuid);
      var kept := known.Some? && known.value.ip == Some(ip) && MacNorm(known.value.hw) == MacNorm(mac);
      env.relisted && (kept || (env.delete.Returned? && env.create.Returned?))
  }

  /** A cycle succeeds exactly when the pool has an address left, the MAC is valid and the calls it takes return. */
  lemma CycleExactly(rs: seq<Reservation>, lo: int, hi: int, mac: string, host: string, work: string, agent: string, env: NetEnv)
    ensures Cycle(rs, lo, hi, mac, host, work, agent, env).1.Success? <==>
              && env.listed && env.leased.Some? && AddressLeft(rs, env.leased.value, env.alive, lo, hi)
              && ValidMac(mac) && env.verified
              && CallsReturn(rs, Allocation(rs, env.leased.value, env.alive, lo, hi).value.0, mac, env)
  {
    if env.listed && env.leased.Some? {
      AllocationSucceedsExactly(rs, env.leased.value, env.alive, lo, hi);
    }
  }

  function Release(rs: seq<Reservation>, ip: int, listed: bool, how: CallResult): (seq<Reservation>, Option<NetError>) {
    if !listed then (rs, Some(Unavailable))
    else if ip !in ReservedIps(rs) then (rs, None)
    else
      var r := ReservedIps(rs)[ip];
      if !Tagged(r) then (rs, Some(ForeignReservation)) else
        var (rs', ok) := Deleted(rs, r.uuid, how);
        (rs', if ok then None else Some(Unavailable))
  }

  ghost predicate Sound(rs: seq<Reservation>) {
    UniqueUuids(rs) && UniqueIps(rs)
  }

  ghost predicate FreshUuid(rs: seq<Reservation>, uuid: int) {
    forall r :: r in rs ==> r.uuid != uuid
  }

  lemma UniqueByUuid(rs: seq<Reservation>, a: Reservation, b: Reservation)
    requires UniqueUuids(rs) && a in rs && b in rs && a.uuid == b.uuid
    ensures a == b
  {
  }

  lemma UniqueByIp(rs: seq<Reservation>, a: Reservation, b: Reservation)
    requires UniqueIps(rs) && a in rs && b in rs && a.ip == b.ip && a.ip.Some?
    ensures a == b
  {
  }

  lemma HeadDistinct(rs: seq<Reservation>, x: Reservation)
    requires Sound(rs) && rs != [] && x in rs[1..]
    ensures x.uuid != rs[0].uuid && (rs[0].ip.Some? ==> x.ip != rs[0].ip)
  {
    var j :| 0 <= j < |rs[1..]| && rs[1..][j] == x;
    assert rs[j + 1] == x;
  }

  lemma SoundCons(r: Reservation, rest: seq<Reservation>)
    requires Sound(rest)
    requires forall x :: x in rest ==> x.uuid != r.uuid && (r.ip.Some? ==> x.ip != r.ip)
    ensures Sound([r] + rest)
  {
    assert forall i :: 0 <= i < |rest| ==> rest[i] in rest;
  }

  lemma {:induction false} FilterSound(rs: seq<Reservation>, p: Reservation -> bool)
    requires Sound(rs)
    ensures Sound(Filter(rs, p))
  {
    if rs != [] {
      FilterSound(rs[1..], p);
      var rest := Filter(rs[1..], p);
      forall x | x in rest
        ensures x.uuid != rs[0].uuid && (rs[0].ip.Some? ==> x.ip != rs[0].ip)
      {
        HeadDistinct(rs, x);
      }
      SoundCons(rs[0], rest);
      assert [] + rest == rest;
    }
  }

  /** Deleting a tagged reservation touches nothing else. */
  lemma DeletedSafe(rs: seq<Reservation>, r: Reservation, ip: int, how: CallResult)
    requires Sound(rs) && r in rs && Tagged(r) && r.ip == Some(ip)
    ensures var rs' := Deleted(rs, r.uuid, how).0;
            && Sound(rs') && Foreign(rs') == Foreign(rs) && Others(rs', ip) == Others(rs, ip)
            && (how.Applied() ==> (forall x :: x in rs' ==> x.ip != Some(ip)) && forall x :: x in rs' ==> x in rs)
  {
    var kept := Without(rs, r.uuid);
    FilterSound(rs, (x: Reservation) => x.uuid != r.uuid);
    forall x | x in rs
      ensures (x.uuid == r.uuid <==> x.ip == Some(ip)) && (x.uuid == r.uuid ==> x == r)
    {
      if x.uuid == r.uuid { UniqueByUuid(rs, x, r); }
      if x.ip == Some(ip) { UniqueByIp(rs, x, r); }
    }
    FilterFilter(rs, (x: Reservation) => x.uuid != r.uuid, x => !Tagged(x), x => !Tagged(x));
    FilterFilter(rs, (x: Reservation) => x.uuid != r.uuid, (x: Reservation) => x.ip != Some(ip),
                 (x: Reservation) => x.ip != Some(ip));
  }

  /** Adding a tagged reservation for an address nobody holds touches nothing else. */
  lemma AddedSafe(rs: seq<Reservation>, r: Reservation, ip: int)
    requires Sound(rs) && FreshUuid(rs, r.uuid) && Tagged(r) && r.ip == Some(ip)
    requires forall x :: x in rs ==> x.ip != Some(ip)
    ensures Sound(rs + [r]) && Foreign(rs + [r]) == Foreign(rs) && Others(rs + [r], ip) == Others(rs, ip)
  {
    FilterConcat(rs, [r], x => !Tagged(x));
    FilterConcat(rs, [r], (x: Reservation) => x.ip != Some(ip));
    forall i | 0 <= i < |rs|
      ensures rs[i].uuid != r.uuid && rs[i].ip != r.ip
    {
      assert rs[i] in rs;
    }
  }

  /** The reservation a completed cycle leaves behind. */
  ghost predicate Holds(rs: seq<Reservation>, rec: Record, mac: string) {
    && rec.mac == MacNorm(mac) && ValidMac(mac)
    && exists r :: r in rs && Tagged(r) && r.uuid == rec.uuid && r.ip == Some(rec.ip) && MacNorm(r.hw) == MacNorm(mac)
  }

  /** What a reservation attempt guarantees, successful or not. */
  ghost predicate Undisturbed(rs: seq<Reservation>, rs': seq<Reservation>, ip: int) {
    Sound(rs') && Foreign(rs') == Foreign(rs) && Others(rs', ip) == Others(rs, ip)
  }

  lemma CreatedSafe(rs: seq<Reservation>, ip: int, mac: string, r: Reservation)
    requires Sound(rs) && FreshUuid(rs, r.uuid) && ValidMac(mac)
    requires Tagged(r) && r.ip == Some(ip) && r.hw == MacNorm(mac)
    requires forall x :: x in rs ==> x.ip != Some(ip)
    ensures Undisturbed(rs, rs + [r], ip)
    ensures Holds(rs + [r], Record(ip, MacNorm(mac), r.hostname, r.uuid, r.description), mac)
  {
    AddedSafe(rs, r, ip);
    MacNormIdempotent(mac);
    assert r in rs + [r];
  }

  ghost predicate Attempted(rs: seq<Reservation>, a: (seq<Reservation>, Result<Record, NetError>), ip: int, mac: string) {
    Undisturbed(rs, a.0, ip) && (a.1.Success? ==> a.1.value.ip == ip && Holds(a.0, a.1.value, mac))
  }

  lemma CreateAttempt(rs: seq<Reservation>, cleared: seq<Reservation>, ip: int, mac: string, r: Reservation, how: CallResult)
    requires Undisturbed(rs, cleared, ip) && FreshUuid(cleared, r.uuid) && ValidMac(mac)
    requires Tagged(r) && r.ip == Some(ip) && r.hw == MacNorm(mac)
    requires forall x :: x in cleared ==> x.ip != Some(ip)
    ensures Attempted(rs, Create(cleared, r, ip, how), ip, mac)
  {
    CreatedSafe(cleared, ip, mac, r);
  }

  lemma ReuseAttempt(rs: seq<Reservation>, ip: int, mac: string, r: Reservation, rec: Record)
    requires Sound(rs) && r in rs && Tagged(r) && r.ip == Some(ip) && ValidMac(mac) && MacNorm(r.hw) == MacNorm(mac)
    requires rec.ip == ip && rec.mac == MacNorm(mac) && rec.uuid == r.uuid
    ensures Attempted(rs, (rs, Success(rec)), ip, mac)
  {
  }

  lemma ReserveSafe(rs: seq<Reservation>, ip: int, mac: string, host: string, desc: string,
                    existing: Option<int>, env: NetEnv)
    requires Sound(rs) && FreshUuid(rs, env.newUuid) && StartsWith(desc, TAG)
    requires existing.None? ==> forall x :: x in rs ==> x.ip != Some(ip)
    requires existing.Some? ==> exists r :: r in rs && r.uuid == existing.value && r.ip == Some(ip) && Tagged(r)
    ensures Attempted(rs, Reserve(rs, ip, mac, host, desc, existing, env), ip, mac)
  {
    if ValidMac(mac) {
      var added := Reservation(env.newUuid, Some(ip), MacNorm(mac), host, desc);
      if existing.None? {
        CreateAttempt(rs, rs, ip, mac, added, env.create);
      } else {
        var r :| r in rs && r.uuid == existing.value && r.ip == Some(ip) && Tagged(r);
        var found := FindUuid(rs, existing.value);
        UniqueByUuid(rs, found.value, r);
        if MacNorm(r.hw) == MacNorm(mac) {
          ReuseAttempt(rs, ip, mac, r, Record(ip, MacNorm(mac), host, existing.value, r.description));
        } else {
          DeletedSafe(rs, r, ip, env.delete);
          if env.delete.Returned? {
            CreateAttempt(rs, Deleted(rs, existing.value, env.delete).0, ip, mac, added, env.create);
          }
        }
      }
    }
  }

  /** A cycle never disturbs a foreign reservation or another address, whatever call fails, and a completed one
      leaves one tagged reservation that pins the requested MAC to the chosen pool address. */
  lemma CycleSafe(rs: seq<Reservation>, lo: int, hi: int, mac: string, host: string, work: string, agent: string,
                  env: NetEnv)
    requires Sound(rs) && FreshUuid(rs, env.newUuid)
    ensures var (rs', res) := Cycle(rs, lo, hi, mac, host, work, agent, env);
            && Sound(rs') && Foreign(rs') == Foreign(rs)
            && (exists ip :: Others(rs', ip) == Others(rs, ip))
            && (res.Success? ==>
                  && lo <= res.value.ip <= hi && Holds(rs', res.value, mac)
                  && Others(rs', res.value.ip) == Others(rs, res.value.ip)
                  && !ForeignIp(ReservedIps(rs), res.value.ip))
  {
    assert Others(rs, lo) == Others(rs, lo);
    if env.listed && env.leased.Some? {
      var a, reserved := Allocation(rs, env.leased.value, env.alive, lo, hi), ReservedIps(rs);
      AllocationIsSafe(rs, env.leased.value, env.alive, lo, hi);
      if a.Success? {
        var (ip, existing) := a.value;
        if existing.None? {
          forall x | x in rs
            ensures x.ip != Some(ip)
          {
          }
        } else {
          assert reserved[ip] in rs;
        }
        ReserveSafe(rs, ip, mac, host, Description(work, agent, host), existing, env);
        var rs' := Reserve(rs, ip, mac, host, Description(work, agent, host), existing, env).0;
        assert Others(rs', ip) == Others(rs, ip);
      }
    }
  }

  /** Release deletes the tagged reservation of its address or nothing, and refuses a foreign one. */
  lemma ReleaseSafe(rs: seq<Reservation>, ip: int, listed: bool, how: CallResult)
    requires Sound(rs)
    ensures var (rs', e) := Release(rs, ip, listed, how);
            && Sound(rs') && Foreign(rs') == Foreign(rs) && Others(rs', ip) == Others(rs, ip)
            && (forall r :: r in rs' ==> r in rs)
            && (e.None? ==> ip !in ReservedIps(rs'))
            && (listed && ForeignIp(ReservedIps(rs), ip) ==> e == Some(ForeignReservation) && rs' == rs)
  {
    var reserved := ReservedIps(rs);
    if listed && ip in reserved && Tagged(reserved[ip]) {
      var r := reserved[ip];
      DeletedSafe(rs, r, ip, how);
      var found := FindUuid(rs, r.uuid);
    }
  }

  // ------------------------------------------------------------------ the service

  class KeaClient {
    var rows: seq<Reservation>

    constructor (rows: seq<Reservation>)
      ensures this.rows == rows
    {
      this.rows := rows;
    }

    method CreateReservation(ip: int, mac: string, host: string, description: string, uuid: int, how: CallResult)
      returns (ok: bool)
      modifies this
      ensures ok == how.Returned?
      ensures rows == if how.Applied() then old(rows) + [Reservation(uuid, Some(ip), MacNorm(mac), host, description)]
                      else old(rows)
    {
      if how.Applied() {
        rows := rows + [Reservation(uuid, Some(ip), MacNorm(mac), host, description)];
      }
      ok := how.Returned?;
    }

    method DeleteReservation(uuid: int, how: CallResult) returns (ok: bool)
      modifies this
      ensures (rows, ok) == Deleted(old(rows), uuid, how)
    {
      if FindUuid(rows, uuid).None? {
        return false;
      }
      if how.Applied() {
        rows := Without(rows, uuid);
      }
      ok := how.Returned?;
    }
  }

  class SandboxNetworkService {
    const client: KeaClient
    const lo: int
    const hi: int

    constructor (client: KeaClient, lo: int, hi: int)
      ensures this.client == client && this.lo == lo && this.hi == hi
    {
      this.client, this.lo, this.hi := client, lo, hi;
    }

    method ReservedTable() returns (m: map<int, Reservation>)
      ensures m == ReservedIps(client.rows)
    {
      m := map[];
      var i := 0;
      while i < |client.rows|
        invariant 0 <= i <= |client.rows|
        invariant m == ReservedIps(client.rows[..i])
      {
        var r := client.rows[i];
        if r.ip.Some? {
          m := m[r.ip.value := r];
        }
        i := i + 1;
        assert client.rows[..i][..i - 1] == client.rows[..i - 1];
      }
      assert client.rows[..i] == client.rows;
    }

    method AliveIps(ips: set<int>, onWire: set<int>) returns (alive: set<int>)
      ensures alive == ips * onWire
    {
      alive := {};
      var todo := ips;
      while todo != {}
        invariant todo <= ips
        invariant alive == (ips - todo) * onWire
        decreases |todo|
      {
        ghost var some := Pick(todo);
        var ip :| ip in todo;
        if ip in onWire {
          alive := alive + {ip};
        }
        todo := todo - {ip};
      }
    }

    /** The one liveness probe of an allocation, triggered by its first candidate. */
    method ProbeFrom(reserved: map<int, Reservation>, first: int, onWire: set<int>) returns (alive: set<int>)
      ensures forall x :: lo <= x <= hi && !ForeignIp(reserved, x) ==> (x in alive <==> x in Probed(reserved, onWire, first))
    {
      if first in reserved {
        alive := AliveIps((set x | lo <= x <= hi && (x !in reserved || Tagged(reserved[x]))), onWire);
      } else {
        alive := AliveIps({first}, onWire);
      }
    }

    /** The lowest free pool address; liveness is probed lazily, once. */
    method Allocate(leased: set<int>, onWire: set<int>) returns (res: Result<(int, Option<int>), NetError>)
      ensures res == Allocation(client.rows, leased, onWire, lo, hi)
    {
      var reserved := ReservedTable();
      ghost var first := Lowest(reserved, leased, {}, lo, hi);
      var alive: Option<set<int>> := None;
      var ip := lo;
      while ip <= hi
        invariant lo <= ip
        invariant alive.None? ==> forall x :: lo <= x < ip ==> !Candidate(reserved, leased, x)
        invariant alive.Some? ==> first.Some? && first.value < ip
        invariant alive.Some? ==> forall x :: lo <= x <= hi && Candidate(reserved, leased, x) ==>
                                    (x in alive.value <==> x in Probed(reserved, onWire, first.value))
        invariant alive.Some? ==> forall x :: lo <= x < ip && Candidate(reserved, leased, x) ==> x in alive.value
        decreases hi - ip
      {
        if ip in reserved && !Tagged(reserved[ip]) {
          ip := ip + 1;
          continue;
        }
        if ip in leased {
          ip := ip + 1;
          continue;
        }
        assert Candidate(reserved, leased, ip);
        if alive.None? {
          assert first == Some(ip);
          var live := ProbeFrom(reserved, ip, onWire);
          alive := Some(live);
        }
        if ip in alive.value {
          ip := ip + 1;
          continue;
        }
        return Success((ip, if ip in reserved then Some(reserved[ip].uuid) else None));
      }
      return Failure(PoolExhausted);
    }

    method ReserveForMac(ip: int, mac: string, host: string, work: string, agent: string, existing: Option<int>,
                         env: NetEnv) returns (res: Result<Record, NetError>)
      modifies client
      ensures (client.rows, res) == Reserve(old(client.rows), ip, mac, host, Description(work, agent, host), existing, env)
    {
      if !ValidMac(mac) {
        return Failure(InvalidMac);
      }
      if existing.Some? {
        if !env.relisted {
          return Failure(Unavailable);
        }
        var r := FindUuid(client.rows, existing.value);
        if r.Some? && r.value.ip == Some(ip) && MacNorm(r.value.hw) == MacNorm(mac) {
          return Success(Record(ip, MacNorm(mac), host, existing.value, r.value.description));
        }
        var ok := client.DeleteReservation(existing.value, env.delete);
        if !ok {
          return Failure(Unavailable);
        }
      }
      var desc := Description(work, agent, host);
      var made := client.CreateReservation(ip, mac, host, desc, env.newUuid, env.create);
      if !made {
        return Failure(Unavailable);
      }
      return Success(Record(ip, MacNorm(mac), host, env.newUuid, desc));
    }

    method VerifyReserved(ip: int, env: NetEnv) returns (e: Option<NetError>)
      ensures e == Verify(client.rows, ip, env)
    {
      if !env.verified {
        return Some(Unavailable);
      }
      var rows := ReservedTable();
      if ip !in rows {
        return Some(NotReserved);
      }
      return None;
    }

    method ReleaseAddress(ip: int, listed: bool, how: CallResult) returns (e: Option<NetError>)
      modifies client
      ensures (client.rows, e) == Release(old(client.rows), ip, listed, how)
    {
      if !listed {
        return Some(Unavailable);
      }
      var rows := ReservedTable();
      if ip !in rows {
        return None;
      }
      if !Tagged(rows[ip]) {
        return Some(ForeignReservation);
      }
      var ok := client.DeleteReservation(rows[ip].uuid, how);
      return if ok then None else Some(Unavailable);
    }
  }
}
