/** What the address service promises, in the terms of the reservation table and of the addresses themselves. */
module SandboxLaws {
  import opened Wrappers
  import opened Sequences
  import opened SandboxNetwork

  // ------------------------------------------------------------------ MAC addresses

  predicate Blank(s: string) {
    forall i :: 0 <= i < |s| ==> s[i] in {' ', '\t', '\n', '\r'}
  }

  predicate Trimmed(s: string) {
    s != "" && s[0] !in {' ', '\t', '\n', '\r'} && s[|s| - 1] !in {' ', '\t', '\n', '\r'}
  }

  lemma {:induction false} StripTrims(pre: string, core: string, post: string)
    requires Blank(pre) && Blank(post) && Trimmed(core)
    ensures Strip(pre + core + post) == core
    decreases |pre| + |post|
  {
    var s := pre + core + post;
    if pre != "" {
      assert s[0] == pre[0] && s[1..] == pre[1..] + core + post;
      StripTrims(pre[1..], core, post);
    } else if post != "" {
      var n := |post| - 1;
      assert s[0] == core[0] && s[|s| - 1] == post[n] && s[..|s| - 1] == pre + core + post[..n];
      StripTrims(pre, core, post[..n]);
    } else {
      assert s == core;
    }
  }

  /** The normal form drops the blanks around an address, lowers its letters and turns dashes into colons. */
  lemma NormalForm(pre: string, core: string, post: string)
    requires Blank(pre) && Blank(post) && Trimmed(core)
    ensures var n := MacNorm(pre + core + post);
            && |n| == |core|
            && forall i :: 0 <= i < |n| ==>
                 n[i] == if 'A' <= core[i] <= 'Z' then core[i] - 'A' + 'a' else if core[i] == '-' then ':' else core[i]
  {
    StripTrims(pre, core, post);
  }

  predicate HexLetter(c: char) {
    '0' <= c <= '9' || 'a' <= c <= 'f' || 'A' <= c <= 'F'
  }

  /** An address is accepted exactly if it is six pairs of hex digits, in either case, between colons or dashes. */
  lemma ValidExactly(pre: string, core: string, post: string)
    requires Blank(pre) && Blank(post) && Trimmed(core)
    ensures ValidMac(pre + core + post) <==>
              |core| == 17 && forall i :: 0 <= i < 17 ==> if i % 3 == 2 then core[i] == ':' || core[i] == '-' else HexLetter(core[i])
  {
    NormalForm(pre, core, post);
    var n := MacNorm(pre + core + post);
    if |core| == 17 {
      forall i | 0 <= i < 17
        ensures n[i] == ':' <==> core[i] == ':' || core[i] == '-'
        ensures IsHex(n[i]) <==> HexLetter(core[i])
      {
      }
    }
  }

  // ------------------------------------------------------------------ the table

  predicate Ours(r: Reservation) {
    "ACMS_SANDBOX" <= r.description
  }

  lemma OursIsTagged(r: Reservation)
    ensures Ours(r) <==> Tagged(r)
  {
  }

  /** Somebody else's reservation is on the address. */
  ghost predicate TakenByOthers(rs: seq<Reservation>, ip: int) {
    exists r :: r in rs && r.ip == Some(ip) && !Ours(r)
  }

  lemma HolderOf(rs: seq<Reservation>, r: Reservation, ip: int)
    requires Sound(rs) && r in rs && r.ip == Some(ip)
    ensures ip in ReservedIps(rs) && ReservedIps(rs)[ip] == r
  {
    UniqueByIp(rs, ReservedIps(rs)[ip], r);
  }

  lemma ForeignIsTaken(rs: seq<Reservation>, ip: int)
    requires Sound(rs)
    ensures ForeignIp(ReservedIps(rs), ip) <==> TakenByOthers(rs, ip)
  {
    if r :| r in rs && r.ip == Some(ip) && !Ours(r) {
      HolderOf(rs, r, ip);
    }
  }

  /** An address is given only from the pool, never one that others hold or that is leased, with the uuid of our own
      reservation if it has one; every lower address is held by others, leased or alive, and if none is given all are. */
  lemma AllocationPolicy(rs: seq<Reservation>, leased: set<int>, alive: set<int>, lo: int, hi: int)
    requires Sound(rs)
    ensures match Allocation(rs, leased, alive, lo, hi)
            case Failure(e) =>
              e == PoolExhausted && forall x :: lo <= x <= hi ==> TakenByOthers(rs, x) || x in leased || x in alive
            case Success((ip, uuid)) =>
              && lo <= ip <= hi && ip !in leased
              && (forall r :: r in rs && r.ip == Some(ip) ==> Ours(r) && uuid == Some(r.uuid))
              && (uuid.Some? ==> exists r :: r in rs && r.ip == Some(ip) && uuid == Some(r.uuid))
              && forall x :: lo <= x < ip ==> TakenByOthers(rs, x) || x in leased || x in alive
  {
    AllocationIsSafe(rs, leased, alive, lo, hi);
    forall x
      ensures ForeignIp(ReservedIps(rs), x) <==> TakenByOthers(rs, x)
    {
      ForeignIsTaken(rs, x);
    }
    var a := Allocation(rs, leased, alive, lo, hi);
    if a.Success? {
      forall r | r in rs && r.ip == Some(a.value.0)
        ensures Ours(r) && a.value.1 == Some(r.uuid)
      {
        HolderOf(rs, r, a.value.0);
      }
    }
  }

  /** The text of a reservation for a work item. */
  function Text(work: string, agent: string, host: string): string {
    "ACMS_SANDBOX: work=" + work + " agent=" + agent + " host=" + host
  }

  /** What a completed cycle leaves: one reservation of ours on an address of the pool, for the MAC that was asked for.
      If we already held the address for that MAC nothing changes, otherwise the reservation is new and says whose it is. */
  lemma CycleLeaves(rs: seq<Reservation>, lo: int, hi: int, mac: string, host: string, work: string, agent: string, env: NetEnv)
    requires Sound(rs) && FreshUuid(rs, env.newUuid)
    ensures var (rs', res) := Cycle(rs, lo, hi, mac, host, work, agent, env);
            res.Success? ==>
              && lo <= res.value.ip <= hi && res.value.mac == MacNorm(mac)
              && (exists r :: r in rs' && Ours(r) && r.ip == Some(res.value.ip) && r.uuid == res.value.uuid && MacNorm(r.hw) == MacNorm(mac))
              && (forall r :: r in rs && r.ip != Some(res.value.ip) ==> r in rs')
              && (forall r :: r in rs' && r.ip != Some(res.value.ip) ==> r in rs)
              && (if exists r :: r in rs && r.ip == Some(res.value.ip) && MacNorm(r.hw) == MacNorm(mac) then rs' == rs
                  else rs' != [] && rs'[|rs'| - 1] == Reservation(env.newUuid, Some(res.value.ip), MacNorm(mac), host, Text(work, agent, host)))
  {
    CycleSafe(rs, lo, hi, mac, host, work, agent, env);
    var (rs', res) := Cycle(rs, lo, hi, mac, host, work, agent, env);
    if res.Success? {
      OthersSame(rs, rs', res.value.ip);
      CycleMade(rs, lo, hi, mac, host, work, agent, env);
    }
  }

  lemma TextIsDescription(work: string, agent: string, host: string)
    ensures Description(work, agent, host) == Text(work, agent, host)
  {
    assert TAG + ": work=" == "ACMS_SANDBOX: work=";
  }

  lemma OthersSame(rs: seq<Reservation>, rs': seq<Reservation>, ip: int)
    requires Others(rs', ip) == Others(rs, ip)
    ensures forall r: Reservation :: r.ip != Some(ip) ==> (r in rs <==> r in rs')
  {
    forall r: Reservation | r.ip != Some(ip)
      ensures r in rs <==> r in rs'
    {
      assert r in Others(rs, ip) <==> r in rs;
      assert r in Others(rs', ip) <==> r in rs';
    }
  }

  /** A reservation made where we held none, or held one for another MAC, is the last of the table and says whose it is. */
  lemma ReserveMade(rs: seq<Reservation>, ip: int, mac: string, host: string, desc: string, existing: Option<int>, env: NetEnv)
    requires Reserve(rs, ip, mac, host, desc, existing, env).1.Success?
    requires existing.Some? ==> FindUuid(rs, existing.value).Some? && MacNorm(FindUuid(rs, existing.value).value.hw) != MacNorm(mac)
    ensures var rs' := Reserve(rs, ip, mac, host, desc, existing, env).0;
            rs' != [] && rs'[|rs'| - 1] == Reservation(env.newUuid, Some(ip), MacNorm(mac), host, desc)
  {
  }

  lemma ReserveKept(rs: seq<Reservation>, ip: int, mac: string, host: string, desc: string, existing: int, env: NetEnv)
    requires Reserve(rs, ip, mac, host, desc, Some(existing), env).1.Success?
    requires FindUuid(rs, existing).Some? && FindUuid(rs, existing).value.ip == Some(ip) && MacNorm(FindUuid(rs, existing).value.hw) == MacNorm(mac)
    ensures Reserve(rs, ip, mac, host, desc, Some(existing), env).0 == rs
  {
  }

  /** The reservation of ours that an allocation names is the only one on its address. */
  lemma NamedReservation(rs: seq<Reservation>, ip: int, uuid: int, r: Reservation)
    requires Sound(rs) && r in rs && r.ip == Some(ip) && r.uuid == uuid
    ensures FindUuid(rs, uuid) == Some(r) && forall x :: x in rs && x.ip == Some(ip) ==> x == r
  {
    UniqueByUuid(rs, FindUuid(rs, uuid).value, r);
    forall x | x in rs && x.ip == Some(ip)
      ensures x == r
    {
      UniqueByIp(rs, x, r);
    }
  }

  lemma CycleMade(rs: seq<Reservation>, lo: int, hi: int, mac: string, host: string, work: string, agent: string, env: NetEnv)
    requires Sound(rs) && FreshUuid(rs, env.newUuid) && Cycle(rs, lo, hi, mac, host, work, agent, env).1.Success?
    ensures var (rs', res) := Cycle(rs, lo, hi, mac, host, work, agent, env);
            if exists r :: r in rs && r.ip == Some(res.value.ip) && MacNorm(r.hw) == MacNorm(mac) then rs' == rs
            else rs' != [] && rs'[|rs'| - 1] == Reservation(env.newUuid, Some(res.value.ip), MacNorm(mac), host, Text(work, agent, host))
  {
    AllocationPolicy(rs, env.leased.value, env.alive, lo, hi);
    var (ip, existing) := Allocation(rs, env.leased.value, env.alive, lo, hi).value;
    var desc := Description(work, agent, host);
    TextIsDescription(work, agent, host);
    CycleAddress(rs, lo, hi, mac, host, work, agent, env);
    if existing.Some? {
      var r :| r in rs && r.ip == Some(ip) && existing == Some(r.uuid);
      NamedReservation(rs, ip, existing.value, r);
      if MacNorm(r.hw) == MacNorm(mac) {
        ReserveKept(rs, ip, mac, host, desc, existing.value, env);
      } else {
        ReserveMade(rs, ip, mac, host, desc, existing, env);
      }
    } else {
      ReserveMade(rs, ip, mac, host, desc, existing, env);
    }
  }

  /** A completed cycle is a reservation at the allocated address. */
  lemma CycleAddress(rs: seq<Reservation>, lo: int, hi: int, mac: string, host: string, work: string, agent: string, env: NetEnv)
    requires Cycle(rs, lo, hi, mac, host, work, agent, env).1.Success?
    ensures env.leased.Some? && Allocation(rs, env.leased.value, env.alive, lo, hi).Success?
    ensures var (ip, existing) := Allocation(rs, env.leased.value, env.alive, lo, hi).value;
            var reserved := Reserve(rs, ip, mac, host, Description(work, agent, host), existing, env);
            && reserved.1.Success? && reserved.0 == Cycle(rs, lo, hi, mac, host, work, agent, env).0
            && Cycle(rs, lo, hi, mac, host, work, agent, env).1.value.ip == ip
  {
  }

  /** A release whose calls return removes our reservation of the address and no other, leaves a free address alone, and
      refuses somebody else's. */
  lemma ReleaseExactly(rs: seq<Reservation>, ip: int)
    requires Sound(rs)
    ensures var (rs', e) := Release(rs, ip, true, Returned);
            if TakenByOthers(rs, ip) then rs' == rs && e == Some(ForeignReservation)
            else e == None && forall r :: r in rs' <==> r in rs && r.ip != Some(ip)
  {
    ForeignIsTaken(rs, ip);
    ReleaseSafe(rs, ip, true, Returned);
    var (rs', e) := Release(rs, ip, true, Returned);
    if !TakenByOthers(rs, ip) {
      OthersSame(rs, rs', ip);
      if ip in ReservedIps(rs) {
        var r := ReservedIps(rs)[ip];
        OursIsTagged(r);
        assert FindUuid(rs, r.uuid).Some?;
      }
    }
  }

  /** Why a cycle fails: the lists or a call, an exhausted pool, or a MAC that is none; never because the address it just
      reserved is not there. */
  lemma CycleErrors(rs: seq<Reservation>, lo: int, hi: int, mac: string, host: string, work: string, agent: string, env: NetEnv)
    ensures var res := Cycle(rs, lo, hi, mac, host, work, agent, env).1;
            var listed := env.listed && env.leased.Some?;
            res.Failure? ==>
              && (res.error == PoolExhausted <==> listed && !AddressLeft(rs, env.leased.value, env.alive, lo, hi))
              && (res.error == InvalidMac <==> listed && AddressLeft(rs, env.leased.value, env.alive, lo, hi) && !ValidMac(mac))
              && res.error != NotReserved && res.error != ForeignReservation
  {
    if env.listed && env.leased.Some? {
      AllocationSucceedsExactly(rs, env.leased.value, env.alive, lo, hi);
    }
  }
}
