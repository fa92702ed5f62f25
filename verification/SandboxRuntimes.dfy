/** The address of a sandbox, from the job that pins it to the destroy that gives it back. */
module SandboxRuntimes {
  import opened Wrappers
  import opened SandboxNetwork
  import opened SandboxLaws
  import opened Fleet
  import opened Proxmox
  import opened Provisioning
  import opened ArmApi
  import opened Convergence

  /** The row records a reservation of ours that is in the table: its address, its uuid and its MAC. */
  ghost predicate Held(w: World, id: Id) {
    && id in w.rows && w.rows[id].sandboxIp.Some? && w.rows[id].reservation.Some? && w.rows[id].sandboxMac.Some?
    && exists r :: r in w.kea && "ACMS_SANDBOX" <= r.description && r.ip == w.rows[id].sandboxIp
                   && Some(r.uuid) == w.rows[id].reservation && MacNorm(r.hw) == MacNorm(w.rows[id].sandboxMac.value)
  }

  /** The number that decimal digits stand for. */
  function Decimal(digits: string): int {
    if digits == "" then 0 else Decimal(digits[..|digits| - 1]) * 10 + (digits[|digits| - 1] as int - '0' as int)
  }

  /** The host name of a runtime: its own name, or one that ends in the number of its VM. */
  predicate HostOf(host: string, row: Row, vmid: int) {
    if row.name != "" then host == row.name
    else if vmid < 0 then "sbx--" <= host && Decimal(host[5..]) == -vmid
    else "sbx-" <= host && Decimal(host[4..]) == vmid
  }

  /** The reservation says which host, which request and which agent it is for. */
  predicate Labelled(r: Reservation, row: Row, vmid: int) {
    var agent := if |row.agentId| <= 48 then row.agentId else row.agentId[..48];
    HostOf(r.hostname, row, vmid) && r.description == "ACMS_SANDBOX: work=" + row.requestId + " agent=" + agent + " host=" + r.hostname
  }

  lemma {:induction false} DigitsAreDecimal(n: nat)
    ensures Decimal(Digits(n)) == n
  {
    if n < 10 {
      assert Digits(n)[..0] == "";
    } else {
      var last := '0' + (n % 10) as char;
      assert (Digits(n / 10) + [last])[..|Digits(n / 10)|] == Digits(n / 10);
      DigitsAreDecimal(n / 10);
    }
  }

  lemma NamedAfterRow(row: Row, vmid: int)
    ensures HostOf(HostName(row, vmid), row, vmid)
  {
    if row.name == "" {
      var digits := Digits(if vmid < 0 then -vmid else vmid);
      DigitsAreDecimal(if vmid < 0 then -vmid else vmid);
      assert ("sbx-" + digits)[4..] == digits;
      assert "sbx-" + ("-" + digits) == "sbx--" + digits && ("sbx--" + digits)[5..] == digits;
    }
  }

  /** Held, at a pool address and for that MAC, with every reservation of another address as it was; one that was not in
      the table before is labelled with the runtime. */
  ghost predicate Pinned(kea: seq<Reservation>, w: World, id: Id, s: Settings, mac: string, vmid: int) {
    && Held(w, id)
    && s.poolLo <= w.rows[id].sandboxIp.value <= s.poolHi
    && MacNorm(w.rows[id].sandboxMac.value) == MacNorm(mac)
    && (forall r: Reservation :: r.ip != w.rows[id].sandboxIp ==> (r in w.kea <==> r in kea))
    && (forall r :: r in w.kea && r !in kea ==> Labelled(r, w.rows[id], vmid))
    && Sound(w.kea)
  }

  function Labels(row: Row): (string, string, string) {
    (row.name, row.requestId, row.agentId)
  }

  lemma SameLabel(r: Reservation, row: Row, row': Row, vmid: int)
    requires Labels(row) == Labels(row') && Labelled(r, row, vmid)
    ensures Labelled(r, row', vmid)
  {
  }

  lemma NewIsLabelled(w: World, id: Id, s: Settings, mac: string, vmid: int, env: JobEnv, r: Reservation)
    requires id in w.rows && Sound(w.kea) && FreshUuid(w.kea, env.net.newUuid)
    requires var row := w.rows[id];
             var (kea, res) := Cycle(w.kea, s.poolLo, s.poolHi, mac, HostName(row, vmid), row.requestId, AgentName(row), env.net);
             res.Success? && Sound(kea) && r in kea && r !in w.kea && r.ip == Some(res.value.ip)
    ensures Labelled(r, w.rows[id], vmid)
  {
    var row := w.rows[id];
    var host := HostName(row, vmid);
    var kea := Cycle(w.kea, s.poolLo, s.poolHi, mac, host, row.requestId, AgentName(row), env.net).0;
    CycleMade(w.kea, s.poolLo, s.poolHi, mac, host, row.requestId, AgentName(row), env.net);
    UniqueByIp(kea, r, kea[|kea| - 1]);
    NamedAfterRow(row, vmid);
  }

  lemma ReservePins(w: World, jid: Id, id: Id, s: Settings, node: string, vmid: int, env: JobEnv)
    requires jid in w.jobs && id in w.rows && w.rows[id].runtimeClass == "sandbox"
    requires Sound(w.kea) && FreshUuid(w.kea, env.net.newUuid)
    ensures var p := ReserveAddress(w, jid, id, s, node, vmid, env);
            p.Ok? ==> Pinned(w.kea, p.w, id, s, NicMac(w.rows[id], w.vms, node, vmid, env.configRead), vmid)
  {
    var r, mac := w.rows[id], NicMac(w.rows[id], w.vms, node, vmid, env.configRead);
    CycleLeaves(w.kea, s.poolLo, s.poolHi, mac, HostName(r, vmid), r.requestId, AgentName(r), env.net);
    CycleSafe(w.kea, s.poolLo, s.poolHi, mac, HostName(r, vmid), r.requestId, AgentName(r), env.net);
    MacNormIdempotent(mac);
    var p := ReserveAddress(w, jid, id, s, node, vmid, env);
    if p.Ok? {
      var (kea, res) := Cycle(w.kea, s.poolLo, s.poolHi, mac, HostName(r, vmid), r.requestId, AgentName(r), env.net);
      assert p.w.kea == kea && p.w.rows[id].sandboxIp == Some(res.value.ip) && p.w.rows[id].sandboxMac == Some(res.value.mac)
          && p.w.rows[id].reservation == Some(res.value.uuid);
      assert Labels(p.w.rows[id]) == Labels(r);
      forall x | x in kea && x !in w.kea
        ensures Labelled(x, p.w.rows[id], vmid)
      {
        NewIsLabelled(w, id, s, mac, vmid, env, x);
        SameLabel(x, r, p.w.rows[id], vmid);
      }
    }
  }

  lemma FromReserveKeeps(w: World, jid: Id, id: Id, node: string, vmid: int, env: JobEnv)
    requires jid in w.jobs && id in w.rows
    ensures FromReserve(w, jid, id, node, vmid, env).w.rows == w.rows && FromReserve(w, jid, id, node, vmid, env).w.kea == w.kea
  {
  }

  lemma FromConfigPins(w: World, jid: Id, id: Id, s: Settings, node: string, vmid: int, env: JobEnv)
    requires jid in w.jobs && id in w.rows && w.rows[id].runtimeClass == "sandbox"
    requires Sound(w.kea) && FreshUuid(w.kea, env.net.newUuid)
    ensures var p := FromConfig(w, jid, id, s, node, vmid, env);
            p.Ok? ==> Pinned(w.kea, p.w, id, s, NicMac(w.rows[id], w.vms, node, vmid, env.configRead), vmid)
  {
    ReservePins(w, jid, id, s, node, vmid, env);
    var p := ReserveAddress(w, jid, id, s, node, vmid, env);
    if p.Ok? {
      FromReserveKeeps(p.w, jid, id, node, vmid, env);
      assert FromConfig(w, jid, id, s, node, vmid, env) == FromReserve(p.w, jid, id, node, vmid, env);
    }
  }

  lemma FromClonePins(w: World, jid: Id, id: Id, s: Settings, node: string, vmid: int, env: JobEnv)
    requires jid in w.jobs && id in w.rows && env.nextVmid == Some(vmid) && vmid in w.vms && w.vms[vmid].node == node
    requires w.rows[id].runtimeClass == "sandbox" && Sound(w.kea) && FreshUuid(w.kea, env.net.newUuid)
    ensures var p := FromClone(w, jid, id, s, node, vmid, env);
            p.Ok? ==> Pinned(w.kea, p.w, id, s, GenerateMac(env.b0, env.b1, env.b2), vmid)
  {
    ConfigureExactly(w, jid, id, node, vmid, env);
    var p := ConfigureVm(w, jid, id, node, vmid, env);
    if p.Ok? {
      PinnedMac(w, p, jid, id, s, node, vmid, env);
      FromConfigPins(p.w, jid, id, s, node, vmid, env);
    }
  }

  lemma ProvisionPins(w: World, jid: Id, id: Id, s: Settings, env: JobEnv)
    requires jid in w.jobs && id in w.rows && w.rows[id].runtimeClass == "sandbox"
    requires Sound(w.kea) && FreshUuid(w.kea, env.net.newUuid)
    ensures var p := Provision(w, jid, id, s, env);
            p.Ok? ==> env.nextVmid.Some? && Pinned(w.kea, p.w, id, s, GenerateMac(env.b0, env.b1, env.b2), env.nextVmid.value)
  {
    CloneExactly(w, jid, id, env);
    var p := PlaceAndClone(w, jid, id, env);
    if p.Ok? {
      FromClonePins(p.w, jid, id, s, Decide(w, w.rows[id], env).node, env.nextVmid.value, env);
    }
  }

  /** A sandbox whose job ended DONE: its row records the very reservation in the table that pins the MAC of its NIC to a
      pool address, a new one names the runtime, and no reservation of another address was touched. */
  lemma DoneSandboxHeld(w: World, jid: Id, s: Settings, env: JobEnv)
    requires jid in w.jobs && w.jobs[jid].state == Queued && w.jobs[jid].runtimeId in w.rows
    requires w.rows[w.jobs[jid].runtimeId].runtimeClass == "sandbox"
    requires Sound(w.kea) && FreshUuid(w.kea, env.net.newUuid)
    ensures var id, w' := w.jobs[jid].runtimeId, RunJob(w, jid, s, env);
            jid in w'.jobs && w'.jobs[jid].state == Done ==>
              && Held(w', id) && Sound(w'.kea)
              && s.poolLo <= w'.rows[id].sandboxIp.value <= s.poolHi
              && (forall r: Reservation :: r.ip != w'.rows[id].sandboxIp ==> (r in w'.kea <==> r in w.kea))
              && (forall r :: r in w'.kea && r !in w.kea ==> w'.rows[id].vmid.Some? && Labelled(r, w'.rows[id], w'.rows[id].vmid.value))
              && Backed(w'.rows[id]) && w'.rows[id].vmid.value in w'.vms
              && var nic := w'.vms[w'.rows[id].vmid.value].mac;
                 nic.Some? && MacNorm(nic.value) == MacNorm(w'.rows[id].sandboxMac.value)
  {
    var id, w0 := w.jobs[jid].runtimeId, SetJob(w, jid, JobRunning);
    ProvisionPins(w0, jid, id, s, env);
    DoneExactly(w, jid, s, env);
    DoneRow(w, jid, s, env);
    var p, w' := Provision(w0, jid, id, s, env), RunJob(w, jid, s, env);
    if p.Ok? {
      forall r | r in w'.kea && r !in w.kea
        ensures Labelled(r, w'.rows[id], env.nextVmid.value)
      {
        SameLabel(r, p.w.rows[id], w'.rows[id], env.nextVmid.value);
      }
    }
  }

  lemma DoneRow(w: World, jid: Id, s: Settings, env: JobEnv)
    requires jid in w.jobs && w.jobs[jid].state == Queued && w.jobs[jid].runtimeId in w.rows
    ensures var id, w' := w.jobs[jid].runtimeId, RunJob(w, jid, s, env);
            var p := Provision(SetJob(w, jid, JobRunning), jid, id, s, env);
            && (p.Ok? <==> w'.jobs[jid].state == Done)
            && (p.Ok? ==> w'.kea == p.w.kea && id in w'.rows && w'.rows[id].vmid == env.nextVmid && w'.rows[id].node.Some?
                          && w'.rows[id].sandboxIp == p.w.rows[id].sandboxIp && w'.rows[id].sandboxMac == p.w.rows[id].sandboxMac
                          && w'.rows[id].reservation == p.w.rows[id].reservation && Labels(w'.rows[id]) == Labels(p.w.rows[id]))
  {
  }

  /** Destroying a runtime gives back the reservation its row records, and no other. */
  lemma DestroyReleases(w: World, id: Id, s: Settings, env: DestroyEnv)
    requires Held(w, id) && Sound(w.kea)
    requires DestroyRuntime(w, id, s, env).1 == Accepted && env.listed && env.release == Returned
    ensures forall r :: r in DestroyRuntime(w, id, s, env).0.kea <==> r in w.kea && r.ip != w.rows[id].sandboxIp
    ensures forall r :: r in w.kea && r !in DestroyRuntime(w, id, s, env).0.kea ==> Some(r.uuid) == w.rows[id].reservation
  {
    var row := w.rows[id];
    var held :| held in w.kea && "ACMS_SANDBOX" <= held.description && held.ip == row.sandboxIp && Some(held.uuid) == row.reservation;
    forall r | r in w.kea && r.ip == row.sandboxIp
      ensures r == held
    {
      UniqueByIp(w.kea, r, held);
    }
    ReleaseExactly(w.kea, row.sandboxIp.value);
    DestroyKea(w, id, s, env);
  }

  lemma DestroyKea(w: World, id: Id, s: Settings, env: DestroyEnv)
    requires id in w.rows && w.rows[id].sandboxIp.Some? && w.rows[id].reservation.Some?
    requires DestroyRuntime(w, id, s, env).1 == Accepted
    ensures DestroyRuntime(w, id, s, env).0.kea == Release(w.kea, w.rows[id].sandboxIp.value, env.listed, env.release).0
  {
  }

  /** A sandbox provisioned and then destroyed leaves the table as it was, but for the address it had. */
  lemma AddressRoundTrip(w: World, jid: Id, s: Settings, env: JobEnv, destroyEnv: DestroyEnv)
    requires jid in w.jobs && w.jobs[jid].state == Queued && w.jobs[jid].runtimeId in w.rows
    requires w.rows[w.jobs[jid].runtimeId].runtimeClass == "sandbox"
    requires Sound(w.kea) && FreshUuid(w.kea, env.net.newUuid)
    requires var w' := RunJob(w, jid, s, env);
             jid in w'.jobs && w'.jobs[jid].state == Done && DestroyRuntime(w', w.jobs[jid].runtimeId, s, destroyEnv).1 == Accepted
    requires destroyEnv.listed && destroyEnv.release == Returned
    ensures var id, w' := w.jobs[jid].runtimeId, RunJob(w, jid, s, env);
            var w'' := DestroyRuntime(w', id, s, destroyEnv).0;
            id in w'.rows && forall r :: r in w''.kea <==> r in w.kea && r.ip != w'.rows[id].sandboxIp
  {
    DoneSandboxHeld(w, jid, s, env);
    DestroyReleases(RunJob(w, jid, s, env), w.jobs[jid].runtimeId, s, destroyEnv);
  }
}
