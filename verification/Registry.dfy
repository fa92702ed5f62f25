/** The model registry (service/app/v011_core.py) and the gateway configuration generated from it
    (service/app/litellm_sync.py). */
module Registry {
  import opened Wrappers

  datatype Health = Healthy | Unhealthy | Unknown

  /** probe_host: the models a host lists (none when it does not answer), the status of the one-token completion,
      and whether anything went wrong. */
  datatype Probe = Probe(models: seq<string>, completion: Option<string>, failed: bool)

  datatype Host = Host(id: int, ip: string, desired: string, mode: string)

  datatype Visit = Visit(host: Host, probe: Probe)

  /** A row of model_registry, keyed by (logical_model_name, host_id). */
  type Key = (string, Option<int>)

  datatype Listing = Listing(engine: string, health: Health, routable: bool, isAlias: bool, target: Option<string>)

  type Table = map<Key, Listing>

  const LLAMACPP_IP := "10.0.20.165"

  const ALIASES: seq<(string, Option<string>)> :=
    [("fast", Some("qwen3.6-35b-a3b")), ("code", Some("qwen3.8-flash-next")), ("frontier", None)]

  predicate Up(p: Probe) {
    p.models != [] && p.completion == Some("ok")
  }

  function HealthOf(p: Probe): Health {
    if Up(p) then Healthy else if p.failed || p.completion.Some? then Unhealthy else Unknown
  }

  predicate HostRoutable(v: Visit) {
    Up(v.probe) && v.host.desired == "RUNNING" && v.host.mode == "MANAGED"
  }

  // ------------------------------------------------------------------ sync_registry

  function Engine(ip: string): string {
    if ip == LLAMACPP_IP then "llamacpp" else "vllm"
  }

  function Upserted(t: Table, name: string, v: Visit): Table {
    var key := (name, Some(v.host.id));
    var was := if key in t then t[key] else Listing("", Unknown, false, false, None);
    t[key := was.(engine := Engine(v.host.ip), health := HealthOf(v.probe), routable := HostRoutable(v))]
  }

  function SyncModels(t: Table, names: seq<string>, v: Visit): Table
    decreases |names|
  {
    if names == [] then t else SyncModels(Upserted(t, names[0], v), names[1..], v)
  }

  /** A host that reports nothing keeps its rows, none of them routable. */
  function MarkedDown(t: Table, v: Visit): Table {
    map k | k in t :: if k.1 == Some(v.host.id) then t[k].(health := HealthOf(v.probe), routable := false) else t[k]
  }

  function SyncHost(t: Table, v: Visit): Table {
    if v.probe.models != [] then SyncModels(t, v.probe.models, v) else MarkedDown(t, v)
  }

  function SyncHosts(t: Table, visits: seq<Visit>): Table
    decreases |visits|
  {
    if visits == [] then t else SyncHosts(SyncHost(t, visits[0]), visits[1..])
  }

  function WithoutAliases(t: Table): Table {
    map k | k in t && !t[k].isAlias :: t[k]
  }

  predicate TargetRoutable(t: Table, target: string) {
    exists k :: k in t && k.0 == target && t[k].routable
  }

  function AliasRow(t: Table, target: string): Listing {
    var ok := TargetRoutable(t, target);
    Listing("alias", if ok then Healthy else Unhealthy, ok, true, Some(target))
  }

  function WithAliases(t: Table, aliases: seq<(string, Option<string>)>): Table
    decreases |aliases|
  {
    if aliases == [] then t
    else
      var (alias, target) := aliases[0];
      WithAliases(if target.None? then t else t[(alias, None) := AliasRow(t, target.value)], aliases[1..])
  }

  function Synced(t: Table, visits: seq<Visit>, aliasesOn: bool): Table {
    var t' := WithoutAliases(SyncHosts(t, visits));
    if aliasesOn then WithAliases(t', ALIASES) else t'
  }

  class ModelRegistry {
    var rows: Table

    constructor ()
      ensures rows == map[]
    {
      rows := map[];
    }

    /** A sync that commits; one that raises rolls everything back. */
    method SyncRegistry(visits: seq<Visit>, aliasesOn: bool)
      modifies this
      ensures rows == Synced(old(rows), visits, aliasesOn)
    {
      var i := 0;
      while i < |visits|
        invariant 0 <= i <= |visits|
        invariant SyncHosts(rows, visits[i..]) == SyncHosts(old(rows), visits)
      {
        assert visits[i..][0] == visits[i] && visits[i..][1..] == visits[i + 1..];
        SyncOne(visits[i]);
        i := i + 1;
      }
      rows := WithoutAliases(rows);
      if aliasesOn {
        InsertAliases();
      }
    }

    method SyncOne(v: Visit)
      modifies this
      ensures rows == SyncHost(old(rows), v)
    {
      if v.probe.models == [] {
        rows := MarkedDown(rows, v);
        return;
      }
      var j, names := 0, v.probe.models;
      while j < |names|
        invariant 0 <= j <= |names|
        invariant SyncModels(rows, names[j..], v) == SyncModels(old(rows), names, v)
      {
        assert names[j..][0] == names[j] && names[j..][1..] == names[j + 1..];
        rows := Upserted(rows, names[j], v);
        j := j + 1;
      }
    }

    method InsertAliases()
      modifies this
      ensures rows == WithAliases(old(rows), ALIASES)
    {
      var i := 0;
      while i < |ALIASES|
        invariant 0 <= i <= |ALIASES|
        invariant WithAliases(rows, ALIASES[i..]) == WithAliases(old(rows), ALIASES)
      {
        assert ALIASES[i..][0] == ALIASES[i] && ALIASES[i..][1..] == ALIASES[i + 1..];
        var (alias, target) := ALIASES[i];
        if target.Some? {
          rows := rows[(alias, None) := AliasRow(rows, target.value)];
        }
        i := i + 1;
      }
    }
  }

  // ------------------------------------------------------------------ what a sync leaves in the table

  /** host_id and guest_ip are unique in the hosts table. */
  ghost predicate UniqueHosts(visits: seq<Visit>) {
    forall i, j :: 0 <= i < j < |visits| ==> visits[i].host.id != visits[j].host.id && visits[i].host.ip != visits[j].host.ip
  }

  /** Real rows belong to a known host, aliases to none. */
  ghost predicate WellFormed(t: Table, visits: seq<Visit>) {
    && (forall k :: k in t && !t[k].isAlias ==> k.1.Some? && exists v :: v in visits && v.host.id == k.1.value)
    && (forall k :: k in t && t[k].isAlias ==> k.1.None?)
  }

  /** A row that says what the probe of its host found: routable only on a host that answers the completion, is wanted
      running and is managed. */
  predicate Judged(l: Listing, v: Visit) {
    && (l.routable <==> v.probe.completion == Some("ok") && v.host.desired == "RUNNING" && v.host.mode == "MANAGED")
    && l.health == (if v.probe.completion == Some("ok") then Healthy
                    else if v.probe.failed || v.probe.completion != None then Unhealthy else Unknown)
    && l.engine == (if v.host.ip == "10.0.20.165" then "llamacpp" else "vllm")
  }

  /** What the sync of `v` makes of a row of its host: reported models take the verdict on the host, a host that
      reports nothing has no routable row, and a row the probe does not mention is not looked at. */
  ghost predicate RowAfter(t: Table, t': Table, v: Visit, name: string) {
    var k := (name, Some(v.host.id));
    if name in v.probe.models then k in t' && Judged(t'[k], v) && t'[k].isAlias == (k in t && t[k].isAlias)
    else if v.probe.models == [] then
      && (k in t' <==> k in t)
      && (k in t ==> t'[k] == t[k].(routable := false, health := if v.probe.failed || v.probe.completion != None then Unhealthy else Unknown))
    else (k in t' <==> k in t) && (k in t ==> t'[k] == t[k])
  }

  lemma {:induction false} SyncModelsAt(t: Table, names: seq<string>, v: Visit, k: Key)
    requires v.probe.models != []
    ensures var t' := SyncModels(t, names, v);
            if k.1 == Some(v.host.id) && k.0 in names
            then k in t' && Judged(t'[k], v) && t'[k].isAlias == (k in t && t[k].isAlias)
            else (k in t' <==> k in t) && (k in t ==> t'[k] == t[k])
    decreases |names|
  {
    if names != [] {
      SyncModelsAt(Upserted(t, names[0], v), names[1..], v, k);
    }
  }

  lemma SyncHostAt(t: Table, v: Visit, name: string)
    ensures RowAfter(t, SyncHost(t, v), v, name)
    ensures forall k: Key :: k.1 != Some(v.host.id) ==> (k in SyncHost(t, v) <==> k in t) && (k in t ==> SyncHost(t, v)[k] == t[k])
  {
    if v.probe.models != [] {
      SyncModelsAt(t, v.probe.models, v, (name, Some(v.host.id)));
    }
    forall k: Key | k.1 != Some(v.host.id)
      ensures (k in SyncHost(t, v) <==> k in t) && (k in t ==> SyncHost(t, v)[k] == t[k])
    {
      if v.probe.models != [] {
        SyncModelsAt(t, v.probe.models, v, k);
      }
    }
  }

  /** Rows of hosts that are not visited stay as they are. */
  lemma {:induction false} SyncHostsElsewhere(t: Table, visits: seq<Visit>, k: Key)
    requires forall v :: v in visits ==> k.1 != Some(v.host.id)
    ensures (k in SyncHosts(t, visits) <==> k in t) && (k in t ==> SyncHosts(t, visits)[k] == t[k])
    decreases |visits|
  {
    if visits != [] {
      SyncHostAt(t, visits[0], k.0);
      SyncHostsElsewhere(SyncHost(t, visits[0]), visits[1..], k);
    }
  }

  lemma {:induction false} SyncHostsAt(t: Table, visits: seq<Visit>, i: nat, name: string)
    requires UniqueHosts(visits) && i < |visits|
    ensures RowAfter(t, SyncHosts(t, visits), visits[i], name)
    decreases |visits|
  {
    var t1 := SyncHost(t, visits[0]);
    SyncHostAt(t, visits[0], name);
    if i == 0 {
      SyncHostsElsewhere(t1, visits[1..], (name, Some(visits[0].host.id)));
    } else {
      assert visits[1..][i - 1] == visits[i];
      SyncHostsAt(t1, visits[1..], i - 1, name);
    }
  }

  lemma {:induction false} AliasesAt(t: Table, aliases: seq<(string, Option<string>)>, k: Key)
    requires k.1.Some?
    ensures (k in WithAliases(t, aliases) <==> k in t) && (k in t ==> WithAliases(t, aliases)[k] == t[k])
    decreases |aliases|
  {
    if aliases != [] {
      var (alias, target) := aliases[0];
      AliasesAt(if target.None? then t else t[(alias, None) := AliasRow(t, target.value)], aliases[1..], k);
    }
  }

  /** The registry after a sync, row by row. */
  lemma SyncedAt(t: Table, visits: seq<Visit>, aliasesOn: bool, i: nat, name: string)
    requires UniqueHosts(visits) && WellFormed(t, visits) && i < |visits|
    ensures RowAfter(t, Synced(t, visits, aliasesOn), visits[i], name)
    ensures var k := (name, Some(visits[i].host.id)); k in Synced(t, visits, aliasesOn) ==> !Synced(t, visits, aliasesOn)[k].isAlias
  {
    SyncHostsAt(t, visits, i, name);
    AliasesAt(WithoutAliases(SyncHosts(t, visits)), ALIASES, (name, Some(visits[i].host.id)));
  }

  lemma SyncHostWellFormed(t: Table, v: Visit, visits: seq<Visit>)
    requires WellFormed(t, visits) && v in visits
    ensures WellFormed(SyncHost(t, v), visits)
  {
    var t' := SyncHost(t, v);
    forall k | k in t'
      ensures if t'[k].isAlias then k.1.None? else k.1.Some? && exists x :: x in visits && x.host.id == k.1.value
    {
      SyncHostAt(t, v, k.0);
    }
  }

  lemma {:induction false} SyncHostsWellFormed(t: Table, some: seq<Visit>, visits: seq<Visit>)
    requires WellFormed(t, visits) && forall v :: v in some ==> v in visits
    ensures WellFormed(SyncHosts(t, some), visits)
    decreases |some|
  {
    if some != [] {
      SyncHostWellFormed(t, some[0], visits);
      SyncHostsWellFormed(SyncHost(t, some[0]), some[1..], visits);
    }
  }

  function AliasTable(t: Table): Table {
    t[("fast", None) := AliasRow(t, "qwen3.6-35b-a3b")][("code", None) := AliasRow(t, "qwen3.8-flash-next")]
  }

  /** The two aliases that have a target are judged by the rows of the hosts alone. */
  lemma AliasesUnfold(t: Table)
    ensures WithAliases(t, ALIASES) == AliasTable(t)
  {
    var t1 := t[("fast", None) := AliasRow(t, "qwen3.6-35b-a3b")];
    var code := "qwen3.8-flash-next";
    assert "fast"[0] != code[0];
    assert TargetRoutable(t1, code) <==> TargetRoutable(t, code) by {
      if TargetRoutable(t, code) {
        var k :| k in t && k.0 == code && t[k].routable;
        assert k in t1 && k.0 == code && t1[k].routable;
      }
    }
    var t2 := t1[("code", None) := AliasRow(t1, code)];
    assert ALIASES[1..][1..] == [("frontier", None)];
    assert WithAliases(t2, [("frontier", None)]) == WithAliases(t2, []) == t2;
    assert WithAliases(t1, ALIASES[1..]) == WithAliases(t2, ALIASES[1..][1..]);
    assert WithAliases(t, ALIASES) == WithAliases(t1, ALIASES[1..]);
  }

  /** A sync keeps the table in order: real rows belong to hosts, aliases to none. */
  lemma SyncedWellFormed(t: Table, visits: seq<Visit>, aliasesOn: bool)
    requires WellFormed(t, visits)
    ensures WellFormed(Synced(t, visits, aliasesOn), visits)
  {
    SyncHostsWellFormed(t, visits, visits);
    AliasesUnfold(WithoutAliases(SyncHosts(t, visits)));
  }

  /** With role aliases switched off a sync leaves none. */
  lemma AliasesSwitchedOff(t: Table, visits: seq<Visit>, k: Key)
    ensures k in Synced(t, visits, false) ==> !Synced(t, visits, false)[k].isAlias
  {
  }
}
