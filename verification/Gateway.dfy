/** The model list of the LLM gateway (service/app/litellm_sync.py) and what a sync makes it say. */
module Gateway {
  import opened Wrappers
  import opened Registry

  /** An entry of model_list: a local backend, or a provider model behind OpenRouter. */
  datatype Deployment =
    | Local(name: string, model: string, ip: string, rpm: nat)
    | Remote(name: string, model: string)

  /** (logical_model_name, guest_ip, engine) */
  type Backend = (string, string, string)

  function LocalEntry(b: Backend): Deployment {
    Local(b.0, b.0, b.1, if b.2 == "llamacpp" then 30 else 300)
  }

  /** One entry for every backend not seen before. */
  function LocalEntries(rows: seq<Backend>, seen: set<(string, string)>): seq<Deployment>
    decreases |rows|
  {
    if rows == [] then []
    else if (rows[0].0, rows[0].1) in seen then LocalEntries(rows[1..], seen)
    else [LocalEntry(rows[0])] + LocalEntries(rows[1..], seen + {(rows[0].0, rows[0].1)})
  }

  /** The first backend that serves `model`. */
  function Primary(targets: seq<(string, string)>, model: string): Option<string>
    decreases |targets|
  {
    if targets == [] then None
    else if targets[0].0 == model then Some(targets[0].1)
    else Primary(targets[1..], model)
  }

  function AliasEntry(alias: (string, string), targets: seq<(string, string)>): seq<Deployment> {
    match Primary(targets, alias.1)
    case Some(ip) => [Local(alias.0, alias.1, ip, 300)]
    case None => []
  }

  function AliasEntries(aliases: seq<(string, string)>, targets: seq<(string, string)>): seq<Deployment>
    decreases |aliases|
  {
    if aliases == [] then [] else AliasEntry(aliases[0], targets) + AliasEntries(aliases[1..], targets)
  }

  function RemoteEntries(fallback: bool): seq<Deployment> {
    if !fallback then [] else
      [Remote("openrouter/glm-5.3-flash", "openrouter/z-ai/glm-5.3-flash"),
       Remote("deepseek-v4.1-flash-api", "openrouter/deepseek/deepseek-v4.1-flash"),
       Remote("frontier", "openrouter/deepseek/deepseek-v4.1-flash")]
  }

  /** build_model_list, from the answers to its queries. */
  method BuildModelList(rows: seq<Backend>, aliases: seq<(string, string)>, targets: seq<(string, string)>, fallback: bool)
    returns (models: seq<Deployment>)
    ensures models == LocalEntries(rows, {}) + AliasEntries(aliases, targets) + RemoteEntries(fallback)
  {
    models := [];
    var seen: set<(string, string)> := {};
    var i := 0;
    while i < |rows|
      invariant 0 <= i <= |rows|
      invariant models + LocalEntries(rows[i..], seen) == LocalEntries(rows, {})
    {
      assert rows[i..][0] == rows[i] && rows[i..][1..] == rows[i + 1..];
      var key := (rows[i].0, rows[i].1);
      if key !in seen {
        seen := seen + {key};
        models := models + [LocalEntry(rows[i])];
      }
      i := i + 1;
    }
    assert rows[i..] == [] && models == LocalEntries(rows, {});
    ghost var locals := models;
    var j := 0;
    while j < |aliases|
      invariant 0 <= j <= |aliases|
      invariant models + AliasEntries(aliases[j..], targets) == locals + AliasEntries(aliases, targets)
    {
      assert aliases[j..][0] == aliases[j] && aliases[j..][1..] == aliases[j + 1..];
      var ip := FirstBackend(targets, aliases[j].1);
      if ip.Some? {
        models := models + [Local(aliases[j].0, aliases[j].1, ip.value, 300)];
      }
      j := j + 1;
    }
    assert aliases[j..] == [] && models == locals + AliasEntries(aliases, targets);
    models := models + RemoteEntries(fallback);
  }

  method FirstBackend(targets: seq<(string, string)>, model: string) returns (ip: Option<string>)
    ensures ip == Primary(targets, model)
  {
    var k := 0;
    while k < |targets|
      invariant 0 <= k <= |targets|
      invariant Primary(targets, model) == Primary(targets[k..], model)
    {
      if targets[k].0 == model {
        return Some(targets[k].1);
      }
      assert targets[k..][1..] == targets[k + 1..];
      k := k + 1;
    }
    return None;
  }

  // ------------------------------------------------------------------ what the entries are

  /** Some entry of that name reaches the backend at `ip`. */
  ghost predicate Reaches(es: seq<Deployment>, name: string, ip: string) {
    exists e :: e in es && e.Local? && e.name == name && e.ip == ip
  }

  ghost predicate Named(es: seq<Deployment>, alias: string, model: string) {
    exists e :: e in es && e.Local? && e.name == alias && e.model == model
  }

  /** No (name, address) pair is listed twice. */
  predicate PairsOnce(es: seq<Deployment>) {
    forall i, j :: 0 <= i < j < |es| && es[i].Local? && es[j].Local? ==> es[i].name != es[j].name || es[i].ip != es[j].ip
  }

  /** Entries come from the answer, and only from pairs not seen before. */
  lemma {:induction false} LocalsSound(rows: seq<Backend>, seen: set<(string, string)>)
    ensures forall e :: e in LocalEntries(rows, seen) ==>
              e.Local? && e.model == e.name && (e.name, e.ip) !in seen && exists b :: b in rows && LocalEntry(b) == e
    decreases |rows|
  {
    if rows != [] {
      var key := (rows[0].0, rows[0].1);
      LocalsSound(rows[1..], if key in seen then seen else seen + {key});
      assert rows[0] in rows;
    }
  }

  lemma {:induction false} LocalsComplete(rows: seq<Backend>, seen: set<(string, string)>, b: Backend)
    requires b in rows && (b.0, b.1) !in seen
    ensures Reaches(LocalEntries(rows, seen), b.0, b.1)
    decreases |rows|
  {
    var key, es := (rows[0].0, rows[0].1), LocalEntries(rows, seen);
    if (b.0, b.1) == key {
      assert es[0] in es;
    } else {
      LocalsComplete(rows[1..], if key in seen then seen else seen + {key}, b);
      if key !in seen {
        var e :| e in es[1..] && e.Local? && e.name == b.0 && e.ip == b.1;
        assert e in es;
      }
    }
  }

  /** However often the answer repeats a backend, it gets one entry. */
  lemma {:induction false} LocalsOnce(rows: seq<Backend>, seen: set<(string, string)>)
    ensures PairsOnce(LocalEntries(rows, seen))
    decreases |rows|
  {
    if rows != [] {
      var key, es := (rows[0].0, rows[0].1), LocalEntries(rows, seen);
      LocalsOnce(rows[1..], if key in seen then seen else seen + {key});
      if key !in seen {
        LocalsSound(rows[1..], seen + {key});
        assert es[1..] == LocalEntries(rows[1..], seen + {key});
        forall j | 0 < j < |es|
          ensures es[j].Local? && (es[j].name, es[j].ip) != key
        {
          assert es[j] in es[1..];
        }
      }
    }
  }

  lemma {:induction false} PrimaryIsBackend(targets: seq<(string, string)>, model: string)
    ensures Primary(targets, model).Some? <==> exists ip :: (model, ip) in targets
    ensures Primary(targets, model).Some? ==> (model, Primary(targets, model).value) in targets
    decreases |targets|
  {
    if targets != [] {
      PrimaryIsBackend(targets[1..], model);
      assert targets == [targets[0]] + targets[1..];
    }
  }

  lemma {:induction false} AliasesSound(aliases: seq<(string, string)>, targets: seq<(string, string)>)
    ensures forall e :: e in AliasEntries(aliases, targets) ==> e.Local? && (e.name, e.model) in aliases && (e.model, e.ip) in targets && e.rpm == 300
    decreases |aliases|
  {
    if aliases != [] {
      PrimaryIsBackend(targets, aliases[0].1);
      AliasesSound(aliases[1..], targets);
    }
  }

  lemma {:induction false} AliasesComplete(aliases: seq<(string, string)>, targets: seq<(string, string)>, a: (string, string), ip: string)
    requires a in aliases && (a.1, ip) in targets
    ensures Named(AliasEntries(aliases, targets), a.0, a.1)
    decreases |aliases|
  {
    var es := AliasEntries(aliases, targets);
    if a == aliases[0] {
      PrimaryIsBackend(targets, a.1);
      assert es[0] in es;
    } else {
      AliasesComplete(aliases[1..], targets, a, ip);
      var e :| e in AliasEntries(aliases[1..], targets) && e.Local? && e.name == a.0 && e.model == a.1;
      assert e in es;
    }
  }

  // ------------------------------------------------------------------ the queries

  /** A routable real row names `model` on the host at `ip`. */
  ghost predicate Serves(t: Table, visits: seq<Visit>, model: string, ip: string) {
    exists v :: v in visits && v.host.ip == ip && RoutableRow(t, (model, Some(v.host.id)))
  }

  /** The answer names the engine of the row it comes from. */
  ghost predicate FromRow(t: Table, visits: seq<Visit>, b: Backend) {
    exists v :: v in visits && v.host.ip == b.1 && RoutableRow(t, (b.0, Some(v.host.id))) && t[(b.0, Some(v.host.id))].engine == b.2
  }

  predicate RoutableRow(t: Table, k: Key) {
    k in t && t[k].routable && !t[k].isAlias
  }

  /** What the database may answer: the rows asked for, in any order. */
  ghost predicate Answers(t: Table, visits: seq<Visit>, rows: seq<Backend>, aliases: seq<(string, string)>, targets: seq<(string, string)>) {
    && (forall b :: b in rows ==> Serves(t, visits, b.0, b.1) && FromRow(t, visits, b))
    && (forall model, ip :: Serves(t, visits, model, ip) ==> exists b :: b in rows && b.0 == model && b.1 == ip)
    && (forall a, m :: (a, m) in aliases <==> (a, None) in t && t[(a, None)].isAlias && t[(a, None)].routable && t[(a, None)].target == Some(m))
    && (forall model, ip :: (model, ip) in targets <==> Serves(t, visits, model, ip))
  }

  // ------------------------------------------------------------------ a sync, then the gateway

  lemma RoutableSomewhere(t: Table, visits: seq<Visit>, model: string)
    requires WellFormed(t, visits)
    ensures (exists ip :: Serves(t, visits, model, ip)) <==> exists k: Key :: k.0 == model && RoutableRow(t, k)
  {
    if k: Key :| k.0 == model && RoutableRow(t, k) {
      var v :| v in visits && v.host.id == k.1.value;
      assert k == (model, Some(v.host.id));
      assert Serves(t, visits, model, v.host.ip);
    }
    if ip :| Serves(t, visits, model, ip) {
      var v :| v in visits && v.host.ip == ip && RoutableRow(t, (model, Some(v.host.id)));
      var k := (model, Some(v.host.id));
      assert k.0 == model && RoutableRow(t, k);
    }
  }

  /** The role aliases that have a target. */
  predicate RoleAlias(alias: string, model: string) {
    (alias == "fast" && model == "qwen3.6-35b-a3b") || (alias == "code" && model == "qwen3.8-flash-next")
  }

  /** Aliases after a sync: the two with a target, routable exactly when a real row of the target is. */
  lemma SyncedAliases(t: Table, visits: seq<Visit>, alias: string, model: string)
    requires WellFormed(t, visits)
    ensures var t' := Synced(t, visits, true);
            && ((alias, None) in t' && t'[(alias, None)].isAlias && t'[(alias, None)].target == Some(model)
                <==> RoleAlias(alias, model))
            && (RoleAlias(alias, model) ==>
                  (t'[(alias, None)].routable <==> exists ip :: Serves(t', visits, model, ip))
                  && (t'[(alias, None)].health == Healthy <==> t'[(alias, None)].routable))
  {
    var t1, t' := WithoutAliases(SyncHosts(t, visits)), Synced(t, visits, true);
    SyncHostsWellFormed(t, visits, visits);
    SyncedWellFormed(t, visits, true);
    AliasesUnfold(t1);
    RoutableSomewhere(t', visits, model);
    assert "fast"[0] != "code"[0];
    RealRows(t1, model);
  }

  /** Aliases add no real row, and their targets are not alias names. */
  lemma RealRows(t: Table, model: string)
    requires forall k :: k in t ==> !t[k].isAlias && k.1.Some?
    ensures TargetRoutable(t, model) <==> exists k: Key :: k.0 == model && RoutableRow(AliasTable(t), k)
  {
    if TargetRoutable(t, model) {
      var k :| k in t && k.0 == model && t[k].routable;
      assert RoutableRow(AliasTable(t), k);
    }
    if k: Key :| k.0 == model && RoutableRow(AliasTable(t), k) {
      assert k in t;
    }
  }

  /** The part of the model list that the registry decides. */
  function Listed(rows: seq<Backend>, aliases: seq<(string, string)>, targets: seq<(string, string)>): seq<Deployment> {
    LocalEntries(rows, {}) + AliasEntries(aliases, targets)
  }

  /** After a sync the gateway lists each routable (model, host) pair once, under the model's own name. */
  lemma EachRoutablePairOnce(t: Table, visits: seq<Visit>, rows: seq<Backend>, aliases: seq<(string, string)>, targets: seq<(string, string)>, model: string, ip: string)
    requires Answers(Synced(t, visits, true), visits, rows, aliases, targets)
    ensures PairsOnce(LocalEntries(rows, {}))
    ensures Reaches(LocalEntries(rows, {}), model, ip) <==> Serves(Synced(t, visits, true), visits, model, ip)
    ensures forall e :: e in LocalEntries(rows, {}) ==> e.Local? && e.model == e.name && Serves(Synced(t, visits, true), visits, e.name, e.ip)
  {
    LocalsOnce(rows, {});
    LocalsSound(rows, {});
    if Serves(Synced(t, visits, true), visits, model, ip) {
      var b :| b in rows && b.0 == model && b.1 == ip;
      LocalsComplete(rows, {}, b);
    }
  }

  /** An alias is listed exactly when its target has a routable row, and points at one of those backends. */
  lemma AliasFollowsTarget(t: Table, visits: seq<Visit>, rows: seq<Backend>, aliases: seq<(string, string)>, targets: seq<(string, string)>, alias: string, model: string)
    requires WellFormed(t, visits) && Answers(Synced(t, visits, true), visits, rows, aliases, targets)
    ensures Named(AliasEntries(aliases, targets), alias, model) <==>
              RoleAlias(alias, model) && exists ip :: Serves(Synced(t, visits, true), visits, model, ip)
    ensures forall e :: e in AliasEntries(aliases, targets) ==> e.Local? && Serves(Synced(t, visits, true), visits, e.model, e.ip)
  {
    SyncedAliases(t, visits, alias, model);
    AliasesSound(aliases, targets);
    if RoleAlias(alias, model) && exists ip :: Serves(Synced(t, visits, true), visits, model, ip) {
      var ip :| Serves(Synced(t, visits, true), visits, model, ip);
      AliasesComplete(aliases, targets, (alias, model), ip);
    }
  }

  /** The rows of a host that its probe did not mention. */
  ghost predicate StaleRow(t: Table, v: Visit) {
    v.probe.models != [] && exists name :: name !in v.probe.models && RoutableRow(t, (name, Some(v.host.id)))
  }

  /** A host that is down, unhealthy, unmanaged or not wanted running is reached through the gateway exactly when a
      row it no longer reports was left routable. */
  lemma UnroutableHostUnlisted(t: Table, visits: seq<Visit>, i: nat, rows: seq<Backend>, aliases: seq<(string, string)>, targets: seq<(string, string)>)
    requires WellFormed(t, visits) && UniqueHosts(visits) && Answers(Synced(t, visits, true), visits, rows, aliases, targets)
    requires i < |visits|
    requires var v := visits[i];
             v.probe.models == [] || v.probe.completion != Some("ok") || v.host.desired != "RUNNING" || v.host.mode != "MANAGED"
    ensures (exists e :: e in Listed(rows, aliases, targets) && e.Local? && e.ip == visits[i].host.ip) <==> StaleRow(t, visits[i])
  {
    var t', v := Synced(t, visits, true), visits[i];
    if e :| e in Listed(rows, aliases, targets) && e.Local? && e.ip == v.host.ip {
      EachRoutablePairOnce(t, visits, rows, aliases, targets, e.model, e.ip);
      AliasFollowsTarget(t, visits, rows, aliases, targets, e.name, e.model);
      assert Serves(t', visits, e.model, e.ip);
      var x :| x in visits && x.host.ip == e.ip && RoutableRow(t', (e.model, Some(x.host.id)));
      assert x == v;
      SyncedAt(t, visits, true, i, e.model);
    }
    if StaleRow(t, v) {
      var name :| name !in v.probe.models && RoutableRow(t, (name, Some(v.host.id)));
      SyncedAt(t, visits, true, i, name);
      assert v in visits;
      assert Serves(t', visits, name, v.host.ip);
      EachRoutablePairOnce(t, visits, rows, aliases, targets, name, v.host.ip);
      var e :| e in LocalEntries(rows, {}) && e.Local? && e.name == name && e.ip == v.host.ip;
      assert e in Listed(rows, aliases, targets);
    }
  }

  /** A host that is wanted, managed and healthy is listed for every model it reports. */
  lemma RoutableHostListed(t: Table, visits: seq<Visit>, i: nat, name: string, rows: seq<Backend>, aliases: seq<(string, string)>, targets: seq<(string, string)>)
    requires WellFormed(t, visits) && UniqueHosts(visits) && Answers(Synced(t, visits, true), visits, rows, aliases, targets)
    requires i < |visits| && name in visits[i].probe.models
    requires var v := visits[i];
             v.probe.completion == Some("ok") && v.host.desired == "RUNNING" && v.host.mode == "MANAGED"
    ensures Reaches(LocalEntries(rows, {}), name, visits[i].host.ip)
  {
    SyncedAt(t, visits, true, i, name);
    assert visits[i] in visits;
    EachRoutablePairOnce(t, visits, rows, aliases, targets, name, visits[i].host.ip);
  }

  /** A host that serves a new model and is unhealthy: the row of the model it used to serve is not looked at. */
  lemma StaleRowStaysRoutable()
    ensures var v := Visit(Host(1, "10.0.20.161", "RUNNING", "MANAGED"), Probe(["new"], Some("http 500"), false));
            var t: Table := map[("old", Some(1)) := Listing("vllm", Healthy, true, false, None)];
            && WellFormed(t, [v]) && UniqueHosts([v]) && v.probe.completion != Some("ok")
            && RoutableRow(Synced(t, [v], true), ("old", Some(1)))
  {
    var v := Visit(Host(1, "10.0.20.161", "RUNNING", "MANAGED"), Probe(["new"], Some("http 500"), false));
    var t: Table := map[("old", Some(1)) := Listing("vllm", Healthy, true, false, None)];
    assert v in [v];
    assert "old"[0] != "new"[0];
    SyncedAt(t, [v], true, 0, "old");
  }

  /** The names the routability gate reports. */
  function RoutableModels(t: Table): set<string> {
    set k | k in t && t[k].routable :: k.0
  }

  /** The gate and the gateway agree: a name is routable exactly when the registry's part of the list has an entry of
      that name. */
  lemma GateMatchesGateway(t: Table, visits: seq<Visit>, rows: seq<Backend>, aliases: seq<(string, string)>, targets: seq<(string, string)>, name: string)
    requires WellFormed(t, visits) && Answers(Synced(t, visits, true), visits, rows, aliases, targets)
    ensures name in RoutableModels(Synced(t, visits, true)) <==> exists e :: e in Listed(rows, aliases, targets) && e.name == name
  {
    if e :| e in Listed(rows, aliases, targets) && e.name == name {
      ListedIsRoutable(t, visits, rows, aliases, targets, e);
    }
    if name in RoutableModels(Synced(t, visits, true)) {
      var k :| k in Synced(t, visits, true) && Synced(t, visits, true)[k].routable && k.0 == name;
      RoutableIsListed(t, visits, rows, aliases, targets, k);
    }
  }

  lemma ListedIsRoutable(t: Table, visits: seq<Visit>, rows: seq<Backend>, aliases: seq<(string, string)>, targets: seq<(string, string)>, e: Deployment)
    requires WellFormed(t, visits) && Answers(Synced(t, visits, true), visits, rows, aliases, targets)
    requires e in Listed(rows, aliases, targets)
    ensures e.name in RoutableModels(Synced(t, visits, true))
  {
    var t' := Synced(t, visits, true);
    if e in LocalEntries(rows, {}) {
      LocalsSound(rows, {});
      EachRoutablePairOnce(t, visits, rows, aliases, targets, e.model, e.ip);
      assert Serves(t', visits, e.name, e.ip);
      var v :| v in visits && v.host.ip == e.ip && RoutableRow(t', (e.name, Some(v.host.id)));
    } else {
      AliasesSound(aliases, targets);
      assert (e.name, None) in t' && t'[(e.name, None)].routable;
    }
  }

  lemma RoutableIsListed(t: Table, visits: seq<Visit>, rows: seq<Backend>, aliases: seq<(string, string)>, targets: seq<(string, string)>, k: Key)
    requires WellFormed(t, visits) && Answers(Synced(t, visits, true), visits, rows, aliases, targets)
    requires k in Synced(t, visits, true) && Synced(t, visits, true)[k].routable
    ensures exists e :: e in Listed(rows, aliases, targets) && e.name == k.0
  {
    var t' := Synced(t, visits, true);
    SyncedWellFormed(t, visits, true);
    if t'[k].isAlias {
      AliasTargets(t, visits, k.0);
      var model := t'[k].target.value;
      SyncedAliases(t, visits, k.0, model);
      AliasFollowsTarget(t, visits, rows, aliases, targets, k.0, model);
      var e :| e in AliasEntries(aliases, targets) && e.Local? && e.name == k.0 && e.model == model;
      assert e in Listed(rows, aliases, targets);
    } else {
      var v :| v in visits && v.host.id == k.1.value;
      assert Serves(t', visits, k.0, v.host.ip);
      EachRoutablePairOnce(t, visits, rows, aliases, targets, k.0, v.host.ip);
      var e :| e in LocalEntries(rows, {}) && e.Local? && e.name == k.0 && e.ip == v.host.ip;
      assert e in Listed(rows, aliases, targets);
    }
  }

  lemma AliasTargets(t: Table, visits: seq<Visit>, alias: string)
    requires WellFormed(t, visits)
    ensures var t' := Synced(t, visits, true); (alias, None) in t' ==> t'[(alias, None)].target.Some?
  {
    SyncHostsWellFormed(t, visits, visits);
    AliasesUnfold(WithoutAliases(SyncHosts(t, visits)));
  }

  /** The rate of an entry for a model its host reports: 30 requests a minute on the llama.cpp host, 300 elsewhere. */
  lemma EntryRate(t: Table, visits: seq<Visit>, i: nat, rows: seq<Backend>, aliases: seq<(string, string)>, targets: seq<(string, string)>, e: Deployment)
    requires WellFormed(t, visits) && UniqueHosts(visits) && Answers(Synced(t, visits, true), visits, rows, aliases, targets)
    requires i < |visits| && e in LocalEntries(rows, {}) && e.Local? && e.ip == visits[i].host.ip && e.name in visits[i].probe.models
    ensures e.rpm == if e.ip == "10.0.20.165" then 30 else 300
  {
    LocalsSound(rows, {});
    var b :| b in rows && LocalEntry(b) == e;
    var v :| v in visits && v.host.ip == b.1 && RoutableRow(Synced(t, visits, true), (b.0, Some(v.host.id)))
             && Synced(t, visits, true)[(b.0, Some(v.host.id))].engine == b.2;
    assert v == visits[i];
    SyncedAt(t, visits, true, i, e.name);
    assert "llamacpp"[0] != "vllm"[0];
  }

  /** The provider entries are listed exactly when the fallback is on. */
  lemma FallbackExactly(rows: seq<Backend>, aliases: seq<(string, string)>, targets: seq<(string, string)>, fallback: bool, name: string, model: string)
    ensures Remote(name, model) in LocalEntries(rows, {}) + AliasEntries(aliases, targets) + RemoteEntries(fallback) <==>
              fallback && ((name == "openrouter/glm-5.3-flash" && model == "openrouter/z-ai/glm-5.3-flash")
                           || (name in {"deepseek-v4.1-flash-api", "frontier"} && model == "openrouter/deepseek/deepseek-v4.1-flash"))
  {
    LocalsSound(rows, {});
    AliasesSound(aliases, targets);
  }

  /** The backend an alias points at is the first in the answer that serves its target. */
  lemma {:induction false} PrimaryIsFirst(targets: seq<(string, string)>, model: string, k: nat)
    requires k < |targets| && targets[k].0 == model && forall j :: 0 <= j < k ==> targets[j].0 != model
    ensures Primary(targets, model) == Some(targets[k].1)
    decreases k
  {
    if k > 0 {
      PrimaryIsFirst(targets[1..], model, k - 1);
    }
  }
}
