/** Placement policy: hard filters and scores, decided before any clone
    (server_manager/agent_runtime_manager/services/placement.py). */
module Placement {
  import opened Wrappers
  import opened Fleet

  const GENERAL_PREFERRED_NODE := "miam-00100"
  const INFERENCE_NODES := {"miam00111", "miam00112", "miam00143", "miam00144"}
  const EXCLUDED_NODES := {"miam-00133", "miam-00147"}
  const MAX_WORKERS_PER_INFERENCE_NODE: nat := 1
  const INFERENCE_RUNTIME_CLASSES := {"inference", "inference_worker", "gpu"}
  const TEMPLATE_PINNED_CLASSES := {"sandbox", "dkms_service"}

  datatype Decision = Placed(node: string, score: int) | Rejected(reason: string)

  // ------------------------------------------------------------------ worker counts

  predicate Counted(r: Row) {
    r.node.Some? && r.node.value != "" && r.actual != Absent
  }

  predicate WorksOn(r: Row, n: string) {
    Counted(r) && r.node == Some(n)
  }

  predicate InfersOn(r: Row, n: string) {
    WorksOn(r, n) && r.runtimeClass in INFERENCE_RUNTIME_CLASSES
  }

  /** The ids of the rows that count against a node. */
  function Workers(rows: map<Id, Row>, n: string): set<Id> {
    set id | id in rows && WorksOn(rows[id], n)
  }

  function InferenceWorkers(rows: map<Id, Row>, n: string): set<Id> {
    set id | id in rows && InfersOn(rows[id], n)
  }

  function Get(counts: map<string, nat>, n: string): nat {
    if n in counts then counts[n] else 0
  }

  function CountIn(rows: map<Id, Row>, seen: set<Id>, n: string): nat {
    |set id | id in seen && id in rows && WorksOn(rows[id], n)|
  }

  lemma CountStep(rows: map<Id, Row>, seen: set<Id>, id: Id, n: string)
    requires id in rows && id !in seen
    ensures CountIn(rows, seen + {id}, n) == CountIn(rows, seen, n) + (if WorksOn(rows[id], n) then 1 else 0)
  {
    var a := set i | i in seen && i in rows && WorksOn(rows[i], n);
    var b := set i | i in seen + {id} && i in rows && WorksOn(rows[i], n);
    assert b == if WorksOn(rows[id], n) then a + {id} else a;
  }

  /** Both counting queries: one pass over the rows that adds into a dictionary. */
  method WorkerCountsByNode(rows: map<Id, Row>) returns (counts: map<string, nat>)
    ensures forall n :: Get(counts, n) == |Workers(rows, n)|
  {
    counts := map[];
    var seen: set<Id> := {};
    while seen != rows.Keys
      invariant seen <= rows.Keys
      invariant forall n :: Get(counts, n) == CountIn(rows, seen, n)
      decreases |rows.Keys - seen|
    {
      var id :| id in rows.Keys - seen;
      forall n
        ensures CountIn(rows, seen + {id}, n) == CountIn(rows, seen, n) + (if WorksOn(rows[id], n) then 1 else 0)
      {
        CountStep(rows, seen, id, n);
      }
      if Counted(rows[id]) {
        var node := rows[id].node.value;
        counts := counts[node := Get(counts, node) + 1];
      }
      assert rows.Keys - seen == (rows.Keys - (seen + {id})) + {id};
      seen := seen + {id};
    }
    forall n
      ensures |Workers(rows, n)| == CountIn(rows, seen, n)
    {
      assert Workers(rows, n) == set id | id in seen && id in rows && WorksOn(rows[id], n);
    }
  }

  method InferenceWorkerCountsByNode(rows: map<Id, Row>) returns (counts: map<string, nat>)
    ensures forall n :: Get(counts, n) == |InferenceWorkers(rows, n)|
  {
    var inference := map id | id in rows && rows[id].runtimeClass in INFERENCE_RUNTIME_CLASSES :: rows[id];
    counts := WorkerCountsByNode(inference);
    forall n
      ensures Workers(inference, n) == InferenceWorkers(rows, n)
    {
    }
  }

  // ------------------------------------------------------------------ scores

  /** The score of an online node, or None for an inference node that is full. */
  function Score(rows: map<Id, Row>, cls: string, n: string): Option<int> {
    if n == GENERAL_PREFERRED_NODE then Some(100)
    else if n in INFERENCE_NODES then
      if cls !in INFERENCE_RUNTIME_CLASSES then Some(40 - 60)
      else if |InferenceWorkers(rows, n)| >= MAX_WORKERS_PER_INFERENCE_NODE then None
      else Some(40)
    else Some(20 - 2 * |Workers(rows, n)|)
  }

  /** Nodes the provider reports online, minus exclusions; a listing that fails gives none. */
  function Candidates(listing: Option<seq<(string, string)>>): set<string> {
    if listing.None? then {} else
      set e | e in listing.value && e.1 == "online" && e.0 !in EXCLUDED_NODES :: e.0
  }

  predicate Eligible(rows: map<Id, Row>, cls: string, candidates: set<string>, n: string) {
    n in candidates && n != "" && Score(rows, cls, n).Some?
  }

  /** Code-point order on names. */
  predicate Precedes(a: string, b: string) {
    b != "" && (a == "" || a[0] < b[0] || (a[0] == b[0] && Precedes(a[1..], b[1..])))
  }

  /** The sort key: higher score, then the template node, then the name. */
  predicate Better(sa: int, a: string, sb: int, b: string, template: string) {
    || sa > sb
    || (sa == sb && a == template && b != template)
    || (sa == sb && (a == template <==> b == template) && Precedes(a, b))
  }

  predicate Beats(rows: map<Id, Row>, cls: string, template: string, a: string, b: string) {
    Better(Score(rows, cls, a).GetOr(0), a, Score(rows, cls, b).GetOr(0), b, template)
  }

  function EligibleNodes(rows: map<Id, Row>, cls: string, candidates: set<string>): set<string> {
    set n | n in candidates && Eligible(rows, cls, candidates, n)
  }

  /** `n` comes before every other node of `among`. */
  ghost predicate BestAmong(rows: map<Id, Row>, cls: string, template: string, among: set<string>, n: string) {
    n in among && forall m :: m in among && m != n ==> Beats(rows, cls, template, n, m)
  }

  ghost predicate IsBest(rows: map<Id, Row>, cls: string, template: string, candidates: set<string>, n: string) {
    BestAmong(rows, cls, template, EligibleNodes(rows, cls, candidates), n)
  }

  /** The decision depends on the set of candidates only, never on the order they are listed in. */
  ghost function Select(rows: map<Id, Row>, cls: string, template: string, candidates: set<string>): Decision {
    if cls in TEMPLATE_PINNED_CLASSES then Placed(template, 100)
    else if exists n :: IsBest(rows, cls, template, candidates, n) then
      var n :| IsBest(rows, cls, template, candidates, n);
      Placed(n, Score(rows, cls, n).value)
    else Rejected("no_eligible_node")
  }

  // ------------------------------------------------------------------ the order is total

  lemma {:induction false} PrecedesTotal(a: string, b: string)
    ensures a != b ==> Precedes(a, b) || Precedes(b, a)
    ensures !(Precedes(a, b) && Precedes(b, a))
    ensures !Precedes(a, a)
  {
    if a != "" {
      PrecedesTotal(a[1..], if b == "" then "" else b[1..]);
      PrecedesTotal(a[1..], a[1..]);
      if b != "" && a[0] == b[0] && a[1..] == b[1..] {
        assert a == [a[0]] + a[1..] && b == [b[0]] + b[1..];
      }
    }
  }

  lemma {:induction false} PrecedesTransitive(a: string, b: string, c: string)
    requires Precedes(a, b) && Precedes(b, c)
    ensures Precedes(a, c)
  {
    if a != "" && a[0] == b[0] == c[0] {
      PrecedesTransitive(a[1..], b[1..], c[1..]);
    }
  }

  /** At most one node is best. */
  lemma BestIsUnique(rows: map<Id, Row>, cls: string, template: string, candidates: set<string>, m: string, n: string)
    requires IsBest(rows, cls, template, candidates, m) && IsBest(rows, cls, template, candidates, n)
    ensures m == n
  {
    PrecedesTotal(m, n);
  }

  // ------------------------------------------------------------------ select_node

  method SelectNode(rows: map<Id, Row>, listing: Option<seq<(string, string)>>, cls: string, template: string)
    returns (d: Decision)
    ensures d == Select(rows, cls, template, Candidates(listing))
  {
    var total := WorkerCountsByNode(rows);
    var inference := InferenceWorkerCountsByNode(rows);
    if cls in TEMPLATE_PINNED_CLASSES {
      return Placed(template, 100);
    }
    var best: Option<(string, int)> := None;
    var nodes := if listing.Some? then listing.value else [];
    ghost var candidates := Candidates(listing);
    var i := 0;
    while i < |nodes|
      invariant 0 <= i <= |nodes|
      invariant best.Some? ==> Eligible(rows, cls, candidates, best.value.0) && best.value.1 == Score(rows, cls, best.value.0).value
      invariant forall j :: 0 <= j < i && nodes[j].1 == "online" && Eligible(rows, cls, candidates, nodes[j].0) ==>
                  best.Some? && (nodes[j].0 == best.value.0 || Beats(rows, cls, template, best.value.0, nodes[j].0))
    {
      var (n, status) := nodes[i];
      if status == "online" && n !in EXCLUDED_NODES && n != "" {
        assert nodes[i] in listing.value && n in candidates;
        var score: Option<int> := None;
        if n == GENERAL_PREFERRED_NODE {
          score := Some(100);
        } else if n in INFERENCE_NODES {
          if cls in INFERENCE_RUNTIME_CLASSES {
            if Get(inference, n) < MAX_WORKERS_PER_INFERENCE_NODE {
              score := Some(40);
            }
          } else {
            score := Some(40 - 60);
          }
        } else {
          score := Some(20 - 2 * Get(total, n));
        }
        assert score == Score(rows, cls, n);
        if score.Some? && (best.None? || Better(score.value, n, best.value.1, best.value.0, template)) {
          if best.Some? {
            BeatsTransitive(rows, cls, template, n, best.value.0);
          }
          best := Some((n, score.value));
        } else if score.Some? {
          PrecedesTotal(n, best.value.0);
        }
      }
      i := i + 1;
    }
    if best.Some? {
      forall m | Eligible(rows, cls, candidates, m) && m != best.value.0
        ensures Beats(rows, cls, template, best.value.0, m)
      {
        var e :| e in listing.value && e.1 == "online" && e.0 == m;
        var j :| 0 <= j < |nodes| && nodes[j] == e;
      }
      assert IsBest(rows, cls, template, candidates, best.value.0);
      ghost var n :| IsBest(rows, cls, template, candidates, n) && Select(rows, cls, template, candidates) == Placed(n, Score(rows, cls, n).value);
      BestIsUnique(rows, cls, template, candidates, n, best.value.0);
      return Placed(best.value.0, best.value.1);
    }
    forall n
      ensures !IsBest(rows, cls, template, candidates, n)
    {
      if n in candidates {
        var e :| e in listing.value && e.1 == "online" && e.0 == n;
        var j :| 0 <= j < |nodes| && nodes[j] == e;
      }
    }
    return Rejected("no_eligible_node");
  }

  lemma BeatsTransitive(rows: map<Id, Row>, cls: string, template: string, a: string, b: string)
    requires Beats(rows, cls, template, a, b)
    ensures forall c :: Beats(rows, cls, template, b, c) ==> Beats(rows, cls, template, a, c)
  {
    forall c | Beats(rows, cls, template, b, c)
      ensures Beats(rows, cls, template, a, c)
    {
      if Precedes(a, b) && Precedes(b, c) {
        PrecedesTransitive(a, b, c);
      }
    }
  }

  // ------------------------------------------------------------------ what the policy promises

  lemma {:induction false} BestExists(rows: map<Id, Row>, cls: string, template: string, among: set<string>)
    requires among != {}
    ensures exists n :: BestAmong(rows, cls, template, among, n)
    decreases |among|
  {
    var n :| n in among;
    var rest := among - {n};
    if rest == {} {
      assert BestAmong(rows, cls, template, among, n);
    } else {
      BestExists(rows, cls, template, rest);
      var b :| BestAmong(rows, cls, template, rest, b);
      PrecedesTotal(n, b);
      if Beats(rows, cls, template, n, b) {
        BeatsTransitive(rows, cls, template, n, b);
        assert BestAmong(rows, cls, template, among, n);
      } else {
        assert BestAmong(rows, cls, template, among, b);
      }
    }
  }

  /** For a class that is not pinned, the decision is the unique best eligible node; it is a rejection only when
      no node is eligible. An offline, excluded or full node is never chosen. */
  lemma SelectIsBest(rows: map<Id, Row>, cls: string, template: string, candidates: set<string>)
    requires cls !in TEMPLATE_PINNED_CLASSES
    ensures var d := Select(rows, cls, template, candidates);
            && (d.Placed? <==> exists n :: Eligible(rows, cls, candidates, n))
            && (d.Placed? ==> IsBest(rows, cls, template, candidates, d.node) && Some(d.score) == Score(rows, cls, d.node))
  {
    if n :| Eligible(rows, cls, candidates, n) {
      assert n in EligibleNodes(rows, cls, candidates);
      BestExists(rows, cls, template, EligibleNodes(rows, cls, candidates));
      var b :| BestAmong(rows, cls, template, EligibleNodes(rows, cls, candidates), b);
      assert IsBest(rows, cls, template, candidates, b);
    }
  }

  /** A runtime that is not pinned is placed on its template's node exactly when that node is eligible and no eligible
      node scores higher. */
  lemma TemplateChosenExactly(rows: map<Id, Row>, cls: string, template: string, candidates: set<string>)
    requires cls !in TEMPLATE_PINNED_CLASSES
    ensures var d := Select(rows, cls, template, candidates);
            d.Placed? && d.node == template <==>
              && Eligible(rows, cls, candidates, template)
              && forall n :: n in candidates && Eligible(rows, cls, candidates, n) ==>
                   Score(rows, cls, n).value <= Score(rows, cls, template).value
  {
    SelectIsBest(rows, cls, template, candidates);
    var d := Select(rows, cls, template, candidates);
    if d.Placed? {
      assert d.node in EligibleNodes(rows, cls, candidates);
      if Eligible(rows, cls, candidates, template) && d.node != template {
        assert template in EligibleNodes(rows, cls, candidates);
        assert Beats(rows, cls, template, d.node, template);
        assert Score(rows, cls, d.node).value > Score(rows, cls, template).value;
      }
      forall n | d.node == template && n in candidates && Eligible(rows, cls, candidates, n)
        ensures Score(rows, cls, n).value <= Score(rows, cls, template).value
      {
        assert n in EligibleNodes(rows, cls, candidates);
      }
    }
  }

  /** While the preferred node is online it gets every runtime that is not pinned. */
  lemma PreferredWins(rows: map<Id, Row>, cls: string, template: string, candidates: set<string>)
    requires cls !in TEMPLATE_PINNED_CLASSES && GENERAL_PREFERRED_NODE in candidates
    ensures Select(rows, cls, template, candidates) == Placed(GENERAL_PREFERRED_NODE, 100)
  {
    SelectIsBest(rows, cls, template, candidates);
    assert Eligible(rows, cls, candidates, GENERAL_PREFERRED_NODE);
    assert GENERAL_PREFERRED_NODE in EligibleNodes(rows, cls, candidates);
    var d := Select(rows, cls, template, candidates);
    assert d.node in EligibleNodes(rows, cls, candidates);
    BestBeats(rows, cls, template, candidates, d.node, GENERAL_PREFERRED_NODE);
  }

  lemma BestBeats(rows: map<Id, Row>, cls: string, template: string, candidates: set<string>, n: string, m: string)
    requires IsBest(rows, cls, template, candidates, n) && m in EligibleNodes(rows, cls, candidates)
    ensures m == n || Beats(rows, cls, template, n, m)
  {
  }

  /** The order of the provider's node list does not matter. */
  lemma OrderDoesNotMatter(a: seq<(string, string)>, b: seq<(string, string)>, rows: map<Id, Row>, cls: string, template: string)
    requires forall e :: e in a <==> e in b
    ensures Select(rows, cls, template, Candidates(Some(a))) == Select(rows, cls, template, Candidates(Some(b)))
  {
    assert Candidates(Some(a)) == Candidates(Some(b));
  }

  /** A general worker lands on an inference node only when the preferred node is offline and every online
      generic node already carries at least twenty workers. */
  lemma InferenceNodeIsLastResort(rows: map<Id, Row>, cls: string, template: string, candidates: set<string>)
    requires cls !in TEMPLATE_PINNED_CLASSES && cls !in INFERENCE_RUNTIME_CLASSES
    requires Select(rows, cls, template, candidates).Placed?
    requires Select(rows, cls, template, candidates).node in INFERENCE_NODES
    ensures GENERAL_PREFERRED_NODE !in candidates
    ensures forall n :: n in candidates && n != "" && n !in INFERENCE_NODES ==> |Workers(rows, n)| >= 20
  {
    SelectIsBest(rows, cls, template, candidates);
    var d := Select(rows, cls, template, candidates);
    assert d.score == -20;
    forall n | n in candidates && n != "" && n !in INFERENCE_NODES
      ensures n != GENERAL_PREFERRED_NODE && |Workers(rows, n)| >= 20
    {
      assert n in EligibleNodes(rows, cls, candidates);
      assert n != d.node ==> Beats(rows, cls, template, d.node, n);
    }
    assert GENERAL_PREFERRED_NODE !in INFERENCE_NODES;
  }

  /** An inference worker is sent to an inference node only while that node has none. */
  lemma CapRespected(rows: map<Id, Row>, cls: string, template: string, candidates: set<string>)
    requires cls in INFERENCE_RUNTIME_CLASSES
    requires Select(rows, cls, template, candidates).Placed?
    requires Select(rows, cls, template, candidates).node in INFERENCE_NODES
    ensures InferenceWorkers(rows, Select(rows, cls, template, candidates).node) == {}
  {
    assert cls !in TEMPLATE_PINNED_CLASSES;
    SelectIsBest(rows, cls, template, candidates);
  }

  // ------------------------------------------------------------------ the policy in the terms of the fleet

  /** The runtimes on a node, as the rows say it. */
  ghost function Load(rows: map<Id, Row>, n: string): nat {
    |set id | id in rows && rows[id].node == Some(n) && rows[id].actual != Absent|
  }

  ghost function InferenceLoad(rows: map<Id, Row>, n: string): nat {
    |set id | id in rows && rows[id].node == Some(n) && rows[id].actual != Absent
              && rows[id].runtimeClass in {"inference", "inference_worker", "gpu"}|
  }

  predicate InferenceNode(n: string) {
    n in {"miam00111", "miam00112", "miam00143", "miam00144"}
  }

  predicate Generic(n: string) {
    n != "" && n != "miam-00100" && !InferenceNode(n)
  }

  lemma LoadsAreWorkers(rows: map<Id, Row>, n: string)
    requires n != ""
    ensures Load(rows, n) == |Workers(rows, n)| && InferenceLoad(rows, n) == |InferenceWorkers(rows, n)|
  {
    assert Workers(rows, n) == set id | id in rows && rows[id].node == Some(n) && rows[id].actual != Absent;
    assert InferenceWorkers(rows, n) == set id | id in rows && rows[id].node == Some(n) && rows[id].actual != Absent
                                                 && rows[id].runtimeClass in {"inference", "inference_worker", "gpu"};
  }

  /** `a` comes before `b` in a dictionary: it is a proper prefix, or has the smaller character where they differ. */
  ghost predicate Alphabetical(a: string, b: string) {
    exists k :: 0 <= k <= |a| && k <= |b| && a[..k] == b[..k]
                && ((k == |a| && k < |b|) || (k < |a| && k < |b| && a[k] < b[k]))
  }

  lemma {:induction false} PrecedesIsAlphabetical(a: string, b: string)
    requires Precedes(a, b)
    ensures Alphabetical(a, b)
  {
    if a != "" && a[0] == b[0] {
      PrecedesIsAlphabetical(a[1..], b[1..]);
      var k :| 0 <= k <= |a[1..]| && k <= |b[1..]| && a[1..][..k] == b[1..][..k]
               && ((k == |a[1..]| && k < |b[1..]|) || (k < |a[1..]| && k < |b[1..]| && a[1..][k] < b[1..][k]));
      assert a[..k + 1] == [a[0]] + a[1..][..k] && b[..k + 1] == [b[0]] + b[1..][..k];
      assert k + 1 < |a| && k + 1 < |b| ==> a[k + 1] == a[1..][k] && b[k + 1] == b[1..][k];
    } else {
      assert a[..0] == b[..0];
    }
  }

  /** Where a runtime may go: pinned classes to their template's node, any other to a node the provider lists as online,
      never to an excluded one. */
  lemma PlacedWhere(rows: map<Id, Row>, cls: string, template: string, listing: Option<seq<(string, string)>>)
    ensures var d := Select(rows, cls, template, Candidates(listing));
            && (cls in {"sandbox", "dkms_service"} ==> d == Placed(template, 100))
            && (cls !in {"sandbox", "dkms_service"} && d.Placed? ==>
                  && listing.Some? && (d.node, "online") in listing.value
                  && d.node != "" && d.node != "miam-00133" && d.node != "miam-00147")
  {
    var d := Select(rows, cls, template, Candidates(listing));
    if cls !in TEMPLATE_PINNED_CLASSES && d.Placed? {
      SelectIsBest(rows, cls, template, Candidates(listing));
      assert d.node in EligibleNodes(rows, cls, Candidates(listing));
    }
  }

  /** The score a placement reports is that of the kind of node and its load; an inference runtime never goes to an
      inference node that has one. */
  lemma ScoredHow(rows: map<Id, Row>, cls: string, template: string, candidates: set<string>)
    requires cls !in {"sandbox", "dkms_service"} && Select(rows, cls, template, candidates).Placed?
    ensures var d := Select(rows, cls, template, candidates);
            && d.score == (if d.node == "miam-00100" then 100
                           else if !InferenceNode(d.node) then 20 - 2 * Load(rows, d.node)
                           else if cls in {"inference", "inference_worker", "gpu"} then 40 else -20)
            && (InferenceNode(d.node) && cls in {"inference", "inference_worker", "gpu"} ==> InferenceLoad(rows, d.node) == 0)
  {
    SelectIsBest(rows, cls, template, candidates);
    var d := Select(rows, cls, template, candidates);
    assert d.node in EligibleNodes(rows, cls, candidates);
    NodeScored(rows, cls, d.node);
  }

  lemma NodeScored(rows: map<Id, Row>, cls: string, n: string)
    requires n != "" && Score(rows, cls, n).Some?
    ensures Score(rows, cls, n).value == (if n == "miam-00100" then 100
                                          else if !InferenceNode(n) then 20 - 2 * Load(rows, n)
                                          else if cls in {"inference", "inference_worker", "gpu"} then 40 else -20)
    ensures InferenceNode(n) && cls in {"inference", "inference_worker", "gpu"} ==> InferenceLoad(rows, n) == 0
  {
    LoadsAreWorkers(rows, n);
  }

  /** A runtime that is not pinned is refused exactly when no online node that is not excluded could take it. */
  lemma RefusedWhen(rows: map<Id, Row>, cls: string, template: string, listing: seq<(string, string)>)
    requires cls !in {"sandbox", "dkms_service"}
    ensures Select(rows, cls, template, Candidates(Some(listing))).Rejected? <==>
              forall n :: (n, "online") in listing && n != "" && n != "miam-00133" && n != "miam-00147" ==>
                InferenceNode(n) && cls in {"inference", "inference_worker", "gpu"} && InferenceLoad(rows, n) > 0
  {
    var candidates := Candidates(Some(listing));
    SelectIsBest(rows, cls, template, candidates);
    forall n | n != ""
      ensures Eligible(rows, cls, candidates, n) <==>
                (n, "online") in listing && n != "miam-00133" && n != "miam-00147"
                && !(InferenceNode(n) && cls in {"inference", "inference_worker", "gpu"} && InferenceLoad(rows, n) > 0)
    {
      LoadsAreWorkers(rows, n);
      assert n in candidates <==> (n, "online") in listing && n !in EXCLUDED_NODES;
    }
  }

  /** With the preferred node away, a generic node that is chosen has the fewest runtimes of the generic nodes; ties go
      to the template's node, then to the first name. */
  lemma LeastLoadedWins(rows: map<Id, Row>, cls: string, template: string, candidates: set<string>, n: string)
    requires cls !in {"sandbox", "dkms_service"} && "miam-00100" !in candidates
    requires Select(rows, cls, template, candidates).Placed? && Generic(Select(rows, cls, template, candidates).node)
    requires n in candidates && Generic(n) && n != Select(rows, cls, template, candidates).node
    ensures var m := Select(rows, cls, template, candidates).node;
            || Load(rows, m) < Load(rows, n)
            || (Load(rows, m) == Load(rows, n) && (m == template || (n != template && Alphabetical(m, n))))
  {
    SelectIsBest(rows, cls, template, candidates);
    var m := Select(rows, cls, template, candidates).node;
    LoadsAreWorkers(rows, m);
    LoadsAreWorkers(rows, n);
    assert n in EligibleNodes(rows, cls, candidates) && m in EligibleNodes(rows, cls, candidates);
    assert Beats(rows, cls, template, m, n);
    if Precedes(m, n) {
      PrecedesIsAlphabetical(m, n);
    }
  }

  /** With the preferred node away, an inference runtime goes to an inference node that has none whenever there is one;
      ties go to the template's node, then to the first name. */
  lemma InferenceNodeFirst(rows: map<Id, Row>, cls: string, template: string, candidates: set<string>, n: string)
    requires cls in {"inference", "inference_worker", "gpu"} && "miam-00100" !in candidates
    requires n in candidates && InferenceNode(n) && InferenceLoad(rows, n) == 0
    ensures var d := Select(rows, cls, template, candidates);
            && d.Placed? && InferenceNode(d.node) && InferenceLoad(rows, d.node) == 0
            && (n == d.node || d.node == template || (n != template && Alphabetical(d.node, n)))
  {
    LoadsAreWorkers(rows, n);
    assert Eligible(rows, cls, candidates, n);
    SelectIsBest(rows, cls, template, candidates);
    var m := Select(rows, cls, template, candidates).node;
    assert n in EligibleNodes(rows, cls, candidates) && m in EligibleNodes(rows, cls, candidates);
    LoadsAreWorkers(rows, m);
    BestBeats(rows, cls, template, candidates, m, n);
    if Precedes(m, n) {
      PrecedesIsAlphabetical(m, n);
    }
  }
}
