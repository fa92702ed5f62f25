/** Hosted-command presets (service/app/main.py): the sort_order column and the unique index on active contents. The
    engine follows from the host and the scope type is always the same, so a scope is a host. Routes are atomic. */
module Presets {
  import opened Wrappers
  import opened Sets

  datatype Preset = Preset(scope: string, hash: string, sortOrder: int, deleted: bool, useCount: nat)

  type Table = map<int, Preset>

  function Active(t: Table, scope: string): set<int> {
    set id | id in t && t[id].scope == scope && !t[id].deleted
  }

  predicate IsLeast(t: Table, scope: string, m: int) {
    (exists id :: id in Active(t, scope) && t[id].sortOrder == m) && forall id :: id in Active(t, scope) ==> m <= t[id].sortOrder
  }

  lemma {:induction false} LeastExists(t: Table, scope: string, ids: set<int>) returns (least: int)
    requires ids != {} && ids <= Active(t, scope)
    ensures least in ids && forall id :: id in ids ==> t[least].sortOrder <= t[id].sortOrder
    decreases |ids|
  {
    least := Pick(ids);
    var rest := ids - {least};
    if rest != {} {
      var other := LeastExists(t, scope, rest);
      if t[other].sortOrder < t[least].sortOrder {
        least := other;
      }
    }
    forall id | id in ids
      ensures t[least].sortOrder <= t[id].sortOrder
    {
      assert id in rest || rest == ids - {id};
    }
  }

  /** MIN(sort_order) over the active presets of a host. */
  ghost function Least(t: Table, scope: string): (m: Option<int>)
    ensures m.None? <==> Active(t, scope) == {}
    ensures m.Some? ==> IsLeast(t, scope, m.value)
  {
    if Active(t, scope) == {} then None
    else
      assert exists m :: IsLeast(t, scope, m) by {
        var id := LeastExists(t, scope, Active(t, scope));
        assert IsLeast(t, scope, t[id].sortOrder);
      }
      var m :| IsLeast(t, scope, m);
      Some(m)
  }

  function Matching(t: Table, scope: string, hash: string): set<int> {
    set id | id in Active(t, scope) && t[id].hash == hash
  }

  /** The active preset with that content. */
  ghost function Existing(t: Table, scope: string, hash: string): Option<int> {
    if Matching(t, scope, hash) == {} then None
    else
      assert exists id :: id in Matching(t, scope, hash) by { var some := Pick(Matching(t, scope, hash)); }
      var id :| id in Matching(t, scope, hash);
      Some(id)
  }

  /** The unique index on (scope, content) of the active presets. */
  ghost predicate UniqueContents(t: Table) {
    forall a, b, scope :: a in Active(t, scope) && b in Active(t, scope) && t[a].hash == t[b].hash ==> a == b
  }

  // ------------------------------------------------------------------ the routes

  datatype Step =
    | Open(scope: string, unit: Option<string>, id: int)      // lists the presets, importing the running unit if there are none
    | Create(scope: string, hash: string, id: int)
    | Use(scope: string, id: int)
    | Delete(scope: string, id: int)
    | Reorder(scope: string, order: seq<int>)

  ghost function Touched(t: Table, id: int): Table {
    if id !in t || t[id].deleted then t
    else t[id := t[id].(sortOrder := Least(t, t[id].scope).GetOr(1) - 1, useCount := t[id].useCount + 1)]
  }

  function Reordered(t: Table, scope: string, order: seq<int>): Table
    decreases |order|
  {
    if order == [] then t
    else
      var i := |order| - 1;
      var t' := Reordered(t, scope, order[..i]);
      if order[i] in Active(t', scope) then t'[order[i] := t'[order[i]].(sortOrder := i)] else t'
  }

  ghost function Next(t: Table, step: Step): Table {
    match step
    case Open(scope, unit, id) =>
      if Active(t, scope) == {} && unit.Some? then t[id := Preset(scope, unit.value, 0, false, 0)] else t
    case Create(scope, hash, id) =>
      (match Existing(t, scope, hash)
       case Some(same) => Touched(t, same)
       case None => t[id := Preset(scope, hash, Least(t, scope).GetOr(0) - 1, false, 1)])
    case Use(scope, id) => if id in Active(t, scope) then Touched(t, id) else t
    case Delete(scope, id) => if id in Active(t, scope) then t[id := t[id].(deleted := true)] else t
    case Reorder(scope, order) => Reordered(t, scope, order)
  }

  class PresetStore {
    var rows: Table

    constructor ()
      ensures rows == map[] && UniqueContents(rows)
    {
      rows := map[];
    }

    /** SELECT MIN(sort_order) */
    method LeastOrder(scope: string) returns (m: Option<int>)
      ensures m == Least(rows, scope)
    {
      m := None;
      var todo, done: set<int> := rows.Keys, {};
      while todo != {}
        invariant todo + done == rows.Keys
        invariant m.None? <==> Active(rows, scope) * done == {}
        invariant m.Some? ==> exists id :: id in Active(rows, scope) * done && rows[id].sortOrder == m.value
        invariant m.Some? ==> forall id :: id in Active(rows, scope) * done ==> m.value <= rows[id].sortOrder
        decreases todo
      {
        ghost var some := Pick(todo);
        var id :| id in todo;
        if id in Active(rows, scope) && (m.None? || rows[id].sortOrder < m.value) {
          m := Some(rows[id].sortOrder);
        }
        todo, done := todo - {id}, done + {id};
      }
      assert Active(rows, scope) * done == Active(rows, scope);
    }

    method TouchPreset(id: int)
      modifies this
      ensures rows == Touched(old(rows), id)
    {
      if id in rows && !rows[id].deleted {
        var least := LeastOrder(rows[id].scope);
        rows := rows[id := rows[id].(sortOrder := least.GetOr(1) - 1, useCount := rows[id].useCount + 1)];
      }
    }

    method ListPresets(scope: string, unit: Option<string>, id: int)
      requires UniqueContents(rows) && id !in rows
      modifies this
      ensures rows == Next(old(rows), Open(scope, unit, id)) && UniqueContents(rows)
    {
      StepKeepsUnique(rows, Open(scope, unit, id));
      if Active(rows, scope) == {} && unit.Some? {
        rows := rows[id := Preset(scope, unit.value, 0, false, 0)];
      }
    }

    method CreatePreset(scope: string, hash: string, id: int)
      requires UniqueContents(rows) && id !in rows
      modifies this
      ensures rows == Next(old(rows), Create(scope, hash, id)) && UniqueContents(rows)
    {
      StepKeepsUnique(rows, Create(scope, hash, id));
      var same := Matching(rows, scope, hash);
      if same != {} {
        ghost var some := Pick(same);
        var found :| found in same;
        assert Existing(rows, scope, hash) == Some(found);
        TouchPreset(found);
        return;
      }
      var least := LeastOrder(scope);
      rows := rows[id := Preset(scope, hash, least.GetOr(0) - 1, false, 1)];
    }

    method UsePreset(scope: string, id: int) returns (found: bool)
      requires UniqueContents(rows)
      modifies this
      ensures rows == Next(old(rows), Use(scope, id)) && UniqueContents(rows) && found == (id in Active(old(rows), scope))
    {
      StepKeepsUnique(rows, Use(scope, id));
      found := id in Active(rows, scope);
      if found {
        TouchPreset(id);
      }
    }

    method DeletePreset(scope: string, id: int) returns (found: bool)
      requires UniqueContents(rows)
      modifies this
      ensures rows == Next(old(rows), Delete(scope, id)) && UniqueContents(rows) && found == (id in Active(old(rows), scope))
    {
      StepKeepsUnique(rows, Delete(scope, id));
      found := id in Active(rows, scope);
      if found {
        rows := rows[id := rows[id].(deleted := true)];
      }
    }

    method ReorderPresets(scope: string, order: seq<int>)
      requires UniqueContents(rows)
      modifies this
      ensures rows == Next(old(rows), Reorder(scope, order)) && UniqueContents(rows)
    {
      StepKeepsUnique(rows, Reorder(scope, order));
      var i := 0;
      while i < |order|
        invariant 0 <= i <= |order|
        invariant rows == Reordered(old(rows), scope, order[..i])
      {
        assert order[..i + 1][..i] == order[..i];
        if order[i] in Active(rows, scope) {
          rows := rows[order[i] := rows[order[i]].(sortOrder := i)];
        }
        i := i + 1;
      }
      assert order[..i] == order;
    }
  }

  // ------------------------------------------------------------------ the abstract list

  datatype Item = Item(id: int, hash: string)

  function Without(list: seq<Item>, id: int): (r: seq<Item>)
    ensures forall x :: x in r <==> x in list && x.id != id
  {
    if list == [] then []
    else (if list[0].id == id then [] else [list[0]]) + Without(list[1..], id)
  }

  function ItemOf(list: seq<Item>, id: int): (x: Option<Item>)
    ensures x.Some? ==> x.value in list && x.value.id == id
    ensures x.None? ==> forall y :: y in list ==> y.id != id
  {
    if list == [] then None else if list[0].id == id then Some(list[0]) else ItemOf(list[1..], id)
  }

  function SameContent(list: seq<Item>, hash: string): (x: Option<Item>)
    ensures x.Some? ==> x.value in list && x.value.hash == hash
    ensures x.None? ==> forall y :: y in list ==> y.hash != hash
  {
    if list == [] then None else if list[0].hash == hash then Some(list[0]) else SameContent(list[1..], hash)
  }

  function ToFront(list: seq<Item>, x: Item): seq<Item> {
    [x] + Without(list, x.id)
  }

  function ByOrder(list: seq<Item>, order: seq<int>): seq<Item> {
    if order == [] then []
    else
      var last := ItemOf(list, order[|order| - 1]);
      ByOrder(list, order[..|order| - 1]) + (if last.Some? then [last.value] else [])
  }

  /** What a route does to the list of a host, most recent first. */
  function NextList(list: seq<Item>, step: Step): seq<Item> {
    match step
    case Open(_, unit, id) => if list == [] && unit.Some? then [Item(id, unit.value)] else list
    case Create(_, hash, id) =>
      (match SameContent(list, hash)
       case Some(x) => ToFront(list, x)
       case None => [Item(id, hash)] + list)
    case Use(_, id) =>
      (match ItemOf(list, id)
       case Some(x) => ToFront(list, x)
       case None => list)
    case Delete(_, id) => Without(list, id)
    case Reorder(_, order) => ByOrder(list, order)
  }

  // ------------------------------------------------------------------ the refinement

  predicate Ascending(t: Table, list: seq<Item>) {
    forall i, j :: 0 <= i < j < |list| ==>
      list[i].id in t && list[j].id in t && t[list[i].id].sortOrder < t[list[j].id].sortOrder
  }

  /** `list` holds exactly the active presets of the host. */
  ghost predicate Lists(t: Table, scope: string, list: seq<Item>) {
    forall x :: x in list <==> x.id in Active(t, scope) && x.hash == t[x.id].hash
  }

  predicate DistinctContents(list: seq<Item>) {
    forall i, j :: 0 <= i < j < |list| ==> list[i].hash != list[j].hash
  }

  /** ORDER BY sort_order gives `list`, with no ties and no content twice. */
  ghost predicate Refines(t: Table, scope: string, list: seq<Item>) {
    Lists(t, scope, list) && Ascending(t, list) && DistinctContents(list)
  }

  lemma {:induction false} WithoutKeeps(t: Table, list: seq<Item>, id: int)
    requires Ascending(t, list) && DistinctContents(list)
    ensures Ascending(t, Without(list, id)) && DistinctContents(Without(list, id))
  {
    if list != [] {
      var rest := Without(list[1..], id);
      WithoutKeeps(t, list[1..], id);
      if list[0].id != id {
        forall k | 0 <= k < |rest|
          ensures Above(t, list[0], rest[k])
        {
          assert rest[k] in list[1..];
          var m :| 0 <= m < |list[1..]| && list[1..][m] == rest[k];
          assert list[m + 1] == rest[k];
        }
        ConsKeeps(t, list[0], rest);
      }
    }
  }

  predicate Above(t: Table, x: Item, y: Item) {
    x.id in t && y.id in t && t[x.id].sortOrder < t[y.id].sortOrder && x.hash != y.hash
  }

  lemma ConsKeeps(t: Table, x: Item, list: seq<Item>)
    requires Ascending(t, list) && DistinctContents(list) && forall k :: 0 <= k < |list| ==> Above(t, x, list[k])
    ensures Ascending(t, [x] + list) && DistinctContents([x] + list)
  {
  }

  /** Same rows, same order. */
  lemma AscendingSame(t: Table, t': Table, list: seq<Item>)
    requires Ascending(t, list) && forall x :: x in list ==> x.id in t' && (x.id in t ==> t'[x.id].sortOrder == t[x.id].sortOrder)
    ensures Ascending(t', list)
  {
  }

  /** A preset put below the least order goes to the front. */
  lemma FrontRefines(t: Table, scope: string, x: Item, list: seq<Item>)
    requires Ascending(t, list) && DistinctContents(list) && x.id in t
    requires forall y :: y in list ==> y.id in t && t[x.id].sortOrder < t[y.id].sortOrder && y.hash != x.hash
    requires forall y :: y in [x] + list <==> y.id in Active(t, scope) && y.hash == t[y.id].hash
    ensures Refines(t, scope, [x] + list)
  {
  }

  lemma ItemAt(t: Table, scope: string, list: seq<Item>, x: Item, y: Item)
    requires Refines(t, scope, list) && x in list && y in list && (x.id == y.id || x.hash == y.hash)
    ensures x == y
  {
    var i :| 0 <= i < |list| && list[i] == x;
    var j :| 0 <= j < |list| && list[j] == y;
  }

  lemma TouchRefines(t: Table, scope: string, list: seq<Item>, x: Item)
    requires Refines(t, scope, list) && x in list
    ensures Refines(Touched(t, x.id), scope, ToFront(list, x))
  {
    var t', rest := Touched(t, x.id), Without(list, x.id);
    WithoutKeeps(t, list, x.id);
    forall y | y in rest
      ensures y.id in t' && t'[x.id].sortOrder < t'[y.id].sortOrder && y.hash != x.hash
    {
      if y.hash == x.hash {
        ItemAt(t, scope, list, x, y);
      }
    }
    AscendingSame(t, t', rest);
    forall y
      ensures y in [x] + rest <==> y.id in Active(t', scope) && y.hash == t'[y.id].hash
    {
      assert y in list <==> y.id in Active(t, scope) && y.hash == t[y.id].hash;
    }
    FrontRefines(t', scope, x, rest);
  }

  lemma TouchElsewhere(t: Table, scope: string, list: seq<Item>, id: int)
    requires Refines(t, scope, list) && id in t && t[id].scope != scope
    ensures Refines(Touched(t, id), scope, list)
  {
    var t' := Touched(t, id);
    assert Active(t', scope) == Active(t, scope);
    AscendingSame(t, t', list);
  }

  lemma AddRefines(t: Table, scope: string, list: seq<Item>, id: int, p: Preset)
    requires Refines(t, scope, list) && id !in t && p.scope == scope && !p.deleted
    requires forall y :: y in list ==> p.sortOrder < t[y.id].sortOrder && y.hash != p.hash
    ensures Refines(t[id := p], scope, [Item(id, p.hash)] + list)
  {
    var t', x := t[id := p], Item(id, p.hash);
    AscendingSame(t, t', list);
    forall y
      ensures y in [x] + list <==> y.id in Active(t', scope) && y.hash == t'[y.id].hash
    {
      assert y in list <==> y.id in Active(t, scope) && y.hash == t[y.id].hash;
    }
    FrontRefines(t', scope, x, list);
  }

  lemma AddElsewhere(t: Table, scope: string, list: seq<Item>, id: int, p: Preset)
    requires Refines(t, scope, list) && id !in t && p.scope != scope
    ensures Refines(t[id := p], scope, list)
  {
    assert Active(t[id := p], scope) == Active(t, scope);
    AscendingSame(t, t[id := p], list);
  }

  lemma CreateRefines(t: Table, scope: string, list: seq<Item>, hash: string, id: int)
    requires Refines(t, scope, list) && id !in t
    ensures Refines(Next(t, Create(scope, hash, id)), scope, NextList(list, Create(scope, hash, id)))
  {
    match Existing(t, scope, hash)
    case Some(same) =>
      assert Item(same, hash) in list;
      ItemAt(t, scope, list, SameContent(list, hash).value, Item(same, hash));
      TouchRefines(t, scope, list, Item(same, hash));
    case None =>
      forall y | y in list
        ensures y.hash != hash
      {
        assert y.hash == hash ==> y.id in Matching(t, scope, hash);
      }
      AddRefines(t, scope, list, id, Preset(scope, hash, Least(t, scope).GetOr(0) - 1, false, 1));
  }

  lemma ActiveIsListed(t: Table, scope: string, list: seq<Item>, id: int)
    requires Lists(t, scope, list) && id in Active(t, scope)
    ensures list != []
  {
    assert Item(id, t[id].hash) in list;
  }

  lemma OpenRefines(t: Table, scope: string, list: seq<Item>, unit: Option<string>, id: int)
    requires Refines(t, scope, list) && id !in t
    ensures Refines(Next(t, Open(scope, unit, id)), scope, NextList(list, Open(scope, unit, id)))
  {
    if list == [] {
      assert Active(t, scope) == {} by {
        if Active(t, scope) != {} {
          var id' := Pick(Active(t, scope));
          ActiveIsListed(t, scope, list, id');
        }
      }
      if unit.Some? {
        AddRefines(t, scope, [], id, Preset(scope, unit.value, 0, false, 0));
      }
    } else {
      assert list[0].id in Active(t, scope);
    }
  }

  lemma UseRefines(t: Table, scope: string, list: seq<Item>, id: int)
    requires Refines(t, scope, list)
    ensures Refines(Next(t, Use(scope, id)), scope, NextList(list, Use(scope, id)))
  {
    var x := ItemOf(list, id);
    if id in Active(t, scope) {
      assert Item(id, t[id].hash) in list;
      TouchRefines(t, scope, list, x.value);
    }
  }

  lemma DeleteRefines(t: Table, scope: string, list: seq<Item>, id: int)
    requires Refines(t, scope, list)
    ensures Refines(Next(t, Delete(scope, id)), scope, NextList(list, Delete(scope, id)))
  {
    var t', rest := Next(t, Delete(scope, id)), Without(list, id);
    WithoutKeeps(t, list, id);
    forall y
      ensures y in rest <==> y.id in Active(t', scope) && y.hash == t'[y.id].hash
    {
      assert y in list <==> y.id in Active(t, scope) && y.hash == t[y.id].hash;
    }
    AscendingSame(t, t', rest);
  }

  lemma DeleteElsewhere(t: Table, scope: string, list: seq<Item>, id: int)
    requires Refines(t, scope, list) && id in t && t[id].scope != scope
    ensures Refines(t[id := t[id].(deleted := true)], scope, list)
  {
    var t' := t[id := t[id].(deleted := true)];
    assert Active(t', scope) == Active(t, scope);
    AscendingSame(t, t', list);
  }

  // ------------------------------------------------------------------ reorder

  /** Where `id` is named last, or -1. */
  function LastIndex(order: seq<int>, id: int): (i: int)
    ensures -1 <= i < |order|
    ensures i >= 0 <==> id in order
    ensures i >= 0 ==> order[i] == id
  {
    if order == [] then -1
    else if order[|order| - 1] == id then |order| - 1
    else
      assert order == order[..|order| - 1] + [order[|order| - 1]];
      LastIndex(order[..|order| - 1], id)
  }

  /** A reorder writes the last position of every active preset of the host that it names, and nothing else. */
  lemma {:induction false} ReorderedAt(t: Table, scope: string, order: seq<int>, id: int)
    ensures var t' := Reordered(t, scope, order);
            && (id in t' <==> id in t)
            && (id in t ==> t'[id] == if id in Active(t, scope) && id in order then t[id].(sortOrder := LastIndex(order, id)) else t[id])
    decreases |order|
  {
    if order != [] {
      var i := |order| - 1;
      assert order == order[..i] + [order[i]];
      ReorderedAt(t, scope, order[..i], id);
      ReorderedAt(t, scope, order[..i], order[i]);
    }
  }

  lemma ReorderedTable(t: Table, scope: string, order: seq<int>)
    ensures var t' := Reordered(t, scope, order);
            && t'.Keys == t.Keys && (forall s :: Active(t', s) == Active(t, s))
            && forall id :: id in t ==>
                 t'[id] == if id in Active(t, scope) && id in order then t[id].(sortOrder := LastIndex(order, id)) else t[id]
  {
    var t' := Reordered(t, scope, order);
    forall id: int
      ensures id in t' <==> id in t
      ensures id in t ==> t'[id] == if id in Active(t, scope) && id in order then t[id].(sortOrder := LastIndex(order, id)) else t[id]
    {
      ReorderedAt(t, scope, order, id);
    }
    forall s
      ensures Active(t', s) == Active(t, s)
    {
      forall id
        ensures id in Active(t', s) <==> id in Active(t, s)
      {
        ReorderedAt(t, scope, order, id);
      }
    }
  }

  predicate NoDuplicates(order: seq<int>) {
    forall i, j :: 0 <= i < j < |order| ==> order[i] != order[j]
  }

  /** The reorder names every preset of the list, once. */
  predicate Full(list: seq<Item>, order: seq<int>) {
    NoDuplicates(order) && forall x :: x in list ==> x.id in order
  }

  lemma {:induction false} ByOrderAscends(list: seq<Item>, order: seq<int>, k: nat)
    requires NoDuplicates(order) && k <= |order|
    ensures var l := ByOrder(list, order[..k]);
            && (forall x :: x in l ==> x in list)
            && (forall i :: 0 <= i < |l| ==> l[i] in list && l[i].id in order && LastIndex(order, l[i].id) < k)
            && (forall i, j :: 0 <= i < j < |l| ==> LastIndex(order, l[i].id) < LastIndex(order, l[j].id))
  {
    if k > 0 {
      ByOrderAscends(list, order, k - 1);
      assert order[..k][..k - 1] == order[..k - 1];
      assert order[..k][k - 1] == order[k - 1] && order[k - 1] in order;
      var at := LastIndex(order, order[k - 1]);
      assert at == k - 1 by { assert order[at] == order[k - 1]; }
      var last := ItemOf(list, order[k - 1]);
      assert ByOrder(list, order[..k]) == ByOrder(list, order[..k - 1]) + (if last.Some? then [last.value] else []);
    }
  }

  lemma {:induction false} ByOrderHolds(t: Table, scope: string, list: seq<Item>, order: seq<int>, x: Item)
    requires Refines(t, scope, list) && x in list && x.id in order
    ensures x in ByOrder(list, order)
    decreases |order|
  {
    var n := |order|;
    if order[n - 1] == x.id {
      ItemAt(t, scope, list, ItemOf(list, x.id).value, x);
    } else {
      assert order == order[..n - 1] + [order[n - 1]];
      ByOrderHolds(t, scope, list, order[..n - 1], x);
    }
  }

  lemma ReorderRefines(t: Table, scope: string, list: seq<Item>, order: seq<int>)
    requires Refines(t, scope, list) && Full(list, order)
    ensures Refines(Reordered(t, scope, order), scope, ByOrder(list, order))
  {
    var t', l := Reordered(t, scope, order), ByOrder(list, order);
    assert order[..|order|] == order;
    ByOrderAscends(list, order, |order|);
    ReorderedTable(t, scope, order);
    forall x | x in list
      ensures x in l
    {
      ByOrderHolds(t, scope, list, order, x);
    }
    forall x
      ensures x in l <==> x.id in Active(t', scope) && x.hash == t'[x.id].hash
    {
      assert x in list <==> x.id in Active(t, scope) && x.hash == t[x.id].hash;
    }
    forall i, j | 0 <= i < j < |l|
      ensures l[i].hash != l[j].hash
    {
      if l[i].hash == l[j].hash {
        ItemAt(t, scope, list, l[i], l[j]);
      }
    }
  }

  lemma ReorderElsewhere(t: Table, scope: string, list: seq<Item>, other: string, order: seq<int>)
    requires Refines(t, scope, list) && other != scope
    ensures Refines(Reordered(t, other, order), scope, list)
  {
    var t' := Reordered(t, other, order);
    ReorderedTable(t, other, order);
    assert Active(t', scope) == Active(t, scope);
    AscendingSame(t, t', list);
  }

  // ------------------------------------------------------------------ every run

  /** New ids are new, and a reorder names all the presets of its host. */
  ghost predicate Admissible(t: Table, step: Step, scope: string, list: seq<Item>) {
    && (step.Open? || step.Create? ==> step.id !in t)
    && (step.Reorder? && step.scope == scope ==> Full(list, step.order))
  }

  lemma StepRefines(t: Table, scope: string, list: seq<Item>, step: Step)
    requires Refines(t, scope, list) && Admissible(t, step, scope, list)
    ensures Refines(Next(t, step), scope, if step.scope == scope then NextList(list, step) else list)
  {
    match step
    case Open(s, unit, id) =>
      if s == scope { OpenRefines(t, scope, list, unit, id); }
      else if unit.Some? { AddElsewhere(t, scope, list, id, Preset(s, unit.value, 0, false, 0)); }
    case Create(s, hash, id) =>
      if s == scope { CreateRefines(t, scope, list, hash, id); }
      else if Existing(t, s, hash).Some? { TouchElsewhere(t, scope, list, Existing(t, s, hash).value); }
      else { AddElsewhere(t, scope, list, id, Preset(s, hash, Least(t, s).GetOr(0) - 1, false, 1)); }
    case Use(s, id) =>
      if s == scope { UseRefines(t, scope, list, id); }
      else if id in Active(t, s) { TouchElsewhere(t, scope, list, id); }
    case Delete(s, id) =>
      if s == scope { DeleteRefines(t, scope, list, id); }
      else if id in Active(t, s) { DeleteElsewhere(t, scope, list, id); }
    case Reorder(s, order) =>
      if s == scope { ReorderRefines(t, scope, list, order); } else { ReorderElsewhere(t, scope, list, s, order); }
  }

  ghost function Run(t: Table, steps: seq<Step>): Table
    decreases |steps|
  {
    if steps == [] then t else Run(Next(t, steps[0]), steps[1..])
  }

  function RunList(scope: string, list: seq<Item>, steps: seq<Step>): seq<Item>
    decreases |steps|
  {
    if steps == [] then list
    else RunList(scope, if steps[0].scope == scope then NextList(list, steps[0]) else list, steps[1..])
  }

  ghost predicate AdmissibleRun(t: Table, scope: string, list: seq<Item>, steps: seq<Step>)
    decreases |steps|
  {
    steps == [] || (Admissible(t, steps[0], scope, list)
                    && AdmissibleRun(Next(t, steps[0]), scope, if steps[0].scope == scope then NextList(list, steps[0]) else list, steps[1..]))
  }

  lemma {:induction false} RunRefines(t: Table, scope: string, list: seq<Item>, steps: seq<Step>)
    requires Refines(t, scope, list) && AdmissibleRun(t, scope, list, steps)
    ensures Refines(Run(t, steps), scope, RunList(scope, list, steps))
    decreases |steps|
  {
    if steps != [] {
      StepRefines(t, scope, list, steps[0]);
      RunRefines(Next(t, steps[0]), scope, if steps[0].scope == scope then NextList(list, steps[0]) else list, steps[1..]);
    }
  }

  /** An empty table is the empty list. */
  lemma EmptyRefines(scope: string)
    ensures Refines(map[], scope, [])
  {
  }

  /** In every run of imports, creations, uses, deletions and full reorders from an empty table, over any number of
      hosts, ORDER BY sort_order is the move-to-front list of the host: no ties, no content twice. */
  lemma SortOrderIsMoveToFront(scope: string, steps: seq<Step>)
    requires AdmissibleRun(map[], scope, [], steps)
    ensures Refines(Run(map[], steps), scope, RunList(scope, [], steps))
    ensures NoTies(Run(map[], steps), scope)
  {
    EmptyRefines(scope);
    RunRefines(map[], scope, [], steps);
    RefinedHasNoTies(Run(map[], steps), scope, RunList(scope, [], steps));
  }

  // ------------------------------------------------------------------ the unique index

  predicate NewIds(t: Table, step: Step) {
    step.Open? || step.Create? ==> step.id !in t
  }

  ghost predicate NewIdsRun(t: Table, steps: seq<Step>)
    decreases |steps|
  {
    steps == [] || (NewIds(t, steps[0]) && NewIdsRun(Next(t, steps[0]), steps[1..]))
  }

  /** Rows keep their host and content, and none comes back to life. */
  lemma SameContents(t: Table, t': Table)
    requires UniqueContents(t) && t'.Keys == t.Keys
    requires forall id :: id in t ==> t'[id].scope == t[id].scope && t'[id].hash == t[id].hash && (t[id].deleted ==> t'[id].deleted)
    ensures UniqueContents(t')
  {
    forall a, b, scope | a in Active(t', scope) && b in Active(t', scope) && t'[a].hash == t'[b].hash
      ensures a == b
    {
      assert a in Active(t, scope) && b in Active(t, scope);
    }
  }

  lemma NewContent(t: Table, id: int, p: Preset)
    requires UniqueContents(t) && id !in t && Matching(t, p.scope, p.hash) == {}
    ensures UniqueContents(t[id := p])
  {
    var t' := t[id := p];
    forall a, b, scope | a in Active(t', scope) && b in Active(t', scope) && t'[a].hash == t'[b].hash
      ensures a == b
    {
      assert a != id ==> a in Active(t, scope) && (b == id ==> a in Matching(t, p.scope, p.hash));
      assert b != id ==> b in Active(t, scope) && (a == id ==> b in Matching(t, p.scope, p.hash));
    }
  }

  /** Every route keeps the unique index, whatever a reorder names. */
  lemma StepKeepsUnique(t: Table, step: Step)
    requires UniqueContents(t) && NewIds(t, step)
    ensures UniqueContents(Next(t, step))
  {
    match step
    case Open(scope, unit, id) =>
      if Active(t, scope) == {} && unit.Some? {
        NewContent(t, id, Preset(scope, unit.value, 0, false, 0));
      }
    case Create(scope, hash, id) =>
      if Existing(t, scope, hash).Some? {
        SameContents(t, Next(t, step));
      } else {
        NewContent(t, id, Preset(scope, hash, Least(t, scope).GetOr(0) - 1, false, 1));
      }
    case Use(_, _) => SameContents(t, Next(t, step));
    case Delete(_, _) => SameContents(t, Next(t, step));
    case Reorder(scope, order) =>
      ReorderedTable(t, scope, order);
      SameContents(t, Next(t, step));
  }

  /** What creation relies on holds in every run from an empty table, partial reorders included. */
  lemma {:induction false} RunsKeepUnique(t: Table, steps: seq<Step>)
    requires UniqueContents(t) && NewIdsRun(t, steps)
    ensures UniqueContents(Run(t, steps))
    decreases |steps|
  {
    if steps != [] {
      StepKeepsUnique(t, steps[0]);
      RunsKeepUnique(Next(t, steps[0]), steps[1..]);
    }
  }

  // ------------------------------------------------------------------ the order is the list

  lemma SameHead(t: Table, a: seq<Item>, b: seq<Item>)
    requires Ascending(t, a) && Ascending(t, b) && a != [] && b != [] && b[0] in a && a[0] in b
    ensures a[0] == b[0]
  {
    var i :| 0 <= i < |a| && a[i] == b[0];
    var j :| 0 <= j < |b| && b[j] == a[0];
  }

  lemma HeadIn(a: seq<Item>)
    requires a != []
    ensures exists x :: x in a
  {
    assert a[0] in a;
  }

  lemma {:induction false} SortedSame(t: Table, a: seq<Item>, b: seq<Item>)
    requires Ascending(t, a) && Ascending(t, b) && forall x :: x in a <==> x in b
    ensures a == b
  {
    if a == [] {
      if b != [] {
        HeadIn(b);
      }
    } else if b == [] {
      HeadIn(a);
    } else {
      assert b[0] in a && a[0] in b;
      SameHead(t, a, b);
      forall x
        ensures x in a[1..] <==> x in b[1..]
      {
        TailMembers(t, a, x);
        TailMembers(t, b, x);
      }
      SortedSame(t, a[1..], b[1..]);
      assert a == [a[0]] + a[1..] && b == [b[0]] + b[1..];
    }
  }

  lemma TailMembers(t: Table, a: seq<Item>, x: Item)
    requires Ascending(t, a) && a != []
    ensures x in a[1..] <==> x in a && x != a[0]
  {
    assert a == [a[0]] + a[1..];
    if x in a[1..] {
      var k :| 0 <= k < |a[1..]| && a[1..][k] == x;
      assert a[k + 1] == x;
    }
  }

  /** The column determines the list. */
  lemma OrderIsUnique(t: Table, scope: string, a: seq<Item>, b: seq<Item>)
    requires Refines(t, scope, a) && Refines(t, scope, b)
    ensures a == b
  {
    SortedSame(t, a, b);
  }

  /** In a refined table neither a content nor a sort order occurs twice. */
  lemma RefinedIsUnique(t: Table, scope: string, list: seq<Item>, a: int, b: int)
    requires Refines(t, scope, list) && a in Active(t, scope) && b in Active(t, scope)
    ensures (t[a].hash == t[b].hash || t[a].sortOrder == t[b].sortOrder) ==> a == b
  {
    var x, y := Item(a, t[a].hash), Item(b, t[b].hash);
    assert x in list && y in list;
    var i :| 0 <= i < |list| && list[i] == x;
    var j :| 0 <= j < |list| && list[j] == y;
    if t[a].hash == t[b].hash {
      ItemAt(t, scope, list, x, y);
    }
  }

  // ------------------------------------------------------------------ partial reorders

  predicate NoTies(t: Table, scope: string) {
    forall a, b :: a in Active(t, scope) && b in Active(t, scope) && a != b ==> t[a].sortOrder != t[b].sortOrder
  }

  lemma RefinedHasNoTies(t: Table, scope: string, list: seq<Item>)
    requires Refines(t, scope, list)
    ensures NoTies(t, scope)
  {
    forall a, b | a in Active(t, scope) && b in Active(t, scope) && a != b
      ensures t[a].sortOrder != t[b].sortOrder
    {
      RefinedIsUnique(t, scope, list, a, b);
    }
  }

  /** The position given to a named preset is the sort order an unnamed one has. */
  predicate Collides(t: Table, scope: string, order: seq<int>, a: int, b: int) {
    a in Active(t, scope) && b in Active(t, scope) && a in order && b !in order && LastIndex(order, a) == t[b].sortOrder
  }

  lemma TieAt(t: Table, scope: string, order: seq<int>, a: int, b: int)
    requires Collides(t, scope, order, a, b)
    ensures !NoTies(Reordered(t, scope, order), scope)
  {
    ReorderedTable(t, scope, order);
    var t' := Reordered(t, scope, order);
    assert a in Active(t', scope) && b in Active(t', scope) && t'[a].sortOrder == t'[b].sortOrder;
  }

  /** Any reorder, of some presets, of unknown ones, with repetitions: it leaves no ties exactly when no position it
      writes is the sort order of a preset it does not name. */
  lemma ReorderTies(t: Table, scope: string, order: seq<int>)
    requires NoTies(t, scope)
    ensures NoTies(Reordered(t, scope, order), scope) <==> forall a, b :: !Collides(t, scope, order, a, b)
  {
    var t' := Reordered(t, scope, order);
    ReorderedTable(t, scope, order);
    if NoTies(t', scope) {
      forall a, b
        ensures !Collides(t, scope, order, a, b)
      {
        if Collides(t, scope, order, a, b) {
          TieAt(t, scope, order, a, b);
        }
      }
    }
    if forall a, b :: !Collides(t, scope, order, a, b) {
      forall a, b | a in Active(t', scope) && b in Active(t', scope) && a != b
        ensures t'[a].sortOrder != t'[b].sortOrder
      {
        assert !Collides(t, scope, order, a, b) && !Collides(t, scope, order, b, a);
      }
    }
  }

  /** The smallest such reorder: moving the first of two presets, at -1 and 0, to the top alone puts both at 0. */
  lemma OneMovedTies(scope: string)
    ensures var t: Table := map[1 := Preset(scope, "a", -1, false, 1), 2 := Preset(scope, "b", 0, false, 0)];
            && NoTies(t, scope) && !NoTies(Reordered(t, scope, [1]), scope)
  {
    var t: Table := map[1 := Preset(scope, "a", -1, false, 1), 2 := Preset(scope, "b", 0, false, 0)];
    assert LastIndex([1], 1) == 0;
    TieAt(t, scope, [1], 1, 2);
  }

  // ------------------------------------------------------------------ counting uses

  /** The preset a step uses: the one asked for, or the one with the content that is created again. */
  ghost predicate Uses(t: Table, step: Step, id: int) {
    && id in t && !t[id].deleted
    && ((step.Use? && step.id == id && t[id].scope == step.scope)
        || (step.Create? && t[id].scope == step.scope && t[id].hash == step.hash))
  }

  /** The count of a preset goes up by one exactly when it is used; a created one begins with one use and an imported one
      with none; deleted presets keep their rows, and nothing else is ever written but a position. */
  lemma UsesAreCounted(t: Table, step: Step, id: int)
    requires UniqueContents(t) && NewIds(t, step) && id in t
    ensures var t' := Next(t, step);
            && id in t' && t'[id].useCount == t[id].useCount + (if Uses(t, step, id) then 1 else 0)
            && t'[id].scope == t[id].scope && t'[id].hash == t[id].hash
            && (t'[id].deleted <==> t[id].deleted || (step.Delete? && step.id == id && t[id].scope == step.scope))
  {
    match step
    case Create(scope, hash, added) =>
      if Uses(t, step, id) {
        assert id in Matching(t, scope, hash);
      }
    case Reorder(scope, order) => ReorderedTable(t, scope, order);
    case _ =>
  }

  /** What is new after a step: at most the one preset created or imported. */
  lemma NewPresets(t: Table, step: Step, id: int)
    requires NewIds(t, step) && id !in t && id in Next(t, step)
    ensures (step.Create? || step.Open?) && id == step.id
    ensures var p := Next(t, step)[id];
            && p.scope == step.scope && !p.deleted
            && (step.Create? ==> p.hash == step.hash && p.useCount == 1)
            && (step.Open? ==> Some(p.hash) == step.unit && p.useCount == 0 && p.sortOrder == 0 && Active(t, step.scope) == {})
  {
    if step.Reorder? {
      ReorderedTable(t, step.scope, step.order);
    }
  }
}
