/** Flattening nested metadata into one table of dotted paths. */
module MetadataFlattening {
  import opened Wrappers
  import opened JsonExport

  /** What a table cell holds: a value that is not a mapping, or the mark of a mapping inside itself. */
  datatype Leaf = Cell(value: Value) | Mark

  type Assignments = seq<(seq<string>, Leaf)>

  /** The dotted form of a key path, built the way the exporter extends a prefix. */
  function Join(path: seq<string>): string {
    if path == [] then ""
    else Extend(Join(path[..|path| - 1]), path[|path| - 1])
  }

  function Extend(prefix: string, key: string): string {
    if prefix != "" then prefix + "." + key else key
  }

  predicate IsMapping(heap: Heap, v: Value) {
    v.Ref? && v.id in heap && heap[v.id].Mapping?
  }

  /** The cells written for one mapping, in order, as key paths. */
  function Flatten(heap: Heap, id: nat, path: seq<string>, active: set<nat>): Assignments
    requires Closed(heap) && id in heap && heap[id].Mapping?
    decreases heap.Keys - active, 1, 0
  {
    if id in active then (if Join(path) != "" then [(path, Mark)] else [])
    else
      assert id in heap.Keys - active && id !in heap.Keys - (active + {id});
      FlattenEntries(heap, heap[id].keys, heap[id].items, path, active + {id})
  }

  function FlattenEntries(heap: Heap, keys: seq<string>, items: seq<Value>, path: seq<string>, active: set<nat>): Assignments
    requires Closed(heap) && |keys| == |items|
    decreases heap.Keys - active, 2, |keys|
  {
    if keys == [] then []
    else
      (if IsMapping(heap, items[0]) then Flatten(heap, items[0].id, path + [keys[0]], active)
       else [(path + [keys[0]], Cell(items[0]))])
      + FlattenEntries(heap, keys[1..], items[1..], path, active)
  }

  /** The table after the cells have been written one by one; a later cell overwrites an earlier one of the same name. */
  function Write(table: map<string, Leaf>, cells: Assignments): map<string, Leaf>
    decreases |cells|
  {
    if cells == [] then table else Write(table[Join(cells[0].0) := cells[0].1], cells[1..])
  }

  class MetadataFlattener {
    var active: set<nat>
    var destination: map<string, Leaf>

    constructor ()
      ensures active == {} && destination == map[]
    {
      active, destination := {}, map[];
    }

    method FlattenMapping(heap: Heap, id: nat, prefix: string, ghost path: seq<string>)
      requires Closed(heap) && id in heap && heap[id].Mapping? && prefix == Join(path)
      modifies this
      ensures active == old(active)
      ensures destination == Write(old(destination), Flatten(heap, id, path, active))
      decreases heap.Keys - active
    {
      if id in active {
        if prefix != "" {
          destination := destination[prefix := Mark];
        }
        return;
      }
      ghost var before := active;
      var keys, items := heap[id].keys, heap[id].items;
      assert id in heap.Keys - active && id !in heap.Keys - (active + {id});
      active := active + {id};
      for i := 0 to |keys|
        invariant active == before + {id}
        invariant Write(old(destination), FlattenEntries(heap, keys, items, path, active))
               == Write(destination, FlattenEntries(heap, keys[i..], items[i..], path, active))
      {
        assert keys[i..][0] == keys[i] && keys[i..][1..] == keys[i + 1..] && items[i..][1..] == items[i + 1..];
        ghost var name := path + [keys[i]];
        assert name[..|name| - 1] == path && Join(name) == Extend(prefix, keys[i]);
        ghost var rest := FlattenEntries(heap, keys[i + 1..], items[i + 1..], path, active);
        var value := items[i];
        if IsMapping(heap, value) {
          WriteInTurn(destination, Flatten(heap, value.id, name, active), rest);
          FlattenMapping(heap, value.id, Extend(prefix, keys[i]), name);
        } else {
          WriteInTurn(destination, [(name, Cell(value))], rest);
          destination := destination[Extend(prefix, keys[i]) := Cell(value)];
        }
      }
      active := active - {id};
      assert active == before;
    }
  }

  lemma {:induction false} WriteInTurn(table: map<string, Leaf>, first: Assignments, second: Assignments)
    ensures Write(table, first + second) == Write(Write(table, first), second)
    decreases |first|
  {
    if first == [] {
      assert first + second == second;
    } else {
      assert (first + second)[1..] == first[1..] + second;
      WriteInTurn(table[Join(first[0].0) := first[0].1], first[1..], second);
    }
  }

  // ----- distinct leaves get distinct names -----

  predicate PlainKey(key: string) {
    key != "" && '.' !in key
  }

  predicate PlainPath(path: seq<string>) {
    forall i :: 0 <= i < |path| ==> PlainKey(path[i])
  }

  lemma {:induction false} JoinIsEmptyOnlyForNothing(path: seq<string>)
    requires PlainPath(path)
    ensures Join(path) == "" <==> path == []
    ensures '.' in Join(path) <==> |path| >= 2
    decreases |path|
  {
    if path != [] {
      JoinIsEmptyOnlyForNothing(path[..|path| - 1]);
      var prefix := Join(path[..|path| - 1]);
      if |path| >= 2 {
        assert Join(path)[|prefix|] == '.';
      }
    }
  }

  /** The last dot splits a name in only one way. */
  lemma LastDotSplits(a: string, k: string, b: string, l: string)
    requires '.' !in k && '.' !in l && a + "." + k == b + "." + l
    ensures a == b && k == l
  {
    var s := a + "." + k;
    assert s[|a|] == '.' && s[|b|] == '.';
    assert forall i :: |a| < i < |s| ==> s[i] == k[i - |a| - 1] && s[i] != '.';
    assert forall i :: |b| < i < |s| ==> s[i] == l[i - |b| - 1] && s[i] != '.';
    assert s[..|a|] == a && s[..|b|] == b;
    assert s[|a| + 1..] == k && s[|b| + 1..] == l;
  }

  /** With non-empty keys that contain no dot, a dotted name determines its key path. */
  lemma {:induction false} JoinIsInjective(p: seq<string>, q: seq<string>)
    requires PlainPath(p) && PlainPath(q) && Join(p) == Join(q)
    ensures p == q
    decreases |p|
  {
    JoinIsEmptyOnlyForNothing(p);
    JoinIsEmptyOnlyForNothing(q);
    if |p| >= 2 {
      var a, b := p[..|p| - 1], q[..|q| - 1];
      JoinIsEmptyOnlyForNothing(a);
      JoinIsEmptyOnlyForNothing(b);
      LastDotSplits(Join(a), p[|p| - 1], Join(b), q[|q| - 1]);
      JoinIsInjective(a, b);
      assert p == a + [p[|p| - 1]] && q == b + [q[|q| - 1]];
    }
  }

  /** Both conditions on keys are needed: a dot, or an empty key, makes different leaves share a name. */
  lemma DottedKeysCollide()
    ensures Join(["a.b"]) == Join(["a", "b"])
    ensures Join(["", "a"]) == Join(["a"])
  {
    assert ["a", "b"][..1] == ["a"] && ["a"][..0] == [] && ["a.b"][..0] == [];
    assert ["", "a"][..1] == [""] && [""][..0] == [];
    assert Join(["a"]) == "a" && Join([""]) == "";
  }

  predicate DistinctKeys(keys: seq<string>) {
    forall i, j :: 0 <= i < j < |keys| ==> keys[i] != keys[j]
  }

  /** Every mapping of the heap has plain keys, each once. */
  ghost predicate PlainHeap(heap: Heap) {
    forall id <- heap.Keys :: heap[id].Mapping? ==> PlainPath(heap[id].keys) && DistinctKeys(heap[id].keys)
  }

  predicate Distinct(cells: Assignments) {
    forall i, j :: 0 <= i < j < |cells| ==> cells[i].0 != cells[j].0
  }

  predicate Below(path: seq<string>, cells: Assignments) {
    forall i :: 0 <= i < |cells| ==> PlainPath(cells[i].0) && path <= cells[i].0
  }

  lemma {:induction false} FlattenIsDistinct(heap: Heap, id: nat, path: seq<string>, active: set<nat>)
    requires Closed(heap) && PlainHeap(heap) && id in heap && heap[id].Mapping? && PlainPath(path)
    ensures Distinct(Flatten(heap, id, path, active)) && Below(path, Flatten(heap, id, path, active))
    decreases heap.Keys - active, 1, 0
  {
    if id !in active {
      assert id in heap.Keys - active && id !in heap.Keys - (active + {id});
      EntriesAreDistinct(heap, heap[id].keys, heap[id].items, path, active + {id});
    }
  }

  lemma OneCell(name: seq<string>, leaf: Leaf)
    ensures Distinct([(name, leaf)])
    ensures PlainPath(name) ==> Below(name, [(name, leaf)])
  {
  }

  /** The cells of the first entry are apart from those of the others. */
  lemma EntriesTogether(path: seq<string>, keys: seq<string>, first: Assignments, rest: Assignments)
    requires keys != [] && DistinctKeys(keys) && Distinct(first) && Distinct(rest)
    requires Below(path + [keys[0]], first) && Below(path, rest)
    requires forall i :: 0 <= i < |rest| ==> |rest[i].0| > |path| && rest[i].0[|path|] in keys[1..]
    ensures Distinct(first + rest) && Below(path, first + rest)
    ensures forall i :: 0 <= i < |first + rest| ==> |(first + rest)[i].0| > |path| && (first + rest)[i].0[|path|] in keys
  {
    hide PlainPath;
    var name := path + [keys[0]];
    forall i | 0 <= i < |first|
      ensures path <= first[i].0 && |first[i].0| > |path| && first[i].0[|path|] == keys[0]
    {
      assert first[i].0[|path|] == name[|path|] && first[i].0[..|path|] == name[..|path|];
    }
    assert forall key <- keys[1..] :: key in keys && key != keys[0];
  }

  /** Cells of different entries differ in the key right after the common path. */
  lemma {:induction false} EntriesAreDistinct(
    heap: Heap, keys: seq<string>, items: seq<Value>, path: seq<string>, active: set<nat>)
    requires Closed(heap) && PlainHeap(heap) && |keys| == |items|
    requires PlainPath(path) && PlainPath(keys) && DistinctKeys(keys)
    ensures var cells := FlattenEntries(heap, keys, items, path, active);
      && Distinct(cells) && Below(path, cells)
      && forall i :: 0 <= i < |cells| ==> |cells[i].0| > |path| && cells[i].0[|path|] in keys
    decreases heap.Keys - active, 2, |keys|
  {
    if keys != [] {
      var name := path + [keys[0]];
      var first := if IsMapping(heap, items[0]) then Flatten(heap, items[0].id, name, active) else [(name, Cell(items[0]))];
      var rest := FlattenEntries(heap, keys[1..], items[1..], path, active);
      if IsMapping(heap, items[0]) {
        FlattenIsDistinct(heap, items[0].id, name, active);
      }
      EntriesAreDistinct(heap, keys[1..], items[1..], path, active);
      assert FlattenEntries(heap, keys, items, path, active) == first + rest;
      hide Distinct, Below, FlattenEntries, Flatten, PlainHeap;
      assert Distinct(first) && Below(name, first) by {
        OneCell(name, Cell(items[0]));
      }
      EntriesTogether(path, keys, first, rest);
    }
  }

  lemma {:induction false} WriteKeepsOthers(table: map<string, Leaf>, cells: Assignments, name: string)
    requires forall i :: 0 <= i < |cells| ==> Join(cells[i].0) != name
    ensures name in Write(table, cells) <==> name in table
    ensures name in table ==> Write(table, cells)[name] == table[name]
    decreases |cells|
  {
    if cells != [] {
      WriteKeepsOthers(table[Join(cells[0].0) := cells[0].1], cells[1..], name);
    }
  }

  // ----- the leaves of a graph -----

  /** Following the keys of `p` from a mapping, where `active` mappings have been entered before, ends in the leaf:
      a value that is not a mapping, or the mark of a mapping inside itself. */
  predicate Leads(heap: Heap, id: nat, p: seq<string>, active: set<nat>, leaf: Leaf)
    requires Closed(heap) && id in heap && heap[id].Mapping?
    decreases |p|
  {
    if p == [] then id in active && leaf == Mark
    else id !in active && exists k :: 0 <= k < |heap[id].keys| && LeadsBy(heap, heap[id].keys[k], heap[id].items[k], p, active + {id}, leaf)
  }

  /** The path starts with this entry of a mapping and goes on to the leaf. */
  predicate LeadsBy(heap: Heap, key: string, value: Value, p: seq<string>, active: set<nat>, leaf: Leaf)
    requires Closed(heap)
    decreases |p|, 0
  {
    && p != [] && p[0] == key
    && if value.Ref? && value.id in heap && heap[value.id].Mapping? then Leads(heap, value.id, p[1..], active, leaf)
       else p[1..] == [] && leaf == Cell(value)
  }

  lemma {:induction false} FlattenExtends(heap: Heap, id: nat, path: seq<string>, active: set<nat>)
    requires Closed(heap) && id in heap && heap[id].Mapping?
    ensures forall cell <- Flatten(heap, id, path, active) :: path <= cell.0
    decreases heap.Keys - active, 1, 0
  {
    if id !in active {
      assert id in heap.Keys - active && id !in heap.Keys - (active + {id});
      EntriesExtend(heap, heap[id].keys, heap[id].items, path, active + {id});
    }
  }

  lemma {:induction false} EntriesExtend(
    heap: Heap, keys: seq<string>, items: seq<Value>, path: seq<string>, active: set<nat>)
    requires Closed(heap) && |keys| == |items|
    ensures forall cell <- FlattenEntries(heap, keys, items, path, active) :: path <= cell.0
    decreases heap.Keys - active, 2, |keys|
  {
    if keys != [] {
      if IsMapping(heap, items[0]) {
        FlattenExtends(heap, items[0].id, path + [keys[0]], active);
      }
      EntriesExtend(heap, keys[1..], items[1..], path, active);
    }
  }

  /** The cells of a mapping are exactly its leaves, each under the path that leads to it; only a mark that would
      have no name is left out. */
  lemma {:induction false} FlattenHoldsLeaves(
    heap: Heap, id: nat, path: seq<string>, active: set<nat>, p: seq<string>, leaf: Leaf)
    requires Closed(heap) && id in heap && heap[id].Mapping?
    ensures (path + p, leaf) in Flatten(heap, id, path, active) <==>
              Leads(heap, id, p, active, leaf) && (leaf == Mark ==> Join(path + p) != "")
    decreases heap.Keys - active, 1, 0
  {
    hide Join;
    if id in active {
      assert path + p == path <==> p == [];
    } else {
      assert id in heap.Keys - active && id !in heap.Keys - (active + {id});
      EntriesHoldLeaves(heap, heap[id].keys, heap[id].items, path, active + {id}, p, leaf);
    }
  }

  ghost predicate LeadsBySome(heap: Heap, keys: seq<string>, items: seq<Value>, p: seq<string>, active: set<nat>, leaf: Leaf)
    requires Closed(heap) && |keys| == |items|
  {
    exists k :: 0 <= k < |keys| && LeadsBy(heap, keys[k], items[k], p, active, leaf)
  }

  lemma LeadsBySomeByFirst(heap: Heap, keys: seq<string>, items: seq<Value>, p: seq<string>, active: set<nat>, leaf: Leaf)
    requires Closed(heap) && |keys| == |items| && keys != []
    ensures LeadsBySome(heap, keys, items, p, active, leaf) <==>
              LeadsBy(heap, keys[0], items[0], p, active, leaf) || LeadsBySome(heap, keys[1..], items[1..], p, active, leaf)
  {
    hide LeadsBy;
    if LeadsBySome(heap, keys[1..], items[1..], p, active, leaf) {
      var k :| 0 <= k < |keys[1..]| && LeadsBy(heap, keys[1..][k], items[1..][k], p, active, leaf);
      assert LeadsBy(heap, keys[k + 1], items[k + 1], p, active, leaf);
    }
    if k :| 0 < k < |keys| && LeadsBy(heap, keys[k], items[k], p, active, leaf) {
      assert LeadsBy(heap, keys[1..][k - 1], items[1..][k - 1], p, active, leaf);
    }
  }

  lemma {:induction false} EntriesHoldLeaves(
    heap: Heap, keys: seq<string>, items: seq<Value>, path: seq<string>, active: set<nat>, p: seq<string>, leaf: Leaf)
    requires Closed(heap) && |keys| == |items|
    ensures (path + p, leaf) in FlattenEntries(heap, keys, items, path, active) <==>
              LeadsBySome(heap, keys, items, p, active, leaf) && (leaf == Mark ==> Join(path + p) != "")
    decreases heap.Keys - active, 2, |keys|
  {
    hide Join;
    if keys != [] {
      LeadsBySomeByFirst(heap, keys, items, p, active, leaf);
      EntriesHoldLeaves(heap, keys[1..], items[1..], path, active, p, leaf);
      hide LeadsBySome;
      EntryHoldsLeaves(heap, keys[0], items[0], path, active, p, leaf);
    }
  }

  lemma NotBelow(path: seq<string>, key: string, p: seq<string>)
    requires p == [] || p[0] != key
    ensures !(path + [key] <= path + p)
  {
    assert (path + [key])[|path|] == key;
    assert p != [] ==> (path + p)[|path|] == p[0];
  }

  lemma {:induction false} EntryHoldsLeaves(
    heap: Heap, key: string, value: Value, path: seq<string>, active: set<nat>, p: seq<string>, leaf: Leaf)
    requires Closed(heap)
    ensures (path + p, leaf) in (if IsMapping(heap, value) then Flatten(heap, value.id, path + [key], active)
                                 else [(path + [key], Cell(value))])
            <==> LeadsBy(heap, key, value, p, active, leaf) && (leaf == Mark ==> Join(path + p) != "")
    decreases heap.Keys - active, 1, 1
  {
    hide Join, Flatten, Leads;
    if p != [] && p[0] == key {
      assert path + p == (path + [key]) + p[1..];
      if IsMapping(heap, value) {
        FlattenHoldsLeaves(heap, value.id, path + [key], active, p[1..], leaf);
      } else {
        assert path + p == path + [key] <==> p[1..] == [];
      }
    } else {
      if IsMapping(heap, value) {
        FlattenExtends(heap, value.id, path + [key], active);
      }
      NotBelow(path, key, p);
    }
  }

  /** The leaves of a whole piece of metadata, with the dotted names they are written under. */
  ghost predicate IsLeaf(heap: Heap, id: nat, p: seq<string>, leaf: Leaf)
    requires Closed(heap) && id in heap && heap[id].Mapping?
  {
    Leads(heap, id, p, {}, leaf) && (leaf == Mark ==> Join(p) != "")
  }

  function TableOf(heap: Heap, id: nat): map<string, Leaf>
    requires Closed(heap) && id in heap && heap[id].Mapping?
  {
    Write(map[], Flatten(heap, id, [], {}))
  }

  lemma CellsAreLeaves(heap: Heap, id: nat, p: seq<string>, leaf: Leaf)
    requires Closed(heap) && id in heap && heap[id].Mapping?
    ensures (p, leaf) in Flatten(heap, id, [], {}) <==> IsLeaf(heap, id, p, leaf)
  {
    FlattenHoldsLeaves(heap, id, [], {}, p, leaf);
    assert [] + p == p;
  }

  lemma CellIsLeaf(heap: Heap, id: nat, i: nat)
    requires Closed(heap) && id in heap && heap[id].Mapping? && i < |Flatten(heap, id, [], {})|
    ensures var cell := Flatten(heap, id, [], {})[i]; IsLeaf(heap, id, cell.0, cell.1)
  {
    hide Flatten, IsLeaf;
    var cell := Flatten(heap, id, [], {})[i];
    CellsAreLeaves(heap, id, cell.0, cell.1);
    assert (cell.0, cell.1) == cell;
  }

  // ----- when a table loses a leaf -----

  /** The table holds, under every name written, the leaf of the last cell of that name. */
  lemma {:induction false} LastCellWins(cells: Assignments, i: nat) returns (last: nat)
    requires i < |cells|
    ensures i <= last < |cells| && Join(cells[last].0) == Join(cells[i].0)
    ensures forall j :: last < j < |cells| ==> Join(cells[j].0) != Join(cells[i].0)
    ensures Join(cells[i].0) in Write(map[], cells) && Write(map[], cells)[Join(cells[i].0)] == cells[last].1
    decreases |cells|
  {
    hide Join;
    var front, newest := cells[..|cells| - 1], cells[|cells| - 1];
    assert cells == front + [newest];
    WriteInTurn(map[], front, [newest]);
    assert [newest][1..] == [];
    assert Write(map[], cells) == Write(map[], front)[Join(newest.0) := newest.1];
    if Join(newest.0) == Join(cells[i].0) {
      last := |cells| - 1;
    } else {
      last := LastCellWins(front, i);
    }
  }

  /** Every leaf of the graph is found in the table under its name. */
  ghost predicate LosesNothing(heap: Heap, id: nat)
    requires Closed(heap) && id in heap && heap[id].Mapping?
  {
    forall p, leaf :: IsLeaf(heap, id, p, leaf) ==> Join(p) in TableOf(heap, id) && TableOf(heap, id)[Join(p)] == leaf
  }

  /** Leaf paths of the graph with one dotted name lead to one leaf. */
  ghost predicate LeavesAgree(heap: Heap, id: nat)
    requires Closed(heap) && id in heap && heap[id].Mapping?
  {
    forall p, q, a, b :: IsLeaf(heap, id, p, a) && IsLeaf(heap, id, q, b) && Join(p) == Join(q) ==> a == b
  }

  /** Flattening loses nothing exactly when no two leaves of different content share a dotted name. */
  lemma CompleteWhenLeavesAgree(heap: Heap, id: nat)
    requires Closed(heap) && id in heap && heap[id].Mapping?
    ensures LosesNothing(heap, id) <==> LeavesAgree(heap, id)
  {
    hide Join, Flatten, IsLeaf, TableOf;
    if LeavesAgree(heap, id) {
      forall p, leaf | IsLeaf(heap, id, p, leaf)
        ensures Join(p) in TableOf(heap, id) && TableOf(heap, id)[Join(p)] == leaf
      {
        LeafIsWritten(heap, id, p, leaf);
        var q := NameIsOfALeaf(heap, id, Join(p));
      }
    }
    if LosesNothing(heap, id) {
      forall p, q, a, b | IsLeaf(heap, id, p, a) && IsLeaf(heap, id, q, b) && Join(p) == Join(q)
        ensures a == b
      {
      }
    }
  }

  lemma LeafIsWritten(heap: Heap, id: nat, p: seq<string>, leaf: Leaf)
    requires Closed(heap) && id in heap && heap[id].Mapping? && IsLeaf(heap, id, p, leaf)
    ensures Join(p) in TableOf(heap, id)
  {
    hide Join, Flatten, IsLeaf;
    var cells := Flatten(heap, id, [], {});
    CellsAreLeaves(heap, id, p, leaf);
    var i :| 0 <= i < |cells| && cells[i] == (p, leaf);
    var last := LastCellWins(cells, i);
  }

  /** What the table holds under a name is a leaf of that name. */
  lemma NameIsOfALeaf(heap: Heap, id: nat, name: string) returns (p: seq<string>)
    requires Closed(heap) && id in heap && heap[id].Mapping? && name in TableOf(heap, id)
    ensures Join(p) == name && IsLeaf(heap, id, p, TableOf(heap, id)[name])
  {
    hide Join, Flatten, IsLeaf;
    var cells := Flatten(heap, id, [], {});
    if forall i :: 0 <= i < |cells| ==> Join(cells[i].0) != name {
      WriteKeepsOthers(map[], cells, name);
    }
    var i :| 0 <= i < |cells| && Join(cells[i].0) == name;
    var last := LastCellWins(cells, i);
    p := cells[last].0;
    CellIsLeaf(heap, id, last);
  }

  /** With plain keys a path leads to at most one leaf. */
  lemma {:induction false} LeadsToOneLeaf(heap: Heap, id: nat, p: seq<string>, active: set<nat>, a: Leaf, b: Leaf)
    requires Closed(heap) && PlainHeap(heap) && id in heap && heap[id].Mapping?
    requires Leads(heap, id, p, active, a) && Leads(heap, id, p, active, b)
    ensures a == b
    decreases |p|
  {
    if p != [] {
      var keys, items, inner := heap[id].keys, heap[id].items, active + {id};
      var k :| 0 <= k < |keys| && LeadsBy(heap, keys[k], items[k], p, inner, a);
      var l :| 0 <= l < |keys| && LeadsBy(heap, keys[l], items[l], p, inner, b);
      assert k == l;
      if IsMapping(heap, items[k]) {
        LeadsToOneLeaf(heap, items[k].id, p[1..], inner, a, b);
      }
    }
  }

  lemma {:induction false} LeadsAlongPlainKeys(heap: Heap, id: nat, p: seq<string>, active: set<nat>, leaf: Leaf)
    requires Closed(heap) && PlainHeap(heap) && id in heap && heap[id].Mapping? && Leads(heap, id, p, active, leaf)
    ensures PlainPath(p)
    decreases |p|
  {
    if p != [] {
      var keys, items, inner := heap[id].keys, heap[id].items, active + {id};
      var k :| 0 <= k < |keys| && LeadsBy(heap, keys[k], items[k], p, inner, leaf);
      if IsMapping(heap, items[k]) {
        LeadsAlongPlainKeys(heap, items[k].id, p[1..], inner, leaf);
      }
      assert forall i :: 0 < i < |p| ==> p[i] == p[1..][i - 1];
    }
  }

  /** Flattening metadata with plain keys loses and invents nothing: the table holds a leaf under a name exactly when
      some key path with that dotted name leads to the leaf in the graph, and then it is the only such path. */
  lemma FlatteningIsLossless(heap: Heap, id: nat, name: string, leaf: Leaf)
    requires Closed(heap) && PlainHeap(heap) && id in heap && heap[id].Mapping?
    ensures (name in TableOf(heap, id) && TableOf(heap, id)[name] == leaf) <==>
              exists p :: Leads(heap, id, p, {}, leaf) && Join(p) == name
    ensures forall p, q, a, b ::
              Leads(heap, id, p, {}, a) && Leads(heap, id, q, {}, b) && Join(p) == Join(q) ==> p == q && a == b
  {
    hide Join, Flatten, TableOf, PlainHeap, Leads;
    forall p, q, a, b | Leads(heap, id, p, {}, a) && Leads(heap, id, q, {}, b) && Join(p) == Join(q)
      ensures p == q && a == b
    {
      LeadsAlongPlainKeys(heap, id, p, {}, a);
      LeadsAlongPlainKeys(heap, id, q, {}, b);
      JoinIsInjective(p, q);
      LeadsToOneLeaf(heap, id, p, {}, a, b);
    }
    forall p, a | Leads(heap, id, p, {}, a)
      ensures IsLeaf(heap, id, p, a)
    {
      LeadsAlongPlainKeys(heap, id, p, {}, a);
      NoNamelessLeaf(heap, id, p, a);
    }
    CompleteWhenLeavesAgree(heap, id);
    assert LosesNothing(heap, id);
    if name in TableOf(heap, id) {
      var q := NameIsOfALeaf(heap, id, name);
    }
  }

  /** A path of plain keys that leads anywhere from the top has a name. */
  lemma NoNamelessLeaf(heap: Heap, id: nat, p: seq<string>, leaf: Leaf)
    requires Closed(heap) && id in heap && heap[id].Mapping? && Leads(heap, id, p, {}, leaf) && PlainPath(p)
    ensures IsLeaf(heap, id, p, leaf)
  {
    JoinIsEmptyOnlyForNothing(p);
  }

  lemma EntriesByFirst(
    heap: Heap, key: string, item: Value, keys: seq<string>, items: seq<Value>, path: seq<string>, active: set<nat>)
    requires Closed(heap) && |keys| == |items|
    ensures FlattenEntries(heap, [key] + keys, [item] + items, path, active)
         == (if IsMapping(heap, item) then Flatten(heap, item.id, path + [key], active) else [(path + [key], Cell(item))])
            + FlattenEntries(heap, keys, items, path, active)
  {
    hide Flatten;
    assert ([key] + keys)[1..] == keys && ([item] + items)[1..] == items;
  }

  lemma NoEntries(heap: Heap, path: seq<string>, active: set<nat>)
    requires Closed(heap)
    ensures FlattenEntries(heap, [], [], path, active) == []
  {
  }

  /** The mapping {"a.b": x, "a": {"b": y}}. */
  function DottedHeap(): (heap: Heap)
    ensures Closed(heap)
  {
    map[0 := Mapping(["a.b"] + ["a"], [Scalar("x")] + [Ref(1)]), 1 := Mapping(["b"], [Scalar("y")])]
  }

  lemma DottedCells()
    ensures Flatten(DottedHeap(), 0, [], {}) == [(["a.b"], Cell(Scalar("x"))), (["a", "b"], Cell(Scalar("y")))]
  {
    var heap := DottedHeap();
    var outer := {} + {0};
    assert 0 in heap && 1 in heap && 1 !in outer;
    assert Flatten(heap, 1, ["a"], outer) == FlattenEntries(heap, ["b"], [Scalar("y")], ["a"], outer + {1});
    assert Flatten(heap, 0, [], {}) == FlattenEntries(heap, ["a.b"] + ["a"], [Scalar("x")] + [Ref(1)], [], outer);
    hide Flatten, FlattenEntries, Closed;
    EntriesByFirst(heap, "a.b", Scalar("x"), ["a"], [Ref(1)], [], outer);
    EntriesByFirst(heap, "a", Ref(1), [], [], [], outer);
    EntriesByFirst(heap, "b", Scalar("y"), [], [], ["a"], outer + {1});
    NoEntries(heap, [], outer);
    NoEntries(heap, ["a"], outer + {1});
    assert ["a"] + [] == ["a"] && [Ref(1)] + [] == [Ref(1)] && ["b"] + [] == ["b"] && [Scalar("y")] + [] == [Scalar("y")];
    assert [] + ["a.b"] == ["a.b"] && [] + ["a"] == ["a"] && ["a"] + ["b"] == ["a", "b"];
  }

  /** Plain keys are needed for that: this mapping loses x to y. */
  lemma DottedKeyLosesALeaf()
    ensures var heap := DottedHeap();
      && Leads(heap, 0, ["a.b"], {}, Cell(Scalar("x"))) && Leads(heap, 0, ["a", "b"], {}, Cell(Scalar("y")))
      && TableOf(heap, 0) == map["a.b" := Cell(Scalar("y"))]
      && !LosesNothing(heap, 0)
  {
    var heap := DottedHeap();
    hide Flatten, FlattenEntries, Leads, LeadsBy, DistinctKeys;
    DottedCells();
    DottedKeysCollide();
    var cells := Flatten(heap, 0, [], {});
    CellsAreLeaves(heap, 0, ["a.b"], Cell(Scalar("x")));
    CellsAreLeaves(heap, 0, ["a", "b"], Cell(Scalar("y")));
    assert cells[0] in cells && cells[1] in cells;
    assert Join(["a.b"]) == "a.b" by {
      assert ["a.b"][..0] == [];
    }
    hide Join;
    assert cells[1..][1..] == [] && cells[1..][0] == cells[1];
    assert TableOf(heap, 0) == Write(map["a.b" := cells[0].1], cells[1..]) == map["a.b" := cells[1].1];
    assert IsLeaf(heap, 0, ["a.b"], Cell(Scalar("x")));
  }
}
