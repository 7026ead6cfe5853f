/** Turning arbitrary object graphs, shared or cyclic, into finite documents. */
module JsonExport {
  import opened Wrappers

  /** A Python value: something printed as it is, a number JSON cannot hold, an enum member, or a container. */
  datatype Value = Scalar(text: string) | NotANumber | EnumMember(inner: Value) | Ref(id: nat)

  /** Mapping entries are listed in the order of their printed keys. */
  datatype Container = Mapping(keys: seq<string>, items: seq<Value>) | Listing(items: seq<Value>)

  type Heap = map<nat, Container>

  datatype Json = Text(text: string) | RecursiveMark | Object(keys: seq<string>, items: seq<Json>) | Array(items: seq<Json>)

  datatype ExportError = NanNotPermitted

  // ----- conversion -----

  /** No container refers outside the heap, as no Python object does. */
  ghost predicate Closed(heap: Heap) {
    && (forall id <- heap.Keys :: AllWithin(heap, heap[id].items))
    && (forall id <- heap.Keys :: heap[id].Mapping? ==> |heap[id].keys| == |heap[id].items|)
  }

  predicate Within(heap: Heap, v: Value) {
    match v
    case Ref(id) => id in heap
    case EnumMember(inner) => Within(heap, inner)
    case _ => true
  }

  predicate AllWithin(heap: Heap, items: seq<Value>) {
    forall i :: 0 <= i < |items| ==> Within(heap, items[i])
  }

  /** No neighbour behind entry `k` has the same printed key. */
  predicate IsLastOfKey(keys: seq<string>, k: nat) {
    k < |keys| && (k + 1 < |keys| ==> keys[k + 1] != keys[k])
  }

  /** The entries of a mapping that its document keeps: of neighbours whose keys print alike, the last. */
  function KeptFrom(keys: seq<string>, i: nat): (kept: seq<nat>)
    requires i <= |keys|
    ensures forall j :: 0 <= j < |kept| ==> i <= kept[j] < |keys|
    decreases |keys| - i
  {
    if i == |keys| then [] else (if IsLastOfKey(keys, i) then [i] else []) + KeptFrom(keys, i + 1)
  }

  /** They are kept in order, and exactly the last ones are. */
  lemma {:induction false} KeptAreLast(keys: seq<string>, i: nat)
    requires i <= |keys|
    ensures forall j, l :: 0 <= j < l < |KeptFrom(keys, i)| ==> KeptFrom(keys, i)[j] < KeptFrom(keys, i)[l]
    ensures forall k: nat :: k in KeptFrom(keys, i) <==> i <= k && IsLastOfKey(keys, k)
    decreases |keys| - i
  {
    hide IsLastOfKey;
    if i < |keys| {
      KeptAreLast(keys, i + 1);
    } else {
      assert forall k: nat | i <= k :: !IsLastOfKey(keys, k) by {
        NothingIsLast(keys);
      }
    }
  }

  lemma NothingIsLast(keys: seq<string>)
    ensures forall k: nat :: k >= |keys| ==> !IsLastOfKey(keys, k)
  {
  }

  /** Equal keys stand next to each other, as in every sorted list. */
  predicate Grouped(keys: seq<string>) {
    forall i, j, k :: 0 <= i < j < k < |keys| && keys[i] == keys[k] ==> keys[j] == keys[k]
  }

  /** A mapping's document holds each printed key once, with the item of its last entry. */
  lemma EachKeyIsKeptOnce(keys: seq<string>)
    requires Grouped(keys)
    ensures forall k: nat :: k in KeptFrom(keys, 0) <==> k < |keys| && forall l :: k < l < |keys| ==> keys[l] != keys[k]
    ensures var kept := Pick(keys, KeptFrom(keys, 0));
      && (forall i, j :: 0 <= i < j < |kept| ==> kept[i] != kept[j])
      && (forall key <- keys :: key in kept)
  {
    KeptAreLast(keys, 0);
    forall k: nat | k < |keys|
      ensures IsLastOfKey(keys, k) <==> forall l :: k < l < |keys| ==> keys[l] != keys[k]
    {
      if l :| k < l < |keys| && keys[l] == keys[k] {
        assert k + 1 < l ==> keys[k + 1] == keys[l];
      }
    }
    forall key <- keys
      ensures key in Pick(keys, KeptFrom(keys, 0))
    {
      var k :| 0 <= k < |keys| && keys[k] == key;
      LastOfKeyIsKept(keys, k);
    }
    hide KeptFrom, IsLastOfKey;
    forall i, j | 0 <= i < j < |KeptFrom(keys, 0)|
      ensures keys[KeptFrom(keys, 0)[i]] != keys[KeptFrom(keys, 0)[j]]
    {
      assert KeptFrom(keys, 0)[i] in KeptFrom(keys, 0);
    }
  }

  lemma {:induction false} LastOfKeyIsKept(keys: seq<string>, k: nat)
    requires Grouped(keys) && k < |keys|
    ensures keys[k] in Pick(keys, KeptFrom(keys, 0))
    decreases |keys| - k
  {
    KeptAreLast(keys, 0);
    if IsLastOfKey(keys, k) {
      var i :| 0 <= i < |KeptFrom(keys, 0)| && KeptFrom(keys, 0)[i] == k;
      assert Pick(keys, KeptFrom(keys, 0))[i] == keys[k];
    } else {
      LastOfKeyIsKept(keys, k + 1);
    }
  }

  function Kept(keys: seq<string>): seq<nat> {
    KeptFrom(keys, 0)
  }

  function Pick<T>(s: seq<T>, at: seq<nat>): (picked: seq<T>)
    requires forall i :: 0 <= i < |at| ==> at[i] < |s|
    ensures |picked| == |at| && forall i :: 0 <= i < |at| ==> picked[i] == s[at[i]]
  {
    seq(|at|, i requires 0 <= i < |at| => s[at[i]])
  }

  /** The document of a container; a later entry of a mapping replaces an earlier one with the same printed key. */
  function Wrap(c: Container, items: seq<Json>): Json
    requires c.Mapping? ==> |items| == |c.keys|
  {
    match c
    case Mapping(keys, _) => Object(Pick(keys, Kept(keys)), Pick(items, Kept(keys)))
    case Listing(_) => Array(items)
  }

  /** When no two neighbouring keys print alike, every entry is kept in its place. */
  lemma {:induction false} DistinctKeysAreKept(keys: seq<string>, i: nat)
    requires i <= |keys| && forall k :: 0 <= k < |keys| - 1 ==> keys[k] != keys[k + 1]
    ensures |KeptFrom(keys, i)| == |keys| - i && forall k :: 0 <= k < |keys| - i ==> KeptFrom(keys, i)[k] == i + k
    decreases |keys| - i
  {
    if i < |keys| {
      DistinctKeysAreKept(keys, i + 1);
    }
  }

  /** `active` holds the containers being converted; each descent makes the rest of the heap smaller. */
  function ToJson(heap: Heap, v: Value, active: set<nat>): Result<Json, ExportError>
    requires Closed(heap) && Within(heap, v)
    decreases heap.Keys - active, 0, v
  {
    match v
    case Scalar(text) => Ok(Text(text))
    case NotANumber => Err(NanNotPermitted)
    case EnumMember(inner) => ToJson(heap, inner, active)
    case Ref(id) =>
      if id in active then Ok(RecursiveMark)
      else
        assert id in heap.Keys - active && id !in heap.Keys - (active + {id});
        match ToJsonAll(heap, heap[id].items, active + {id})
        case Err(e) => Err(e)
        case Ok(items) => Ok(Wrap(heap[id], items))
  }

  function ToJsonAll(heap: Heap, items: seq<Value>, active: set<nat>): (r: Result<seq<Json>, ExportError>)
    requires Closed(heap) && AllWithin(heap, items)
    ensures r.Ok? ==> |r.value| == |items|
    decreases heap.Keys - active, 1, items
  {
    if items == [] then Ok([])
    else
      match ToJson(heap, items[0], active)
      case Err(e) => Err(e)
      case Ok(first) =>
        match ToJsonAll(heap, items[1..], active)
        case Err(e) => Err(e)
        case Ok(rest) => Ok([first] + rest)
  }

  lemma {:induction false} ItemsConverted(heap: Heap, items: seq<Value>, active: set<nat>, i: nat)
    requires Closed(heap) && AllWithin(heap, items) && i < |items|
    requires ToJsonAll(heap, items, active).Ok?
    ensures ToJson(heap, items[i], active) == Ok(ToJsonAll(heap, items, active).value[i])
    decreases |items|
  {
    if i > 0 {
      ItemsConverted(heap, items[1..], active, i - 1);
    }
  }

  /** The converter with its one set of active containers, shared by every level of the recursion. */
  class JsonConverter {
    var active: set<nat>

    constructor ()
      ensures active == {}
    {
      active := {};
    }

    /** Leaves the set as it found it, also when the conversion fails. */
    method Convert(heap: Heap, v: Value) returns (r: Result<Json, ExportError>)
      requires Closed(heap) && Within(heap, v)
      modifies this
      ensures active == old(active)
      ensures r == ToJson(heap, v, active)
      decreases heap.Keys - active, 0, v
    {
      match v
      case Scalar(text) => r := Ok(Text(text));
      case NotANumber => r := Err(NanNotPermitted);
      case EnumMember(inner) => r := Convert(heap, inner);
      case Ref(id) =>
        if id in active {
          return Ok(RecursiveMark);
        }
        ghost var before := active;
        assert id in heap.Keys - active && id !in heap.Keys - (active + {id});
        active := active + {id};
        var items := ConvertItems(heap, heap[id].items);
        active := active - {id};
        assert active == before;
        r := match items
             case Err(e) => Err(e)
             case Ok(converted) => Ok(Wrap(heap[id], converted));
    }

    method ConvertItems(heap: Heap, items: seq<Value>) returns (r: Result<seq<Json>, ExportError>)
      requires Closed(heap) && AllWithin(heap, items)
      modifies this
      ensures active == old(active)
      ensures r == ToJsonAll(heap, items, active)
      decreases heap.Keys - active, 1, items
    {
      if items == [] {
        return Ok([]);
      }
      var first := Convert(heap, items[0]);
      if first.Err? {
        return Err(first.error);
      }
      var rest := ConvertItems(heap, items[1..]);
      r := match rest
           case Err(e) => Err(e)
           case Ok(others) => Ok([first.value] + others);
    }
  }

  // ----- reading graphs and documents along paths -----

  type Path = seq<nat>

  /** Enum members stand for their values. */
  function Plain(v: Value): Value {
    if v.EnumMember? then Plain(v.inner) else v
  }

  lemma {:induction false} PlainKeeps(heap: Heap, v: Value, active: set<nat>)
    requires Closed(heap) && Within(heap, v)
    ensures Within(heap, Plain(v)) && ToJson(heap, v, active) == ToJson(heap, Plain(v), active)
    decreases v
  {
    if v.EnumMember? {
      PlainKeeps(heap, v.inner, active);
    }
  }

  /** The value reached from `v` by choosing children, if there is one. */
  function ValueAt(heap: Heap, v: Value, path: Path): Option<Value>
    decreases |path|
  {
    if path == [] then Some(Plain(v))
    else if Plain(v).Ref? && Plain(v).id in heap && path[0] < |heap[Plain(v).id].items|
    then ValueAt(heap, heap[Plain(v).id].items[path[0]], path[1..])
    else None
  }

  /** Which child of the graph became child `k` of the document. */
  function Source(c: Container, k: nat): nat {
    if c.Mapping? && k < |Kept(c.keys)| then Kept(c.keys)[k] else k
  }

  /** The path in the graph that a path of the document stands for. */
  function Origin(heap: Heap, v: Value, path: Path): (origin: Path)
    ensures |origin| <= |path|
    decreases |path|
  {
    if path == [] || !Plain(v).Ref? || Plain(v).id !in heap then []
    else
      var c := heap[Plain(v).id];
      var k := Source(c, path[0]);
      [k] + if k < |c.items| then Origin(heap, c.items[k], path[1..]) else []
  }

  /** The containers passed on the way to the end of the path, the end itself not included. */
  function Ancestors(heap: Heap, v: Value, path: Path): set<nat>
    decreases |path|
  {
    if path == [] || !Plain(v).Ref? || Plain(v).id !in heap then {}
    else {Plain(v).id}
         + if path[0] < |heap[Plain(v).id].items| then Ancestors(heap, heap[Plain(v).id].items[path[0]], path[1..]) else {}
  }

  function JsonAt(j: Json, path: Path): Option<Json>
    decreases |path|
  {
    if path == [] then Some(j)
    else if (j.Object? || j.Array?) && path[0] < |j.items| then JsonAt(j.items[path[0]], path[1..])
    else None
  }

  /** `x` is the faithful image of `w`: the same text, or a container of the same kind, keys and number of items. */
  predicate Mirrors(heap: Heap, w: Value, x: Json) {
    match w
    case Scalar(text) => x == Text(text)
    case Ref(id) =>
      && id in heap
      && (match heap[id]
          case Mapping(keys, items) => x.Object? && x.keys == Pick(keys, Kept(keys)) && |x.items| == |x.keys|
          case Listing(items) => x.Array? && |x.items| == |items|)
    case _ => false
  }

  /** Everywhere in the document: the recursion mark stands exactly for a container that is its own ancestor,
      and everything else, shared or not, is the image of what the graph holds where the document took it from. */
  lemma {:induction false} MarkMeansOwnAncestor(heap: Heap, v: Value, active: set<nat>, path: Path)
    requires Closed(heap) && Within(heap, v) && ToJson(heap, v, active).Ok?
    requires JsonAt(ToJson(heap, v, active).value, path).Some?
    ensures |Origin(heap, v, path)| == |path| && ValueAt(heap, v, Origin(heap, v, path)).Some?
    ensures var w := ValueAt(heap, v, Origin(heap, v, path)).value;
      var x := JsonAt(ToJson(heap, v, active).value, path).value;
      if w.Ref? && w.id in active + Ancestors(heap, v, Origin(heap, v, path)) then x == RecursiveMark
      else x != RecursiveMark && Mirrors(heap, w, x)
    decreases |path|
  {
    PlainKeeps(heap, v, active);
    PlainIsPlain(v);
    if path != [] {
      var id := Plain(v).id;
      var items, k := heap[id].items, Source(heap[id], path[0]);
      ChildConverted(heap, v, active, path[0]);
      MarkMeansOwnAncestor(heap, items[k], active + {id}, path[1..]);
      assert Origin(heap, v, path) == [k] + Origin(heap, items[k], path[1..]);
      assert Origin(heap, v, path)[1..] == Origin(heap, items[k], path[1..]);
      assert active + Ancestors(heap, v, Origin(heap, v, path))
          == (active + {id}) + Ancestors(heap, items[k], Origin(heap, items[k], path[1..]));
    }
  }

  /** Child `k` of a document is the document of the child of the graph it was taken from. */
  lemma ChildConverted(heap: Heap, v: Value, active: set<nat>, k: nat)
    requires Closed(heap) && Within(heap, v) && ToJson(heap, v, active).Ok?
    requires var j := ToJson(heap, v, active).value; (j.Object? || j.Array?) && k < |j.items|
    ensures Plain(v).Ref? && Plain(v).id in heap && Plain(v).id !in active
    ensures var c := heap[Plain(v).id];
      && Source(c, k) < |c.items| && Within(heap, c.items[Source(c, k)])
      && ToJson(heap, c.items[Source(c, k)], active + {Plain(v).id}) == Ok(ToJson(heap, v, active).value.items[k])
  {
    PlainKeeps(heap, v, active);
    PlainIsPlain(v);
    var id := Plain(v).id;
    var c := heap[id];
    if c.Mapping? {
      assert Kept(c.keys)[k] in Kept(c.keys);
    }
    ItemsConverted(heap, c.items, active + {id}, Source(c, k));
  }

  lemma PlainIsPlain(v: Value)
    ensures !Plain(v).EnumMember? && Plain(Plain(v)) == Plain(v)
  {
  }

  /** The document is never deeper than the number of containers. */
  lemma {:induction false} DepthIsBounded(heap: Heap, v: Value, active: set<nat>, path: Path)
    requires Closed(heap) && Within(heap, v) && ToJson(heap, v, active).Ok?
    requires JsonAt(ToJson(heap, v, active).value, path).Some?
    ensures |path| <= |heap.Keys - active|
    decreases |path|
  {
    if path != [] {
      ChildConverted(heap, v, active, path[0]);
      var id := Plain(v).id;
      DepthIsBounded(heap, heap[id].items[Source(heap[id], path[0])], active + {id}, path[1..]);
      assert heap.Keys - active == (heap.Keys - (active + {id})) + {id};
    }
  }

  ghost predicate Acyclic(heap: Heap, v: Value) {
    forall path: Path :: ValueAt(heap, v, path).Some? && ValueAt(heap, v, path).value.Ref? ==>
      ValueAt(heap, v, path).value.id !in Ancestors(heap, v, path)
  }

  /** Without cycles nothing is marked, however much is shared. */
  lemma SharingIsNotMarked(heap: Heap, v: Value, path: Path)
    requires Closed(heap) && Within(heap, v) && Acyclic(heap, v) && ToJson(heap, v, {}).Ok?
    ensures JsonAt(ToJson(heap, v, {}).value, path) != Some(RecursiveMark)
  {
    if JsonAt(ToJson(heap, v, {}).value, path).Some? {
      MarkMeansOwnAncestor(heap, v, {}, path);
      assert {} + Ancestors(heap, v, path) == Ancestors(heap, v, path);
    }
  }

  /** The path passes through no container that is already being converted. */
  predicate Unmarked(heap: Heap, v: Value, active: set<nat>, path: Path)
    decreases |path|
  {
    path != [] ==>
      && Plain(v).Ref? && Plain(v).id in heap && Plain(v).id !in active && path[0] < |heap[Plain(v).id].items|
      && Unmarked(heap, heap[Plain(v).id].items[path[0]], active + {Plain(v).id}, path[1..])
  }

  /** The graph holds a number that JSON cannot hold where the conversion gets to it. */
  predicate ReachesNaN(heap: Heap, v: Value, active: set<nat>, path: Path) {
    Unmarked(heap, v, active, path) && ValueAt(heap, v, path) == Some(NotANumber)
  }

  /** A conversion fails exactly when some path that meets no recursion mark leads to a NaN. */
  lemma FailsExactlyOnAReachedNaN(heap: Heap, v: Value, active: set<nat>)
    requires Closed(heap) && Within(heap, v)
    ensures ToJson(heap, v, active).Err? <==> exists path: Path :: ReachesNaN(heap, v, active, path)
  {
    if ToJson(heap, v, active).Err? {
      var path := FailureReachesNaN(heap, v, active);
    }
    forall path: Path | ReachesNaN(heap, v, active, path)
      ensures ToJson(heap, v, active).Err?
    {
      ReachedNaNFails(heap, v, active, path);
    }
  }

  lemma {:induction false} ReachedNaNFails(heap: Heap, v: Value, active: set<nat>, path: Path)
    requires Closed(heap) && Within(heap, v) && ReachesNaN(heap, v, active, path)
    ensures ToJson(heap, v, active).Err?
    decreases |path|
  {
    PlainKeeps(heap, v, active);
    PlainIsPlain(v);
    if path != [] {
      var id := Plain(v).id;
      ReachedNaNFails(heap, heap[id].items[path[0]], active + {id}, path[1..]);
      if ToJsonAll(heap, heap[id].items, active + {id}).Ok? {
        ItemsConverted(heap, heap[id].items, active + {id}, path[0]);
      }
    }
  }

  lemma {:induction false} FailureReachesNaN(heap: Heap, v: Value, active: set<nat>) returns (path: Path)
    requires Closed(heap) && Within(heap, v) && ToJson(heap, v, active).Err?
    ensures ReachesNaN(heap, v, active, path)
    decreases heap.Keys - active, 0
  {
    PlainKeeps(heap, v, active);
    PlainIsPlain(v);
    if Plain(v).Ref? {
      var id := Plain(v).id;
      assert id in heap.Keys - active && id !in heap.Keys - (active + {id});
      var i, below := FailingItem(heap, heap[id].items, active + {id});
      path := [i] + below;
      assert path[1..] == below;
    } else {
      path := [];
    }
  }

  lemma {:induction false} FailingItem(heap: Heap, items: seq<Value>, active: set<nat>) returns (i: nat, path: Path)
    requires Closed(heap) && AllWithin(heap, items) && ToJsonAll(heap, items, active).Err?
    ensures i < |items| && ReachesNaN(heap, items[i], active, path)
    decreases heap.Keys - active, 1, |items|
  {
    if ToJson(heap, items[0], active).Err? {
      i := 0;
      path := FailureReachesNaN(heap, items[0], active);
    } else {
      i, path := FailingItem(heap, items[1..], active);
      i := i + 1;
    }
  }
}
