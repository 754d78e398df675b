/** Finite graphs of JavaScript values, and which of them unfold to a JSON tree. */
module JsonGraph {
  import opened Prelude
  import opened JsonText

  type Id = nat

  /** A value as it sits in a variable or a property. */
  datatype Slot =
    | NullSlot
    | BoolSlot(b: bool)
    | NumberSlot(digits: NumberText)
    | NonFinite
    | StringSlot(s: Text)
    | Unsupported // undefined, a function, a symbol or a bigint
    | Ref(id: Id)

  datatype ArrayKey = Index(n: nat) | ExtraName(name: Text) | ExtraSymbol(symbol: nat)

  datatype ObjectKey = Name(name: Text) | Symbol(symbol: nat)

  /** An own property: a data descriptor with its value, or an accessor with what its getter answers. */
  datatype Property<+K> =
    | Data(key: K, enumerable: bool, slot: Slot)
    | Accessor(key: K, enumerable: bool, got: Slot)

  /** A heap object; `own` lists `Reflect.ownKeys` in order, without an array's `length`.
      `Exotic` has a prototype other than `Object.prototype` and `null`. */
  datatype Node =
    | ArrayNode(length: nat, elements: seq<Property<ArrayKey>>)
    | PlainNode(properties: seq<Property<ObjectKey>>)
    | Exotic

  type Heap = map<Id, Node>

  /** What ECMAScript guarantees of own keys: they are distinct, and the index keys of an array come
      first, in ascending order. */
  predicate OrderedNode(node: Node) {
    match node
    case ArrayNode(_, own) =>
      forall i, j :: 0 <= i < j < |own| && own[j].key.Index? ==> own[i].key.Index? && own[i].key.n < own[j].key.n
    case PlainNode(own) => forall i, j :: 0 <= i < j < |own| ==> own[i].key != own[j].key
    case Exotic => true
  }

  predicate SlotIn(h: Heap, s: Slot) {
    s.Ref? ==> s.id in h
  }

  /** What reading a property gives. */
  function Answer<K>(p: Property<K>): Slot {
    match p case Data(_, _, slot) => slot case Accessor(_, _, got) => got
  }

  /** Every reference leads to a node of the heap. */
  ghost predicate ValidHeap(h: Heap) {
    forall id :: id in h ==> ValidNode(h, h[id])
  }

  predicate ValidNode(h: Heap, node: Node) {
    && OrderedNode(node)
    && match node
       case ArrayNode(_, own) => forall i :: 0 <= i < |own| ==> SlotIn(h, Answer(own[i]))
       case PlainNode(own) => forall i :: 0 <= i < |own| ==> SlotIn(h, Answer(own[i]))
       case Exotic => true
  }

  /** Every array is dense and every plain object holds only enumerable data under string keys. */
  ghost predicate PlainData(h: Heap) {
    forall id :: id in h && !h[id].Exotic? ==> ShapeOf(h[id]).Some?
  }

  /** The JSON reading of a node: its slots in order, named for an object. */
  datatype Shape = ArrayShape(slots: seq<Slot>) | ObjectShape(names: seq<Text>, slots: seq<Slot>)

  predicate DenseArray(node: Node)
    requires node.ArrayNode?
  {
    && |node.elements| == node.length
    && forall i :: 0 <= i < |node.elements| ==>
         node.elements[i].Data? && node.elements[i].enumerable && node.elements[i].key == Index(i)
  }

  predicate DataObject(node: Node)
    requires node.PlainNode?
  {
    forall i :: 0 <= i < |node.properties| ==>
      node.properties[i].Data? && node.properties[i].enumerable && node.properties[i].key.Name?
  }

  function ShapeOf(node: Node): (r: Option<Shape>)
    ensures r.Some? && r.value.ObjectShape? ==> |r.value.names| == |r.value.slots|
  {
    match node
    case ArrayNode(_, own) =>
      if DenseArray(node) then Some(ArrayShape(seq(|own|, i requires 0 <= i < |own| => own[i].slot))) else None
    case PlainNode(own) =>
      if DataObject(node) then
        Some(ObjectShape(seq(|own|, i requires 0 <= i < |own| => own[i].key.name),
                         seq(|own|, i requires 0 <= i < |own| => own[i].slot)))
      else None
    case Exotic => None
  }

  // ----- what iteration and `Object.values` see -----

  /** `candidate[i]`, with what stands for a hole: undefined, to an iteration. */
  function ElementAt(own: seq<Property<ArrayKey>>, i: nat, hole: Slot): Slot {
    if own == [] then hole else if own[0].key == Index(i) then Answer(own[0]) else ElementAt(own[1..], i, hole)
  }

  /** The enumerable properties under string keys, in order, read. */
  function NamedValues(own: seq<Property<ObjectKey>>): seq<Property<ObjectKey>> {
    if own == [] then []
    else (if own[0].enumerable && own[0].key.Name? then [Data(own[0].key, true, Answer(own[0]))] else []) + NamedValues(own[1..])
  }

  /** The plain node such a reader cannot tell from this one. */
  function SeenNode(node: Node, hole: Slot): Node {
    match node
    case ArrayNode(length, own) =>
      ArrayNode(length, seq(length, i requires 0 <= i < length => Data(Index(i), true, ElementAt(own, i, hole))))
    case PlainNode(own) => PlainNode(NamedValues(own))
    case Exotic => Exotic
  }

  function Seen(h: Heap, hole: Slot): (r: Heap)
    ensures r.Keys == h.Keys
  {
    map id | id in h :: SeenNode(h[id], hole)
  }

  /** What such a reader sees, place by place: of an array every element up to its length, as it answers, and
      the stand-in where there is none; of an object its enumerable properties under string keys, in order. */
  lemma {:induction false} ElementsSeen(own: seq<Property<ArrayKey>>, i: nat, k: nat, hole: Slot)
    ensures k < |own| && own[k].key == Index(i) && (forall h :: 0 <= h < k ==> own[h].key != Index(i)) ==>
              ElementAt(own, i, hole) == Answer(own[k])
    ensures (forall h :: 0 <= h < |own| ==> own[h].key != Index(i)) ==> ElementAt(own, i, hole) == hole
  {
    if own != [] && own[0].key != Index(i) {
      ElementsSeen(own[1..], i, if k > 0 then k - 1 else 0, hole);
    }
  }

  predicate IsShown(p: Property<ObjectKey>) { p.enumerable && p.key.Name? }

  lemma {:induction false} NamedSnoc(own: seq<Property<ObjectKey>>, p: Property<ObjectKey>)
    ensures NamedValues(own + [p]) == NamedValues(own) + (if IsShown(p) then [Data(p.key, true, Answer(p))] else [])
  {
    if own == [] {
      assert [p][1..] == [];
    } else {
      assert (own + [p])[1..] == own[1..] + [p];
      NamedSnoc(own[1..], p);
      Assoc(if IsShown(own[0]) then [Data(own[0].key, true, Answer(own[0]))] else [], NamedValues(own[1..]),
            if IsShown(p) then [Data(p.key, true, Answer(p))] else []);
    }
  }

  /** `at` are the places of the shown properties, in order. */
  ghost predicate ShownAt(own: seq<Property<ObjectKey>>, at: seq<nat>) {
    && (forall j :: 0 <= j < |at| ==> at[j] < |own| && IsShown(own[at[j]]))
    && (forall j, k :: 0 <= j < k < |at| ==> at[j] < at[k])
    && (forall i :: 0 <= i < |own| && IsShown(own[i]) ==> i in at)
  }

  lemma {:induction false} NamesSeen(own: seq<Property<ObjectKey>>) returns (at: seq<nat>)
    ensures ShownAt(own, at) && |at| == |NamedValues(own)|
    ensures forall j :: 0 <= j < |at| ==> NamedValues(own)[j] == Data(own[at[j]].key, true, Answer(own[at[j]]))
  {
    if own == [] {
      at := [];
    } else {
      var n := |own| - 1;
      assert own == own[..n] + [own[n]];
      var before := NamesSeen(own[..n]);
      NamedSnoc(own[..n], own[n]);
      at := if IsShown(own[n]) then before + [n] else before;
      ShownSnoc(own, before, at);
    }
  }

  lemma ShownSnoc(own: seq<Property<ObjectKey>>, before: seq<nat>, at: seq<nat>)
    requires own != [] && ShownAt(own[..|own| - 1], before)
    requires at == if IsShown(own[|own| - 1]) then before + [|own| - 1] else before
    ensures ShownAt(own, at)
  {
    var n := |own| - 1;
    forall i | 0 <= i < |own| && IsShown(own[i]) ensures i in at {
      if i < n { assert own[..n][i] == own[i]; } else { assert at[|at| - 1] == n; }
    }
  }

  /** The element is missing. */
  predicate IsHole(node: Node, i: nat) {
    node.ArrayNode? && forall k :: 0 <= k < |node.elements| ==> node.elements[k].key != Index(i)
  }

  lemma {:induction false} HoleAt(own: seq<Property<ArrayKey>>, i: nat, hole: Slot)
    requires forall k :: 0 <= k < |own| ==> own[k].key != Index(i)
    ensures ElementAt(own, i, hole) == hole
  {
    if own != [] { HoleAt(own[1..], i, hole); }
  }

  lemma {:induction false} ElementIn(h: Heap, own: seq<Property<ArrayKey>>, i: nat, hole: Slot)
    requires !hole.Ref? && forall k :: 0 <= k < |own| ==> SlotIn(h, Answer(own[k]))
    ensures SlotIn(h, ElementAt(own, i, hole))
  {
    if own != [] { ElementIn(h, own[1..], i, hole); }
  }

  lemma {:induction false} NamedIn(h: Heap, own: seq<Property<ObjectKey>>)
    requires forall k :: 0 <= k < |own| ==> SlotIn(h, Answer(own[k]))
    ensures forall k :: 0 <= k < |NamedValues(own)| ==> SlotIn(h, Answer(NamedValues(own)[k]))
    ensures DataObject(PlainNode(NamedValues(own)))
  {
    if own != [] { NamedIn(h, own[1..]); }
  }

  lemma {:induction false} NamedKeys(own: seq<Property<ObjectKey>>, k: nat) returns (i: nat)
    requires k < |NamedValues(own)|
    ensures i < |own| && own[i].key == NamedValues(own)[k].key
  {
    var head := if own[0].enumerable && own[0].key.Name? then 1 else 0;
    if k < head {
      i := 0;
    } else {
      var j := NamedKeys(own[1..], k - head);
      i := j + 1;
    }
  }

  lemma {:induction false} NamedDistinct(own: seq<Property<ObjectKey>>)
    requires forall i, j :: 0 <= i < j < |own| ==> own[i].key != own[j].key
    ensures forall i, j :: 0 <= i < j < |NamedValues(own)| ==> NamedValues(own)[i].key != NamedValues(own)[j].key
  {
    if own != [] {
      NamedDistinct(own[1..]);
      forall k | 0 <= k < |NamedValues(own[1..])| ensures NamedValues(own[1..])[k].key != own[0].key {
        var i := NamedKeys(own[1..], k);
        assert own[1..][i] == own[i + 1];
      }
    }
  }

  /** It is a heap of plain data again. */
  lemma SeenPlain(h: Heap, hole: Slot)
    requires ValidHeap(h) && !hole.Ref?
    ensures ValidHeap(Seen(h, hole)) && PlainData(Seen(h, hole))
  {
    forall id | id in h ensures ValidNode(Seen(h, hole), SeenNode(h[id], hole)) && (!h[id].Exotic? ==> ShapeOf(SeenNode(h[id], hole)).Some?) {
      assert ValidNode(h, h[id]);
      SeenNodePlain(h, h[id], hole);
    }
  }

  lemma SeenNodePlain(h: Heap, node: Node, hole: Slot)
    requires ValidNode(h, node) && !hole.Ref?
    ensures ValidNode(Seen(h, hole), SeenNode(node, hole)) && (!node.Exotic? ==> ShapeOf(SeenNode(node, hole)).Some?)
  {
    match node
    case ArrayNode(length, own) =>
      forall i | 0 <= i < length ensures SlotIn(h, ElementAt(own, i, hole)) { ElementIn(h, own, i, hole); }
    case PlainNode(own) =>
      NamedIn(h, own);
      NamedDistinct(own);
    case Exotic =>
  }

  // ----- unfolding -----

  function KidCount(t: Json): nat {
    match t case Array(items) => |items| case Object(ms) => |ms| case _ => 0
  }

  function Kid(t: Json, i: nat): Json
    requires i < KidCount(t)
  {
    if t.Array? then t.items[i] else t.members[i].value
  }

  predicate SameFrame(shape: Shape, t: Json) {
    match shape
    case ArrayShape(slots) => t.Array? && |t.items| == |slots|
    case ObjectShape(names, slots) => t.Object? && Keys(t.members) == names && |slots| == |names|
  }

  /** The slot denotes the finite tree `t`. */
  ghost predicate Unfolds(h: Heap, s: Slot, t: Json)
    decreases t
  {
    match s
    case NullSlot => t == Null
    case BoolSlot(b) => t == Bool(b)
    case NumberSlot(digits) => t == Number(digits)
    case StringSlot(text) => t == String(text)
    case Ref(id) =>
      && id in h
      && var shape := ShapeOf(h[id]);
         && shape.Some?
         && SameFrame(shape.value, t)
         && forall i :: 0 <= i < |shape.value.slots| ==> Unfolds(h, shape.value.slots[i], Kid(t, i))
    case _ => false
  }

  /** The nodes met while unfolding. */
  ghost function Trail(h: Heap, s: Slot, t: Json): set<Id>
    requires Unfolds(h, s, t)
    decreases t
  {
    if s.Ref? then
      var slots := ShapeOf(h[s.id]).value.slots;
      {s.id} + set i, id | 0 <= i < |slots| && id in Trail(h, slots[i], Kid(t, i)) :: id
    else {}
  }

  /** The slot denotes a finite tree whose unfolding stays clear of `path`. */
  ghost predicate Accepts(h: Heap, s: Slot, path: set<Id>) {
    exists t :: Unfolds(h, s, t) && Trail(h, s, t) !! path
  }

  /** The slot denotes a finite JSON tree at all. */
  ghost predicate IsJson(h: Heap, s: Slot) {
    exists t :: Unfolds(h, s, t)
  }

  lemma EmptyPath(h: Heap, s: Slot)
    ensures Accepts(h, s, {}) <==> IsJson(h, s)
  {
    if IsJson(h, s) {
      var t :| Unfolds(h, s, t);
      assert Trail(h, s, t) !! {};
    }
  }

  function Height(t: Json): nat
    decreases t, 1
  {
    match t
    case Array(items) => 1 + MaxHeight(seq(|items|, i requires 0 <= i < |items| => Height(items[i])))
    case Object(ms) => 1 + MaxHeight(seq(|ms|, i requires 0 <= i < |ms| => Height(ms[i].value)))
    case _ => 0
  }

  function MaxHeight(hs: seq<nat>): (m: nat)
    ensures forall i :: 0 <= i < |hs| ==> hs[i] <= m
  {
    if hs == [] then 0
    else
      var m := MaxHeight(hs[1..]);
      assert forall i :: 0 < i < |hs| ==> hs[i] == hs[1..][i - 1];
      if hs[0] > m then hs[0] else m
  }

  lemma KidHeight(t: Json, i: nat)
    requires i < KidCount(t)
    ensures Height(Kid(t, i)) < Height(t)
  {
    match t
    case Array(items) =>
      var hs := seq(|items|, i requires 0 <= i < |items| => Height(items[i]));
      assert hs[i] <= MaxHeight(hs);
    case Object(ms) =>
      var hs := seq(|ms|, i requires 0 <= i < |ms| => Height(ms[i].value));
      assert hs[i] <= MaxHeight(hs);
  }

  /** Unfolding is a function of the slot. */
  lemma {:induction false} UnfoldsToOne(h: Heap, s: Slot, t: Json, u: Json)
    requires Unfolds(h, s, t) && Unfolds(h, s, u)
    ensures t == u
    decreases t
  {
    if s.Ref? {
      var slots := ShapeOf(h[s.id]).value.slots;
      forall i | 0 <= i < |slots| ensures Kid(t, i) == Kid(u, i) {
        UnfoldsToOne(h, slots[i], Kid(t, i), Kid(u, i));
      }
      SameKids(t, u);
    }
  }

  lemma SameKids(t: Json, u: Json)
    requires (t.Array? && u.Array?) || (t.Object? && u.Object? && Keys(t.members) == Keys(u.members))
    requires KidCount(t) == KidCount(u) && forall i :: 0 <= i < KidCount(t) ==> Kid(t, i) == Kid(u, i)
    ensures t == u
  {
    match t
    case Array(items) =>
      forall i | 0 <= i < |items| ensures items[i] == u.items[i] { assert Kid(t, i) == Kid(u, i); }
      assert items == u.items;
    case Object(ms) =>
      forall i | 0 <= i < |ms| ensures ms[i] == u.members[i] {
        assert Kid(t, i) == Kid(u, i) && Keys(ms)[i] == Keys(u.members)[i];
      }
      assert ms == u.members;
  }

  /** A node met while unfolding `t` unfolds to a tree no higher than `t`. */
  lemma {:induction false} TrailHeight(h: Heap, s: Slot, t: Json, id: Id, u: Json)
    requires Unfolds(h, s, t) && id in Trail(h, s, t) && Unfolds(h, Ref(id), u)
    ensures Height(u) <= Height(t)
    decreases t
  {
    if s == Ref(id) {
      UnfoldsToOne(h, s, t, u);
    } else {
      var slots := ShapeOf(h[s.id]).value.slots;
      var i :| 0 <= i < |slots| && id in Trail(h, slots[i], Kid(t, i));
      TrailHeight(h, slots[i], Kid(t, i), id, u);
      KidHeight(t, i);
    }
  }

  /** Below a node that unfolds, the node itself is not met again: finite unfolding means no cycle. */
  lemma KidAvoidsSelf(h: Heap, id: Id, t: Json, i: nat)
    requires Unfolds(h, Ref(id), t) && i < KidCount(t)
    ensures id !in Trail(h, ShapeOf(h[id]).value.slots[i], Kid(t, i))
  {
    var slot := ShapeOf(h[id]).value.slots[i];
    if id in Trail(h, slot, Kid(t, i)) {
      TrailHeight(h, slot, Kid(t, i), id, t);
      KidHeight(t, i);
    }
  }

  // ----- how acceptance is computed along the path -----

  /** A slot on the path can only be refused. */
  lemma PathRefused(h: Heap, id: Id, path: set<Id>)
    requires id in path
    ensures !Accepts(h, Ref(id), path)
  {
  }

  lemma AcceptedKid(h: Heap, id: Id, path: set<Id>, i: nat)
    requires Accepts(h, Ref(id), path)
    requires ShapeOf(h[id]).Some? && i < |ShapeOf(h[id]).value.slots|
    ensures Accepts(h, ShapeOf(h[id]).value.slots[i], path + {id})
  {
    var t :| Unfolds(h, Ref(id), t) && Trail(h, Ref(id), t) !! path;
    var slot := ShapeOf(h[id]).value.slots[i];
    KidAvoidsSelf(h, id, t, i);
    assert Unfolds(h, slot, Kid(t, i));
    assert Trail(h, slot, Kid(t, i)) <= Trail(h, Ref(id), t);
  }

  /** Accepted slots, as one list of trees. */
  lemma {:induction false} AcceptedList(h: Heap, slots: seq<Slot>, path: set<Id>) returns (ts: seq<Json>)
    requires forall i :: 0 <= i < |slots| ==> Accepts(h, slots[i], path)
    ensures |ts| == |slots|
    ensures forall i :: 0 <= i < |slots| ==> Unfolds(h, slots[i], ts[i]) && Trail(h, slots[i], ts[i]) !! path
  {
    if slots == [] {
      ts := [];
    } else {
      var t :| Unfolds(h, slots[0], t) && Trail(h, slots[0], t) !! path;
      var rest := AcceptedList(h, slots[1..], path);
      ts := [t] + rest;
    }
  }

  /** A node is accepted when all its slots are, with the node added to the path. */
  lemma AcceptedNode(h: Heap, id: Id, path: set<Id>)
    requires id in h && id !in path && ShapeOf(h[id]).Some?
    requires forall i :: 0 <= i < |ShapeOf(h[id]).value.slots| ==>
               Accepts(h, ShapeOf(h[id]).value.slots[i], path + {id})
    ensures Accepts(h, Ref(id), path)
  {
    var shape := ShapeOf(h[id]).value;
    var ts := AcceptedList(h, shape.slots, path + {id});
    var t := match shape
      case ArrayShape(_) => Array(ts)
      case ObjectShape(names, _) => Object(seq(|names|, i requires 0 <= i < |names| => Member(names[i], ts[i])));
    forall i | 0 <= i < |ts| ensures Kid(t, i) == ts[i] {}
    assert shape.ObjectShape? ==> Keys(t.members) == shape.names;
    assert Unfolds(h, Ref(id), t);
    assert Trail(h, Ref(id), t) !! path;
  }

  lemma PrimitiveAccepted(h: Heap, s: Slot, path: set<Id>)
    requires !s.Ref?
    ensures Accepts(h, s, path) <==> s.NullSlot? || s.BoolSlot? || s.NumberSlot? || s.StringSlot?
  {
    var t := match s
      case BoolSlot(b) => Bool(b)
      case NumberSlot(digits) => Number(digits)
      case StringSlot(text) => String(text)
      case _ => Null;
    assert Unfolds(h, s, t) <==> s.NullSlot? || s.BoolSlot? || s.NumberSlot? || s.StringSlot?;
    assert Unfolds(h, s, t) ==> Trail(h, s, t) == {};
  }

  // ----- what every reader agrees on -----

  lemma {:induction false} ElementOf(own: seq<Property<ArrayKey>>, i: nat, hole: Slot)
    requires i < |own| && own[i].key == Index(i) && forall k :: 0 <= k < i ==> own[k].key != Index(i)
    ensures ElementAt(own, i, hole) == Answer(own[i])
  {
    SkipTo(own, i, i, hole);
  }

  lemma {:induction false} SkipTo(own: seq<Property<ArrayKey>>, n: nat, i: nat, hole: Slot)
    requires n < |own| && own[n].key == Index(i) && forall k :: 0 <= k < n ==> own[k].key != Index(i)
    ensures ElementAt(own, i, hole) == Answer(own[n])
  {
    if n > 0 { SkipTo(own[1..], n - 1, i, hole); }
  }

  lemma {:induction false} NamedAll(own: seq<Property<ObjectKey>>)
    requires DataObject(PlainNode(own))
    ensures NamedValues(own) == own
  {
    if own != [] {
      assert DataObject(PlainNode(own[1..])) by {
        forall i | 0 <= i < |own[1..]| ensures own[1..][i].Data? && own[1..][i].enumerable && own[1..][i].key.Name? {
          assert own[i + 1].Data?;
        }
      }
      NamedAll(own[1..]);
      assert own == [own[0]] + own[1..];
    }
  }

  /** A node of plain data is seen as it is. */
  lemma SeenShape(node: Node, hole: Slot)
    requires ShapeOf(node).Some?
    ensures ShapeOf(SeenNode(node, hole)) == ShapeOf(node)
  {
    match node
    case ArrayNode(length, own) =>
      forall i | 0 <= i < length ensures ElementAt(own, i, hole) == own[i].slot { ElementOf(own, i, hole); }
      assert DenseArray(SeenNode(node, hole));
      assert ShapeOf(SeenNode(node, hole)).value.slots == ShapeOf(node).value.slots;
    case PlainNode(own) => NamedAll(own);
  }

  /** What unfolds to a tree at all is seen as that tree, so the stricter check accepts no more. */
  lemma {:induction false} SeenUnfolds(h: Heap, s: Slot, t: Json, hole: Slot)
    requires Unfolds(h, s, t)
    ensures Unfolds(Seen(h, hole), s, t)
    decreases t
  {
    if s.Ref? {
      SeenShape(h[s.id], hole);
      var slots := ShapeOf(h[s.id]).value.slots;
      forall i | 0 <= i < |slots| ensures Unfolds(Seen(h, hole), slots[i], Kid(t, i)) { SeenUnfolds(h, slots[i], Kid(t, i), hole); }
    }
  }
}
