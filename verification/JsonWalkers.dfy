/** The three recursive walks over a value graph that keep the current path in a mutable set. */
module JsonWalkers {
  import opened Prelude
  import opened JsonText
  import opened JsonGraph

  /** `assertDurableJsonValue`: every own key and descriptor is checked. */
  class DurableJsonCheck {
    const heap: Heap
    var seen: set<Id>

    constructor (heap: Heap)
      ensures this.heap == heap && seen == {}
    {
      this.heap := heap;
      seen := {};
    }

    /** Returns false where the original throws. */
    method Visit(candidate: Slot) returns (ok: bool)
      requires ValidHeap(heap) && SlotIn(heap, candidate) && seen <= heap.Keys
      modifies this
      ensures ok <==> Accepts(heap, candidate, old(seen))
      ensures ok ==> seen == old(seen)
      decreases |heap.Keys - seen|, 1
    {
      if !candidate.Ref? {
        PrimitiveAccepted(heap, candidate, seen);
        return !candidate.NonFinite? && !candidate.Unsupported?;
      }
      var id := candidate.id;
      if id in seen {
        PathRefused(heap, id, seen);
        return false;
      }
      assert ValidNode(heap, heap[id]);
      if heap[id].Exotic? {
        return false;
      }
      ghost var path := seen;
      seen := seen + {id};
      assert heap.Keys - seen == (heap.Keys - path) - {id};
      if heap[id].ArrayNode? {
        ok := VisitElements(id, path);
      } else {
        ok := VisitProperties(id, path);
      }
      if ok {
        seen := seen - {id};
        assert seen == path;
      }
    }

    method VisitElements(id: Id, ghost path: set<Id>) returns (ok: bool)
      requires ValidHeap(heap) && id in heap && heap[id].ArrayNode?
      requires id !in path && seen == path + {id} && seen <= heap.Keys
      modifies this
      ensures ok <==> Accepts(heap, Ref(id), path)
      ensures ok ==> seen == old(seen)
      decreases |heap.Keys - seen|, 2
    {
      var ArrayNode(length, own) := heap[id];
      assert ValidNode(heap, heap[id]);
      if |own| != length {
        return false;
      }
      for i := 0 to |own|
        invariant seen == path + {id}
        invariant forall k :: 0 <= k < i ==>
          own[k].Data? && own[k].enumerable && own[k].key.Index? && own[k].key.n < length
        invariant forall k :: 0 <= k < i ==> Accepts(heap, own[k].slot, path + {id})
      {
        var property := own[i];
        if !property.key.Index? || property.key.n >= length || property.Accessor? || !property.enumerable {
          return false;
        }
        ok := Visit(property.slot);
        if !ok {
          if Accepts(heap, Ref(id), path) {
            AcceptedKid(heap, id, path, i);
          }
          return false;
        }
      }
      AscendingKeysFill(own, length);
      AcceptedNode(heap, id, path);
      return true;
    }

    method VisitProperties(id: Id, ghost path: set<Id>) returns (ok: bool)
      requires ValidHeap(heap) && id in heap && heap[id].PlainNode?
      requires id !in path && seen == path + {id} && seen <= heap.Keys
      modifies this
      ensures ok <==> Accepts(heap, Ref(id), path)
      ensures ok ==> seen == old(seen)
      decreases |heap.Keys - seen|, 2
    {
      var own := heap[id].properties;
      assert ValidNode(heap, heap[id]);
      for i := 0 to |own|
        invariant seen == path + {id}
        invariant forall k :: 0 <= k < i ==> own[k].Data? && own[k].enumerable && own[k].key.Name?
        invariant forall k :: 0 <= k < i ==> Accepts(heap, own[k].slot, path + {id})
      {
        var property := own[i];
        if !property.key.Name? || property.Accessor? || !property.enumerable {
          return false;
        }
        ok := Visit(property.slot);
        if !ok {
          if Accepts(heap, Ref(id), path) {
            AcceptedKid(heap, id, path, i);
          }
          return false;
        }
      }
      AcceptedNode(heap, id, path);
      return true;
    }
  }

  /** As many ascending indices below a length as the length itself leave no hole. */
  lemma {:induction false} AscendingKeysFill(own: seq<Property<ArrayKey>>, length: nat)
    requires |own| == length
    requires forall k :: 0 <= k < |own| ==> own[k].key.Index? && own[k].key.n < length
    requires forall i, j :: 0 <= i < j < |own| ==> own[i].key.n < own[j].key.n
    ensures forall k :: 0 <= k < |own| ==> own[k].key == Index(k)
  {
    forall k | 0 <= k < |own| ensures own[k].key == Index(k) {
      AscendingAtLeast(own, k);
      AscendingAtMost(own, length, k);
    }
  }

  lemma {:induction false} AscendingAtLeast(own: seq<Property<ArrayKey>>, k: nat)
    requires k < |own| && forall i :: 0 <= i < |own| ==> own[i].key.Index?
    requires forall i, j :: 0 <= i < j < |own| ==> own[i].key.n < own[j].key.n
    ensures own[k].key.n >= k
  {
    if k > 0 { AscendingAtLeast(own, k - 1); }
  }

  lemma {:induction false} AscendingAtMost(own: seq<Property<ArrayKey>>, length: nat, k: nat)
    requires k < |own| == length && forall i :: 0 <= i < |own| ==> own[i].key.Index? && own[i].key.n < length
    requires forall i, j :: 0 <= i < j < |own| ==> own[i].key.n < own[j].key.n
    ensures own[k].key.n <= k
    decreases |own| - k
  {
    if k + 1 < |own| { AscendingAtMost(own, length, k + 1); }
  }

  /** Accepts a payload exactly when it unfolds to a finite JSON tree. Shared parts are fine,
      cycles, accessors, holes, symbols and foreign prototypes are not. */
  method AssertDurableJsonValue(heap: Heap, value: Slot) returns (ok: bool)
    requires ValidHeap(heap) && SlotIn(heap, value)
    ensures ok <==> IsJson(heap, value)
  {
    var check := new DurableJsonCheck(heap);
    EmptyPath(heap, value);
    ok := check.Visit(value);
  }

  /** `assertRpcJsonValue` on the heap as it sees it: array items and object values only. */
  class RpcJsonCheck {
    const heap: Heap
    var seen: set<Id>

    constructor (heap: Heap)
      ensures this.heap == heap && seen == {}
    {
      this.heap := heap;
      seen := {};
    }

    method Visit(candidate: Slot) returns (ok: bool)
      requires ValidHeap(heap) && PlainData(heap) && SlotIn(heap, candidate) && seen <= heap.Keys
      modifies this
      ensures ok <==> Accepts(heap, candidate, old(seen))
      ensures ok ==> seen == old(seen)
      decreases |heap.Keys - seen|, 1
    {
      if !candidate.Ref? {
        PrimitiveAccepted(heap, candidate, seen);
        return !candidate.NonFinite? && !candidate.Unsupported?;
      }
      var id := candidate.id;
      if id in seen {
        PathRefused(heap, id, seen);
        return false;
      }
      if heap[id].Exotic? {
        return false;
      }
      ghost var path := seen;
      seen := seen + {id};
      assert heap.Keys - seen == (heap.Keys - path) - {id};
      ok := VisitItems(id, path);
      if ok {
        seen := seen - {id};
        assert seen == path;
      }
    }

    method VisitItems(id: Id, ghost path: set<Id>) returns (ok: bool)
      requires ValidHeap(heap) && PlainData(heap) && id in heap && !heap[id].Exotic?
      requires id !in path && seen == path + {id} && seen <= heap.Keys
      modifies this
      ensures ok <==> Accepts(heap, Ref(id), path)
      ensures ok ==> seen == old(seen)
      decreases |heap.Keys - seen|, 2
    {
      assert ValidNode(heap, heap[id]);
      var items := ShapeOf(heap[id]).value.slots;
      for i := 0 to |items|
        invariant seen == path + {id}
        invariant forall k :: 0 <= k < i ==> Accepts(heap, items[k], path + {id})
      {
        ok := Visit(items[i]);
        if !ok {
          RefusedKid(heap, id, path, i);
          return false;
        }
      }
      AcceptedNode(heap, id, path);
      return true;
    }
  }

  /** The RPC walk, on any heap: it sees array items and object values, whatever else the objects carry, and
      accepts exactly what it sees as a finite tree. */
  method AssertRpcJsonValue(heap: Heap, value: Slot) returns (ok: bool)
    requires ValidHeap(heap) && SlotIn(heap, value)
    ensures ok <==> IsJson(Seen(heap, Unsupported), value)
  {
    SeenPlain(heap, Unsupported);
    var check := new RpcJsonCheck(Seen(heap, Unsupported));
    EmptyPath(Seen(heap, Unsupported), value);
    ok := check.Visit(value);
  }

  /** The durable check is the stricter one, and both see the same tree. */
  lemma DurableIsRpc(heap: Heap, value: Slot)
    requires IsJson(heap, value)
    ensures IsJson(Seen(heap, Unsupported), value)
    ensures forall t :: Unfolds(heap, value, t) ==> Unfolds(Seen(heap, Unsupported), value, t)
  {
    forall t | Unfolds(heap, value, t) ensures Unfolds(Seen(heap, Unsupported), value, t) { SeenUnfolds(heap, value, t, Unsupported); }
  }

  // ----- the stable printer on graphs -----

  /** `parts.join(",")` */
  function Join(parts: seq<Text>): Text {
    if parts == [] then [] else if |parts| == 1 then parts[0] else parts[0] + [COMMA] + Join(parts[1..])
  }

  lemma {:induction false} JoinItems(items: seq<Json>, parts: seq<Text>)
    requires |items| == |parts| && forall i :: 0 <= i < |items| ==> parts[i] == StableText(items[i])
    ensures Join(parts) == StableItems(items)
  {
    if items != [] { JoinItems(items[1..], parts[1..]); }
  }

  function MemberText(j: Json, k: Text): Text
    requires j.Object? && k in Keys(j.members)
  {
    Quote(k) + [COLON] + StableText(j.members[IndexOf(Keys(j.members), k)].value)
  }

  lemma {:induction false} JoinMembers(j: Json, ks: seq<Text>, parts: seq<Text>)
    requires j.Object? && forall k :: k in ks ==> k in Keys(j.members)
    requires |ks| == |parts| && forall i :: 0 <= i < |ks| ==> parts[i] == MemberText(j, ks[i])
    ensures Join(parts) == StableMembers(j, ks)
  {
    if ks != [] { JoinMembers(j, ks[1..], parts[1..]); }
  }

  /** The element `i` of the array `id` is a hole. */
  predicate Missing(raw: Heap, id: Id, i: nat) {
    id in raw && IsHole(raw[id], i)
  }

  /** What is printed for a slot that unfolds to `t`: its canonical text, except that a hole leaves nothing
      between its commas. */
  ghost function Shown(raw: Heap, h: Heap, s: Slot, t: Json): Text
    requires Unfolds(h, s, t)
    decreases t, 1
  {
    if !s.Ref? then Stringify(t)
    else if h[s.id].ArrayNode? then
      [OPEN_BRACKET] + Join(seq(KidCount(t), i requires 0 <= i < KidCount(t) => ShownItem(raw, h, s.id, t, i))) + [CLOSE_BRACKET]
    else
      var names := ShapeOf(h[s.id]).value.names;
      SameElements(names);
      var keys := SortKeys(names);
      [OPEN_BRACE] + Join(seq(|keys|, k requires 0 <= k < |keys| => ShownMember(raw, h, s.id, t, keys[k]))) + [CLOSE_BRACE]
  }

  ghost function ShownItem(raw: Heap, h: Heap, id: Id, t: Json, i: nat): Text
    requires Unfolds(h, Ref(id), t) && h[id].ArrayNode? && i < KidCount(t)
    decreases t, 0
  {
    if Missing(raw, id, i) then [] else Shown(raw, h, ShapeOf(h[id]).value.slots[i], Kid(t, i))
  }

  ghost function ShownMember(raw: Heap, h: Heap, id: Id, t: Json, key: Text): Text
    requires Unfolds(h, Ref(id), t) && h[id].PlainNode? && key in ShapeOf(h[id]).value.names
    decreases t, 0
  {
    var at := IndexOf(ShapeOf(h[id]).value.names, key);
    Quote(key) + [COLON] + Shown(raw, h, ShapeOf(h[id]).value.slots[at], Kid(t, at))
  }

  /** `text` is what the printer owes for the slot. */
  ghost predicate Prints(raw: Heap, h: Heap, s: Slot, text: Text) {
    forall t :: Unfolds(h, s, t) ==> text == Shown(raw, h, s, t)
  }

  /** `stableJsonValue` */
  class StablePrinter {
    const raw: Heap
    const heap: Heap
    var seen: set<Id>

    constructor (raw: Heap)
      ensures this.raw == raw && heap == Seen(raw, NullSlot) && seen == {}
    {
      this.raw := raw;
      heap := Seen(raw, NullSlot);
      seen := {};
    }

    method Print(value: Slot) returns (r: Option<Text>)
      requires heap == Seen(raw, NullSlot) && ValidHeap(heap) && PlainData(heap) && SlotIn(heap, value) && seen <= heap.Keys
      modifies this
      ensures r.Some? <==> Accepts(heap, value, old(seen))
      ensures r.Some? ==> seen == old(seen) && Prints(raw, heap, value, r.value)
      decreases |heap.Keys - seen|, 1
    {
      match value {
        case Ref(id) =>
          if id in seen {
            PathRefused(heap, id, seen);
            return None;
          }
          if heap[id].Exotic? {
            return None;
          }
          assert ValidNode(heap, heap[id]);
          ghost var path := seen;
          seen := seen + {id};
          assert heap.Keys - seen == (heap.Keys - path) - {id};
          if heap[id].ArrayNode? {
            r := PrintItems(id, path);
          } else {
            r := PrintMembers(id, path);
          }
          if r.Some? {
            seen := seen - {id};
            assert seen == path;
          }
        case _ =>
          PrimitiveAccepted(heap, value, seen);
          r := match value
            case NullSlot => Some(Stringify(Null))
            case BoolSlot(b) => Some(Stringify(Bool(b)))
            case StringSlot(s) => Some(Stringify(String(s)))
            case NumberSlot(digits) => Some(Stringify(Number(digits)))
            case _ => None;
      }
    }

    method PrintItems(id: Id, ghost path: set<Id>) returns (r: Option<Text>)
      requires heap == Seen(raw, NullSlot) && ValidHeap(heap) && PlainData(heap) && id in heap && heap[id].ArrayNode?
      requires id !in path && seen == path + {id} && seen <= heap.Keys
      modifies this
      ensures r.Some? <==> Accepts(heap, Ref(id), path)
      ensures r.Some? ==> seen == old(seen) && Prints(raw, heap, Ref(id), r.value)
      decreases |heap.Keys - seen|, 2
    {
      var items := ShapeOf(heap[id]).value.slots;
      assert ValidNode(heap, heap[id]);
      var parts: seq<Text> := [];
      for i := 0 to |items|
        invariant seen == path + {id} && |parts| == i
        invariant forall k :: 0 <= k < i ==> PrintedItem(raw, heap, id, path, k, parts[k])
      {
        if Missing(raw, id, i) {
          HoleSkipped(raw, heap, id, path, i);
          parts := parts + [[]];
        } else {
          var part := Print(items[i]);
          if part.None? {
            RefusedKid(heap, id, path, i);
            return None;
          }
          parts := parts + [part.value];
        }
      }
      PrintedArray(raw, heap, id, path, parts);
      r := Some([OPEN_BRACKET] + Join(parts) + [CLOSE_BRACKET]);
    }

    method PrintMembers(id: Id, ghost path: set<Id>) returns (r: Option<Text>)
      requires heap == Seen(raw, NullSlot) && ValidHeap(heap) && PlainData(heap) && id in heap && heap[id].PlainNode?
      requires id !in path && seen == path + {id} && seen <= heap.Keys
      modifies this
      ensures r.Some? <==> Accepts(heap, Ref(id), path)
      ensures r.Some? ==> seen == old(seen) && Prints(raw, heap, Ref(id), r.value)
      decreases |heap.Keys - seen|, 4
    {
      var names := ShapeOf(heap[id]).value.names;
      var keys := SortKeys(names);
      SameElements(names);
      assert forall k :: 0 <= k < |keys| ==> keys[k] in names;
      var parts := PrintAll(id, path, keys);
      if parts.None? {
        return None;
      }
      assert ValidNode(heap, heap[id]);
      PrintedObject(raw, heap, id, path, keys, parts.value);
      r := Some([OPEN_BRACE] + Join(parts.value) + [CLOSE_BRACE]);
    }

    method PrintAll(id: Id, ghost path: set<Id>, keys: seq<Text>) returns (r: Option<seq<Text>>)
      requires heap == Seen(raw, NullSlot) && ValidHeap(heap) && PlainData(heap) && id in heap && heap[id].PlainNode? && ShapeOf(heap[id]).Some?
      requires id !in path && seen == path + {id} && seen <= heap.Keys
      requires forall k :: 0 <= k < |keys| ==> keys[k] in ShapeOf(heap[id]).value.names
      modifies this
      ensures r.Some? ==> seen == old(seen) && |r.value| == |keys|
      ensures r.Some? ==> forall k :: 0 <= k < |keys| ==> PrintedOf(raw, heap, id, path, keys[k], r.value[k])
      ensures r.None? ==> !Accepts(heap, Ref(id), path)
      decreases |heap.Keys - seen|, 3
    {
      var parts := [];
      for i := 0 to |keys|
        invariant seen == path + {id} && |parts| == i
        invariant forall k :: 0 <= k < i ==> PrintedOf(raw, heap, id, path, keys[k], parts[k])
      {
        var part := PrintMember(id, path, keys[i]);
        if part.None? {
          return None;
        }
        parts := parts + [part.value];
      }
      r := Some(parts);
    }

    /** One member, printed with its key. */
    method PrintMember(id: Id, ghost path: set<Id>, key: Text) returns (r: Option<Text>)
      requires heap == Seen(raw, NullSlot) && ValidHeap(heap) && PlainData(heap) && id in heap && heap[id].PlainNode? && ShapeOf(heap[id]).Some?
      requires id !in path && seen == path + {id} && seen <= heap.Keys && key in ShapeOf(heap[id]).value.names
      modifies this
      ensures r.Some? ==> seen == old(seen)
      ensures r.Some? ==> PrintedOf(raw, heap, id, path, key, r.value)
      ensures r.None? ==> !Accepts(heap, Ref(id), path)
      decreases |heap.Keys - seen|, 2
    {
      var ObjectShape(names, slots) := ShapeOf(heap[id]).value;
      assert ValidNode(heap, heap[id]);
      var at := IndexOf(names, key);
      var part := Print(slots[at]);
      if part.None? {
        RefusedKid(heap, id, path, at);
        return None;
      }
      PrintedIntro(raw, heap, names, slots, path + {id}, key, part.value);
      return Some(Quote(key) + [COLON] + part.value);
    }
  }

  lemma RefusedKid(h: Heap, id: Id, path: set<Id>, i: nat)
    requires ValidHeap(h) && id in h && ShapeOf(h[id]).Some? && i < |ShapeOf(h[id]).value.slots|
    requires !Accepts(h, ShapeOf(h[id]).value.slots[i], path + {id})
    ensures !Accepts(h, Ref(id), path)
  {
    if Accepts(h, Ref(id), path) { AcceptedKid(h, id, path, i); }
  }

  /** `part` is the printed element `i` of an array. */
  ghost predicate PrintedItem(raw: Heap, h: Heap, id: Id, path: set<Id>, i: nat, part: Text)
    requires id in h && h[id].ArrayNode? && ShapeOf(h[id]).Some? && i < |ShapeOf(h[id]).value.slots|
  {
    var slot := ShapeOf(h[id]).value.slots[i];
    Accepts(h, slot, path + {id}) && if Missing(raw, id, i) then part == [] else Prints(raw, h, slot, part)
  }

  lemma HoleSkipped(raw: Heap, h: Heap, id: Id, path: set<Id>, i: nat)
    requires h == Seen(raw, NullSlot) && id in h && h[id].ArrayNode? && ShapeOf(h[id]).Some?
    requires i < |ShapeOf(h[id]).value.slots| && Missing(raw, id, i)
    ensures PrintedItem(raw, h, id, path, i, [])
  {
    HoleAt(raw[id].elements, i, NullSlot);
    PrimitiveAccepted(h, NullSlot, path + {id});
  }

  /** When every item is printed, the array is accepted and printed. */
  lemma PrintedArray(raw: Heap, h: Heap, id: Id, path: set<Id>, parts: seq<Text>)
    requires ValidHeap(h) && id in h && id !in path && h[id].ArrayNode? && ShapeOf(h[id]).Some?
    requires |parts| == |ShapeOf(h[id]).value.slots|
    requires forall k :: 0 <= k < |parts| ==> PrintedItem(raw, h, id, path, k, parts[k])
    ensures Accepts(h, Ref(id), path)
    ensures Prints(raw, h, Ref(id), [OPEN_BRACKET] + Join(parts) + [CLOSE_BRACKET])
  {
    assert ValidNode(h, h[id]);
    var slots := ShapeOf(h[id]).value.slots;
    forall i | 0 <= i < |slots| ensures Accepts(h, slots[i], path + {id}) {
      assert PrintedItem(raw, h, id, path, i, parts[i]);
    }
    AcceptedNode(h, id, path);
    forall t | Unfolds(h, Ref(id), t) ensures [OPEN_BRACKET] + Join(parts) + [CLOSE_BRACKET] == Shown(raw, h, Ref(id), t) {
      PrintedArrayText(raw, h, id, path, parts, t);
    }
  }

  lemma PrintedArrayText(raw: Heap, h: Heap, id: Id, path: set<Id>, parts: seq<Text>, t: Json)
    requires Unfolds(h, Ref(id), t) && h[id].ArrayNode? && |parts| == |ShapeOf(h[id]).value.slots|
    requires forall k :: 0 <= k < |parts| ==> PrintedItem(raw, h, id, path, k, parts[k])
    ensures [OPEN_BRACKET] + Join(parts) + [CLOSE_BRACKET] == Shown(raw, h, Ref(id), t)
  {
    var slots := ShapeOf(h[id]).value.slots;
    forall i | 0 <= i < |parts| ensures parts[i] == ShownItem(raw, h, id, t, i) {
      assert PrintedItem(raw, h, id, path, i, parts[i]);
      assert Unfolds(h, slots[i], Kid(t, i));
    }
    assert parts == seq(KidCount(t), i requires 0 <= i < KidCount(t) => ShownItem(raw, h, id, t, i));
  }

  /** `part` is the printed member named `key` of an object with these names and slots. */
  ghost predicate PrintedMember(raw: Heap, h: Heap, names: seq<Text>, slots: seq<Slot>, path: set<Id>, key: Text, part: Text) {
    && key in names && |names| == |slots|
    && var slot := slots[IndexOf(names, key)];
       Accepts(h, slot, path) && exists text :: Prints(raw, h, slot, text) && part == Quote(key) + [COLON] + text
  }

  ghost predicate PrintedOf(raw: Heap, h: Heap, id: Id, path: set<Id>, key: Text, part: Text)
    requires id in h && h[id].PlainNode? && ShapeOf(h[id]).Some?
  {
    PrintedMember(raw, h, ShapeOf(h[id]).value.names, ShapeOf(h[id]).value.slots, path + {id}, key, part)
  }

  lemma PrintedIntro(raw: Heap, h: Heap, names: seq<Text>, slots: seq<Slot>, path: set<Id>, key: Text, text: Text)
    requires key in names && |names| == |slots|
    requires Accepts(h, slots[IndexOf(names, key)], path) && Prints(raw, h, slots[IndexOf(names, key)], text)
    ensures PrintedMember(raw, h, names, slots, path, key, Quote(key) + [COLON] + text)
  {
  }

  lemma OwnIndex(names: seq<Text>, i: nat)
    requires Distinct(names) && i < |names|
    ensures IndexOf(names, names[i]) == i
  {
  }

  lemma PrintedSlot(raw: Heap, h: Heap, names: seq<Text>, slots: seq<Slot>, path: set<Id>, keys: seq<Text>, parts: seq<Text>, i: nat)
    requires Distinct(names) && i < |names| == |slots| && names[i] in keys && |keys| == |parts|
    requires forall k :: 0 <= k < |keys| ==> PrintedMember(raw, h, names, slots, path, keys[k], parts[k])
    ensures Accepts(h, slots[i], path)
  {
    var k :| 0 <= k < |keys| && keys[k] == names[i];
    assert PrintedMember(raw, h, names, slots, path, keys[k], parts[k]);
    OwnIndex(names, i);
  }

  /** When every member in key order is printed, the object is accepted and printed. */
  lemma PrintedObject(raw: Heap, h: Heap, id: Id, path: set<Id>, keys: seq<Text>, parts: seq<Text>)
    requires id in h && id !in path && ValidNode(h, h[id]) && h[id].PlainNode? && ShapeOf(h[id]).Some?
    requires keys == SortKeys(ShapeOf(h[id]).value.names) && |parts| == |keys|
    requires forall k :: 0 <= k < |keys| ==> PrintedOf(raw, h, id, path, keys[k], parts[k])
    ensures Accepts(h, Ref(id), path)
    ensures Prints(raw, h, Ref(id), [OPEN_BRACE] + Join(parts) + [CLOSE_BRACE])
  {
    var ObjectShape(names, slots) := ShapeOf(h[id]).value;
    SameElements(names);
    assert Distinct(names) by {
      forall i, j | 0 <= i < j < |names| ensures names[i] != names[j] {
        assert h[id].properties[i].key != h[id].properties[j].key;
      }
    }
    forall k | 0 <= k < |keys| ensures PrintedMember(raw, h, names, slots, path + {id}, keys[k], parts[k]) {
      assert PrintedOf(raw, h, id, path, keys[k], parts[k]);
    }
    forall i | 0 <= i < |slots| ensures Accepts(h, slots[i], path + {id}) {
      PrintedSlot(raw, h, names, slots, path + {id}, keys, parts, i);
    }
    AcceptedNode(h, id, path);
    forall t | Unfolds(h, Ref(id), t) ensures [OPEN_BRACE] + Join(parts) + [CLOSE_BRACE] == Shown(raw, h, Ref(id), t) {
      PrintedObjectText(raw, h, id, path, keys, parts, t);
    }
  }

  lemma PrintedObjectText(raw: Heap, h: Heap, id: Id, path: set<Id>, keys: seq<Text>, parts: seq<Text>, t: Json)
    requires Unfolds(h, Ref(id), t) && id in h && h[id].PlainNode? && ShapeOf(h[id]).Some?
    requires keys == SortKeys(ShapeOf(h[id]).value.names) && |parts| == |keys|
    requires forall k :: 0 <= k < |keys| ==> PrintedOf(raw, h, id, path, keys[k], parts[k])
    ensures [OPEN_BRACE] + Join(parts) + [CLOSE_BRACE] == Shown(raw, h, Ref(id), t)
  {
    SameElements(ShapeOf(h[id]).value.names);
    forall k | 0 <= k < |keys| ensures parts[k] == ShownMember(raw, h, id, t, keys[k]) {
      assert PrintedOf(raw, h, id, path, keys[k], parts[k]);
      PrintedMemberText(raw, h, id, path, keys[k], parts[k], t);
    }
    assert parts == seq(|keys|, k requires 0 <= k < |keys| => ShownMember(raw, h, id, t, keys[k]));
  }

  lemma PrintedMemberText(raw: Heap, h: Heap, id: Id, path: set<Id>, key: Text, part: Text, t: Json)
    requires Unfolds(h, Ref(id), t) && id in h && h[id].PlainNode? && ShapeOf(h[id]).Some?
    requires PrintedOf(raw, h, id, path, key, part)
    ensures part == ShownMember(raw, h, id, t, key)
  {
    var at := IndexOf(ShapeOf(h[id]).value.names, key);
    assert Unfolds(h, ShapeOf(h[id]).value.slots[at], Kid(t, at));
  }

  /** No array has holes: parsed JSON, for one, has none. */
  predicate NoHoles(raw: Heap) {
    forall id :: id in raw && raw[id].ArrayNode? ==> forall i :: 0 <= i < raw[id].length ==> !Missing(raw, id, i)
  }

  /** Without holes it is the canonical text. */
  lemma {:induction false} ShownStable(raw: Heap, h: Heap, s: Slot, t: Json)
    requires h == Seen(raw, NullSlot) && NoHoles(raw) && Unfolds(h, s, t)
    ensures Shown(raw, h, s, t) == StableText(t)
    decreases t
  {
    if s.Ref? {
      var slots := ShapeOf(h[s.id]).value.slots;
      forall i | 0 <= i < |slots| ensures Shown(raw, h, slots[i], Kid(t, i)) == StableText(Kid(t, i)) {
        ShownStable(raw, h, slots[i], Kid(t, i));
      }
      if h[s.id].ArrayNode? {
        ShownItemsStable(raw, h, s.id, t);
      } else {
        ShownMembersStable(raw, h, s.id, t);
      }
    }
  }

  lemma ShownItemsStable(raw: Heap, h: Heap, id: Id, t: Json)
    requires h == Seen(raw, NullSlot) && NoHoles(raw) && Unfolds(h, Ref(id), t) && h[id].ArrayNode?
    requires forall i :: 0 <= i < KidCount(t) ==> Shown(raw, h, ShapeOf(h[id]).value.slots[i], Kid(t, i)) == StableText(Kid(t, i))
    ensures Shown(raw, h, Ref(id), t) == StableText(t)
  {
    JoinItems(t.items, seq(KidCount(t), i requires 0 <= i < KidCount(t) => ShownItem(raw, h, id, t, i)));
  }

  lemma ShownMembersStable(raw: Heap, h: Heap, id: Id, t: Json)
    requires Unfolds(h, Ref(id), t) && h[id].PlainNode?
    requires forall i :: 0 <= i < KidCount(t) ==> Shown(raw, h, ShapeOf(h[id]).value.slots[i], Kid(t, i)) == StableText(Kid(t, i))
    ensures Shown(raw, h, Ref(id), t) == StableText(t)
  {
    var names := ShapeOf(h[id]).value.names;
    assert Keys(t.members) == names;
    SameElements(names);
    var keys := SortKeys(names);
    var parts := seq(|keys|, k requires 0 <= k < |keys| => ShownMember(raw, h, id, t, keys[k]));
    forall k | 0 <= k < |keys| ensures parts[k] == MemberText(t, keys[k]) { ShownMemberStable(raw, h, id, t, keys[k]); }
    assert StableText(t) == [OPEN_BRACE] + Join(parts) + [CLOSE_BRACE] by { JoinMembers(t, keys, parts); }
  }

  lemma ShownMemberStable(raw: Heap, h: Heap, id: Id, t: Json, key: Text)
    requires Unfolds(h, Ref(id), t) && h[id].PlainNode? && key in ShapeOf(h[id]).value.names
    requires forall i :: 0 <= i < KidCount(t) ==> Shown(raw, h, ShapeOf(h[id]).value.slots[i], Kid(t, i)) == StableText(Kid(t, i))
    ensures Keys(t.members) == ShapeOf(h[id]).value.names && ShownMember(raw, h, id, t, key) == MemberText(t, key)
  {
    var at := IndexOf(ShapeOf(h[id]).value.names, key);
    assert Kid(t, at) == t.members[at].value;
  }

  /** `stableJsonValue(value, new Set())`: it reads array items and the values of string keys, and passes over
      holes; it gives a text exactly for what it sees as a finite tree, a hole standing for a primitive, and
      then the text shown for that tree: without holes, its canonical text. */
  method StableJsonText(heap: Heap, value: Slot) returns (r: Option<Text>)
    requires ValidHeap(heap) && SlotIn(heap, value)
    ensures r.Some? <==> IsJson(Seen(heap, NullSlot), value)
    ensures r.Some? ==> Prints(heap, Seen(heap, NullSlot), value, r.value)
    ensures r.Some? && NoHoles(heap) ==> forall t :: Unfolds(Seen(heap, NullSlot), value, t) ==> r.value == StableText(t)
  {
    var seen := Seen(heap, NullSlot);
    SeenPlain(heap, NullSlot);
    var printer := new StablePrinter(heap);
    EmptyPath(seen, value);
    r := printer.Print(value);
    if r.Some? && NoHoles(heap) {
      forall t | Unfolds(seen, value, t) ensures r.value == StableText(t) { ShownStable(heap, seen, value, t); }
    }
  }
}
