/** Canonical text decides whether two JSON trees mean the same value. */
module CanonicalJson {
  import opened Prelude
  import opened JsonText
  import opened JsonRoundTrip

  /** What a tree means: objects are finite maps, so member order is forgotten. */
  datatype Value =
    | NullValue
    | BoolValue(b: bool)
    | NumberValue(digits: Text)
    | StringValue(s: Text)
    | ArrayValue(items: seq<Value>)
    | ObjectValue(members: map<Text, Value>)

  ghost function Meaning(j: Json): Value
    decreases j
  {
    match j
    case Null => NullValue
    case Bool(b) => BoolValue(b)
    case Number(digits) => NumberValue(digits)
    case String(s) => StringValue(s)
    case Array(items) => ArrayValue(seq(|items|, i requires 0 <= i < |items| => Meaning(items[i])))
    case Object(ms) => ObjectValue(map k | k in Keys(ms) :: Meaning(ms[IndexOf(Keys(ms), k)].value))
  }

  // ----- the key order is a linear order -----

  lemma {:induction false} TextLeTotal(a: Text, b: Text)
    ensures TextLe(a, b) || TextLe(b, a)
    ensures TextLe(a, b) && TextLe(b, a) ==> a == b
  {
    if a != [] && b != [] && a[0] == b[0] {
      TextLeTotal(a[1..], b[1..]);
      assert a == [a[0]] + a[1..] && b == [b[0]] + b[1..];
    }
  }

  lemma {:induction false} TextLeTransitive(a: Text, b: Text, c: Text)
    requires TextLe(a, b) && TextLe(b, c)
    ensures TextLe(a, c)
  {
    if a != [] && a[0] == b[0] && b[0] == c[0] {
      TextLeTransitive(a[1..], b[1..], c[1..]);
    }
  }

  /** It is the order of the first code units that differ, with a prefix before what it begins. */
  lemma {:induction false} TextLeExactly(a: Text, b: Text, n: nat)
    requires n <= |a| && n <= |b| && a[..n] == b[..n] && (n < |a| && n < |b| ==> a[n] != b[n])
    ensures TextLe(a, b) <==> n == |a| || (n < |b| && a[n] < b[n])
  {
    if n > 0 {
      assert a[0] == a[..n][0] && b[0] == b[..n][0];
      assert a[1..][..n - 1] == a[..n][1..] && b[1..][..n - 1] == b[..n][1..];
      TextLeExactly(a[1..], b[1..], n - 1);
    }
  }

  predicate Sorted(ks: seq<Text>) {
    forall i, j :: 0 <= i < j < |ks| ==> TextLe(ks[i], ks[j])
  }

  lemma {:induction false} InsertKeySorted(k: Text, ks: seq<Text>)
    requires Sorted(ks)
    ensures Sorted(InsertKey(k, ks))
  {
    if ks != [] {
      TextLeTotal(k, ks[0]);
      if TextLe(k, ks[0]) {
        forall j | 0 <= j < |ks| ensures TextLe(k, ks[j]) {
          if j > 0 { TextLeTransitive(k, ks[0], ks[j]); }
        }
      } else {
        var r := InsertKey(k, ks[1..]);
        InsertKeySorted(k, ks[1..]);
        forall j | 0 <= j < |r| ensures TextLe(ks[0], r[j]) {
          assert r[j] in multiset(r);
          assert r[j] == k || r[j] in ks[1..];
        }
      }
    }
  }

  lemma {:induction false} SortKeysSorted(ks: seq<Text>)
    ensures Sorted(SortKeys(ks))
  {
    if ks != [] {
      SortKeysSorted(ks[1..]);
      InsertKeySorted(ks[0], SortKeys(ks[1..]));
    }
  }

  lemma DistinctCounts(ks: seq<Text>)
    ensures Distinct(ks) <==> forall k :: k in multiset(ks) ==> multiset(ks)[k] == 1
    decreases |ks|
  {
    if ks != [] {
      DistinctCounts(ks[1..]);
      assert ks == [ks[0]] + ks[1..];
      assert multiset(ks) == multiset{ks[0]} + multiset(ks[1..]);
      if Distinct(ks) {
        assert ks[0] !in ks[1..];
      } else if Distinct(ks[1..]) {
        assert ks[0] in multiset(ks[1..]);
        assert multiset(ks)[ks[0]] > 1;
      } else {
        var k :| k in multiset(ks[1..]) && multiset(ks[1..])[k] != 1;
        assert multiset(ks)[k] != 1;
      }
    }
  }

  lemma SortKeysDistinct(ks: seq<Text>)
    requires Distinct(ks)
    ensures Distinct(SortKeys(ks))
  {
    DistinctCounts(ks);
    DistinctCounts(SortKeys(ks));
  }

  /** Sorting leaves no choice: two sorted lists of distinct keys with the same keys are equal. */
  lemma {:induction false} SortedListsAgree(a: seq<Text>, b: seq<Text>)
    requires Sorted(a) && Sorted(b) && Distinct(a) && Distinct(b)
    requires forall k :: k in a <==> k in b
    ensures a == b
  {
    assert forall i :: 0 <= i < |b| ==> b[i] in b;
    assert b != [] ==> b[0] in b;
    if a != [] {
      assert a[0] in b;
      var i :| 0 <= i < |b| && b[i] == a[0];
      assert b[0] in a;
      var j :| 0 <= j < |a| && a[j] == b[0];
      TextLeTotal(a[0], b[0]);
      assert a[0] == b[0];
      forall k ensures k in a[1..] <==> k in b[1..] {
        if k in a[1..] { assert k in a && k != a[0]; assert k in b; }
        if k in b[1..] { assert k in b && k != b[0]; assert k in a; }
      }
      SortedListsAgree(a[1..], b[1..]);
      assert a == [a[0]] + a[1..] && b == [b[0]] + b[1..];
    }
  }

  // ----- the stable printer prints the canonical tree -----

  lemma {:induction false} StableIsCanonical(j: Json)
    ensures StableText(j) == Stringify(Canonical(j))
    decreases j, 1
  {
    match j
    case Array(items) => StableItemsCanonical(items);
    case Object(ms) => SameElements(Keys(ms)); StableMembersCanonical(j, SortKeys(Keys(ms)));
    case _ =>
  }

  lemma {:induction false} StableItemsCanonical(items: seq<Json>)
    ensures StableItems(items) == StringifyItems(Canonical(Array(items)).items)
    decreases items, 0
  {
    var cs := Canonical(Array(items)).items;
    if items != [] {
      StableIsCanonical(items[0]);
      StableItemsCanonical(items[1..]);
      assert Canonical(Array(items[1..])).items == cs[1..];
    }
  }

  lemma {:induction false} StableMembersCanonical(j: Json, ks: seq<Text>)
    requires j.Object?
    requires forall k :: k in ks ==> k in Keys(j.members)
    ensures StableMembers(j, ks) == StringifyMembers(CanonicalMembers(j, ks))
    decreases j, 0, |ks|
  {
    if ks != [] {
      StableIsCanonical(j.members[IndexOf(Keys(j.members), ks[0])].value);
      StableMembersCanonical(j, ks[1..]);
      assert CanonicalMembers(j, ks)[1..] == CanonicalMembers(j, ks[1..]);
    }
  }

  // ----- the canonical tree keeps the meaning, and the meaning determines it -----

  function MemberValue(j: Json, k: Text): (v: Json)
    requires j.Object? && k in Keys(j.members)
    ensures v < j
  {
    j.members[IndexOf(Keys(j.members), k)].value
  }

  lemma MemberMeaning(j: Json, k: Text)
    requires j.Object? && k in Keys(j.members)
    ensures Meaning(j).members[k] == Meaning(MemberValue(j, k))
    ensures WellFormed(j) ==> WellFormed(MemberValue(j, k))
  {
  }

  lemma {:induction false} CanonicalMembersAt(j: Json, ks: seq<Text>, i: nat)
    requires j.Object? && i < |ks|
    requires forall k :: k in ks ==> k in Keys(j.members)
    ensures CanonicalMembers(j, ks)[i] ==
            Member(ks[i], Canonical(MemberValue(j, ks[i])))
  {
    if i > 0 { CanonicalMembersAt(j, ks[1..], i - 1); }
  }

  lemma CanonicalKeys(j: Json, ks: seq<Text>)
    requires j.Object?
    requires forall k :: k in ks ==> k in Keys(j.members)
    ensures Keys(CanonicalMembers(j, ks)) == ks
  {
    forall i | 0 <= i < |ks| ensures CanonicalMembers(j, ks)[i].key == ks[i] {
      CanonicalMembersAt(j, ks, i);
    }
  }

  lemma {:induction false} CanonicalMeaning(j: Json)
    ensures Meaning(Canonical(j)) == Meaning(j)
    decreases j
  {
    match j
    case Array(items) =>
      forall i | 0 <= i < |items| ensures Meaning(Canonical(items[i])) == Meaning(items[i]) {
        CanonicalMeaning(items[i]);
      }
      assert Meaning(Canonical(j)).items == Meaning(j).items;
    case Object(ms) =>
      forall i | 0 <= i < |ms| ensures Meaning(Canonical(ms[i].value)) == Meaning(ms[i].value) {
        CanonicalMeaning(ms[i].value);
      }
      CanonicalObjectMeaning(j);
    case _ =>
  }

  lemma CanonicalObjectMeaning(j: Json)
    requires j.Object?
    requires forall i :: 0 <= i < |j.members| ==> Meaning(Canonical(j.members[i].value)) == Meaning(j.members[i].value)
    ensures Meaning(Canonical(j)) == Meaning(j)
  {
    var a, b := Meaning(Canonical(j)).members, Meaning(j).members;
    CanonicalKeySet(j);
    forall k | k in b ensures k in a && a[k] == b[k] { CanonicalKeyMeaning(j, k); }
    SameMaps(a, b);
  }

  lemma CanonicalKeySet(j: Json)
    requires j.Object?
    ensures Meaning(Canonical(j)).members.Keys == Meaning(j).members.Keys
  {
    SameElements(Keys(j.members));
    CanonicalKeys(j, SortKeys(Keys(j.members)));
  }

  lemma SameMaps<K, V>(a: map<K, V>, b: map<K, V>)
    requires a.Keys == b.Keys && forall k :: k in b ==> a[k] == b[k]
    ensures a == b
  {
  }

  lemma CanonicalKeyMeaning(j: Json, k: Text)
    requires j.Object? && k in Keys(j.members)
    requires forall i :: 0 <= i < |j.members| ==> Meaning(Canonical(j.members[i].value)) == Meaning(j.members[i].value)
    ensures k in Keys(Canonical(j).members) && Meaning(Canonical(j)).members[k] == Meaning(j).members[k]
  {
    var ks, cs := SortKeys(Keys(j.members)), Canonical(j).members;
    SameElements(Keys(j.members));
    CanonicalKeys(j, ks);
    var i := IndexOf(Keys(cs), k);
    CanonicalMembersAt(j, ks, i);
    MemberMeaning(j, k);
    MemberMeaning(Canonical(j), k);
    assert MemberValue(Canonical(j), k) == cs[i].value;
  }

  lemma SameSortedKeys(a: Json, b: Json)
    requires a.Object? && b.Object? && Distinct(Keys(a.members)) && Distinct(Keys(b.members))
    requires Meaning(a) == Meaning(b)
    ensures SortKeys(Keys(a.members)) == SortKeys(Keys(b.members))
  {
    var ks, ls := SortKeys(Keys(a.members)), SortKeys(Keys(b.members));
    SameElements(Keys(a.members));
    SameElements(Keys(b.members));
    SortKeysSorted(Keys(a.members));
    SortKeysSorted(Keys(b.members));
    SortKeysDistinct(Keys(a.members));
    SortKeysDistinct(Keys(b.members));
    forall k ensures k in ks <==> k in ls {
      assert k in Keys(a.members) <==> k in Meaning(a).members.Keys;
      assert k in Keys(b.members) <==> k in Meaning(b).members.Keys;
    }
    SortedListsAgree(ks, ls);
  }

  lemma {:induction false} MeaningDeterminesCanonical(a: Json, b: Json)
    requires WellFormed(a) && WellFormed(b)
    requires Meaning(a) == Meaning(b)
    ensures Canonical(a) == Canonical(b)
    decreases a, 1
  {
    match a
    case Array(items) =>
      forall i | 0 <= i < |items| ensures Canonical(items[i]) == Canonical(b.items[i]) {
        assert Meaning(a).items[i] == Meaning(b).items[i];
        MeaningDeterminesCanonical(items[i], b.items[i]);
      }
    case Object(_) => MeaningDeterminesObject(a, b);
    case _ =>
  }

  lemma {:induction false} MeaningDeterminesObject(a: Json, b: Json)
    requires a.Object? && WellFormed(a) && WellFormed(b)
    requires Meaning(a) == Meaning(b)
    ensures Canonical(a) == Canonical(b)
    decreases a, 0
  {
    var ks := SortKeys(Keys(a.members));
    SameElements(Keys(a.members));
    SameElements(Keys(b.members));
    SameSortedKeys(a, b);
    forall i | 0 <= i < |ks| ensures Canonical(MemberValue(a, ks[i])) == Canonical(MemberValue(b, ks[i])) {
      MemberMeaning(a, ks[i]);
      MemberMeaning(b, ks[i]);
      MeaningDeterminesCanonical(MemberValue(a, ks[i]), MemberValue(b, ks[i]));
    }
    SameCanonicalMembers(a, b, ks);
  }

  lemma SameCanonicalMembers(a: Json, b: Json, ks: seq<Text>)
    requires a.Object? && b.Object? && (forall i :: 0 <= i < |ks| ==> ks[i] in Keys(a.members) && ks[i] in Keys(b.members))
    requires forall i :: 0 <= i < |ks| ==> Canonical(MemberValue(a, ks[i])) == Canonical(MemberValue(b, ks[i]))
    ensures CanonicalMembers(a, ks) == CanonicalMembers(b, ks)
  {
    forall i | 0 <= i < |ks| ensures CanonicalMembers(a, ks)[i] == CanonicalMembers(b, ks)[i] {
      CanonicalMembersAt(a, ks, i);
      CanonicalMembersAt(b, ks, i);
    }
  }

  /** The canonical printer is undone by the parser: what comes back means the same value. */
  lemma StableTextParses(j: Json)
    ensures Parse(StableText(j)).Some?
    ensures Meaning(Parse(StableText(j)).value) == Meaning(j)
  {
    StableIsCanonical(j);
    ParseStringify(Canonical(j));
    CanonicalMeaning(j);
  }

  /** Main result: two inputs have the same canonical text exactly when they are equal up to the
      order of object keys. */
  lemma StableTextDecides(a: Json, b: Json)
    requires WellFormed(a) && WellFormed(b)
    ensures StableText(a) == StableText(b) <==> Meaning(a) == Meaning(b)
  {
    if StableText(a) == StableText(b) {
      StableTextParses(a);
      StableTextParses(b);
    }
    if Meaning(a) == Meaning(b) {
      MeaningDeterminesCanonical(a, b);
      StableIsCanonical(a);
      StableIsCanonical(b);
    }
  }

  /** `hashIdempotencyValue`, for any hash of text without collisions: a reused key meets its own
      request exactly when the inputs are equal up to key order. */
  lemma RequestHashDecides<H(!new)>(hash: Text -> H, a: Json, b: Json)
    requires WellFormed(a) && WellFormed(b)
    requires forall s, t :: hash(s) == hash(t) ==> s == t
    ensures hash(StableText(a)) == hash(StableText(b)) <==> Meaning(a) == Meaning(b)
  {
    StableTextDecides(a, b);
  }
}
