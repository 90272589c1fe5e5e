/**
 Stable equality over parsed wire payloads (dashboard/src/data/servedAges.ts).

 A parsed tree is made of primitives and of objects with an identity, so that the source's
 Object.is shortcut can be modelled. Numbers are tokens that Object.is tells apart. The main result:
 on trees that live in one heap, stable equality is exactly equality after recursively deleting the
 volatile age fields, and is therefore an equivalence relation.
 */
module ServedAges {
  import opened Prelude

  datatype Json =
    | Null
    | Bool(truth: bool)
    | Num(token: int)
    | Str(text: string)
    | Arr(address: nat, items: seq<Json>)
    | Obj(address: nat, fields: map<string, Json>)

  const VOLATILE_AGE_FIELDS: set<string> :=
    {"staleSeconds", "snapshotStaleSeconds", "ageSeconds", "waitSeconds", "heartbeatAgeSeconds", "elapsedSeconds"}

  /** Object.is */
  predicate SameValue(a: Json, b: Json) {
    match (a, b)
    case (Arr(p, _), Arr(q, _)) => p == q
    case (Obj(p, _), Obj(q, _)) => p == q
    case _ => a == b
  }

  function StableKeys(fields: map<string, Json>): set<string> {
    fields.Keys - VOLATILE_AGE_FIELDS
  }

  predicate StableEquals(a: Json, b: Json)
    decreases a, 1
  {
    if SameValue(a, b) then true
    else if a.Arr? || b.Arr? then a.Arr? && b.Arr? && SameArray(a, b)
    else a.Obj? && b.Obj? && SameRecord(a, b)
  }

  predicate SameArray(left: Json, right: Json)
    requires left.Arr? && right.Arr?
    decreases left, 0
  {
    |left.items| == |right.items| &&
    forall i :: 0 <= i < |left.items| ==> StableEquals(left.items[i], right.items[i])
  }

  /** Counts the stable keys and then checks one direction only. */
  predicate SameRecord(left: Json, right: Json)
    requires left.Obj? && right.Obj?
    decreases left, 0
  {
    |StableKeys(left.fields)| == |StableKeys(right.fields)| &&
    forall k :: k in StableKeys(left.fields) ==> k in right.fields && StableEquals(left.fields[k], right.fields[k])
  }

  // ---------------------------------------------------------------- what stable equality means

  /** A tree without identities and without volatile ages. */
  datatype Stable =
    | SNull
    | SBool(truth: bool)
    | SNum(token: int)
    | SStr(text: string)
    | SArr(items: seq<Stable>)
    | SObj(fields: map<string, Stable>)

  function Strip(j: Json): Stable {
    match j
    case Null => SNull
    case Bool(b) => SBool(b)
    case Num(n) => SNum(n)
    case Str(s) => SStr(s)
    case Arr(_, items) => SArr(seq(|items|, i requires 0 <= i < |items| => Strip(items[i])))
    case Obj(_, fields) => SObj(map k | k in StableKeys(fields) :: Strip(fields[k]))
  }

  /** Every object of the tree is the one the heap holds at its address. */
  predicate LivesIn(j: Json, heap: map<nat, Json>) {
    match j
    case Arr(p, items) => p in heap && heap[p] == j && forall i :: 0 <= i < |items| ==> LivesIn(items[i], heap)
    case Obj(p, fields) => p in heap && heap[p] == j && forall k :: k in fields ==> LivesIn(fields[k], heap)
    case _ => true
  }

  lemma SameValueStrips(a: Json, b: Json, heap: map<nat, Json>)
    requires LivesIn(a, heap) && LivesIn(b, heap) && SameValue(a, b)
    ensures a == b
  {
  }

  /** Equal counts and one direction suffice: the key sets are equal. */
  lemma KeysAgree(left: map<string, Json>, right: map<string, Json>)
    requires |StableKeys(left)| == |StableKeys(right)|
    requires forall k :: k in StableKeys(left) ==> k in right
    ensures StableKeys(left) == StableKeys(right)
  {
    SubsetSameSize(StableKeys(left), StableKeys(right));
  }

  lemma {:induction false} ArrayMeaning(a: Json, b: Json, heap: map<nat, Json>)
    requires a.Arr? && b.Arr? && LivesIn(a, heap) && LivesIn(b, heap)
    ensures SameArray(a, b) <==> Strip(a) == Strip(b)
    decreases a, 0
  {
    forall i | 0 <= i < |a.items| && i < |b.items|
      ensures StableEquals(a.items[i], b.items[i]) <==> Strip(a).items[i] == Strip(b).items[i]
    {
      StableEqualsMeaning(a.items[i], b.items[i], heap);
    }
  }

  lemma {:induction false} RecordMeaning(a: Json, b: Json, heap: map<nat, Json>)
    requires a.Obj? && b.Obj? && LivesIn(a, heap) && LivesIn(b, heap)
    ensures SameRecord(a, b) <==> Strip(a) == Strip(b)
    decreases a, 0
  {
    forall k | k in StableKeys(a.fields) && k in StableKeys(b.fields)
      ensures StableEquals(a.fields[k], b.fields[k]) <==> Strip(a).fields[k] == Strip(b).fields[k]
    {
      StableEqualsMeaning(a.fields[k], b.fields[k], heap);
    }
    assert Strip(a).fields.Keys == StableKeys(a.fields) && Strip(b).fields.Keys == StableKeys(b.fields);
    if SameRecord(a, b) {
      KeysAgree(a.fields, b.fields);
      assert Strip(a).fields == Strip(b).fields;
    }
    if Strip(a) == Strip(b) {
      assert StableKeys(a.fields) == StableKeys(b.fields);
    }
  }

  /** Stable equality is equality after recursively deleting the volatile age fields. */
  lemma {:induction false} StableEqualsMeaning(a: Json, b: Json, heap: map<nat, Json>)
    requires LivesIn(a, heap) && LivesIn(b, heap)
    ensures StableEquals(a, b) <==> Strip(a) == Strip(b)
    decreases a, 1
  {
    if SameValue(a, b) {
      SameValueStrips(a, b, heap);
    } else if a.Arr? && b.Arr? {
      ArrayMeaning(a, b, heap);
    } else if a.Obj? && b.Obj? {
      RecordMeaning(a, b, heap);
    }
  }

  lemma StableEqualsReflexive(a: Json)
    ensures StableEquals(a, a)
  {
  }

  /** An equivalence relation on the trees of one heap. */
  lemma StableEqualsEquivalence(a: Json, b: Json, c: Json, heap: map<nat, Json>)
    requires LivesIn(a, heap) && LivesIn(b, heap) && LivesIn(c, heap)
    ensures StableEquals(a, a)
    ensures StableEquals(a, b) <==> StableEquals(b, a)
    ensures StableEquals(a, b) && StableEquals(b, c) ==> StableEquals(a, c)
  {
    StableEqualsMeaning(a, b, heap);
    StableEqualsMeaning(b, a, heap);
    StableEqualsMeaning(b, c, heap);
    StableEqualsMeaning(a, c, heap);
  }
}
