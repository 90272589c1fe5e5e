/**
 The dashboard's change gate (dashboard/src/data/store.ts): identity-preserving snapshots and named
 deltas, both of which must agree with a plain rebuild modulo the volatile age fields.
 */
module DashboardStore {
  import opened Prelude
  import opened ServedAges

  type Nodes = map<string, Json>

  // ---------------------------------------------------------------- keyed collections

  function KeysOf(incoming: seq<Json>, key: Json -> string): set<string> {
    set item | item in incoming :: key(item)
  }

  predicate DistinctKeys(incoming: seq<Json>, key: Json -> string) {
    forall i, j :: 0 <= i < j < |incoming| ==> key(incoming[i]) != key(incoming[j])
  }

  /** The plain rebuild that mergeKeyed must not be told apart from. */
  function Rebuild(incoming: seq<Json>, key: Json -> string): Nodes {
    if incoming == [] then map[]
    else var last := |incoming| - 1; Rebuild(incoming[..last], key)[key(incoming[last]) := incoming[last]]
  }

  /** The node kept for an incoming one: the stored node itself when it is stable-equal. */
  function Reused(existing: Nodes, item: Json, key: Json -> string): Json {
    if key(item) in existing && StableEquals(existing[key(item)], item) then existing[key(item)] else item
  }

  /** The map mergeKeyed fills, whether or not it then returns it. */
  function Merged(existing: Nodes, incoming: seq<Json>, key: Json -> string): Nodes {
    if incoming == [] then map[]
    else
      var last := |incoming| - 1;
      Merged(existing, incoming[..last], key)[key(incoming[last]) := Reused(existing, incoming[last], key)]
  }

  ghost predicate StableEqualNodes(left: Nodes, right: Nodes) {
    left.Keys == right.Keys && forall k :: k in left ==> StableEquals(left[k], right[k])
  }

  /** Nothing added, nothing changed, nothing removed. */
  predicate Unchanged(existing: Nodes, incoming: seq<Json>, key: Json -> string) {
    && existing.Keys == KeysOf(incoming, key)
    && forall i :: 0 <= i < |incoming| ==> key(incoming[i]) in existing && StableEquals(existing[key(incoming[i])], incoming[i])
  }

  /** An item is new, or differs from the stored node of its key. */
  predicate Changes(existing: Nodes, item: Json, key: Json -> string) {
    !(key(item) in existing && StableEquals(existing[key(item)], item))
  }

  /** The guard under which mergeKeyed returns the existing map. */
  predicate KeepsExisting(existing: Nodes, incoming: seq<Json>, key: Json -> string) {
    |existing| == |incoming| && forall i :: 0 <= i < |incoming| ==> !Changes(existing, incoming[i], key)
  }

  method MergeKeyed(existing: Nodes, incoming: seq<Json>, key: Json -> string) returns (merged: Nodes, same: bool)
    ensures merged == MergeResult(existing, incoming, key)
    ensures same <==> KeepsExisting(existing, incoming, key)
  {
    var next: Nodes := map[];
    var changed := false;
    assert incoming[..0] == [];
    for i := 0 to |incoming|
      invariant next == Merged(existing, incoming[..i], key)
      invariant changed <==> exists j :: 0 <= j < i && Changes(existing, incoming[j], key)
    {
      var item := incoming[i];
      var ident := key(item);
      assert incoming[..i + 1][..i] == incoming[..i];
      if ident in existing && StableEquals(existing[ident], item) {
        next := next[ident := existing[ident]];
      } else {
        next := next[ident := item];
        changed := true;
      }
    }
    assert incoming[..|incoming|] == incoming;
    if !changed && |existing| == |incoming| { return existing, true; }
    merged, same := next, false;
  }

  lemma {:induction false} MergedKeys(existing: Nodes, incoming: seq<Json>, key: Json -> string)
    ensures Merged(existing, incoming, key).Keys == KeysOf(incoming, key)
    ensures Rebuild(incoming, key).Keys == KeysOf(incoming, key)
  {
    if incoming != [] {
      var last := |incoming| - 1;
      MergedKeys(existing, incoming[..last], key);
      assert incoming == incoming[..last] + [incoming[last]];
    }
  }

  lemma {:induction false} MergedAt(existing: Nodes, incoming: seq<Json>, key: Json -> string, i: nat)
    requires DistinctKeys(incoming, key) && i < |incoming|
    ensures key(incoming[i]) in Merged(existing, incoming, key) && key(incoming[i]) in Rebuild(incoming, key)
    ensures Merged(existing, incoming, key)[key(incoming[i])] == Reused(existing, incoming[i], key)
    ensures Rebuild(incoming, key)[key(incoming[i])] == incoming[i]
  {
    var last := |incoming| - 1;
    if i < last { MergedAt(existing, incoming[..last], key, i); }
  }

  lemma {:induction false} DistinctKeyCount(incoming: seq<Json>, key: Json -> string)
    requires DistinctKeys(incoming, key)
    ensures |KeysOf(incoming, key)| == |incoming|
  {
    if incoming != [] {
      var last := |incoming| - 1;
      DistinctKeyCount(incoming[..last], key);
      assert incoming == incoming[..last] + [incoming[last]];
      assert KeysOf(incoming, key) == KeysOf(incoming[..last], key) + {key(incoming[last])};
    }
  }

  /** With distinct keys, mergeKeyed's size test finds exactly the removals. */
  lemma SizeTestIsUnchanged(existing: Nodes, incoming: seq<Json>, key: Json -> string)
    requires DistinctKeys(incoming, key)
    ensures KeepsExisting(existing, incoming, key) <==> Unchanged(existing, incoming, key)
  {
    DistinctKeyCount(incoming, key);
    if KeepsExisting(existing, incoming, key) {
      forall k | k in KeysOf(incoming, key) ensures k in existing.Keys {
        var item :| item in incoming && key(item) == k;
        var i :| 0 <= i < |incoming| && incoming[i] == item;
        assert !Changes(existing, incoming[i], key);
      }
      SubsetSameSize(KeysOf(incoming, key), existing.Keys);
    }
  }

  /** The value-level result of mergeKeyed. */
  function MergeResult(existing: Nodes, incoming: seq<Json>, key: Json -> string): Nodes {
    if KeepsExisting(existing, incoming, key) then existing else Merged(existing, incoming, key)
  }

  /** Snapshot merge refines a rebuild: key for key stable-equal to it. */
  lemma MergeRefinesRebuild(existing: Nodes, incoming: seq<Json>, key: Json -> string)
    requires DistinctKeys(incoming, key)
    ensures StableEqualNodes(MergeResult(existing, incoming, key), Rebuild(incoming, key))
    ensures MergeResult(existing, incoming, key) == Merged(existing, incoming, key)
  {
    SizeTestIsUnchanged(existing, incoming, key);
    MergedKeys(existing, incoming, key);
    forall k | k in KeysOf(incoming, key)
      ensures StableEquals(Merged(existing, incoming, key)[k], Rebuild(incoming, key)[k])
      ensures Unchanged(existing, incoming, key) ==> existing[k] == Merged(existing, incoming, key)[k]
    {
      var item :| item in incoming && key(item) == k;
      var i :| 0 <= i < |incoming| && incoming[i] == item;
      MergedAt(existing, incoming, key, i);
      StableEqualsReflexive(item);
    }
    if Unchanged(existing, incoming, key) { assert existing == Merged(existing, incoming, key); }
  }

  lemma MergedServes(existing: Nodes, incoming: seq<Json>, key: Json -> string)
    requires DistinctKeys(incoming, key)
    ensures Unchanged(Merged(existing, incoming, key), incoming, key)
  {
    MergedKeys(existing, incoming, key);
    forall i | 0 <= i < |incoming|
      ensures key(incoming[i]) in Merged(existing, incoming, key)
      ensures StableEquals(Merged(existing, incoming, key)[key(incoming[i])], incoming[i])
    {
      MergedAt(existing, incoming, key, i);
      StableEqualsReflexive(incoming[i]);
    }
  }

  lemma {:induction false} RepeatedKeyCount(incoming: seq<Json>, key: Json -> string)
    ensures |KeysOf(incoming, key)| <= |incoming|
    ensures |KeysOf(incoming, key)| == |incoming| ==> DistinctKeys(incoming, key)
  {
    if incoming != [] {
      var last := |incoming| - 1;
      RepeatedKeyCount(incoming[..last], key);
      assert incoming == incoming[..last] + [incoming[last]];
      assert KeysOf(incoming, key) == KeysOf(incoming[..last], key) + {key(incoming[last])};
      if |KeysOf(incoming, key)| == |incoming| {
        assert key(incoming[last]) !in KeysOf(incoming[..last], key);
        forall i | 0 <= i < last ensures key(incoming[i]) != key(incoming[last]) { assert incoming[i] in incoming[..last]; }
      }
    }
  }

  /** Merging the same list again returns the stored map itself exactly when its keys are distinct or the
      first merge had nothing to do. */
  lemma MergeTwiceIff(existing: Nodes, incoming: seq<Json>, key: Json -> string)
    ensures KeepsExisting(MergeResult(existing, incoming, key), incoming, key) <==>
            DistinctKeys(incoming, key) || KeepsExisting(existing, incoming, key)
  {
    if !KeepsExisting(existing, incoming, key) {
      MergedKeys(existing, incoming, key);
      RepeatedKeyCount(incoming, key);
      assert |Merged(existing, incoming, key)| == |Merged(existing, incoming, key).Keys|;
      if DistinctKeys(incoming, key) {
        MergedServes(existing, incoming, key);
        SizeTestIsUnchanged(Merged(existing, incoming, key), incoming, key);
      }
    }
  }

  lemma {:induction false} MergedLikeRebuild(existing: Nodes, incoming: seq<Json>, key: Json -> string)
    ensures StableEqualNodes(Merged(existing, incoming, key), Rebuild(incoming, key))
  {
    if incoming != [] {
      var last := |incoming| - 1;
      MergedLikeRebuild(existing, incoming[..last], key);
      StableEqualsReflexive(incoming[last]);
    }
  }

  lemma {:induction false} MergedReuses(existing: Nodes, incoming: seq<Json>, key: Json -> string)
    requires forall i :: 0 <= i < |incoming| ==> !Changes(existing, incoming[i], key)
    ensures forall k :: k in Merged(existing, incoming, key) ==> k in existing && Merged(existing, incoming, key)[k] == existing[k]
  {
    if incoming != [] { MergedReuses(existing, incoming[..|incoming| - 1], key); }
  }

  /** With no demand on the keys: the map returned is stable-equal to a rebuild unless the guard keeps the
      existing map while one of its keys is no longer served. */
  lemma MergeRefinesRebuildIff(existing: Nodes, incoming: seq<Json>, key: Json -> string)
    ensures
      StableEqualNodes(MergeResult(existing, incoming, key), Rebuild(incoming, key)) <==>
      !(KeepsExisting(existing, incoming, key) && !(existing.Keys <= KeysOf(incoming, key)))
  {
    MergedKeys(existing, incoming, key);
    MergedLikeRebuild(existing, incoming, key);
    if KeepsExisting(existing, incoming, key) {
      MergedReuses(existing, incoming, key);
      if existing.Keys <= KeysOf(incoming, key) { assert existing == Merged(existing, incoming, key); }
    }
  }

  /** That happens: a repeated key hides a removal from the size test. */
  lemma RepeatedKeyHidesRemoval(a: Json, b: Json, key: Json -> string)
    requires key(a) != key(b)
    ensures
      var existing := map[key(a) := a, key(b) := b];
      KeepsExisting(existing, [a, a], key) && !StableEqualNodes(existing, Rebuild([a, a], key))
  {
    var existing := map[key(a) := a, key(b) := b];
    assert existing.Keys == {key(a), key(b)};
    assert |existing| == |existing.Keys|;
    StableEqualsReflexive(a);
    MergedKeys(map[], [a, a], key);
    assert key(b) !in KeysOf([a, a], key);
  }

  // ---------------------------------------------------------------- deltas

  /** An upsert of a node, or a removal marker for a key. */
  datatype Delta = Upsert(node: Json) | Remove(ident: string)

  function Target(delta: Delta, key: Json -> string): string {
    match delta
    case Upsert(node) => key(node)
    case Remove(ident) => ident
  }

  /** One delta reducer: a delta that changes nothing leaves the stored map as it is. */
  function ApplyDelta(nodes: Nodes, delta: Delta, key: Json -> string): Nodes {
    match delta
    case Upsert(node) => if Changes(nodes, node, key) then nodes[key(node) := node] else nodes
    case Remove(ident) => if ident in nodes then nodes - {ident} else nodes
  }

  function ApplyDeltas(nodes: Nodes, deltas: seq<Delta>, key: Json -> string): Nodes
    decreases |deltas|
  {
    if deltas == [] then nodes else ApplyDeltas(ApplyDelta(nodes, deltas[0], key), deltas[1..], key)
  }

  /** The delta is one the server's diff emits: an upsert of a changed node, a removal of a vanished one. */
  predicate FromDiff(existing: Nodes, incoming: seq<Json>, key: Json -> string, delta: Delta) {
    match delta
    case Upsert(node) => node in incoming && Changes(existing, node, key)
    case Remove(ident) => ident in existing && ident !in KeysOf(incoming, key)
  }

  /** Every changed key is upserted and every vanished key removed, in some order, possibly repeatedly. */
  ghost predicate CoversDiff(existing: Nodes, incoming: seq<Json>, key: Json -> string, deltas: seq<Delta>) {
    && (forall d :: d in deltas ==> FromDiff(existing, incoming, key, d))
    && (forall node :: node in incoming && Changes(existing, node, key) ==> Upsert(node) in deltas)
    && (forall ident :: ident in existing && ident !in KeysOf(incoming, key) ==> Remove(ident) in deltas)
  }

  function At(nodes: Nodes, k: string): Option<Json> {
    if k in nodes then Some(nodes[k]) else None
  }

  /** A diff delta puts its key where the snapshot merge would, and touches no other key. */
  lemma DeltaAt(existing: Nodes, incoming: seq<Json>, key: Json -> string, nodes: Nodes, delta: Delta, k: string)
    requires DistinctKeys(incoming, key) && FromDiff(existing, incoming, key, delta)
    requires At(nodes, k) in {At(existing, k), At(Merged(existing, incoming, key), k)}
    ensures k == Target(delta, key) ==> At(ApplyDelta(nodes, delta, key), k) == At(Merged(existing, incoming, key), k)
    ensures k != Target(delta, key) ==> At(ApplyDelta(nodes, delta, key), k) == At(nodes, k)
  {
    MergedKeys(existing, incoming, key);
    if delta.Upsert? && k == key(delta.node) {
      var i :| 0 <= i < |incoming| && incoming[i] == delta.node;
      MergedAt(existing, incoming, key, i);
    }
  }

  lemma {:induction false} DeltasAt(existing: Nodes, incoming: seq<Json>, key: Json -> string, nodes: Nodes, deltas: seq<Delta>, k: string)
    requires DistinctKeys(incoming, key) && forall d :: d in deltas ==> FromDiff(existing, incoming, key, d)
    requires At(nodes, k) in {At(existing, k), At(Merged(existing, incoming, key), k)}
    ensures At(ApplyDeltas(nodes, deltas, key), k) ==
            if exists d :: d in deltas && Target(d, key) == k then At(Merged(existing, incoming, key), k) else At(nodes, k)
    decreases |deltas|
  {
    if deltas != [] {
      var first, rest := deltas[0], deltas[1..];
      assert deltas == [first] + rest;
      assert first in deltas;
      DeltaAt(existing, incoming, key, nodes, first, k);
      DeltasAt(existing, incoming, key, ApplyDelta(nodes, first, key), rest, k);
    }
  }

  /** A key no diff delta speaks of keeps its stored node, which is what the merge keeps too. */
  lemma UntouchedKey(existing: Nodes, incoming: seq<Json>, key: Json -> string, deltas: seq<Delta>, k: string)
    requires DistinctKeys(incoming, key) && CoversDiff(existing, incoming, key, deltas)
    requires forall d :: d in deltas ==> Target(d, key) != k
    ensures At(existing, k) == At(Merged(existing, incoming, key), k)
  {
    MergedKeys(existing, incoming, key);
    if k in KeysOf(incoming, key) {
      var item :| item in incoming && key(item) == k;
      var i :| 0 <= i < |incoming| && incoming[i] == item;
      MergedAt(existing, incoming, key, i);
      assert Target(Upsert(item), key) == k;
      assert !Changes(existing, item, key);
    } else {
      assert Target(Remove(k), key) == k;
      assert k !in existing;
    }
  }

  /** Deltas and snapshots converge: in any order the diff's deltas build the snapshot's own map. */
  lemma DeltasReachSnapshot(existing: Nodes, incoming: seq<Json>, key: Json -> string, deltas: seq<Delta>)
    requires DistinctKeys(incoming, key) && CoversDiff(existing, incoming, key, deltas)
    ensures ApplyDeltas(existing, deltas, key) == MergeResult(existing, incoming, key)
  {
    var result, merged := ApplyDeltas(existing, deltas, key), Merged(existing, incoming, key);
    forall k ensures At(result, k) == At(merged, k) {
      DeltasAt(existing, incoming, key, existing, deltas, k);
      if forall d :: d in deltas ==> Target(d, key) != k {
        UntouchedKey(existing, incoming, key, deltas, k);
      }
    }
    SameLookups(result, merged);
    MergeRefinesRebuild(existing, incoming, key);
  }

  lemma SameLookups(a: Nodes, b: Nodes)
    requires forall k :: At(a, k) == At(b, k)
    ensures a == b
  {
    forall k ensures (k in a <==> k in b) && (k in a ==> a[k] == b[k]) {
      assert At(a, k) == At(b, k);
    }
  }

  // ---------------------------------------------------------------- the whole store

  datatype Connection = Connecting | Live | SignalLost

  /** A field of a node read as text; a node without it has the empty key. */
  function TextField(node: Json, field: string): string {
    if node.Obj? && field in node.fields && node.fields[field].Str? then node.fields[field].text else ""
  }

  function IdKey(node: Json): string { TextField(node, "id") }
  function EnclosureKey(node: Json): string { TextField(node, "enclosure") }

  /** Ids of the attention queue an analytics payload carries. */
  function AttentionIds(analytics: Json): set<string> {
    if analytics.Obj? && "attentionQueue" in analytics.fields && analytics.fields["attentionQueue"].Arr?
    then set item | item in analytics.fields["attentionQueue"].items :: TextField(item, "id") else {}
  }

  datatype Dashboard = Dashboard(
    conn: Connection,
    generatedAt: Option<string>,
    lifecycles: Nodes,
    enclosures: Nodes,
    providers: Nodes,
    activeWorktreeGroups: Json,
    metrics: Json,
    analytics: Json,
    servingBuild: Json,
    heartbeat: Option<string>,
    suppressedAttention: set<string>)

  datatype Projection = Projection(
    generatedAt: string,
    lifecycles: seq<Json>,
    enclosures: seq<Json>,
    providers: seq<Json>,
    activeWorktreeGroups: Json,
    metrics: Json,
    analytics: Json,
    servingBuild: Json,
    heartbeat: Option<string>)

  predicate WellKeyed(p: Projection) {
    DistinctKeys(p.lifecycles, IdKey) && DistinctKeys(p.enclosures, EnclosureKey) && DistinctKeys(p.providers, IdKey)
  }

  function Reuse(current: Json, incoming: Json): Json {
    if StableEquals(current, incoming) then current else incoming
  }

  /** Suppressions survive only while the attention queue still lists them. */
  function Prune(suppressed: set<string>, analytics: Json): set<string> {
    suppressed * AttentionIds(analytics)
  }

  /** Nothing in the snapshot differs from what the store shows, ages and heartbeat aside. */
  predicate SnapshotUnchanged(d: Dashboard, p: Projection) {
    && KeepsExisting(d.lifecycles, p.lifecycles, IdKey)
    && KeepsExisting(d.enclosures, p.enclosures, EnclosureKey)
    && KeepsExisting(d.providers, p.providers, IdKey)
    && StableEquals(d.activeWorktreeGroups, p.activeWorktreeGroups)
    && StableEquals(d.metrics, p.metrics)
    && StableEquals(d.analytics, p.analytics)
    && StableEquals(d.servingBuild, p.servingBuild)
    && Prune(d.suppressedAttention, d.analytics) == d.suppressedAttention
  }

  function ApplySnapshot(d: Dashboard, p: Projection): Dashboard {
    var analytics := Reuse(d.analytics, p.analytics);
    d.(conn := Live,
       generatedAt := if SnapshotUnchanged(d, p) then d.generatedAt else Some(p.generatedAt),
       lifecycles := MergeResult(d.lifecycles, p.lifecycles, IdKey),
       enclosures := MergeResult(d.enclosures, p.enclosures, EnclosureKey),
       providers := MergeResult(d.providers, p.providers, IdKey),
       activeWorktreeGroups := Reuse(d.activeWorktreeGroups, p.activeWorktreeGroups),
       metrics := Reuse(d.metrics, p.metrics),
       analytics := analytics,
       servingBuild := Reuse(d.servingBuild, p.servingBuild),
       heartbeat := p.heartbeat,
       suppressedAttention := Prune(d.suppressedAttention, analytics))
  }

  /** The store writes only when the applied state would differ from the shown one. */
  predicate SnapshotWrites(d: Dashboard, p: Projection) {
    !(SnapshotUnchanged(d, p) && d.conn == Live && d.heartbeat == p.heartbeat)
  }

  /** A skipped write loses nothing: the applied state is the shown state. */
  lemma SkippedWriteIsNoOp(d: Dashboard, p: Projection)
    requires !SnapshotWrites(d, p)
    ensures ApplySnapshot(d, p) == d
  {
  }

  // ---------------------------------------------------------------- what the store shows afterwards

  lemma StrippedField(a: Json, b: Json, field: string)
    requires a.Obj? && Strip(a) == Strip(b) && field !in VOLATILE_AGE_FIELDS
    ensures b.Obj? && (field in a.fields <==> field in b.fields)
    ensures field in a.fields ==> Strip(a.fields[field]) == Strip(b.fields[field])
  {
    assert Strip(a).fields.Keys == StableKeys(a.fields) && Strip(b).fields.Keys == StableKeys(b.fields);
    assert field in a.fields <==> field in Strip(a).fields.Keys;
    assert field in b.fields <==> field in Strip(b).fields.Keys;
    if field in a.fields {
      assert Strip(a).fields[field] == Strip(a.fields[field]) && Strip(b).fields[field] == Strip(b.fields[field]);
    }
  }

  lemma StrippedItems(a: Json, b: Json)
    requires a.Arr? && Strip(a) == Strip(b)
    ensures b.Arr? && |a.items| == |b.items| && forall i :: 0 <= i < |a.items| ==> Strip(a.items[i]) == Strip(b.items[i])
  {
    assert |Strip(a).items| == |a.items| && |Strip(b).items| == |b.items|;
    forall i | 0 <= i < |a.items| ensures Strip(a.items[i]) == Strip(b.items[i]) {
      assert Strip(a).items[i] == Strip(a.items[i]) && Strip(b).items[i] == Strip(b.items[i]);
    }
  }

  lemma TextFieldStable(a: Json, b: Json, field: string)
    requires Strip(a) == Strip(b) && field !in VOLATILE_AGE_FIELDS
    ensures TextField(a, field) == TextField(b, field)
  {
    if a.Obj? { StrippedField(a, b, field); }
  }

  lemma ListedStable(a: seq<Json>, b: seq<Json>)
    requires |a| == |b| && forall i :: 0 <= i < |a| ==> Strip(a[i]) == Strip(b[i])
    ensures forall item :: item in a ==> exists other :: other in b && TextField(other, "id") == TextField(item, "id")
  {
    forall item | item in a ensures exists other :: other in b && TextField(other, "id") == TextField(item, "id") {
      var i :| 0 <= i < |a| && a[i] == item;
      TextFieldStable(a[i], b[i], "id");
      assert b[i] in b;
    }
  }

  /** Stable-equal payloads list the same attention ids. */
  lemma AttentionStable(a: Json, b: Json, heap: map<nat, Json>)
    requires LivesIn(a, heap) && LivesIn(b, heap) && StableEquals(a, b)
    ensures AttentionIds(a) == AttentionIds(b)
  {
    StableEqualsMeaning(a, b, heap);
    AttentionStripped(a, b);
    AttentionStripped(b, a);
  }

  lemma AttentionStripped(a: Json, b: Json)
    requires Strip(a) == Strip(b)
    ensures AttentionIds(a) <= AttentionIds(b)
  {
    var key := "attentionQueue";
    if a.Obj? {
      StrippedField(a, b, key);
      if key in a.fields && a.fields[key].Arr? {
        StrippedItems(a.fields[key], b.fields[key]);
        ListedStable(a.fields[key].items, b.fields[key].items);
      }
    }
  }

  /** An attention item of the payload carries the id. */
  ghost predicate Listed(analytics: Json, id: string) {
    && analytics.Obj? && "attentionQueue" in analytics.fields && analytics.fields["attentionQueue"].Arr?
    && exists item :: item in analytics.fields["attentionQueue"].items && TextField(item, "id") == id
  }

  /**
   After a snapshot the store is live, shows every whole value as it was served, up to ages, takes the heartbeat
   as it is, and keeps of the suppressions exactly those the attention queue served still lists.
   */
  lemma SnapshotShows(d: Dashboard, p: Projection, heap: map<nat, Json>)
    requires LivesIn(d.analytics, heap) && LivesIn(p.analytics, heap)
    ensures
      var after := ApplySnapshot(d, p);
      && after.conn == Live && after.heartbeat == p.heartbeat
      && StableEquals(after.activeWorktreeGroups, p.activeWorktreeGroups) && StableEquals(after.metrics, p.metrics)
      && StableEquals(after.analytics, p.analytics) && StableEquals(after.servingBuild, p.servingBuild)
      && (forall id :: id in after.suppressedAttention <==> id in d.suppressedAttention && Listed(p.analytics, id))
      && (after.generatedAt == d.generatedAt || after.generatedAt == Some(p.generatedAt))
  {
    StableEqualsReflexive(p.activeWorktreeGroups);
    StableEqualsReflexive(p.metrics);
    StableEqualsReflexive(p.analytics);
    StableEqualsReflexive(p.servingBuild);
    if StableEquals(d.analytics, p.analytics) { AttentionStable(d.analytics, p.analytics, heap); }
    forall id ensures id in AttentionIds(p.analytics) <==> Listed(p.analytics, id) { }
  }

  /** The content stamp advances exactly when the content differs from what is shown. */
  lemma StampAdvancesIff(d: Dashboard, p: Projection)
    requires d.generatedAt != Some(p.generatedAt)
    ensures ApplySnapshot(d, p).generatedAt == Some(p.generatedAt) <==> !SnapshotUnchanged(d, p)
  {
  }

  /** Every keyed list of the snapshot has distinct keys, or found nothing to do in the store. */
  predicate Settled(d: Dashboard, p: Projection) {
    && (DistinctKeys(p.lifecycles, IdKey) || KeepsExisting(d.lifecycles, p.lifecycles, IdKey))
    && (DistinctKeys(p.enclosures, EnclosureKey) || KeepsExisting(d.enclosures, p.enclosures, EnclosureKey))
    && (DistinctKeys(p.providers, IdKey) || KeepsExisting(d.providers, p.providers, IdKey))
  }

  /** Applying the same snapshot again performs no write exactly when the first application settled it. */
  lemma SnapshotIdempotentIff(d: Dashboard, p: Projection)
    ensures !SnapshotWrites(ApplySnapshot(d, p), p) <==> Settled(d, p)
    ensures Settled(d, p) ==> ApplySnapshot(ApplySnapshot(d, p), p) == ApplySnapshot(d, p)
  {
    MergeTwiceIff(d.lifecycles, p.lifecycles, IdKey);
    MergeTwiceIff(d.enclosures, p.enclosures, EnclosureKey);
    MergeTwiceIff(d.providers, p.providers, IdKey);
    StableEqualsReflexive(p.activeWorktreeGroups);
    StableEqualsReflexive(p.metrics);
    StableEqualsReflexive(p.analytics);
    StableEqualsReflexive(p.servingBuild);
    if Settled(d, p) { SkippedWriteIsNoOp(ApplySnapshot(d, p), p); }
  }

  /** So with distinct keys a snapshot that is already shown writes nothing. */
  lemma SnapshotIdempotent(d: Dashboard, p: Projection)
    requires WellKeyed(p)
    ensures !SnapshotWrites(ApplySnapshot(d, p), p)
    ensures ApplySnapshot(ApplySnapshot(d, p), p) == ApplySnapshot(d, p)
  {
    SnapshotIdempotentIff(d, p);
  }

  lemma RepeatedKeyWritesAgain(d: Dashboard, p: Projection)
    requires !DistinctKeys(p.lifecycles, IdKey) && !KeepsExisting(d.lifecycles, p.lifecycles, IdKey)
    ensures !KeepsExisting(ApplySnapshot(d, p).lifecycles, p.lifecycles, IdKey)
  {
    MergeTwiceIff(d.lifecycles, p.lifecycles, IdKey);
  }

  predicate AppliedAt(shown: seq<Dashboard>, p: Projection, k: nat)
    requires k + 1 < |shown|
  {
    shown[k + 1] == ApplySnapshot(shown[k], p)
  }

  lemma {:induction false} RepeatedKeyNeverKept(shown: seq<Dashboard>, p: Projection, n: nat)
    requires n < |shown| && (forall k: nat :: k + 1 < |shown| ==> AppliedAt(shown, p, k))
    requires !DistinctKeys(p.lifecycles, IdKey) && !KeepsExisting(shown[0].lifecycles, p.lifecycles, IdKey)
    ensures !KeepsExisting(shown[n].lifecycles, p.lifecycles, IdKey)
  {
    if n > 0 {
      RepeatedKeyNeverKept(shown, p, n - 1);
      assert AppliedAt(shown, p, n - 1);
      RepeatedKeyWritesAgain(shown[n - 1], p);
    }
  }

  /** A repeated key that changes the store once makes every further application of the snapshot write. */
  lemma RepeatedKeyWritesForever(shown: seq<Dashboard>, p: Projection, n: nat)
    requires n < |shown| && (forall k: nat :: k + 1 < |shown| ==> AppliedAt(shown, p, k))
    requires !DistinctKeys(p.lifecycles, IdKey) && !KeepsExisting(shown[0].lifecycles, p.lifecycles, IdKey)
    ensures SnapshotWrites(shown[n], p)
  {
    RepeatedKeyNeverKept(shown, p, n);
  }

  // ---------------------------------------------------------------- deltas on the whole store

  datatype Channel = Lifecycles | Enclosures | Providers

  datatype Event =
    | Keyed(channel: Channel, delta: Delta)
    | GroupsReplaced(value: Json)
    | MetricsReplaced(value: Json)
    | AnalyticsReplaced(value: Json)
    | OtherEvent

  function KeyOf(channel: Channel): Json -> string {
    if channel == Enclosures then EnclosureKey else IdKey
  }

  function Collection(d: Dashboard, channel: Channel): Nodes {
    match channel
    case Lifecycles => d.lifecycles
    case Enclosures => d.enclosures
    case Providers => d.providers
  }

  function Served(p: Projection, channel: Channel): seq<Json> {
    match channel
    case Lifecycles => p.lifecycles
    case Enclosures => p.enclosures
    case Providers => p.providers
  }

  /** reduceDelta: whole-value channels replace, keyed channels upsert or remove, unknown ones do nothing. */
  function ReduceEvent(d: Dashboard, event: Event): Dashboard {
    match event
    case Keyed(Lifecycles, delta) => d.(lifecycles := ApplyDelta(d.lifecycles, delta, IdKey))
    case Keyed(Enclosures, delta) => d.(enclosures := ApplyDelta(d.enclosures, delta, EnclosureKey))
    case Keyed(Providers, delta) => d.(providers := ApplyDelta(d.providers, delta, IdKey))
    case GroupsReplaced(value) => d.(activeWorktreeGroups := Reuse(d.activeWorktreeGroups, value))
    case MetricsReplaced(value) => d.(metrics := Reuse(d.metrics, value))
    case AnalyticsReplaced(value) =>
      if StableEquals(d.analytics, value) then d
      else d.(analytics := value, suppressedAttention := Prune(d.suppressedAttention, value))
    case OtherEvent => d
  }

  /** A whole-value event reaches the store, up to ages, and touches nothing else but the suppressions that its
      attention queue no longer lists; an event of an unknown channel touches nothing. */
  lemma ValueReaches(d: Dashboard, event: Event)
    requires !event.Keyed?
    ensures
      var after := ReduceEvent(d, event);
      && after == d.(activeWorktreeGroups := after.activeWorktreeGroups, metrics := after.metrics, analytics := after.analytics,
                     suppressedAttention := after.suppressedAttention)
      && (if event.GroupsReplaced? then StableEquals(after.activeWorktreeGroups, event.value) else after.activeWorktreeGroups == d.activeWorktreeGroups)
      && (if event.MetricsReplaced? then StableEquals(after.metrics, event.value) else after.metrics == d.metrics)
      && (if event.AnalyticsReplaced? then StableEquals(after.analytics, event.value) else after.analytics == d.analytics)
      && (if event.AnalyticsReplaced? && !StableEquals(d.analytics, event.value)
          then forall id :: id in after.suppressedAttention <==> id in d.suppressedAttention && Listed(event.value, id)
          else after.suppressedAttention == d.suppressedAttention)
  {
    if event.GroupsReplaced? || event.MetricsReplaced? || event.AnalyticsReplaced? { StableEqualsReflexive(event.value); }
    if event.AnalyticsReplaced? {
      forall id ensures id in AttentionIds(event.value) <==> Listed(event.value, id) { }
    }
  }

  function ReduceEvents(d: Dashboard, events: seq<Event>): Dashboard
    decreases |events|
  {
    if events == [] then d else ReduceEvents(ReduceEvent(d, events[0]), events[1..])
  }

  /** The deltas of one channel, in order. */
  function DeltasOf(events: seq<Event>, channel: Channel): seq<Delta> {
    if events == [] then []
    else if events[0].Keyed? && events[0].channel == channel then [events[0].delta] + DeltasOf(events[1..], channel)
    else DeltasOf(events[1..], channel)
  }

  lemma EventOnChannel(d: Dashboard, event: Event, channel: Channel)
    ensures Collection(ReduceEvent(d, event), channel) ==
            if event.Keyed? && event.channel == channel then ApplyDelta(Collection(d, channel), event.delta, KeyOf(channel))
            else Collection(d, channel)
  {
  }

  lemma {:induction false} ChannelsIndependent(d: Dashboard, events: seq<Event>, channel: Channel)
    ensures Collection(ReduceEvents(d, events), channel) ==
            ApplyDeltas(Collection(d, channel), DeltasOf(events, channel), KeyOf(channel))
    decreases |events|
  {
    if events != [] {
      var first, rest := events[0], events[1..];
      EventOnChannel(d, first, channel);
      ChannelsIndependent(ReduceEvent(d, first), rest, channel);
      if first.Keyed? && first.channel == channel {
        assert DeltasOf(events, channel)[1..] == DeltasOf(rest, channel);
      }
    }
  }

  /**
   A tab fed by deltas and a tab that reconnects show the same collections: any interleaving of
   events whose deltas on a channel cover the diff ends in exactly the map the snapshot installs.
   */
  lemma EventsReachSnapshot(d: Dashboard, p: Projection, events: seq<Event>, channel: Channel)
    requires DistinctKeys(Served(p, channel), KeyOf(channel))
    requires CoversDiff(Collection(d, channel), Served(p, channel), KeyOf(channel), DeltasOf(events, channel))
    ensures Collection(ReduceEvents(d, events), channel) == Collection(ApplySnapshot(d, p), channel)
  {
    ChannelsIndependent(d, events, channel);
    DeltasReachSnapshot(Collection(d, channel), Served(p, channel), KeyOf(channel), DeltasOf(events, channel));
  }

  class Store {
    var shown: Dashboard
    /** How often subscribers were notified. */
    var writes: nat

    constructor (initial: Dashboard)
      ensures shown == initial && writes == 0
    {
      shown, writes := initial, 0;
    }

    method Set(next: Dashboard)
      modifies this
      ensures shown == next && writes == old(writes) + 1
    {
      shown, writes := next, writes + 1;
    }

    /** applySnapshotState: the new state is the applied snapshot, written only when it matters. */
    method ApplySnapshotState(p: Projection)
      modifies this
      ensures shown == ApplySnapshot(old(shown), p)
      ensures writes == old(writes) + if SnapshotWrites(old(shown), p) then 1 else 0
    {
      var lifecycles, sameLifecycles := MergeKeyed(shown.lifecycles, p.lifecycles, IdKey);
      var enclosures, sameEnclosures := MergeKeyed(shown.enclosures, p.enclosures, EnclosureKey);
      var providers, sameProviders := MergeKeyed(shown.providers, p.providers, IdKey);
      var analytics := Reuse(shown.analytics, p.analytics);
      var suppressed := Prune(shown.suppressedAttention, analytics);
      var idle :=
        && sameLifecycles && sameEnclosures && sameProviders
        && StableEquals(shown.activeWorktreeGroups, p.activeWorktreeGroups)
        && StableEquals(shown.metrics, p.metrics)
        && StableEquals(shown.analytics, p.analytics)
        && StableEquals(shown.servingBuild, p.servingBuild)
        && suppressed == shown.suppressedAttention;
      assert idle == SnapshotUnchanged(shown, p);
      if idle && shown.conn == Live {
        if shown.heartbeat != p.heartbeat { Set(shown.(heartbeat := p.heartbeat)); }
        return;
      }
      Set(Dashboard(
            Live, if idle then shown.generatedAt else Some(p.generatedAt), lifecycles, enclosures, providers,
            Reuse(shown.activeWorktreeGroups, p.activeWorktreeGroups), Reuse(shown.metrics, p.metrics), analytics,
            Reuse(shown.servingBuild, p.servingBuild), p.heartbeat, suppressed));
    }
  }
}
