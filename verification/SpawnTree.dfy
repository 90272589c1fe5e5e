/**
 The spawn forest of the session rail (buildSpawnTree in dashboard/src/data/railModel.ts).

 Spawn edges come from the catalog and may be cyclic. Each session has at most one parent, so a
 session is either anchored, its chain of visible parents ending at a root after n steps, or it
 hangs on a cycle. The emission visits exactly the anchored sessions.
 */
module SpawnTree {
  import opened Prelude
  import opened Sessions
  import opened Sorting

  datatype Row = Row(session: Session, depth: nat)

  // ---------------------------------------------------------------- parents and anchors

  /** A parent relation on a finite set of nodes; the nodes outside `parent` are the roots. */
  predicate IsForest(nodes: set<string>, parent: map<string, string>) {
    forall c :: c in parent ==> c in nodes && parent[c] in nodes
  }

  /** The chain of parents from `id` ends at a root after exactly n steps. */
  predicate Anchored(nodes: set<string>, parent: map<string, string>, id: string, n: nat)
    decreases n
  {
    && id in nodes
    && (if id in parent then n > 0 && Anchored(nodes, parent, parent[id], n - 1) else n == 0)
  }

  /** The k-th ancestor of an anchored node. */
  function Up(nodes: set<string>, parent: map<string, string>, id: string, n: nat, k: nat): (a: string)
    requires Anchored(nodes, parent, id, n) && k <= n
    ensures Anchored(nodes, parent, a, n - k)
    decreases k
  {
    if k == 0 then id else Up(nodes, parent, parent[id], n - 1, k - 1)
  }

  lemma {:induction false} DepthUnique(nodes: set<string>, parent: map<string, string>, id: string, n: nat, m: nat)
    requires Anchored(nodes, parent, id, n) && Anchored(nodes, parent, id, m)
    ensures n == m
    decreases n
  {
    if id in parent { DepthUnique(nodes, parent, parent[id], n - 1, m - 1); }
  }

  /** An anchored chain repeats no node, so it is shorter than the number of nodes. */
  lemma DepthBound(nodes: set<string>, parent: map<string, string>, id: string, n: nat)
    requires Anchored(nodes, parent, id, n)
    ensures n < |nodes|
  {
    if n >= |nodes| {
      var chain := seq(n + 1, k requires 0 <= k < n + 1 => Up(nodes, parent, id, n, k));
      var i, j := Pigeonhole(chain, nodes);
      DepthUnique(nodes, parent, chain[i], n - i, n - j);
    }
  }

  lemma {:induction false} UpParent(nodes: set<string>, parent: map<string, string>, id: string, n: nat, k: nat)
    requires Anchored(nodes, parent, id, n) && k < n
    ensures Up(nodes, parent, id, n, k) in parent
    ensures parent[Up(nodes, parent, id, n, k)] == Up(nodes, parent, id, n, k + 1)
    decreases k
  {
    if k > 0 { UpParent(nodes, parent, parent[id], n - 1, k - 1); }
  }

  // ---------------------------------------------------------------- cycles

  /** The node reached by climbing k edges, if the climb gets that far. */
  function Climb(parent: map<string, string>, id: string, k: nat): Option<string>
    decreases k
  {
    if k == 0 then Some(id) else if id in parent then Climb(parent, parent[id], k - 1) else None
  }

  /** Some node is its own ancestor. */
  ghost predicate Cyclic(nodes: set<string>, parent: map<string, string>) {
    exists id, k: nat :: id in nodes && k > 0 && Climb(parent, id, k) == Some(id)
  }

  lemma {:induction false} ClimbAnchored(nodes: set<string>, parent: map<string, string>, id: string, n: nat, k: nat)
    requires Anchored(nodes, parent, id, n)
    ensures k <= n ==> Climb(parent, id, k) == Some(Up(nodes, parent, id, n, k))
    ensures k > n ==> Climb(parent, id, k) == None
    decreases k
  {
    if k > 0 && n > 0 { ClimbAnchored(nodes, parent, parent[id], n - 1, k - 1); }
  }

  lemma {:induction false} ClimbSplit(parent: map<string, string>, id: string, i: nat, j: nat)
    requires Climb(parent, id, i).Some?
    ensures Climb(parent, id, i + j) == Climb(parent, Climb(parent, id, i).value, j)
    decreases i
  {
    if i > 0 { ClimbSplit(parent, parent[id], i - 1, j); }
  }

  lemma {:induction false} ClimbInside(nodes: set<string>, parent: map<string, string>, id: string, k: nat)
    requires IsForest(nodes, parent) && id in nodes && Climb(parent, id, k).Some?
    ensures Climb(parent, id, k).value in nodes
    ensures forall i: nat :: i <= k ==> Climb(parent, id, i).Some?
    decreases k
  {
    if k > 0 {
      ClimbInside(nodes, parent, parent[id], k - 1);
      forall i: nat | i <= k ensures Climb(parent, id, i).Some? {
        if i > 0 { assert Climb(parent, parent[id], i - 1).Some?; }
      }
    }
  }

  /** Climbing either stops at a root within k steps or goes on for k steps. */
  lemma {:induction false} ClimbOrAnchor(nodes: set<string>, parent: map<string, string>, id: string, k: nat) returns (n: nat)
    requires IsForest(nodes, parent) && id in nodes
    ensures Climb(parent, id, k).Some? || Anchored(nodes, parent, id, n)
    decreases k
  {
    if k == 0 || id !in parent {
      n := 0;
    } else {
      n := ClimbOrAnchor(nodes, parent, parent[id], k - 1);
      n := n + 1;
    }
  }

  ghost predicate HasAnchor(nodes: set<string>, parent: map<string, string>, id: string) {
    exists n: nat :: Anchored(nodes, parent, id, n)
  }

  /** Every node is anchored exactly when no node is its own ancestor. */
  lemma AllAnchoredIffAcyclic(nodes: set<string>, parent: map<string, string>)
    requires IsForest(nodes, parent)
    ensures (forall id :: id in nodes ==> HasAnchor(nodes, parent, id)) <==> !Cyclic(nodes, parent)
  {
    if Cyclic(nodes, parent) {
      var id, k: nat :| id in nodes && k > 0 && Climb(parent, id, k) == Some(id);
      if HasAnchor(nodes, parent, id) {
        var n: nat :| Anchored(nodes, parent, id, n);
        ClimbAnchored(nodes, parent, id, n, k);
        DepthUnique(nodes, parent, id, n, n - k);
      }
      assert !HasAnchor(nodes, parent, id);
    } else {
      forall id | id in nodes ensures HasAnchor(nodes, parent, id) {
        var n := ClimbOrAnchor(nodes, parent, id, |nodes|);
        if Climb(parent, id, |nodes|).Some? { LongClimbIsCyclic(nodes, parent, id); }
      }
    }
  }

  lemma LongClimbIsCyclic(nodes: set<string>, parent: map<string, string>, id: string)
    requires IsForest(nodes, parent) && id in nodes && Climb(parent, id, |nodes|).Some?
    ensures Cyclic(nodes, parent)
  {
    ClimbInside(nodes, parent, id, |nodes|);
    var path := seq(|nodes| + 1, k requires 0 <= k < |nodes| + 1 => Climb(parent, id, k).value);
    forall k | 0 <= k < |path| ensures path[k] in nodes { ClimbInside(nodes, parent, id, k); }
    var i, j := Pigeonhole(path, nodes);
    ClimbSplit(parent, id, i, j - i);
    assert Climb(parent, path[i], j - i) == Some(path[i]);
  }

  // ---------------------------------------------------------------- sessions

  function Visible(sessions: seq<Session>): (kept: seq<Session>)
    ensures forall s :: s in kept <==> s in sessions && s.status != Terminated
  {
    if sessions == [] then [] else (if sessions[0].status == Terminated then [] else [sessions[0]]) + Visible(sessions[1..])
  }

  predicate DistinctIds(sessions: seq<Session>) {
    forall i, j :: 0 <= i < j < |sessions| ==> sessions[i].id != sessions[j].id
  }

  lemma {:induction false} VisibleDistinct(sessions: seq<Session>)
    requires DistinctIds(sessions)
    ensures DistinctIds(Visible(sessions))
  {
    if sessions != [] { VisibleDistinct(sessions[1..]); }
  }

  function Ids(sessions: seq<Session>): set<string> {
    set s | s in sessions :: s.id
  }

  predicate HasVisibleParent(ids: set<string>, s: Session) {
    s.spawnedBy != "" && s.spawnedBy in ids
  }

  function ParentsOf(sessions: seq<Session>, ids: set<string>): map<string, string> {
    if sessions == [] then map[]
    else
      var last := |sessions| - 1;
      var rest := ParentsOf(sessions[..last], ids);
      if HasVisibleParent(ids, sessions[last]) then rest[sessions[last].id := sessions[last].spawnedBy] else rest
  }

  /** The visible spawn edges of a list of visible sessions. */
  function Parents(visible: seq<Session>): map<string, string> {
    ParentsOf(visible, Ids(visible))
  }

  lemma {:induction false} ParentsMeaning(sessions: seq<Session>, ids: set<string>)
    requires DistinctIds(sessions)
    ensures forall s :: s in sessions ==> (s.id in ParentsOf(sessions, ids) <==> HasVisibleParent(ids, s))
    ensures forall s :: s in sessions && HasVisibleParent(ids, s) ==> ParentsOf(sessions, ids)[s.id] == s.spawnedBy
    ensures forall c :: c in ParentsOf(sessions, ids) ==> c in Ids(sessions) && ParentsOf(sessions, ids)[c] in ids
  {
    if sessions != [] {
      var last := |sessions| - 1;
      ParentsMeaning(sessions[..last], ids);
      assert sessions == sessions[..last] + [sessions[last]];
      assert Ids(sessions) == Ids(sessions[..last]) + {sessions[last].id};
      assert sessions[last].id !in Ids(sessions[..last]);
    }
  }

  lemma ParentsForest(visible: seq<Session>)
    requires DistinctIds(visible)
    ensures IsForest(Ids(visible), Parents(visible))
  {
    ParentsMeaning(visible, Ids(visible));
  }

  /** The session is anchored at depth n in the visible forest. */
  predicate InTree(visible: seq<Session>, id: string, n: nat) {
    Anchored(Ids(visible), Parents(visible), id, n)
  }

  function Children(visible: seq<Session>, ids: set<string>, id: string): (kids: seq<Session>)
    ensures forall s :: s in kids <==> s in visible && HasVisibleParent(ids, s) && s.spawnedBy == id
  {
    if visible == [] then []
    else
      var last := |visible| - 1;
      var rest := Children(visible[..last], ids, id);
      assert visible == visible[..last] + [visible[last]];
      if HasVisibleParent(ids, visible[last]) && visible[last].spawnedBy == id then rest + [visible[last]] else rest
  }

  function Roots(visible: seq<Session>, ids: set<string>): (roots: seq<Session>)
    ensures forall s :: s in roots <==> s in visible && !HasVisibleParent(ids, s)
  {
    if visible == [] then []
    else
      var last := |visible| - 1;
      var rest := Roots(visible[..last], ids);
      assert visible == visible[..last] + [visible[last]];
      if HasVisibleParent(ids, visible[last]) then rest else rest + [visible[last]]
  }

  lemma DistinctPush(some: seq<Session>, visible: seq<Session>)
    requires visible != [] && DistinctIds(visible) && DistinctIds(some) && forall s :: s in some ==> s in visible[..|visible| - 1]
    ensures DistinctIds(some + [visible[|visible| - 1]])
  {
    var last := |visible| - 1;
    forall i | 0 <= i < |some| ensures some[i].id != visible[last].id {
      assert some[i] in some && some[i] in visible[..last];
    }
  }

  lemma {:induction false} SelectionsDistinct(visible: seq<Session>, ids: set<string>, id: string)
    requires DistinctIds(visible)
    ensures DistinctIds(Children(visible, ids, id)) && DistinctIds(Roots(visible, ids))
  {
    if visible != [] {
      var before := visible[..|visible| - 1];
      SelectionsDistinct(before, ids, id);
      DistinctPush(Children(before, ids, id), visible);
      DistinctPush(Roots(before, ids), visible);
    }
  }

  // ---------------------------------------------------------------- sorting siblings

  function Id(s: Session): string { s.id }

  function SortById(sessions: seq<Session>, before: (string, string) -> bool): (r: seq<Session>)
    ensures forall t :: t in r <==> t in sessions
  {
    Sort(sessions, ByKey(Id, before))
  }

  lemma SiblingsDistinct(sessions: seq<Session>, before: (string, string) -> bool)
    requires DistinctIds(sessions)
    ensures DistinctIds(SortById(sessions, before))
  {
    assert DistinctBy(sessions, Id);
    SortDistinct(sessions, ByKey(Id, before), Id);
  }

  lemma SortedById(sessions: seq<Session>, before: (string, string) -> bool)
    requires StrictWeakOrder(before)
    ensures InOrder(SortById(sessions, before), ByKey(Id, before))
  {
    ByKeyOrders(Id, before);
    SortInOrder(sessions, ByKey(Id, before));
  }

  // ---------------------------------------------------------------- emission

  lemma ChildAnchored(visible: seq<Session>, id: string, n: nat, child: Session)
    requires DistinctIds(visible) && InTree(visible, id, n)
    requires child in visible && HasVisibleParent(Ids(visible), child) && child.spawnedBy == id
    ensures InTree(visible, child.id, n + 1)
  {
    ParentsMeaning(visible, Ids(visible));
  }

  /** The subtree of `s` in preorder; recursion is bounded because anchored depths are. */
  function Emit(visible: seq<Session>, s: Session, depth: nat, before: (string, string) -> bool): seq<Row>
    requires DistinctIds(visible) && s in visible && InTree(visible, s.id, depth)
    decreases |Ids(visible)| - depth, 0
  {
    DepthBound(Ids(visible), Parents(visible), s.id, depth);
    var kids := SortById(Children(visible, Ids(visible), s.id), before);
    assert forall kid :: kid in kids ==> kid in visible && InTree(visible, kid.id, depth + 1) by {
      forall kid | kid in kids ensures kid in visible && InTree(visible, kid.id, depth + 1) {
        ChildAnchored(visible, s.id, depth, kid);
      }
    }
    [Row(s, depth)] + EmitAll(visible, kids, depth + 1, before)
  }

  function EmitAll(visible: seq<Session>, kids: seq<Session>, depth: nat, before: (string, string) -> bool): seq<Row>
    requires DistinctIds(visible) && depth <= |Ids(visible)|
    requires forall kid :: kid in kids ==> kid in visible && InTree(visible, kid.id, depth)
    decreases |Ids(visible)| - depth, |kids|
  {
    if kids == [] then []
    else
      assert kids[0] in kids;
      Emit(visible, kids[0], depth, before) + EmitAll(visible, kids[1..], depth, before)
  }

  /** The value of buildSpawnTree. */
  function Tree(sessions: seq<Session>, before: (string, string) -> bool): seq<Row>
    requires DistinctIds(sessions)
  {
    var visible := Visible(sessions);
    VisibleDistinct(sessions);
    ParentsMeaning(visible, Ids(visible));
    EmitAll(visible, SortById(Roots(visible, Ids(visible)), before), 0, before)
  }

  // ---------------------------------------------------------------- what is emitted

  /** `id`, anchored at depth n, descends from `top`, anchored at depth d. */
  predicate Descends(visible: seq<Session>, id: string, n: nat, top: string, d: nat) {
    && InTree(visible, id, n) && d <= n
    && Up(Ids(visible), Parents(visible), id, n, n - d) == top
  }

  /** Every row of a subtree is a visible session, at its own depth, below the subtree's top. */
  ghost predicate RowsUnder(visible: seq<Session>, rows: seq<Row>, top: string, d: nat) {
    forall k :: 0 <= k < |rows| ==>
      rows[k].session in visible && Descends(visible, rows[k].session.id, rows[k].depth, top, d)
  }

  lemma DescendsFromParent(visible: seq<Session>, id: string, n: nat, child: string, d: nat)
    requires DistinctIds(visible) && Descends(visible, id, n, child, d + 1)
    requires child in Parents(visible)
    ensures Descends(visible, id, n, Parents(visible)[child], d)
  {
    var nodes, parent := Ids(visible), Parents(visible);
    UpParent(nodes, parent, id, n, n - d - 1);
  }

  lemma {:induction false} EmitUnder(visible: seq<Session>, s: Session, depth: nat, before: (string, string) -> bool)
    requires DistinctIds(visible) && s in visible && InTree(visible, s.id, depth)
    ensures RowsUnder(visible, Emit(visible, s, depth, before), s.id, depth)
    decreases |Ids(visible)| - depth, 0
  {
    DepthBound(Ids(visible), Parents(visible), s.id, depth);
    ParentsMeaning(visible, Ids(visible));
    var kids := SortById(Children(visible, Ids(visible), s.id), before);
    forall kid | kid in kids ensures kid in visible && InTree(visible, kid.id, depth + 1) && kid.spawnedBy == s.id {
      ChildAnchored(visible, s.id, depth, kid);
    }
    EmitAllUnder(visible, kids, depth, before, s.id);
  }

  /** The rows of siblings at depth d + 1 all descend from their common parent at depth d. */
  lemma {:induction false} EmitAllUnder(visible: seq<Session>, kids: seq<Session>, d: nat, before: (string, string) -> bool, top: string)
    requires DistinctIds(visible) && d < |Ids(visible)|
    requires forall kid :: kid in kids ==> kid in visible && InTree(visible, kid.id, d + 1) && kid.spawnedBy == top
    ensures RowsUnder(visible, EmitAll(visible, kids, d + 1, before), top, d)
    decreases |Ids(visible)| - d - 1, |kids|
  {
    if kids != [] {
      assert kids[0] in kids;
      EmitUnder(visible, kids[0], d + 1, before);
      EmitAllUnder(visible, kids[1..], d, before, top);
      ParentsMeaning(visible, Ids(visible));
      var rows := Emit(visible, kids[0], d + 1, before);
      forall k | 0 <= k < |rows|
        ensures rows[k].session in visible && Descends(visible, rows[k].session.id, rows[k].depth, top, d)
      {
        DescendsFromParent(visible, rows[k].session.id, rows[k].depth, kids[0].id, d);
      }
    }
  }

  lemma SameSession(visible: seq<Session>, s: Session, t: Session)
    requires DistinctIds(visible) && s in visible && t in visible && s.id == t.id
    ensures s == t
  {
    var i :| 0 <= i < |visible| && visible[i] == s;
    var j :| 0 <= j < |visible| && visible[j] == t;
  }

  /** The child of `top` on the way up from a proper descendant. */
  lemma StepDown(visible: seq<Session>, id: string, n: nat, top: string, d: nat) returns (kid: Session)
    requires DistinctIds(visible) && Descends(visible, id, n, top, d) && d < n
    ensures kid in visible && HasVisibleParent(Ids(visible), kid) && kid.spawnedBy == top
    ensures Descends(visible, id, n, kid.id, d + 1)
  {
    var nodes, parent := Ids(visible), Parents(visible);
    UpParent(nodes, parent, id, n, n - d - 1);
    ParentsMeaning(visible, nodes);
    var below := Up(nodes, parent, id, n, n - d - 1);
    kid :| kid in visible && kid.id == below;
  }

  /** Every visible descendant of a subtree's top is emitted at its depth. */
  lemma {:induction false} EmitCovers(visible: seq<Session>, s: Session, depth: nat, before: (string, string) -> bool, t: Session, n: nat)
    requires DistinctIds(visible) && s in visible && t in visible && Descends(visible, t.id, n, s.id, depth)
    ensures InTree(visible, s.id, depth) && Row(t, n) in Emit(visible, s, depth, before)
    decreases |Ids(visible)| - depth, 0
  {
    DepthBound(Ids(visible), Parents(visible), s.id, depth);
    if n == depth {
      SameSession(visible, s, t);
      assert Emit(visible, s, depth, before)[0] == Row(t, n);
    } else {
      var kid := StepDown(visible, t.id, n, s.id, depth);
      var kids := SortById(Children(visible, Ids(visible), s.id), before);
      forall other | other in kids ensures other in visible && InTree(visible, other.id, depth + 1) {
        ChildAnchored(visible, s.id, depth, other);
      }
      EmitAllCovers(visible, kids, depth + 1, before, kid, t, n);
    }
  }

  lemma {:induction false} EmitAllCovers(
    visible: seq<Session>, kids: seq<Session>, depth: nat, before: (string, string) -> bool, kid: Session, t: Session, n: nat)
    requires DistinctIds(visible) && depth <= |Ids(visible)|
    requires forall other :: other in kids ==> other in visible && InTree(visible, other.id, depth)
    requires kid in kids && t in visible && Descends(visible, t.id, n, kid.id, depth)
    ensures Row(t, n) in EmitAll(visible, kids, depth, before)
    decreases |Ids(visible)| - depth, |kids|
  {
    assert kids[0] in kids;
    if kids[0] == kid {
      EmitCovers(visible, kid, depth, before, t, n);
    } else {
      EmitAllCovers(visible, kids[1..], depth, before, kid, t, n);
    }
  }

  predicate DistinctRows(rows: seq<Row>) {
    forall k, l :: 0 <= k < l < |rows| ==> rows[k].session.id != rows[l].session.id
  }

  lemma {:induction false} EmitAllFrom(visible: seq<Session>, kids: seq<Session>, depth: nat, before: (string, string) -> bool, k: nat)
    returns (kid: Session)
    requires DistinctIds(visible) && depth <= |Ids(visible)|
    requires forall other :: other in kids ==> other in visible && InTree(visible, other.id, depth)
    requires k < |EmitAll(visible, kids, depth, before)|
    ensures kid in kids
    ensures
      var row := EmitAll(visible, kids, depth, before)[k];
      row.session in visible && Descends(visible, row.session.id, row.depth, kid.id, depth)
    decreases |kids|
  {
    assert kids[0] in kids;
    var first := Emit(visible, kids[0], depth, before);
    if k < |first| {
      EmitUnder(visible, kids[0], depth, before);
      kid := kids[0];
    } else {
      kid := EmitAllFrom(visible, kids[1..], depth, before, k - |first|);
    }
  }

  lemma OneTop(visible: seq<Session>, id: string, n: nat, m: nat, a: string, b: string, d: nat)
    requires Descends(visible, id, n, a, d) && Descends(visible, id, m, b, d)
    ensures a == b
  {
    DepthUnique(Ids(visible), Parents(visible), id, n, m);
  }

  /** Children of `s`, each one level below it. */
  ghost predicate KidsOf(visible: seq<Session>, s: Session, depth: nat, kids: seq<Session>) {
    && DistinctIds(visible) && DistinctIds(kids) && InTree(visible, s.id, depth) && depth < |Ids(visible)|
    && forall kid :: kid in kids ==> kid in visible && InTree(visible, kid.id, depth + 1) && kid.spawnedBy == s.id
  }

  /** A subtree is its top row followed by the rows of its sorted children, one level deeper. */
  lemma EmitShape(visible: seq<Session>, s: Session, depth: nat, before: (string, string) -> bool) returns (kids: seq<Session>)
    requires DistinctIds(visible) && s in visible && InTree(visible, s.id, depth)
    ensures KidsOf(visible, s, depth, kids)
    ensures Emit(visible, s, depth, before) == [Row(s, depth)] + EmitAll(visible, kids, depth + 1, before)
    ensures StrictWeakOrder(before) ==> InOrder(kids, ByKey(Id, before))
  {
    if StrictWeakOrder(before) { SortedById(Children(visible, Ids(visible), s.id), before); }
    DepthBound(Ids(visible), Parents(visible), s.id, depth);
    kids := SortById(Children(visible, Ids(visible), s.id), before);
    SelectionsDistinct(visible, Ids(visible), s.id);
    SiblingsDistinct(Children(visible, Ids(visible), s.id), before);
    forall kid | kid in kids ensures kid in visible && InTree(visible, kid.id, depth + 1) {
      ChildAnchored(visible, s.id, depth, kid);
    }
  }

  predicate NoRowOf(rows: seq<Row>, id: string) {
    forall k :: 0 <= k < |rows| ==> rows[k].session.id != id
  }

  lemma TopNotBelow(visible: seq<Session>, kids: seq<Session>, depth: nat, before: (string, string) -> bool, id: string)
    requires DistinctIds(visible) && depth < |Ids(visible)| && InTree(visible, id, depth)
    requires forall kid :: kid in kids ==> kid in visible && InTree(visible, kid.id, depth + 1)
    ensures NoRowOf(EmitAll(visible, kids, depth + 1, before), id)
  {
    var rest := EmitAll(visible, kids, depth + 1, before);
    forall k | 0 <= k < |rest| ensures rest[k].session.id != id {
      var kid := EmitAllFrom(visible, kids, depth + 1, before, k);
      if rest[k].session.id == id { DepthUnique(Ids(visible), Parents(visible), id, depth, rest[k].depth); }
    }
  }

  lemma {:induction false} EmitDistinct(visible: seq<Session>, s: Session, depth: nat, before: (string, string) -> bool)
    requires DistinctIds(visible) && s in visible && InTree(visible, s.id, depth)
    ensures DistinctRows(Emit(visible, s, depth, before))
    decreases |Ids(visible)| - depth, 0
  {
    var kids := EmitShape(visible, s, depth, before);
    SubtreeDistinct(visible, s, kids, depth, before);
  }

  lemma {:induction false} SubtreeDistinct(visible: seq<Session>, s: Session, kids: seq<Session>, depth: nat, before: (string, string) -> bool)
    requires KidsOf(visible, s, depth, kids)
    ensures DistinctRows([Row(s, depth)] + EmitAll(visible, kids, depth + 1, before))
    decreases |Ids(visible)| - depth - 1, |kids| + 1
  {
    EmitAllDistinct(visible, kids, depth + 1, before);
    TopNotBelow(visible, kids, depth, before, s.id);
  }

  lemma {:induction false} EmitAllDistinct(visible: seq<Session>, kids: seq<Session>, depth: nat, before: (string, string) -> bool)
    requires DistinctIds(visible) && DistinctIds(kids) && depth <= |Ids(visible)|
    requires forall kid :: kid in kids ==> kid in visible && InTree(visible, kid.id, depth)
    ensures DistinctRows(EmitAll(visible, kids, depth, before))
    decreases |Ids(visible)| - depth, |kids|
  {
    if kids != [] {
      assert kids[0] in kids;
      var first, rest := Emit(visible, kids[0], depth, before), EmitAll(visible, kids[1..], depth, before);
      EmitDistinct(visible, kids[0], depth, before);
      EmitAllDistinct(visible, kids[1..], depth, before);
      EmitUnder(visible, kids[0], depth, before);
      forall k, l | 0 <= k < |first| && 0 <= l < |rest| ensures first[k].session.id != rest[l].session.id {
        var kid := EmitAllFrom(visible, kids[1..], depth, before, l);
        if first[k].session.id == rest[l].session.id {
          OneTop(visible, first[k].session.id, first[k].depth, rest[l].depth, kids[0].id, kid.id, depth);
        }
      }
    }
  }

  /** Each row deeper than `top` comes after its parent's row, which is the nearest one level above it. */
  ghost predicate ParentsFirst(rows: seq<Row>, top: nat) {
    forall k :: 0 <= k < |rows| && rows[k].depth > top ==> HasParentBefore(rows, k)
  }

  /** Row j is the parent of row k, and the nearest row before it one level up: none between is as high. */
  predicate IsParentRow(rows: seq<Row>, j: nat, k: nat)
    requires k < |rows|
  {
    && j < k && rows[j].session.id == rows[k].session.spawnedBy && rows[j].depth + 1 == rows[k].depth
    && forall m :: j < m < k ==> rows[m].depth >= rows[k].depth
  }

  ghost predicate HasParentBefore(rows: seq<Row>, k: nat)
    requires k < |rows|
  {
    exists j: nat :: IsParentRow(rows, j, k)
  }

  lemma ParentsFirstAfter(prefix: seq<Row>, rows: seq<Row>, k: nat)
    requires k < |rows| && HasParentBefore(rows, k)
    ensures HasParentBefore(prefix + rows, |prefix| + k)
  {
    var j: nat :| IsParentRow(rows, j, k);
    var all := prefix + rows;
    forall m | |prefix| + j < m < |prefix| + k ensures all[m].depth >= all[|prefix| + k].depth {
      assert all[m] == rows[m - |prefix|];
    }
    assert IsParentRow(all, |prefix| + j, |prefix| + k);
  }

  lemma ParentsFirstWithin(rows: seq<Row>, suffix: seq<Row>, k: nat)
    requires k < |rows| && HasParentBefore(rows, k)
    ensures HasParentBefore(rows + suffix, k)
  {
    var j: nat :| IsParentRow(rows, j, k);
    assert IsParentRow(rows + suffix, j, k);
  }

  /** A row right below the top was spawned by it. */
  lemma SpawnedByTop(visible: seq<Session>, row: Row, top: string)
    requires DistinctIds(visible) && row.session in visible && row.depth > 0
    requires Descends(visible, row.session.id, row.depth, top, row.depth - 1)
    ensures row.session.spawnedBy == top
  {
    ParentsMeaning(visible, Ids(visible));
    UpParent(Ids(visible), Parents(visible), row.session.id, row.depth, 0);
  }

  predicate DeeperThan(rows: seq<Row>, depth: nat) {
    forall k :: 0 <= k < |rows| ==> rows[k].depth > depth
  }

  lemma SiblingsDeeper(visible: seq<Session>, kids: seq<Session>, depth: nat, before: (string, string) -> bool)
    requires DistinctIds(visible) && depth < |Ids(visible)|
    requires forall kid :: kid in kids ==> kid in visible && InTree(visible, kid.id, depth + 1)
    ensures DeeperThan(EmitAll(visible, kids, depth + 1, before), depth)
  {
    var rows := EmitAll(visible, kids, depth + 1, before);
    forall k | 0 <= k < |rows| ensures rows[k].depth > depth {
      var _ := EmitAllFrom(visible, kids, depth + 1, before, k);
    }
  }

  lemma TopIsParent(top: Row, rest: seq<Row>, k: nat)
    requires k < |rest| && rest[k].session.spawnedBy == top.session.id && rest[k].depth == top.depth + 1 && DeeperThan(rest, top.depth)
    ensures HasParentBefore([top] + rest, k + 1)
  {
    var rows := [top] + rest;
    forall m | 0 < m < k + 1 ensures rows[m].depth >= rows[k + 1].depth { assert rows[m] == rest[m - 1]; }
    assert IsParentRow(rows, 0, k + 1);
  }

  lemma ParentBeforeUnder(visible: seq<Session>, s: Session, depth: nat, rest: seq<Row>, k: nat)
    requires DistinctIds(visible) && RowsUnder(visible, rest, s.id, depth) && ParentsFirst(rest, depth + 1) && DeeperThan(rest, depth)
    requires k < |rest| && rest[k].depth > depth
    ensures HasParentBefore([Row(s, depth)] + rest, k + 1)
  {
    var rows := [Row(s, depth)] + rest;
    assert rows[k + 1] == rest[k];
    if rest[k].depth > depth + 1 {
      ParentsFirstAfter([Row(s, depth)], rest, k);
    } else {
      SpawnedByTop(visible, rest[k], s.id);
      TopIsParent(Row(s, depth), rest, k);
    }
  }

  lemma ParentsFirstUnder(visible: seq<Session>, s: Session, depth: nat, rest: seq<Row>)
    requires DistinctIds(visible) && RowsUnder(visible, rest, s.id, depth) && ParentsFirst(rest, depth + 1) && DeeperThan(rest, depth)
    ensures ParentsFirst([Row(s, depth)] + rest, depth)
  {
    var rows := [Row(s, depth)] + rest;
    forall k | 0 < k < |rows| ensures HasParentBefore(rows, k) {
      assert rows[k] == rest[k - 1];
      ParentBeforeUnder(visible, s, depth, rest, k - 1);
    }
    assert rows[0].depth == depth;
  }

  lemma ParentsFirstJoin(first: seq<Row>, rest: seq<Row>, top: nat)
    requires ParentsFirst(first, top) && ParentsFirst(rest, top)
    ensures ParentsFirst(first + rest, top)
  {
    var rows := first + rest;
    forall k | 0 <= k < |rows| && rows[k].depth > top ensures HasParentBefore(rows, k) {
      if k < |first| { ParentsFirstWithin(first, rest, k); } else { ParentsFirstAfter(first, rest, k - |first|); }
    }
  }

  lemma {:induction false} SubtreeParentsFirst(visible: seq<Session>, s: Session, kids: seq<Session>, depth: nat, before: (string, string) -> bool)
    requires KidsOf(visible, s, depth, kids)
    ensures ParentsFirst([Row(s, depth)] + EmitAll(visible, kids, depth + 1, before), depth)
    decreases |Ids(visible)| - depth - 1, |kids| + 1
  {
    EmitAllParentsFirst(visible, kids, depth + 1, before);
    EmitAllUnder(visible, kids, depth, before, s.id);
    SiblingsDeeper(visible, kids, depth, before);
    ParentsFirstUnder(visible, s, depth, EmitAll(visible, kids, depth + 1, before));
  }

  lemma {:induction false} EmitParentsFirst(visible: seq<Session>, s: Session, depth: nat, before: (string, string) -> bool)
    requires DistinctIds(visible) && s in visible && InTree(visible, s.id, depth)
    ensures ParentsFirst(Emit(visible, s, depth, before), depth)
    decreases |Ids(visible)| - depth, 0
  {
    var kids := EmitShape(visible, s, depth, before);
    SubtreeParentsFirst(visible, s, kids, depth, before);
  }

  lemma {:induction false} EmitAllParentsFirst(visible: seq<Session>, kids: seq<Session>, depth: nat, before: (string, string) -> bool)
    requires DistinctIds(visible) && depth <= |Ids(visible)|
    requires forall kid :: kid in kids ==> kid in visible && InTree(visible, kid.id, depth)
    ensures ParentsFirst(EmitAll(visible, kids, depth, before), depth)
    decreases |Ids(visible)| - depth, |kids|
  {
    if kids != [] {
      assert kids[0] in kids;
      var first, rest := Emit(visible, kids[0], depth, before), EmitAll(visible, kids[1..], depth, before);
      EmitParentsFirst(visible, kids[0], depth, before);
      EmitAllParentsFirst(visible, kids[1..], depth, before);
      ParentsFirstJoin(first, rest, depth);
    }
  }

  lemma RootsAnchored(visible: seq<Session>, before: (string, string) -> bool)
    requires DistinctIds(visible)
    ensures forall s :: s in SortById(Roots(visible, Ids(visible)), before) ==> s in visible && InTree(visible, s.id, 0)
    ensures DistinctIds(SortById(Roots(visible, Ids(visible)), before))
  {
    ParentsMeaning(visible, Ids(visible));
    SelectionsDistinct(visible, Ids(visible), "");
    SiblingsDistinct(Roots(visible, Ids(visible)), before);
  }

  /** The ancestor at depth 0 of an anchored session is one of the roots. */
  lemma TopIsRoot(visible: seq<Session>, id: string, n: nat) returns (root: Session)
    requires DistinctIds(visible) && InTree(visible, id, n)
    ensures root in Roots(visible, Ids(visible)) && Descends(visible, id, n, root.id, 0)
  {
    var top := Up(Ids(visible), Parents(visible), id, n, n);
    ParentsMeaning(visible, Ids(visible));
    root :| root in visible && root.id == top;
  }

  /**
   The spawn forest. Even with cyclic spawn edges, the emission contains exactly the visible sessions
   whose visible ancestor chain ends at a root, each once, at the length of that chain, and after its
   parent, which is the nearest row before it that is one level up.
   */
  lemma TreeIsForest(sessions: seq<Session>, before: (string, string) -> bool)
    requires DistinctIds(sessions)
    ensures
      var visible, rows := Visible(sessions), Tree(sessions, before);
      && (forall s: Session, n: nat :: Row(s, n) in rows <==> s in visible && InTree(visible, s.id, n))
      && DistinctRows(rows)
      && ParentsFirst(rows, 0)
  {
    var visible := Visible(sessions);
    VisibleDistinct(sessions);
    ParentsMeaning(visible, Ids(visible));
    var roots := SortById(Roots(visible, Ids(visible)), before);
    RootsAnchored(visible, before);
    EmitAllDistinct(visible, roots, 0, before);
    EmitAllParentsFirst(visible, roots, 0, before);
    var rows := EmitAll(visible, roots, 0, before);
    forall s: Session, n: nat ensures Row(s, n) in rows <==> s in visible && InTree(visible, s.id, n) {
      if Row(s, n) in rows {
        var k :| 0 <= k < |rows| && rows[k] == Row(s, n);
        var _ := EmitAllFrom(visible, roots, 0, before, k);
      }
      if s in visible && InTree(visible, s.id, n) {
        var root := TopIsRoot(visible, s.id, n);
        EmitAllCovers(visible, roots, 0, before, root, s, n);
      }
    }
  }

  ghost predicate Emitted(rows: seq<Row>, s: Session) {
    exists n: nat :: Row(s, n) in rows
  }

  lemma EmittedIffAnchored(sessions: seq<Session>, before: (string, string) -> bool, s: Session)
    requires DistinctIds(sessions) && s in Visible(sessions)
    ensures Emitted(Tree(sessions, before), s) <==> HasAnchor(Ids(Visible(sessions)), Parents(Visible(sessions)), s.id)
  {
    var visible, rows := Visible(sessions), Tree(sessions, before);
    TreeIsForest(sessions, before);
    if Emitted(rows, s) { var n: nat :| Row(s, n) in rows; assert InTree(visible, s.id, n); }
    if HasAnchor(Ids(visible), Parents(visible), s.id) {
      var n: nat :| Anchored(Ids(visible), Parents(visible), s.id, n);
      assert InTree(visible, s.id, n);
      assert Row(s, n) in rows;
    }
  }

  /** Every visible session is emitted exactly when the visible spawn edges are acyclic. */
  lemma TreeCompleteIffAcyclic(sessions: seq<Session>, before: (string, string) -> bool)
    requires DistinctIds(sessions)
    ensures
      var visible := Visible(sessions);
      (forall s :: s in visible ==> Emitted(Tree(sessions, before), s)) <==> !Cyclic(Ids(visible), Parents(visible))
  {
    var visible, rows := Visible(sessions), Tree(sessions, before);
    VisibleDistinct(sessions);
    ParentsForest(visible);
    AllAnchoredIffAcyclic(Ids(visible), Parents(visible));
    forall s | s in visible ensures Emitted(rows, s) <==> HasAnchor(Ids(visible), Parents(visible), s.id) {
      EmittedIffAnchored(sessions, before, s);
    }
    if !Cyclic(Ids(visible), Parents(visible)) {
      forall s | s in visible ensures Emitted(rows, s) { assert s.id in Ids(visible); }
    } else {
      var id :| id in Ids(visible) && !HasAnchor(Ids(visible), Parents(visible), id);
      var s :| s in visible && s.id == id;
      assert !Emitted(rows, s);
    }
  }

  // ---------------------------------------------------------------- the order of siblings

  /** Rows of the same parent, and rows at the top, stand in id order. */
  predicate SiblingsSorted(rows: seq<Row>, top: nat, before: (string, string) -> bool) {
    forall i, j :: 0 <= i < j < |rows| && Siblings(rows[i], rows[j], top) ==> !before(rows[j].session.id, rows[i].session.id)
  }

  predicate Siblings(a: Row, b: Row, top: nat) {
    a.depth == b.depth && (a.depth == top || a.session.spawnedBy == b.session.spawnedBy)
  }

  /** Two rows below depth d with the same parent have the same ancestor at depth d. */
  lemma SameParentSameTop(visible: seq<Session>, a: Row, b: Row, top: string, other: string, d: nat)
    requires DistinctIds(visible) && a.session in visible && b.session in visible
    requires a.depth == b.depth > d && a.session.spawnedBy == b.session.spawnedBy
    requires Descends(visible, a.session.id, a.depth, top, d) && Descends(visible, b.session.id, b.depth, other, d)
    ensures top == other
  {
    ParentsMeaning(visible, Ids(visible));
  }

  lemma FirstInOrder(kids: seq<Session>, before: (string, string) -> bool, m: nat)
    requires 0 < m < |kids| && InOrder(kids, ByKey(Id, before))
    ensures !before(kids[m].id, kids[0].id)
  {
    assert !ByKey(Id, before)(kids[m], kids[0]);
  }

  lemma SiblingsAcross(
    visible: seq<Session>, kids: seq<Session>, depth: nat, before: (string, string) -> bool, a: Row, l: nat)
    requires DistinctIds(visible) && DistinctIds(kids) && depth <= |Ids(visible)| && kids != []
    requires forall kid :: kid in kids ==> kid in visible && InTree(visible, kid.id, depth)
    requires InOrder(kids, ByKey(Id, before))
    requires a.session in visible && Descends(visible, a.session.id, a.depth, kids[0].id, depth)
    requires l < |EmitAll(visible, kids[1..], depth, before)|
    ensures
      var b := EmitAll(visible, kids[1..], depth, before)[l];
      Siblings(a, b, depth) ==> !before(b.session.id, a.session.id)
  {
    var b := EmitAll(visible, kids[1..], depth, before)[l];
    var kid := EmitAllFrom(visible, kids[1..], depth, before, l);
    var m :| 0 <= m < |kids[1..]| && kids[1..][m] == kid;
    FirstInOrder(kids, before, m + 1);
    if Siblings(a, b, depth) {
      if a.depth > depth {
        SameParentSameTop(visible, a, b, kids[0].id, kid.id, depth);
      } else {
        assert a.session.id == kids[0].id && b.session.id == kid.id;
      }
    }
  }

  lemma {:induction false} EmitSorted(visible: seq<Session>, s: Session, depth: nat, before: (string, string) -> bool)
    requires DistinctIds(visible) && StrictWeakOrder(before) && s in visible && InTree(visible, s.id, depth)
    ensures SiblingsSorted(Emit(visible, s, depth, before), depth, before)
    decreases |Ids(visible)| - depth, 0
  {
    var kids := EmitShape(visible, s, depth, before);
    SubtreeSorted(visible, s, kids, depth, before);
  }

  lemma {:induction false} SubtreeSorted(visible: seq<Session>, s: Session, kids: seq<Session>, depth: nat, before: (string, string) -> bool)
    requires KidsOf(visible, s, depth, kids) && StrictWeakOrder(before) && InOrder(kids, ByKey(Id, before))
    ensures SiblingsSorted([Row(s, depth)] + EmitAll(visible, kids, depth + 1, before), depth, before)
    decreases |Ids(visible)| - depth - 1, |kids| + 1
  {
    EmitAllSorted(visible, kids, depth + 1, before);
    SiblingsDeeper(visible, kids, depth, before);
    SortedUnder(Row(s, depth), EmitAll(visible, kids, depth + 1, before), depth, before);
  }

  lemma SortedUnder(top: Row, rest: seq<Row>, depth: nat, before: (string, string) -> bool)
    requires top.depth == depth && DeeperThan(rest, depth) && SiblingsSorted(rest, depth + 1, before)
    ensures SiblingsSorted([top] + rest, depth, before)
  {
    var rows := [top] + rest;
    forall i, j | 0 <= i < j < |rows| && Siblings(rows[i], rows[j], depth) ensures !before(rows[j].session.id, rows[i].session.id) {
      assert rows[j] == rest[j - 1];
      if i > 0 {
        assert rows[i] == rest[i - 1];
        assert Siblings(rest[i - 1], rest[j - 1], depth + 1);
      }
    }
  }

  lemma {:induction false} EmitAllSorted(visible: seq<Session>, kids: seq<Session>, depth: nat, before: (string, string) -> bool)
    requires DistinctIds(visible) && DistinctIds(kids) && StrictWeakOrder(before) && depth <= |Ids(visible)|
    requires forall kid :: kid in kids ==> kid in visible && InTree(visible, kid.id, depth)
    requires InOrder(kids, ByKey(Id, before))
    ensures SiblingsSorted(EmitAll(visible, kids, depth, before), depth, before)
    decreases |Ids(visible)| - depth, |kids|
  {
    if kids != [] {
      assert kids[0] in kids;
      var first, rest := Emit(visible, kids[0], depth, before), EmitAll(visible, kids[1..], depth, before);
      EmitSorted(visible, kids[0], depth, before);
      EmitAllSorted(visible, kids[1..], depth, before);
      EmitUnder(visible, kids[0], depth, before);
      forall k, l | 0 <= k < |first| && 0 <= l < |rest| && Siblings(first[k], rest[l], depth)
        ensures !before(rest[l].session.id, first[k].session.id)
      {
        SiblingsAcross(visible, kids, depth, before, first[k], l);
      }
      SortedJoin(first, rest, depth, before);
    }
  }

  lemma SortedJoin(first: seq<Row>, rest: seq<Row>, top: nat, before: (string, string) -> bool)
    requires SiblingsSorted(first, top, before) && SiblingsSorted(rest, top, before)
    requires forall k, l :: 0 <= k < |first| && 0 <= l < |rest| && Siblings(first[k], rest[l], top) ==>
               !before(rest[l].session.id, first[k].session.id)
    ensures SiblingsSorted(first + rest, top, before)
  {
  }

  /** In the emitted rows the roots, and the children of each parent, stand in id order. */
  lemma SiblingsInOrder(sessions: seq<Session>, before: (string, string) -> bool)
    requires DistinctIds(sessions) && StrictWeakOrder(before)
    ensures SiblingsSorted(Tree(sessions, before), 0, before)
  {
    var visible := Visible(sessions);
    VisibleDistinct(sessions);
    RootsAnchored(visible, before);
    SortedById(Roots(visible, Ids(visible)), before);
    EmitAllSorted(visible, SortById(Roots(visible, Ids(visible)), before), 0, before);
  }

  // ---------------------------------------------------------------- the imperative build

  /** The children recorded for an id; an id without an entry has none. */
  function Recorded(byParent: map<string, seq<Session>>, id: string): seq<Session> {
    if id in byParent then byParent[id] else []
  }

  /** The grouping loop of buildSpawnTree. */
  method Group(visible: seq<Session>) returns (byParent: map<string, seq<Session>>, roots: seq<Session>)
    ensures roots == Roots(visible, Ids(visible))
    ensures forall id :: Recorded(byParent, id) == Children(visible, Ids(visible), id)
  {
    var ids := Ids(visible);
    byParent, roots := map[], [];
    for i := 0 to |visible|
      invariant roots == Roots(visible[..i], ids)
      invariant forall id :: Recorded(byParent, id) == Children(visible[..i], ids, id)
    {
      var s := visible[i];
      assert visible[..i + 1][..i] == visible[..i];
      if s.spawnedBy != "" && s.spawnedBy in ids {
        byParent := byParent[s.spawnedBy := Recorded(byParent, s.spawnedBy) + [s]];
      } else {
        roots := roots + [s];
      }
    }
    assert visible[..|visible|] == visible;
  }

  method EmitInto(
    visible: seq<Session>, byParent: map<string, seq<Session>>, s: Session, depth: nat, before: (string, string) -> bool,
    rows: seq<Row>)
    returns (longer: seq<Row>)
    requires DistinctIds(visible) && s in visible && InTree(visible, s.id, depth)
    requires forall id :: Recorded(byParent, id) == Children(visible, Ids(visible), id)
    ensures longer == rows + Emit(visible, s, depth, before)
    decreases |Ids(visible)| - depth, 0
  {
    DepthBound(Ids(visible), Parents(visible), s.id, depth);
    longer := rows + [Row(s, depth)];
    var kids := SortById(Recorded(byParent, s.id), before);
    forall kid | kid in kids ensures kid in visible && InTree(visible, kid.id, depth + 1) {
      ChildAnchored(visible, s.id, depth, kid);
    }
    longer := EmitEach(visible, byParent, kids, depth + 1, before, longer);
  }

  method EmitEach(
    visible: seq<Session>, byParent: map<string, seq<Session>>, kids: seq<Session>, depth: nat,
    before: (string, string) -> bool, rows: seq<Row>)
    returns (longer: seq<Row>)
    requires DistinctIds(visible) && depth <= |Ids(visible)|
    requires forall kid :: kid in kids ==> kid in visible && InTree(visible, kid.id, depth)
    requires forall id :: Recorded(byParent, id) == Children(visible, Ids(visible), id)
    ensures longer == rows + EmitAll(visible, kids, depth, before)
    decreases |Ids(visible)| - depth, |kids|
  {
    longer := rows;
    if kids == [] { return; }
    assert kids[0] in kids && forall kid :: kid in kids[1..] ==> kid in kids;
    longer := EmitInto(visible, byParent, kids[0], depth, before, longer);
    ghost var first := Emit(visible, kids[0], depth, before);
    longer := EmitEach(visible, byParent, kids[1..], depth, before, longer);
    assert longer == rows + (first + EmitAll(visible, kids[1..], depth, before));
  }

  method BuildSpawnTree(sessions: seq<Session>, before: (string, string) -> bool) returns (rows: seq<Row>)
    requires DistinctIds(sessions)
    ensures rows == Tree(sessions, before)
  {
    var visible := Visible(sessions);
    VisibleDistinct(sessions);
    var byParent, roots := Group(visible);
    RootsAnchored(visible, before);
    rows := EmitEach(visible, byParent, SortById(roots, before), 0, before, []);
  }
}
