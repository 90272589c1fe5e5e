/**
 The chat rail (buildRailModel and railCycleOrder in dashboard/src/data/railModel.ts).

 Sessions are attached one by one to sprint, master and leaf accumulators, and the accumulators are
 then filtered, sorted and distributed over sections. The main results are conservation laws: no
 session is dropped or shown twice on the way.
 */
module RailModel {
  import opened Prelude
  import opened Sessions
  import opened Sorting

  // ---------------------------------------------------------------- input

  /** `ref` is the canonical reference of the document, absent when its path does not name one. */
  datatype Doc = Doc(
    isMaster: bool,
    orchestrates: seq<string>,
    ref: Option<DocRef>,
    repository: string,
    docPath: string,
    commandNames: seq<string>)

  predicate IsOrchestration(doc: Doc) { doc.isMaster && doc.orchestrates != [] }

  function DocumentKey(ref: DocRef): string { ref.repository + ":" + ref.path }

  /** The folder of a path: everything before the last slash, nothing without one. */
  lemma {:induction false} PathDirExact(dir: string, name: string)
    requires '/' !in name
    ensures PathDir(dir + "/" + name) == dir && PathDir(name) == ""
  {
    var path := dir + "/" + name;
    if name == [] {
      assert path == dir + "/";
    } else {
      var shorter := name[..|name| - 1];
      assert path[..|path| - 1] == dir + "/" + shorter;
      assert name[|name| - 1] in name;
      PathDirExact(dir, shorter);
    }
  }

  function PathDir(path: string): string {
    if path == [] then []
    else if path[|path| - 1] == '/' then path[..|path| - 1]
    else PathDir(path[..|path| - 1])
  }

  /** Where the master of a leaf document is. */
  function MasterPath(leaf: DocRef): string { PathDir(leaf.path) + "/task.json" }

  const SPRINT_ROLES := {"architect", "orchestrator", "strategist", "designer", "system-specialist"}
  const LEAF_ROLES := {"worker", "reviewer", "curator"}

  /** The order of roles at a sprint; unknown roles come last. */
  function SprintRole(role: string): int {
    if role == "architect" then 0
    else if role == "orchestrator" then 1
    else if role == "strategist" then 2
    else if role == "designer" then 3
    else if role == "system-specialist" then 4
    else 5
  }

  /** The order of roles in a cluster. */
  function ClusterRole(role: string): int {
    if role == "worker" then 0 else if role == "reviewer" then 1 else if role == "curator" then 2 else 4
  }

  /** The sessions the rail shows, split by whether they have landed. */
  function LiveOnes(sessions: seq<Session>): (live: seq<Session>)
    ensures forall s :: s in live ==> s.status != Landed && s.status != Terminated
  {
    if sessions == [] then []
    else
      var last := sessions[|sessions| - 1];
      LiveOnes(sessions[..|sessions| - 1]) + (if last.status == Landed || last.status == Terminated then [] else [last])
  }

  function LandedOnes(sessions: seq<Session>): (landed: seq<Session>)
    ensures forall s :: s in landed ==> s.status == Landed
  {
    if sessions == [] then []
    else
      var last := sessions[|sessions| - 1];
      LandedOnes(sessions[..|sessions| - 1]) + (if last.status == Landed then [last] else [])
  }

  // ---------------------------------------------------------------- bags of sessions

  type Bag = multiset<Session>

  function Flatten<T>(part: T -> seq<Session>, xs: seq<T>): seq<Session> {
    if xs == [] then [] else part(xs[0]) + Flatten(part, xs[1..])
  }

  function BagOf<T>(part: T -> seq<Session>, xs: seq<T>): Bag {
    multiset(Flatten(part, xs))
  }

  lemma {:induction false} BagAppend<T>(part: T -> seq<Session>, xs: seq<T>, ys: seq<T>)
    ensures BagOf(part, xs + ys) == BagOf(part, xs) + BagOf(part, ys)
  {
    if xs == [] {
      assert xs + ys == ys;
    } else {
      assert (xs + ys)[1..] == xs[1..] + ys;
      BagAppend(part, xs[1..], ys);
    }
  }

  lemma BagOne<T>(part: T -> seq<Session>, x: T)
    ensures BagOf(part, [x]) == multiset(part(x))
  {
    assert Flatten(part, [x]) == part(x) + Flatten(part, []);
  }

  /** Enlarging one element by `extra` enlarges the whole by `extra`. */
  lemma BagGrows<T>(part: T -> seq<Session>, xs: seq<T>, i: nat, x: T, extra: Bag)
    requires i < |xs| && multiset(part(x)) == multiset(part(xs[i])) + extra
    ensures BagOf(part, xs[i := x]) == BagOf(part, xs) + extra
  {
    assert xs == xs[..i] + ([xs[i]] + xs[i + 1..]);
    assert xs[i := x] == xs[..i] + ([x] + xs[i + 1..]);
    BagAppend(part, xs[..i], [xs[i]] + xs[i + 1..]);
    BagAppend(part, xs[..i], [x] + xs[i + 1..]);
    BagAppend(part, [xs[i]], xs[i + 1..]);
    BagAppend(part, [x], xs[i + 1..]);
    BagOne(part, xs[i]);
    BagOne(part, x);
  }

  lemma BagPush<T>(part: T -> seq<Session>, xs: seq<T>, x: T)
    ensures BagOf(part, xs + [x]) == BagOf(part, xs) + multiset(part(x))
  {
    BagAppend(part, xs, [x]);
    BagOne(part, x);
  }

  lemma BagCons<T>(part: T -> seq<Session>, keep: bool, x: T, rest: seq<T>)
    ensures BagOf(part, (if keep then [x] else []) + rest) == (if keep then multiset(part(x)) else multiset{}) + BagOf(part, rest)
  {
    if keep {
      BagAppend(part, [x], rest);
      BagOne(part, x);
    } else {
      assert [] + rest == rest;
    }
  }

  lemma BagNext<T>(part: T -> seq<Session>, xs: seq<T>, k: nat)
    requires k < |xs|
    ensures BagOf(part, xs[..k + 1]) == BagOf(part, xs[..k]) + multiset(part(xs[k]))
  {
    assert xs[..k + 1] == xs[..k] + [xs[k]];
    BagPush(part, xs[..k], xs[k]);
  }

  lemma WithoutOne<T>(xs: seq<T>, j: nat)
    requires j < |xs|
    ensures multiset(xs) == multiset(xs[..j] + xs[j + 1..]) + multiset{xs[j]}
  {
    assert xs == xs[..j] + [xs[j]] + xs[j + 1..];
  }

  lemma BagCancel<T>(a: multiset<T>, b: multiset<T>, c: multiset<T>)
    requires a + c == b + c
    ensures a == b
  {
    assert a == (a + c) - c;
    assert b == (b + c) - c;
  }

  lemma BagAssoc(a: Bag, b: Bag, c: Bag)
    ensures (a + b) + c == a + (b + c)
  {
  }

  /** Putting one more element before two disjoint selections and their union. */
  lemma BagSplit<T>(part: T -> seq<Session>, a: bool, b: bool, x: T, left: seq<T>, right: seq<T>, both: seq<T>)
    requires !(a && b) && BagOf(part, both) == BagOf(part, left) + BagOf(part, right)
    ensures BagOf(part, (if a || b then [x] else []) + both)
            == BagOf(part, (if a then [x] else []) + left) + BagOf(part, (if b then [x] else []) + right)
  {
    BagCons(part, a || b, x, both);
    BagCons(part, a, x, left);
    BagCons(part, b, x, right);
    var one := multiset(part(x));
    if a { BagInterleave(one, multiset{}, BagOf(part, left), BagOf(part, right)); }
    else if b { BagInterleave(multiset{}, one, BagOf(part, left), BagOf(part, right)); }
  }

  lemma BagInterleave(a: Bag, b: Bag, c: Bag, d: Bag)
    ensures (a + b) + (c + d) == (a + c) + (b + d)
  {
  }

  /** Removing an occurrence of the first element leaves a reordering of the rest. */
  lemma RestPermuted<T>(xs: seq<T>, ys: seq<T>) returns (j: nat)
    requires xs != [] && multiset(xs) == multiset(ys)
    ensures j < |ys| && ys[j] == xs[0]
    ensures multiset(xs[1..]) == multiset(ys[..j] + ys[j + 1..])
  {
    assert xs[0] in multiset(ys);
    j :| 0 <= j < |ys| && ys[j] == xs[0];
    WithoutOne(ys, j);
    WithoutOne(xs, 0);
    assert xs[..0] + xs[1..] == xs[1..];
    BagCancel(multiset(xs[1..]), multiset(ys[..j] + ys[j + 1..]), multiset{xs[0]});
  }

  /** Reordering elements reorders sessions. */
  lemma {:induction false} BagPermuted<T>(part: T -> seq<Session>, xs: seq<T>, ys: seq<T>)
    requires multiset(xs) == multiset(ys)
    ensures BagOf(part, xs) == BagOf(part, ys)
    decreases |xs|
  {
    if xs == [] {
      assert |multiset(ys)| == 0;
    } else {
      var x := xs[0];
      var j := RestPermuted(xs, ys);
      BagPermuted(part, xs[1..], ys[..j] + ys[j + 1..]);
      assert ys == ys[..j] + ([x] + ys[j + 1..]);
      BagAppend(part, ys[..j], [x] + ys[j + 1..]);
      BagAppend(part, [x], ys[j + 1..]);
      BagAppend(part, ys[..j], ys[j + 1..]);
      assert xs == [x] + xs[1..];
      BagAppend(part, [x], xs[1..]);
    }
  }

  lemma {:induction false} BagPointwise<T, U>(part: T -> seq<Session>, xs: seq<T>, other: U -> seq<Session>, ys: seq<U>)
    requires |xs| == |ys| && forall i :: 0 <= i < |xs| ==> multiset(part(xs[i])) == multiset(other(ys[i]))
    ensures BagOf(part, xs) == BagOf(other, ys)
  {
    if xs != [] {
      assert multiset(part(xs[0])) == multiset(other(ys[0]));
      BagPointwise(part, xs[1..], other, ys[1..]);
    }
  }

  // ---------------------------------------------------------------- accumulators

  datatype Leaf = Leaf(key: string, doc: Doc, seats: seq<Session>)
  datatype Master = Master(doc: Doc, ref: DocRef, manager: Option<Session>, leaves: seq<Leaf>, completed: seq<Session>)
  datatype Sprint = Sprint(doc: Doc, ref: DocRef, seats: seq<Session>)

  /** Maps of the source are kept as lists in insertion order, searched by key. */
  datatype Rail = Rail(
    docs: map<string, Doc>,
    masters: seq<Master>,
    sprints: seq<Sprint>,
    unattached: seq<Session>,
    completedUnattached: seq<Session>)

  function LeafKey(leaf: Leaf): string { leaf.key }
  function LeafSeats(leaf: Leaf): seq<Session> { leaf.seats }
  function SprintSeats(sprint: Sprint): seq<Session> { sprint.seats }

  function ManagerSeat(manager: Option<Session>): seq<Session> {
    if manager.Some? then [manager.value] else []
  }

  function MasterLive(master: Master): seq<Session> {
    ManagerSeat(master.manager) + Flatten(LeafSeats, master.leaves)
  }

  function MasterCompleted(master: Master): seq<Session> { master.completed }

  /** Sessions in slots for live rows, and sessions in completed lists. */
  function Live(rail: Rail): Bag {
    BagOf(SprintSeats, rail.sprints) + BagOf(MasterLive, rail.masters) + multiset(rail.unattached)
  }

  function Completed(rail: Rail): Bag {
    BagOf(MasterCompleted, rail.masters) + multiset(rail.completedUnattached)
  }

  function MasterAt(masters: seq<Master>, path: string): (i: nat)
    ensures i <= |masters| && (i < |masters| ==> masters[i].ref.path == path)
    ensures forall j :: 0 <= j < i ==> masters[j].ref.path != path
  {
    if masters == [] || masters[0].ref.path == path then 0 else 1 + MasterAt(masters[1..], path)
  }

  function SprintAt(sprints: seq<Sprint>, key: string): (i: nat)
    ensures i <= |sprints| && (i < |sprints| ==> DocumentKey(sprints[i].ref) == key)
    ensures i == |sprints| ==> forall j :: 0 <= j < |sprints| ==> DocumentKey(sprints[j].ref) != key
  {
    if sprints == [] || DocumentKey(sprints[0].ref) == key then 0 else 1 + SprintAt(sprints[1..], key)
  }

  function LeafAt(leaves: seq<Leaf>, key: string): (i: nat)
    ensures i <= |leaves| && (i < |leaves| ==> leaves[i].key == key)
    ensures forall j :: 0 <= j < i ==> leaves[j].key != key
  {
    if leaves == [] || leaves[0].key == key then 0 else 1 + LeafAt(leaves[1..], key)
  }

  function AppendDetached(rail: Rail, s: Session): Rail {
    if s.status == Landed then rail.(completedUnattached := rail.completedUnattached + [s])
    else rail.(unattached := rail.unattached + [s])
  }

  function AttachSprintSeat(rail: Rail, s: Session, ref: DocRef): Rail {
    var i := SprintAt(rail.sprints, DocumentKey(ref));
    if i == |rail.sprints| || s.status == Landed then rail.(completedUnattached := rail.completedUnattached + [s])
    else rail.(sprints := rail.sprints[i := rail.sprints[i].(seats := rail.sprints[i].seats + [s])])
  }

  function AttachManagerSeat(rail: Rail, s: Session, ref: DocRef): Rail {
    var i := MasterAt(rail.masters, ref.path);
    if i == |rail.masters| then AppendDetached(rail, s)
    else
      var master := rail.masters[i];
      if s.status == Landed then rail.(masters := rail.masters[i := master.(completed := master.completed + [s])])
      else if master.manager.None? then rail.(masters := rail.masters[i := master.(manager := Some(s))])
      else rail.(unattached := rail.unattached + [s])
  }

  function SeatOnLeaf(leaves: seq<Leaf>, doc: Doc, key: string, s: Session): seq<Leaf> {
    var j := LeafAt(leaves, key);
    if j == |leaves| then leaves + [Leaf(key, doc, [s])] else leaves[j := leaves[j].(seats := leaves[j].seats + [s])]
  }

  function AttachLeafSeat(rail: Rail, s: Session, doc: Doc, ref: DocRef): Rail {
    var i := if doc.ref.Some? then MasterAt(rail.masters, MasterPath(doc.ref.value)) else |rail.masters|;
    if i == |rail.masters| then AppendDetached(rail, s)
    else
      var master := rail.masters[i];
      if s.status == Landed then rail.(masters := rail.masters[i := master.(completed := master.completed + [s])])
      else rail.(masters := rail.masters[i := master.(leaves := SeatOnLeaf(master.leaves, doc, DocumentKey(ref), s))])
  }

  function AttachSession(rail: Rail, s: Session): Rail {
    if s.ref.None? || DocumentKey(s.ref.value) !in rail.docs then AppendDetached(rail, s)
    else
      var ref := s.ref.value;
      var doc := rail.docs[DocumentKey(ref)];
      if IsOrchestration(doc) && s.role in SPRINT_ROLES then AttachSprintSeat(rail, s, ref)
      else if doc.isMaster && !IsOrchestration(doc) && s.role == "manager" then AttachManagerSeat(rail, s, ref)
      else if !doc.isMaster && s.role in LEAF_ROLES then AttachLeafSeat(rail, s, doc, ref)
      else AppendDetached(rail, s)
  }

  /** Every orchestration document has its sprint, so a sprint seat is never mistaken for completed. */
  ghost predicate SprintsIndexed(rail: Rail) {
    forall key :: key in rail.docs && IsOrchestration(rail.docs[key]) ==> SprintAt(rail.sprints, key) < |rail.sprints|
  }

  /** One session goes to exactly one slot, a completed one exactly when it has landed. */
  ghost predicate Placed(before: Rail, after: Rail, s: Session) {
    && Live(after) == Live(before) + (if s.status == Landed then multiset{} else multiset{s})
    && Completed(after) == Completed(before) + (if s.status == Landed then multiset{s} else multiset{})
    && after.docs == before.docs
    && |after.sprints| == |before.sprints|
    && (forall i :: 0 <= i < |before.sprints| ==> after.sprints[i].ref == before.sprints[i].ref)
  }

  lemma DetachedPlaced(rail: Rail, s: Session)
    ensures Placed(rail, AppendDetached(rail, s), s)
  {
  }

  lemma SprintGrowsLive(rail: Rail, i: nat, sprint: Sprint, extra: Bag)
    requires i < |rail.sprints| && multiset(sprint.seats) == multiset(rail.sprints[i].seats) + extra
    ensures Live(rail.(sprints := rail.sprints[i := sprint])) == Live(rail) + extra
  {
    BagGrows(SprintSeats, rail.sprints, i, sprint, extra);
  }

  lemma SprintTakes(rail: Rail, i: nat, s: Session)
    requires i < |rail.sprints| && s.status != Landed
    ensures Placed(rail, rail.(sprints := rail.sprints[i := rail.sprints[i].(seats := rail.sprints[i].seats + [s])]), s)
  {
    SprintGrowsLive(rail, i, rail.sprints[i].(seats := rail.sprints[i].seats + [s]), multiset{s});
  }

  lemma SprintSeatPlaced(rail: Rail, s: Session, ref: DocRef)
    requires SprintAt(rail.sprints, DocumentKey(ref)) < |rail.sprints|
    ensures Placed(rail, AttachSprintSeat(rail, s, ref), s)
  {
    if s.status == Landed { DetachedPlaced(rail, s); }
    else { SprintTakes(rail, SprintAt(rail.sprints, DocumentKey(ref)), s); }
  }

  lemma MasterGrowsLive(rail: Rail, i: nat, master: Master, extra: Bag)
    requires i < |rail.masters| && multiset(MasterLive(master)) == multiset(MasterLive(rail.masters[i])) + extra
    ensures Live(rail.(masters := rail.masters[i := master])) == Live(rail) + extra
  {
    BagGrows(MasterLive, rail.masters, i, master, extra);
  }

  lemma MasterGrowsCompleted(rail: Rail, i: nat, master: Master, extra: Bag)
    requires i < |rail.masters| && multiset(master.completed) == multiset(rail.masters[i].completed) + extra
    ensures Completed(rail.(masters := rail.masters[i := master])) == Completed(rail) + extra
  {
    BagGrows(MasterCompleted, rail.masters, i, master, extra);
  }

  /** A landed session goes to the completed list of its master. */
  lemma MasterCompletes(rail: Rail, i: nat, s: Session)
    requires i < |rail.masters| && s.status == Landed
    ensures Placed(rail, rail.(masters := rail.masters[i := rail.masters[i].(completed := rail.masters[i].completed + [s])]), s)
  {
    var master := rail.masters[i].(completed := rail.masters[i].completed + [s]);
    MasterGrowsLive(rail, i, master, multiset{});
    MasterGrowsCompleted(rail, i, master, multiset{s});
  }

  /** A master that gains `s` as a manager or a leaf seat, and is otherwise the same, places `s`. */
  lemma MasterSeats(rail: Rail, i: nat, master: Master, s: Session)
    requires i < |rail.masters| && s.status != Landed
    requires multiset(MasterLive(master)) == multiset(MasterLive(rail.masters[i])) + multiset{s}
    requires master.completed == rail.masters[i].completed
    ensures Placed(rail, rail.(masters := rail.masters[i := master]), s)
  {
    MasterGrowsLive(rail, i, master, multiset{s});
    MasterGrowsCompleted(rail, i, master, multiset{});
  }

  lemma ManagerSeatPlaced(rail: Rail, s: Session, ref: DocRef)
    ensures Placed(rail, AttachManagerSeat(rail, s, ref), s)
  {
    var i := MasterAt(rail.masters, ref.path);
    if i == |rail.masters| {
      DetachedPlaced(rail, s);
    } else {
      var master := rail.masters[i];
      if s.status == Landed {
        MasterCompletes(rail, i, s);
      } else if master.manager.None? {
        MasterSeats(rail, i, master.(manager := Some(s)), s);
      }
    }
  }

  lemma LeafGrows(leaves: seq<Leaf>, doc: Doc, key: string, s: Session)
    ensures BagOf(LeafSeats, SeatOnLeaf(leaves, doc, key, s)) == BagOf(LeafSeats, leaves) + multiset{s}
  {
    var j := LeafAt(leaves, key);
    if j == |leaves| {
      BagPush(LeafSeats, leaves, Leaf(key, doc, [s]));
    } else {
      BagGrows(LeafSeats, leaves, j, leaves[j].(seats := leaves[j].seats + [s]), multiset{s});
    }
  }

  lemma LeafSeatPlaced(rail: Rail, s: Session, doc: Doc, ref: DocRef)
    ensures Placed(rail, AttachLeafSeat(rail, s, doc, ref), s)
  {
    var i := if doc.ref.Some? then MasterAt(rail.masters, MasterPath(doc.ref.value)) else |rail.masters|;
    if i == |rail.masters| {
      DetachedPlaced(rail, s);
    } else {
      var master := rail.masters[i];
      if s.status == Landed {
        MasterCompletes(rail, i, s);
      } else {
        LeafGrows(master.leaves, doc, DocumentKey(ref), s);
        MasterSeats(rail, i, master.(leaves := SeatOnLeaf(master.leaves, doc, DocumentKey(ref), s)), s);
      }
    }
  }

  lemma SessionPlaced(rail: Rail, s: Session)
    requires SprintsIndexed(rail)
    ensures Placed(rail, AttachSession(rail, s), s)
    ensures SprintsIndexed(AttachSession(rail, s))
  {
    var next := AttachSession(rail, s);
    if s.ref.None? || DocumentKey(s.ref.value) !in rail.docs {
      DetachedPlaced(rail, s);
    } else {
      var ref := s.ref.value;
      var doc := rail.docs[DocumentKey(ref)];
      if IsOrchestration(doc) && s.role in SPRINT_ROLES { SprintSeatPlaced(rail, s, ref); }
      else if doc.isMaster && !IsOrchestration(doc) && s.role == "manager" { ManagerSeatPlaced(rail, s, ref); }
      else if !doc.isMaster && s.role in LEAF_ROLES { LeafSeatPlaced(rail, s, doc, ref); }
      else { DetachedPlaced(rail, s); }
    }
    forall key | key in next.docs && IsOrchestration(next.docs[key]) ensures SprintAt(next.sprints, key) < |next.sprints| {
      var i := SprintAt(rail.sprints, key);
      assert next.sprints[i].ref == rail.sprints[i].ref;
    }
  }

  // ---------------------------------------------------------------- seating

  /** The three kinds of seat a document and a role entitle to. */
  predicate WantsSprint(docs: map<string, Doc>, s: Session) {
    s.ref.Some? && DocumentKey(s.ref.value) in docs && IsOrchestration(docs[DocumentKey(s.ref.value)]) && s.role in SPRINT_ROLES
  }

  predicate WantsManager(docs: map<string, Doc>, s: Session) {
    && s.ref.Some? && DocumentKey(s.ref.value) in docs && s.role == "manager"
    && docs[DocumentKey(s.ref.value)].isMaster && !IsOrchestration(docs[DocumentKey(s.ref.value)])
  }

  predicate WantsLeaf(docs: map<string, Doc>, s: Session) {
    s.ref.Some? && DocumentKey(s.ref.value) in docs && !docs[DocumentKey(s.ref.value)].isMaster && s.role in LEAF_ROLES
  }

  ghost predicate SprintSeated(docs: map<string, Doc>, ref: DocRef, seats: seq<Session>) {
    forall s :: s in seats ==> WantsSprint(docs, s) && DocumentKey(s.ref.value) == DocumentKey(ref)
  }

  ghost predicate ManagerSeated(docs: map<string, Doc>, ref: DocRef, manager: Option<Session>) {
    manager.Some? ==> WantsManager(docs, manager.value) && manager.value.ref.value.path == ref.path
  }

  ghost predicate LeafSeated(docs: map<string, Doc>, master: DocRef, key: string, doc: Doc, seats: seq<Session>) {
    && key in docs && docs[key] == doc
    && (doc.ref.Some? ==> MasterPath(doc.ref.value) == master.path)
    && forall s :: s in seats ==> WantsLeaf(docs, s) && DocumentKey(s.ref.value) == key
  }

  /** The path of the master whose completed list a landed session belongs to: that of the document it managed,
      or the master of the leaf it worked on. */
  function HomePath(docs: map<string, Doc>, s: Session): Option<string> {
    if WantsManager(docs, s) then Some(s.ref.value.path)
    else if WantsLeaf(docs, s) && docs[DocumentKey(s.ref.value)].ref.Some?
    then Some(MasterPath(docs[DocumentKey(s.ref.value)].ref.value)) else None
  }

  ghost predicate CompletedAt(docs: map<string, Doc>, master: DocRef, completed: seq<Session>) {
    forall s :: s in completed ==> s.status == Landed && HomePath(docs, s) == Some(master.path)
  }

  ghost predicate MasterSeated(docs: map<string, Doc>, master: Master) {
    && ManagerSeated(docs, master.ref, master.manager)
    && CompletedAt(docs, master.ref, master.completed)
    && DistinctBy(master.leaves, LeafKey)
    && forall leaf :: leaf in master.leaves ==> LeafSeated(docs, master.ref, leaf.key, leaf.doc, leaf.seats)
  }

  /** No seat the session is entitled to exists, or the one there is belongs to an earlier manager. */
  ghost predicate Unseatable(docs: map<string, Doc>, masters: seq<Master>, s: Session) {
    && !WantsSprint(docs, s)
    && (WantsManager(docs, s) ==>
          var i := MasterAt(masters, s.ref.value.path);
          i < |masters| ==> masters[i].manager.Some?)
    && (WantsLeaf(docs, s) ==>
          var doc := docs[DocumentKey(s.ref.value)];
          doc.ref.Some? ==> MasterAt(masters, MasterPath(doc.ref.value)) == |masters|)
  }

  /** A landed session without a master of its own. */
  ghost predicate CompletedLoosely(docs: map<string, Doc>, masters: seq<Master>, s: Session) {
    s.status == Landed && (HomePath(docs, s).Some? ==> MasterAt(masters, HomePath(docs, s).value) == |masters|)
  }

  /** Every seat is taken by a session entitled to it, only unseatable sessions stay loose, and every completed
      one is with its master if it has one. */
  ghost predicate WellSeated(rail: Rail) {
    && (forall sprint :: sprint in rail.sprints ==> SprintSeated(rail.docs, sprint.ref, sprint.seats))
    && (forall master :: master in rail.masters ==> MasterSeated(rail.docs, master))
    && (forall s :: s in rail.unattached ==> Unseatable(rail.docs, rail.masters, s))
    && (forall s :: s in rail.completedUnattached ==> CompletedLoosely(rail.docs, rail.masters, s))
  }

  lemma MasterAtStable(before: seq<Master>, after: seq<Master>, path: string)
    requires |before| == |after| && forall i :: 0 <= i < |before| ==> before[i].ref.path == after[i].ref.path
    ensures MasterAt(before, path) == MasterAt(after, path)
  {
  }

  /** Filling seats of a master leaves the loose sessions unseatable. */
  lemma StillUnseatable(docs: map<string, Doc>, masters: seq<Master>, i: nat, master: Master, s: Session)
    requires i < |masters| && master.ref == masters[i].ref && (masters[i].manager.Some? ==> master.manager.Some?)
    requires Unseatable(docs, masters, s)
    ensures Unseatable(docs, masters[i := master], s)
  {
    if WantsManager(docs, s) {
      MasterAtStable(masters, masters[i := master], s.ref.value.path);
    }
    if WantsLeaf(docs, s) && docs[DocumentKey(s.ref.value)].ref.Some? {
      MasterAtStable(masters, masters[i := master], MasterPath(docs[DocumentKey(s.ref.value)].ref.value));
    }
  }

  lemma MasterReseated(rail: Rail, i: nat, master: Master)
    requires WellSeated(rail) && i < |rail.masters| && master.ref == rail.masters[i].ref
    requires (rail.masters[i].manager.Some? ==> master.manager.Some?) && MasterSeated(rail.docs, master)
    ensures WellSeated(rail.(masters := rail.masters[i := master]))
  {
    forall s | s in rail.unattached ensures Unseatable(rail.docs, rail.masters[i := master], s) {
      StillUnseatable(rail.docs, rail.masters, i, master, s);
    }
    forall m | m in rail.masters[i := master] ensures MasterSeated(rail.docs, m) {
      assert m == master || m in rail.masters;
    }
    forall s | s in rail.completedUnattached ensures CompletedLoosely(rail.docs, rail.masters[i := master], s) {
      if HomePath(rail.docs, s).Some? { MasterAtStable(rail.masters, rail.masters[i := master], HomePath(rail.docs, s).value); }
    }
  }

  lemma SprintSeatTaken(rail: Rail, s: Session)
    requires WellSeated(rail) && SprintsIndexed(rail) && WantsSprint(rail.docs, s)
    ensures WellSeated(AttachSprintSeat(rail, s, s.ref.value))
  {
    var i := SprintAt(rail.sprints, DocumentKey(s.ref.value));
    if i < |rail.sprints| && s.status != Landed {
      var sprint := rail.sprints[i].(seats := rail.sprints[i].seats + [s]);
      assert rail.sprints[i] in rail.sprints;
      assert SprintSeated(rail.docs, sprint.ref, sprint.seats);
      forall other | other in rail.sprints[i := sprint] ensures SprintSeated(rail.docs, other.ref, other.seats) {
        assert other == sprint || other in rail.sprints;
      }
    }
  }

  lemma ManagerSeatTaken(rail: Rail, s: Session)
    requires WellSeated(rail) && WantsManager(rail.docs, s)
    ensures WellSeated(AttachManagerSeat(rail, s, s.ref.value))
  {
    var i := MasterAt(rail.masters, s.ref.value.path);
    if i < |rail.masters| {
      var master := rail.masters[i];
      assert master in rail.masters;
      if s.status == Landed { MasterReseated(rail, i, master.(completed := master.completed + [s])); }
      else if master.manager.None? { MasterReseated(rail, i, master.(manager := Some(s))); }
    }
  }

  lemma LeafSeatTaken(rail: Rail, s: Session)
    requires WellSeated(rail) && WantsLeaf(rail.docs, s)
    ensures WellSeated(AttachLeafSeat(rail, s, rail.docs[DocumentKey(s.ref.value)], s.ref.value))
  {
    var key := DocumentKey(s.ref.value);
    var doc := rail.docs[key];
    if doc.ref.Some? {
      var i := MasterAt(rail.masters, MasterPath(doc.ref.value));
      if i < |rail.masters| {
        var master := rail.masters[i];
        assert master in rail.masters;
        if s.status == Landed { MasterReseated(rail, i, master.(completed := master.completed + [s])); }
        else {
          var leaves := SeatOnLeaf(master.leaves, doc, key, s);
          forall leaf | leaf in leaves ensures LeafSeated(rail.docs, master.ref, leaf.key, leaf.doc, leaf.seats) {
            var j := LeafAt(master.leaves, key);
            if j < |master.leaves| { assert master.leaves[j] in master.leaves; }
          }
          MasterReseated(rail, i, master.(leaves := leaves));
        }
      }
    }
  }

  /** Attaching one session keeps the seating. */
  lemma SessionSeated(rail: Rail, s: Session)
    requires WellSeated(rail) && SprintsIndexed(rail)
    ensures WellSeated(AttachSession(rail, s))
  {
    if WantsSprint(rail.docs, s) { SprintSeatTaken(rail, s); }
    else if WantsManager(rail.docs, s) { ManagerSeatTaken(rail, s); }
    else if WantsLeaf(rail.docs, s) { LeafSeatTaken(rail, s); }
  }

  /** The seats are those of the ranked roles: a sprint seats whom it ranks, a cluster likewise. */
  lemma RolesAreRanked(role: string)
    ensures role in SPRINT_ROLES <==> SprintRole(role) < 5
    ensures role in LEAF_ROLES <==> ClusterRole(role) < 4
  {
  }

  // ---------------------------------------------------------------- the loops

  /** Nothing is attached yet. */
  predicate Unseated(rail: Rail) {
    && (forall i :: 0 <= i < |rail.sprints| ==> rail.sprints[i].seats == [])
    && (forall i :: 0 <= i < |rail.masters| ==>
          rail.masters[i].manager.None? && rail.masters[i].leaves == [] && rail.masters[i].completed == [])
    && rail.unattached == [] && rail.completedUnattached == []
  }

  lemma {:induction false} NothingFlattened<T>(part: T -> seq<Session>, xs: seq<T>)
    requires forall i :: 0 <= i < |xs| ==> part(xs[i]) == []
    ensures Flatten(part, xs) == []
  {
    if xs != [] { NothingFlattened(part, xs[1..]); }
  }

  lemma UnseatedHoldsNothing(rail: Rail)
    requires Unseated(rail)
    ensures Live(rail) == multiset{} && Completed(rail) == multiset{}
  {
    NothingFlattened(SprintSeats, rail.sprints);
    NothingFlattened(MasterLive, rail.masters);
    NothingFlattened(MasterCompleted, rail.masters);
  }

  lemma SprintAtGrows(sprints: seq<Sprint>, sprint: Sprint, key: string)
    requires SprintAt(sprints, key) < |sprints| || DocumentKey(sprint.ref) == key
    ensures SprintAt(sprints + [sprint], key) < |sprints| + 1
  {
    var i := SprintAt(sprints, key);
    assert (sprints + [sprint])[|sprints|] == sprint;
    if i < |sprints| { assert (sprints + [sprint])[i] == sprints[i]; }
  }

  /** The documents by key; of two with the same key the later one counts. */
  function DocsByKey(documents: seq<Doc>): map<string, Doc> {
    if documents == [] then map[]
    else
      var last := documents[|documents| - 1];
      var rest := DocsByKey(documents[..|documents| - 1]);
      if last.ref.None? then rest else rest[DocumentKey(last.ref.value) := last]
  }

  /** Recording one document: by key, and a master document also by path, an orchestration as a sprint. */
  function AddDocument(rail: Rail, doc: Doc): Rail {
    if doc.ref.None? then rail
    else
      var ref := doc.ref.value;
      var known := rail.(docs := rail.docs[DocumentKey(ref) := doc]);
      if !doc.isMaster then known
      else
        var master := Master(doc, ref, None, [], []);
        var i := MasterAt(rail.masters, ref.path);
        known.(
          masters := if i == |rail.masters| then rail.masters + [master] else rail.masters[i := master],
          sprints := if IsOrchestration(doc) then rail.sprints + [Sprint(doc, ref, [])] else rail.sprints)
  }

  lemma AddDocumentIndexes(rail: Rail, doc: Doc)
    requires SprintsIndexed(rail)
    ensures SprintsIndexed(AddDocument(rail, doc))
  {
    var after := AddDocument(rail, doc);
    if doc.ref.Some? && IsOrchestration(doc) {
      var sprint := Sprint(doc, doc.ref.value, []);
      forall key | key in after.docs && IsOrchestration(after.docs[key]) ensures SprintAt(after.sprints, key) < |after.sprints| {
        SprintAtGrows(rail.sprints, sprint, key);
      }
    }
  }

  /** The master documents by path, whatever their repository; of two with the same path the later counts. */
  function MastersByPath(documents: seq<Doc>): map<string, Doc> {
    if documents == [] then map[]
    else
      var last := documents[|documents| - 1];
      var rest := MastersByPath(documents[..|documents| - 1]);
      if last.ref.None? || !last.isMaster then rest else rest[last.ref.value.path := last]
  }

  /** The accumulators hold one master for each path, that of its document. */
  ghost predicate MastersIndexed(masters: seq<Master>, byPath: map<string, Doc>) {
    forall path :: var i := MasterAt(masters, path);
      (i < |masters| <==> path in byPath) && (i < |masters| ==> masters[i].doc == byPath[path])
  }

  lemma MasterAtGrows(masters: seq<Master>, master: Master, path: string)
    ensures MasterAt(masters + [master], path) ==
            if MasterAt(masters, path) < |masters| || master.ref.path != path then
              (if MasterAt(masters, path) < |masters| then MasterAt(masters, path) else |masters| + 1)
            else |masters|
  {
    var i, all := MasterAt(masters, path), masters + [master];
    assert all[|masters|] == master;
    assert forall j :: 0 <= j < |masters| ==> all[j] == masters[j];
  }

  lemma MasterAtReplaced(masters: seq<Master>, i: nat, master: Master, path: string)
    requires i < |masters| && master.ref.path == masters[i].ref.path
    ensures MasterAt(masters[i := master], path) == MasterAt(masters, path)
  {
    MasterAtStable(masters, masters[i := master], path);
  }

  lemma AddDocumentIndexesMasters(rail: Rail, doc: Doc, byPath: map<string, Doc>)
    requires MastersIndexed(rail.masters, byPath)
    ensures MastersIndexed(AddDocument(rail, doc).masters,
                           if doc.ref.None? || !doc.isMaster then byPath else byPath[doc.ref.value.path := doc])
  {
    if doc.ref.Some? && doc.isMaster {
      var key, master := doc.ref.value.path, Master(doc, doc.ref.value, None, [], []);
      var i := MasterAt(rail.masters, key);
      var after := AddDocument(rail, doc).masters;
      forall path ensures
        var j := MasterAt(after, path);
        (j < |after| <==> path in byPath[key := doc]) && (j < |after| ==> after[j].doc == byPath[key := doc][path])
      {
        if i == |rail.masters| { MasterAtGrows(rail.masters, master, path); } else { MasterAtReplaced(rail.masters, i, master, path); }
      }
    }
  }

  /** The accumulators after these documents, before any session. */
  ghost predicate Loaded(rail: Rail, documents: seq<Doc>) {
    && SprintsIndexed(rail) && Unseated(rail)
    && rail.docs == DocsByKey(documents) && MastersIndexed(rail.masters, MastersByPath(documents))
  }

  lemma LoadedNext(rail: Rail, documents: seq<Doc>, k: nat)
    requires k < |documents| && Loaded(rail, documents[..k])
    ensures Loaded(AddDocument(rail, documents[k]), documents[..k + 1])
  {
    assert documents[..k + 1][..k] == documents[..k];
    AddDocumentIndexes(rail, documents[k]);
    AddDocumentIndexesMasters(rail, documents[k], MastersByPath(documents[..k]));
  }

  method InitializeRailAccumulators(documents: seq<Doc>) returns (rail: Rail)
    ensures SprintsIndexed(rail) && Unseated(rail)
    ensures rail.docs == DocsByKey(documents) && MastersIndexed(rail.masters, MastersByPath(documents))
  {
    rail := Rail(map[], [], [], [], []);
    for k := 0 to |documents|
      invariant Loaded(rail, documents[..k])
    {
      LoadedNext(rail, documents, k);
      rail := AddDocument(rail, documents[k]);
    }
    assert documents[..|documents|] == documents;
  }

  /** The same masters, whoever sits with them. */
  ghost predicate SameMasters(before: seq<Master>, after: seq<Master>) {
    |before| == |after| && forall i :: 0 <= i < |before| ==> after[i].doc == before[i].doc && after[i].ref == before[i].ref
  }

  lemma ManagerKeepsMasters(rail: Rail, s: Session, ref: DocRef)
    ensures SameMasters(rail.masters, AttachManagerSeat(rail, s, ref).masters)
  {
  }

  lemma LeafKeepsMasters(rail: Rail, s: Session, doc: Doc, ref: DocRef)
    ensures SameMasters(rail.masters, AttachLeafSeat(rail, s, doc, ref).masters)
  {
  }

  lemma AttachKeepsMasters(rail: Rail, s: Session)
    ensures SameMasters(rail.masters, AttachSession(rail, s).masters)
  {
    if WantsManager(rail.docs, s) { ManagerKeepsMasters(rail, s, s.ref.value); }
    else if WantsLeaf(rail.docs, s) { LeafKeepsMasters(rail, s, rail.docs[DocumentKey(s.ref.value)], s.ref.value); }
  }

  lemma IndexKept(before: seq<Master>, after: seq<Master>, byPath: map<string, Doc>)
    requires MastersIndexed(before, byPath) && SameMasters(before, after)
    ensures MastersIndexed(after, byPath)
  {
    forall path ensures
      var i := MasterAt(after, path);
      (i < |after| <==> path in byPath) && (i < |after| ==> after[i].doc == byPath[path])
    {
      MasterAtStable(before, after, path);
    }
  }

  /** The rail holds the first k sessions. */
  ghost predicate Holds(rail: Rail, sessions: seq<Session>, k: nat)
    requires k <= |sessions|
  {
    Live(rail) == multiset(LiveOnes(sessions[..k])) && Completed(rail) == multiset(LandedOnes(sessions[..k]))
  }

  lemma HoldsNext(rail: Rail, after: Rail, sessions: seq<Session>, k: nat)
    requires k < |sessions| && Holds(rail, sessions, k)
    requires if sessions[k].status == Terminated then after == rail else Placed(rail, after, sessions[k])
    ensures Holds(after, sessions, k + 1)
  {
    assert sessions[..k + 1][..k] == sessions[..k];
  }

  /** The attaching loop: every session shown is placed, by its landing, and no other. */
  method AttachAll(initial: Rail, sessions: seq<Session>) returns (rail: Rail)
    requires SprintsIndexed(initial) && Unseated(initial)
    ensures Live(rail) == multiset(LiveOnes(sessions))
    ensures Completed(rail) == multiset(LandedOnes(sessions))
    ensures rail.docs == initial.docs && SameMasters(initial.masters, rail.masters) && WellSeated(rail)
  {
    rail := initial;
    UnseatedHoldsNothing(rail);
    for k := 0 to |sessions|
      invariant SprintsIndexed(rail) && rail.docs == initial.docs && WellSeated(rail)
      invariant SameMasters(initial.masters, rail.masters)
      invariant Holds(rail, sessions, k)
    {
      ghost var before := rail;
      if sessions[k].status != Terminated {
        SessionPlaced(rail, sessions[k]);
        SessionSeated(rail, sessions[k]);
        AttachKeepsMasters(rail, sessions[k]);
        rail := AttachSession(rail, sessions[k]);
      }
      HoldsNext(before, rail, sessions, k);
    }
    assert sessions[..|sessions|] == sessions;
  }
}
