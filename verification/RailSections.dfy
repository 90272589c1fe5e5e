/**
 From accumulators to the rail itself (materializeRailSections, buildRailModel and railCycleOrder in
 dashboard/src/data/railModel.ts).

 Masters without content are hidden, every other master is homed at the first sprint that names it or at
 the top level, sprints without content are hidden, and everything is sorted. The collation of strings
 and whether a seat is working are parameters.
 */
module RailSections {
  import opened Prelude
  import opened Sessions
  import opened RailModel
  import opened Sorting

  // ---------------------------------------------------------------- the rail

  datatype Cluster = Cluster(key: string, doc: Doc, seats: seq<Session>)

  datatype MasterSection = MasterSection(
    key: string,
    doc: Doc,
    ref: DocRef,
    manager: Option<Session>,
    clusters: seq<Cluster>,
    completed: seq<Session>)

  datatype SprintSection = SprintSection(key: string, doc: Doc, ref: DocRef, seats: seq<Session>, masters: seq<MasterSection>)

  datatype Model = Model(
    sprints: seq<SprintSection>,
    masters: seq<MasterSection>,
    unattached: seq<Session>,
    completedUnattached: seq<Session>,
    completedTotal: nat)

  function ClusterKey(cluster: Cluster): string { cluster.key }
  function ClusterSeats(cluster: Cluster): seq<Session> { cluster.seats }

  function SectionLive(section: MasterSection): seq<Session> {
    ManagerSeat(section.manager) + Flatten(ClusterSeats, section.clusters)
  }

  function SectionCompleted(section: MasterSection): seq<Session> { section.completed }

  function SprintLive(sprint: SprintSection): seq<Session> {
    sprint.seats + Flatten(SectionLive, sprint.masters)
  }

  function SprintCompleted(sprint: SprintSection): seq<Session> {
    Flatten(SectionCompleted, sprint.masters)
  }

  /** The live rows of the rail from top to bottom. */
  function LiveRows(model: Model): seq<Session> {
    Flatten(SprintLive, model.sprints) + Flatten(SectionLive, model.masters) + model.unattached
  }

  function CompletedRows(model: Model): seq<Session> {
    Flatten(SectionCompleted, model.masters) + Flatten(SprintCompleted, model.sprints) + model.completedUnattached
  }

  // ---------------------------------------------------------------- comparators

  /** `collate` stands for a negative localeCompare, `working` for a seat shown as working. */
  datatype Orders = Orders(collate: (string, string) -> bool, working: Session -> bool)

  function SessionId(s: Session): string { s.id }
  function LeafPath(leaf: Leaf): string { leaf.doc.docPath }
  function MasterDocPath(master: Master): string { master.doc.docPath }
  function BundlePath(bundle: Bundle): string { bundle.sprint.doc.docPath }

  function SprintRank(s: Session): int { SprintRole(s.role) }
  function ClusterRank(s: Session): int { ClusterRole(s.role) }

  function RunningRank(s: Session): int { if s.status == Running then 0 else 1 }
  function WorkingRank(working: Session -> bool): Session -> int { (s: Session) => if working(s) then 0 else 1 }

  function LandedOrder(o: Orders): (Session, Session) -> bool { ByKey(SessionId, o.collate) }
  function SprintSeatOrder(o: Orders): (Session, Session) -> bool { ByRank(SprintRank, LandedOrder(o)) }
  function ClusterSeatOrder(o: Orders): (Session, Session) -> bool { ByRank(WorkingRank(o.working), ByRank(ClusterRank, LandedOrder(o))) }
  function LooseOrder(o: Orders): (Session, Session) -> bool { ByRank(RunningRank, LandedOrder(o)) }

  /** The comparators of the rail are consistent whenever the collation is. */
  lemma ComparatorsOrder(o: Orders)
    requires StrictWeakOrder(o.collate)
    ensures StrictWeakOrder(LandedOrder(o)) && StrictWeakOrder(SprintSeatOrder(o))
    ensures StrictWeakOrder(ClusterSeatOrder(o)) && StrictWeakOrder(LooseOrder(o))
  {
    ByKeyOrders(SessionId, o.collate);
    ByRankOrders(SprintRank, LandedOrder(o));
    ByRankOrders(ClusterRank, LandedOrder(o));
    ByRankOrders(WorkingRank(o.working), ByRank(ClusterRank, LandedOrder(o)));
    ByRankOrders(RunningRank, LandedOrder(o));
  }

  // ---------------------------------------------------------------- one master

  function Clusters(leaves: seq<Leaf>, seatOrder: (Session, Session) -> bool): seq<Cluster> {
    seq(|leaves|, i requires 0 <= i < |leaves| => Cluster(leaves[i].key, leaves[i].doc, Sort(leaves[i].seats, seatOrder)))
  }

  function MaterializeMaster(master: Master, orders: Orders): MasterSection {
    MasterSection(
      DocumentKey(master.ref),
      master.doc,
      master.ref,
      master.manager,
      Clusters(Sort(master.leaves, ByKey(LeafPath, orders.collate)), ClusterSeatOrder(orders)),
      Sort(master.completed, LandedOrder(orders)))
  }

  lemma ClustersKeep(leaves: seq<Leaf>, orders: Orders)
    ensures BagOf(ClusterSeats, Clusters(Sort(leaves, ByKey(LeafPath, orders.collate)), ClusterSeatOrder(orders))) == BagOf(LeafSeats, leaves)
  {
    var sorted := Sort(leaves, ByKey(LeafPath, orders.collate));
    var clusters := Clusters(sorted, ClusterSeatOrder(orders));
    forall i | 0 <= i < |sorted| ensures multiset(ClusterSeats(clusters[i])) == multiset(LeafSeats(sorted[i])) {
      SortPermutes(sorted[i].seats, ClusterSeatOrder(orders));
    }
    BagPointwise(ClusterSeats, clusters, LeafSeats, sorted);
    SortPermutes(leaves, ByKey(LeafPath, orders.collate));
    BagPermuted(LeafSeats, sorted, leaves);
  }

  lemma MasterKeeps(master: Master, orders: Orders)
    ensures multiset(SectionLive(MaterializeMaster(master, orders))) == multiset(MasterLive(master))
    ensures multiset(SectionCompleted(MaterializeMaster(master, orders))) == multiset(MasterCompleted(master))
  {
    ClustersKeep(master.leaves, orders);
    SortPermutes(master.completed, LandedOrder(orders));
  }

  function MasterSections(masters: seq<Master>, orders: Orders): seq<MasterSection> {
    var sorted := Sort(masters, ByKey(MasterDocPath, orders.collate));
    seq(|sorted|, i requires 0 <= i < |sorted| => MaterializeMaster(sorted[i], orders))
  }

  lemma SectionsKeep(masters: seq<Master>, orders: Orders)
    ensures BagOf(SectionLive, MasterSections(masters, orders)) == BagOf(MasterLive, masters)
    ensures BagOf(SectionCompleted, MasterSections(masters, orders)) == BagOf(MasterCompleted, masters)
  {
    var sorted := Sort(masters, ByKey(MasterDocPath, orders.collate));
    var sections := MasterSections(masters, orders);
    SortPermutes(masters, ByKey(MasterDocPath, orders.collate));
    forall i | 0 <= i < |sorted|
      ensures multiset(SectionLive(sections[i])) == multiset(MasterLive(sorted[i]))
      ensures multiset(SectionCompleted(sections[i])) == multiset(MasterCompleted(sorted[i]))
    {
      MasterKeeps(sorted[i], orders);
    }
    BagPointwise(SectionLive, sections, MasterLive, sorted);
    BagPointwise(SectionCompleted, sections, MasterCompleted, sorted);
    BagPermuted(MasterLive, sorted, masters);
    BagPermuted(MasterCompleted, sorted, masters);
  }

  // ---------------------------------------------------------------- homes

  predicate HasContent(master: Master) {
    master.manager.Some? || |master.leaves| > 0 || |master.completed| > 0
  }

  function VisibleMasters(masters: seq<Master>): seq<Master> {
    if masters == [] then []
    else (if HasContent(masters[0]) then [masters[0]] else []) + VisibleMasters(masters[1..])
  }

  /** Hiding an empty master hides no session. */
  lemma {:induction false} VisibleKeep(part: Master -> seq<Session>, masters: seq<Master>)
    requires forall m :: m in masters && !HasContent(m) ==> part(m) == []
    ensures BagOf(part, VisibleMasters(masters)) == BagOf(part, masters)
  {
    if masters != [] {
      VisibleKeep(part, masters[1..]);
      BagCons(part, HasContent(masters[0]), masters[0], VisibleMasters(masters[1..]));
    }
  }

  predicate Names(sprint: Doc, master: Doc) {
    && sprint.repository == master.repository
    && sprint.docPath != master.docPath
    && exists name :: name in sprint.orchestrates && name in master.commandNames
  }

  /** The first sprint whose document names the master. */
  function SprintForMaster(master: Doc, sprints: seq<Sprint>): (i: nat)
    ensures i <= |sprints|
    ensures i < |sprints| ==> Names(sprints[i].doc, master)
    ensures forall j :: 0 <= j < i ==> !Names(sprints[j].doc, master)
  {
    if sprints == [] || Names(sprints[0].doc, master) then 0 else 1 + SprintForMaster(master, sprints[1..])
  }

  type Homes = map<string, nat>

  function Home(homes: Homes, master: Master): Option<nat> {
    var key := DocumentKey(master.ref);
    if key in homes then Some(homes[key]) else None
  }

  function Homeless(masters: seq<Master>, homes: Homes): seq<Master> {
    if masters == [] then []
    else (if Home(homes, masters[0]).None? then [masters[0]] else []) + Homeless(masters[1..], homes)
  }

  function HomedAt(masters: seq<Master>, homes: Homes, i: nat): seq<Master> {
    if masters == [] then []
    else (if Home(homes, masters[0]) == Some(i) then [masters[0]] else []) + HomedAt(masters[1..], homes, i)
  }

  function HomedBelow(masters: seq<Master>, homes: Homes, n: nat): seq<Master> {
    if masters == [] then []
    else
      var home := Home(homes, masters[0]);
      (if home.Some? && home.value < n then [masters[0]] else []) + HomedBelow(masters[1..], homes, n)
  }

  lemma {:induction false} VisibleMembers(masters: seq<Master>)
    ensures forall m :: m in VisibleMasters(masters) <==> m in masters && HasContent(m)
  {
    if masters != [] { VisibleMembers(masters[1..]); }
  }

  lemma {:induction false} HomelessMembers(masters: seq<Master>, homes: Homes)
    ensures forall m :: m in Homeless(masters, homes) <==> m in masters && Home(homes, m).None?
  {
    if masters != [] { HomelessMembers(masters[1..], homes); }
  }

  lemma {:induction false} HomedMembers(masters: seq<Master>, homes: Homes, i: nat)
    ensures forall m :: m in HomedAt(masters, homes, i) <==> m in masters && Home(homes, m) == Some(i)
  {
    if masters != [] { HomedMembers(masters[1..], homes, i); }
  }

  lemma {:induction false} HomedNext(part: Master -> seq<Session>, masters: seq<Master>, homes: Homes, n: nat)
    ensures BagOf(part, HomedBelow(masters, homes, n + 1)) == BagOf(part, HomedBelow(masters, homes, n)) + BagOf(part, HomedAt(masters, homes, n))
  {
    if masters != [] {
      var home, rest := Home(homes, masters[0]), masters[1..];
      HomedNext(part, rest, homes, n);
      BagSplit(part, home.Some? && home.value < n, home == Some(n), masters[0],
               HomedBelow(rest, homes, n), HomedAt(rest, homes, n), HomedBelow(rest, homes, n + 1));
    }
  }

  lemma {:induction false} HomedNone(masters: seq<Master>, homes: Homes)
    ensures HomedBelow(masters, homes, 0) == []
  {
    if masters != [] { HomedNone(masters[1..], homes); }
  }

  /** A master is homed at a sprint or at the top level, never both. */
  lemma {:induction false} HomedOrHomeless(part: Master -> seq<Session>, masters: seq<Master>, homes: Homes, n: nat)
    requires forall key :: key in homes ==> homes[key] < n
    ensures BagOf(part, masters) == BagOf(part, HomedBelow(masters, homes, n)) + BagOf(part, Homeless(masters, homes))
  {
    if masters != [] {
      var home, rest := Home(homes, masters[0]), masters[1..];
      assert home.Some? ==> home.value < n;
      HomedOrHomeless(part, rest, homes, n);
      BagSplit(part, home.Some? && home.value < n, home.None?, masters[0], HomedBelow(rest, homes, n), Homeless(rest, homes), rest);
      assert masters == [masters[0]] + rest;
    }
  }

  // ---------------------------------------------------------------- sprints

  /** A sprint with the keys of the masters it named and the masters homed at it. */
  datatype Bundle = Bundle(sprint: Sprint, named: set<string>, masters: seq<Master>)

  function BundleLive(bundle: Bundle): seq<Session> { bundle.sprint.seats + Flatten(MasterLive, bundle.masters) }
  function BundleCompleted(bundle: Bundle): seq<Session> { Flatten(MasterCompleted, bundle.masters) }

  function Bundles(sprints: seq<Sprint>, named: seq<set<string>>, masters: seq<Master>, homes: Homes, n: nat): (r: seq<Bundle>)
    requires |named| == |sprints| && n <= |sprints|
    ensures |r| == n && forall i :: 0 <= i < n ==> r[i] == Bundle(sprints[i], named[i], HomedAt(masters, homes, i))
  {
    seq(n, i requires 0 <= i < n => Bundle(sprints[i], named[i], HomedAt(masters, homes, i)))
  }

  lemma BundlesNext(part: Bundle -> seq<Session>, sprints: seq<Sprint>, named: seq<set<string>>, masters: seq<Master>, homes: Homes, n: nat)
    requires |named| == |sprints| && n < |sprints|
    ensures BagOf(part, Bundles(sprints, named, masters, homes, n + 1))
            == BagOf(part, Bundles(sprints, named, masters, homes, n)) + multiset(part(Bundle(sprints[n], named[n], HomedAt(masters, homes, n))))
  {
    var all := Bundles(sprints, named, masters, homes, n + 1);
    assert all[..n] == Bundles(sprints, named, masters, homes, n) && all[..n + 1] == all;
    BagNext(part, all, n);
  }

  lemma BundleNextLive(sprints: seq<Sprint>, named: seq<set<string>>, masters: seq<Master>, homes: Homes, n: nat)
    requires |named| == |sprints| && n < |sprints|
    ensures BagOf(BundleLive, Bundles(sprints, named, masters, homes, n + 1))
            == BagOf(BundleLive, Bundles(sprints, named, masters, homes, n))
               + (multiset(SprintSeats(sprints[n])) + BagOf(MasterLive, HomedAt(masters, homes, n)))
  {
    BundlesNext(BundleLive, sprints, named, masters, homes, n);
  }

  lemma {:induction false} BundlesKeepLive(sprints: seq<Sprint>, named: seq<set<string>>, masters: seq<Master>, homes: Homes, n: nat)
    requires |named| == |sprints| && n <= |sprints|
    ensures BagOf(BundleLive, Bundles(sprints, named, masters, homes, n))
            == BagOf(SprintSeats, sprints[..n]) + BagOf(MasterLive, HomedBelow(masters, homes, n))
  {
    if n == 0 {
      HomedNone(masters, homes);
    } else {
      var m: nat := n - 1;
      BundlesKeepLive(sprints, named, masters, homes, m);
      HomedNext(MasterLive, masters, homes, m);
      BagNext(SprintSeats, sprints, m);
      BundleNextLive(sprints, named, masters, homes, m);
      BagInterleave(BagOf(SprintSeats, sprints[..m]), BagOf(MasterLive, HomedBelow(masters, homes, m)),
                    multiset(SprintSeats(sprints[m])), BagOf(MasterLive, HomedAt(masters, homes, m)));
    }
  }

  lemma {:induction false} BundlesKeepCompleted(sprints: seq<Sprint>, named: seq<set<string>>, masters: seq<Master>, homes: Homes, n: nat)
    requires |named| == |sprints| && n <= |sprints|
    ensures BagOf(BundleCompleted, Bundles(sprints, named, masters, homes, n)) == BagOf(MasterCompleted, HomedBelow(masters, homes, n))
  {
    if n == 0 {
      HomedNone(masters, homes);
    } else {
      var m: nat := n - 1;
      BundlesKeepCompleted(sprints, named, masters, homes, m);
      HomedNext(MasterCompleted, masters, homes, m);
      BundlesNext(BundleCompleted, sprints, named, masters, homes, m);
    }
  }

  predicate Shown(bundle: Bundle) { |bundle.sprint.seats| > 0 || bundle.named != {} }

  function ShownBundles(bundles: seq<Bundle>): seq<Bundle> {
    if bundles == [] then []
    else (if Shown(bundles[0]) then [bundles[0]] else []) + ShownBundles(bundles[1..])
  }

  lemma {:induction false} ShownMembers(bundles: seq<Bundle>)
    ensures forall b :: b in ShownBundles(bundles) <==> b in bundles && Shown(b)
  {
    if bundles != [] { ShownMembers(bundles[1..]); }
  }

  /** Hiding a sprint without seats or named masters hides no session. */
  lemma {:induction false} ShownKeep(part: Bundle -> seq<Session>, bundles: seq<Bundle>)
    requires forall b :: b in bundles && !Shown(b) ==> part(b) == []
    ensures BagOf(part, ShownBundles(bundles)) == BagOf(part, bundles)
  {
    if bundles != [] {
      ShownKeep(part, bundles[1..]);
      BagCons(part, Shown(bundles[0]), bundles[0], ShownBundles(bundles[1..]));
    }
  }

  function MaterializeSprint(bundle: Bundle, orders: Orders): SprintSection {
    SprintSection(
      DocumentKey(bundle.sprint.ref),
      bundle.sprint.doc,
      bundle.sprint.ref,
      Sort(bundle.sprint.seats, SprintSeatOrder(orders)),
      MasterSections(bundle.masters, orders))
  }

  lemma SprintKeeps(bundle: Bundle, orders: Orders)
    ensures multiset(SprintLive(MaterializeSprint(bundle, orders))) == multiset(BundleLive(bundle))
    ensures multiset(SprintCompleted(MaterializeSprint(bundle, orders))) == multiset(BundleCompleted(bundle))
  {
    SortPermutes(bundle.sprint.seats, SprintSeatOrder(orders));
    SectionsKeep(bundle.masters, orders);
  }

  function SprintSections(bundles: seq<Bundle>, orders: Orders): seq<SprintSection> {
    var sorted := Sort(ShownBundles(bundles), ByKey(BundlePath, orders.collate));
    seq(|sorted|, i requires 0 <= i < |sorted| => MaterializeSprint(sorted[i], orders))
  }

  /** Each master a sprint is home to, the sprint has named; so a hidden sprint has no masters. */
  ghost predicate NamesItsMasters(bundles: seq<Bundle>) {
    forall b, m :: b in bundles && m in b.masters ==> DocumentKey(m.ref) in b.named
  }

  lemma HomedAreNamed(sprints: seq<Sprint>, named: seq<set<string>>, masters: seq<Master>, homes: Homes)
    requires |named| == |sprints| && forall key :: key in homes ==> homes[key] < |sprints| && key in named[homes[key]]
    ensures NamesItsMasters(Bundles(sprints, named, masters, homes, |sprints|))
  {
    var bundles := Bundles(sprints, named, masters, homes, |sprints|);
    forall b, m | b in bundles && m in b.masters ensures DocumentKey(m.ref) in b.named {
      var i :| 0 <= i < |bundles| && b == bundles[i];
      HomedMembers(masters, homes, i);
    }
  }

  lemma SprintSectionsKeep(bundles: seq<Bundle>, orders: Orders)
    requires NamesItsMasters(bundles)
    ensures BagOf(SprintLive, SprintSections(bundles, orders)) == BagOf(BundleLive, bundles)
    ensures BagOf(SprintCompleted, SprintSections(bundles, orders)) == BagOf(BundleCompleted, bundles)
  {
    var shown := ShownBundles(bundles);
    var sorted := Sort(shown, ByKey(BundlePath, orders.collate));
    var sections := SprintSections(bundles, orders);
    SortPermutes(shown, ByKey(BundlePath, orders.collate));
    forall i | 0 <= i < |sorted|
      ensures multiset(SprintLive(sections[i])) == multiset(BundleLive(sorted[i]))
      ensures multiset(SprintCompleted(sections[i])) == multiset(BundleCompleted(sorted[i]))
    {
      SprintKeeps(sorted[i], orders);
    }
    BagPointwise(SprintLive, sections, BundleLive, sorted);
    BagPointwise(SprintCompleted, sections, BundleCompleted, sorted);
    BagPermuted(BundleLive, sorted, shown);
    BagPermuted(BundleCompleted, sorted, shown);
    assert forall b :: b in bundles && b.masters != [] ==> b.masters[0] in b.masters;
    ShownKeep(BundleLive, bundles);
    ShownKeep(BundleCompleted, bundles);
  }

  // ---------------------------------------------------------------- the whole rail

  /** The loop that homes each visible master, and keeps for each sprint the keys it named. */
  method HomeMasters(visible: seq<Master>, sprints: seq<Sprint>) returns (homes: Homes, named: seq<set<string>>)
    ensures |named| == |sprints|
    ensures forall key :: key in homes ==> homes[key] < |sprints| && key in named[homes[key]]
    ensures HomesFound(visible, sprints, homes)
  {
    homes, named := map[], seq(|sprints|, _ => {});
    for k := 0 to |visible|
      invariant |named| == |sprints|
      invariant forall key :: key in homes ==> homes[key] < |sprints| && key in named[homes[key]]
      invariant forall m :: m in visible[..k] && Home(homes, m).None? ==> SprintForMaster(m.doc, sprints) == |sprints|
      invariant forall key :: key in homes ==>
                  exists m :: m in visible && DocumentKey(m.ref) == key && homes[key] == SprintForMaster(m.doc, sprints)
    {
      var i := SprintForMaster(visible[k].doc, sprints);
      if i < |sprints| {
        var key := DocumentKey(visible[k].ref);
        named := named[i := named[i] + {key}];
        homes := homes[key := i];
      }
    }
  }

  function Total(sections: seq<MasterSection>): nat {
    if sections == [] then 0 else |sections[0].completed| + Total(sections[1..])
  }

  function SprintTotal(sprints: seq<SprintSection>): nat {
    if sprints == [] then 0 else Total(sprints[0].masters) + SprintTotal(sprints[1..])
  }

  lemma {:induction false} TotalCounts(sections: seq<MasterSection>)
    ensures Total(sections) == |Flatten(SectionCompleted, sections)|
  {
    if sections != [] { TotalCounts(sections[1..]); }
  }

  lemma {:induction false} SprintTotalCounts(sprints: seq<SprintSection>)
    ensures SprintTotal(sprints) == |Flatten(SprintCompleted, sprints)|
  {
    if sprints != [] {
      TotalCounts(sprints[0].masters);
      SprintTotalCounts(sprints[1..]);
    }
  }

  lemma MastersKeep(part: Master -> seq<Session>, masters: seq<Master>, homes: Homes, n: nat)
    requires forall m :: m in masters && !HasContent(m) ==> part(m) == []
    requires forall key :: key in homes ==> homes[key] < n
    ensures BagOf(part, masters)
            == BagOf(part, HomedBelow(VisibleMasters(masters), homes, n)) + BagOf(part, Homeless(VisibleMasters(masters), homes))
  {
    VisibleKeep(part, masters);
    HomedOrHomeless(part, VisibleMasters(masters), homes, n);
  }

  lemma SectionsHoldLive(rail: Rail, orders: Orders, homes: Homes, bundles: seq<Bundle>, named: seq<set<string>>)
    requires |named| == |rail.sprints| && forall key :: key in homes ==> homes[key] < |rail.sprints|
    requires bundles == Bundles(rail.sprints, named, VisibleMasters(rail.masters), homes, |rail.sprints|) && NamesItsMasters(bundles)
    ensures BagOf(SprintLive, SprintSections(bundles, orders)) + BagOf(SectionLive, MasterSections(Homeless(VisibleMasters(rail.masters), homes), orders))
            == BagOf(SprintSeats, rail.sprints) + BagOf(MasterLive, rail.masters)
  {
    SprintSectionsKeep(bundles, orders);
    SectionsKeep(Homeless(VisibleMasters(rail.masters), homes), orders);
    BundlesKeepLive(rail.sprints, named, VisibleMasters(rail.masters), homes, |rail.sprints|);
    assert rail.sprints[..|rail.sprints|] == rail.sprints;
    MastersKeep(MasterLive, rail.masters, homes, |rail.sprints|);
    BagAssoc(BagOf(SprintSeats, rail.sprints),
             BagOf(MasterLive, HomedBelow(VisibleMasters(rail.masters), homes, |rail.sprints|)),
             BagOf(MasterLive, Homeless(VisibleMasters(rail.masters), homes)));
  }

  lemma SectionsHoldCompleted(rail: Rail, orders: Orders, homes: Homes, bundles: seq<Bundle>, named: seq<set<string>>)
    requires |named| == |rail.sprints| && forall key :: key in homes ==> homes[key] < |rail.sprints|
    requires bundles == Bundles(rail.sprints, named, VisibleMasters(rail.masters), homes, |rail.sprints|) && NamesItsMasters(bundles)
    ensures BagOf(SprintCompleted, SprintSections(bundles, orders)) + BagOf(SectionCompleted, MasterSections(Homeless(VisibleMasters(rail.masters), homes), orders))
            == BagOf(MasterCompleted, rail.masters)
  {
    SprintSectionsKeep(bundles, orders);
    SectionsKeep(Homeless(VisibleMasters(rail.masters), homes), orders);
    BundlesKeepCompleted(rail.sprints, named, VisibleMasters(rail.masters), homes, |rail.sprints|);
    MastersKeep(MasterCompleted, rail.masters, homes, |rail.sprints|);
  }

  // ---------------------------------------------------------------- seating

  ghost predicate SectionSeated(docs: map<string, Doc>, section: MasterSection) {
    && ManagerSeated(docs, section.ref, section.manager)
    && CompletedAt(docs, section.ref, section.completed)
    && DistinctBy(section.clusters, ClusterKey)
    && forall cluster :: cluster in section.clusters ==> LeafSeated(docs, section.ref, cluster.key, cluster.doc, cluster.seats)
  }

  ghost predicate SectionsSeated(docs: map<string, Doc>, sections: seq<MasterSection>) {
    forall section :: section in sections ==> SectionSeated(docs, section)
  }

  ghost predicate SprintSectionsSeated(docs: map<string, Doc>, sprints: seq<SprintSection>) {
    forall sprint :: sprint in sprints ==> SprintSeated(docs, sprint.ref, sprint.seats) && SectionsSeated(docs, sprint.masters)
  }

  lemma MasterSectionSeated(docs: map<string, Doc>, master: Master, orders: Orders)
    requires MasterSeated(docs, master)
    ensures SectionSeated(docs, MaterializeMaster(master, orders))
  {
    SortDistinct(master.leaves, ByKey(LeafPath, orders.collate), LeafKey);
    var section := MaterializeMaster(master, orders);
    var sorted := Sort(master.leaves, ByKey(LeafPath, orders.collate));
    forall cluster | cluster in section.clusters
      ensures LeafSeated(docs, section.ref, cluster.key, cluster.doc, cluster.seats)
    {
      var i :| 0 <= i < |sorted| && cluster == section.clusters[i];
      assert sorted[i] in master.leaves;
    }
  }

  lemma MasterSectionsSeated(docs: map<string, Doc>, masters: seq<Master>, orders: Orders)
    requires forall m :: m in masters ==> MasterSeated(docs, m)
    ensures SectionsSeated(docs, MasterSections(masters, orders))
  {
    var sorted := Sort(masters, ByKey(MasterDocPath, orders.collate));
    var sections := MasterSections(masters, orders);
    forall section | section in sections ensures SectionSeated(docs, section) {
      var i :| 0 <= i < |sorted| && section == sections[i];
      assert sorted[i] in masters;
      MasterSectionSeated(docs, sorted[i], orders);
    }
  }

  lemma BundlesSeated(docs: map<string, Doc>, bundles: seq<Bundle>, orders: Orders)
    requires forall b :: b in bundles ==> SprintSeated(docs, b.sprint.ref, b.sprint.seats)
    requires forall b, m :: b in bundles && m in b.masters ==> MasterSeated(docs, m)
    ensures SprintSectionsSeated(docs, SprintSections(bundles, orders))
  {
    var sorted := Sort(ShownBundles(bundles), ByKey(BundlePath, orders.collate));
    var sections := SprintSections(bundles, orders);
    ShownMembers(bundles);
    forall sprint | sprint in sections
      ensures SprintSeated(docs, sprint.ref, sprint.seats) && SectionsSeated(docs, sprint.masters)
    {
      var i :| 0 <= i < |sorted| && sprint == sections[i];
      assert sorted[i] in bundles;
      MasterSectionsSeated(docs, sorted[i].masters, orders);
    }
  }

  lemma RailSeated(rail: Rail, orders: Orders, homes: Homes, bundles: seq<Bundle>, named: seq<set<string>>)
    requires |named| == |rail.sprints| && WellSeated(rail)
    requires bundles == Bundles(rail.sprints, named, VisibleMasters(rail.masters), homes, |rail.sprints|)
    ensures SprintSectionsSeated(rail.docs, SprintSections(bundles, orders))
    ensures SectionsSeated(rail.docs, MasterSections(Homeless(VisibleMasters(rail.masters), homes), orders))
  {
    var visible := VisibleMasters(rail.masters);
    VisibleMembers(rail.masters);
    HomelessMembers(visible, homes);
    MasterSectionsSeated(rail.docs, Homeless(visible, homes), orders);
    forall b | b in bundles
      ensures SprintSeated(rail.docs, b.sprint.ref, b.sprint.seats) && forall m :: m in b.masters ==> MasterSeated(rail.docs, m)
    {
      var i :| 0 <= i < |bundles| && b == bundles[i];
      HomedMembers(visible, homes, i);
    }
    BundlesSeated(rail.docs, bundles, orders);
  }

  /** The rail shows the section, at the top level or under a sprint. */
  ghost predicate Shows(sprints: seq<SprintSection>, masters: seq<MasterSection>, section: MasterSection) {
    section in masters || exists sprint :: sprint in sprints && section in sprint.masters
  }

  lemma SectionIn(masters: seq<Master>, orders: Orders, m: Master)
    requires m in masters
    ensures MaterializeMaster(m, orders) in MasterSections(masters, orders)
  {
    var sorted := Sort(masters, ByKey(MasterDocPath, orders.collate));
    var i :| 0 <= i < |sorted| && sorted[i] == m;
    assert MasterSections(masters, orders)[i] == MaterializeMaster(m, orders);
  }

  lemma SprintIn(bundles: seq<Bundle>, orders: Orders, b: Bundle)
    requires b in bundles && Shown(b)
    ensures MaterializeSprint(b, orders) in SprintSections(bundles, orders)
  {
    ShownMembers(bundles);
    var sorted := Sort(ShownBundles(bundles), ByKey(BundlePath, orders.collate));
    var i :| 0 <= i < |sorted| && sorted[i] == b;
    assert SprintSections(bundles, orders)[i] == MaterializeSprint(b, orders);
  }

  /** No master with content is hidden. */
  lemma MasterShown(rail: Rail, orders: Orders, homes: Homes, bundles: seq<Bundle>, named: seq<set<string>>, m: Master)
    requires |named| == |rail.sprints| && (forall key :: key in homes ==> homes[key] < |rail.sprints|)
    requires bundles == Bundles(rail.sprints, named, VisibleMasters(rail.masters), homes, |rail.sprints|) && NamesItsMasters(bundles)
    requires m in rail.masters && HasContent(m)
    ensures Shows(SprintSections(bundles, orders), MasterSections(Homeless(VisibleMasters(rail.masters), homes), orders), MaterializeMaster(m, orders))
  {
    var visible := VisibleMasters(rail.masters);
    VisibleMembers(rail.masters);
    var home := Home(homes, m);
    if home.None? {
      HomelessMembers(visible, homes);
      SectionIn(Homeless(visible, homes), orders, m);
    } else {
      var b := bundles[home.value];
      HomedMembers(visible, homes, home.value);
      assert b in bundles && m in b.masters;
      SprintIn(bundles, orders, b);
      SectionIn(b.masters, orders, m);
      assert MaterializeMaster(m, orders) in MaterializeSprint(b, orders).masters;
    }
  }

  /** Every master with content has its section. */
  ghost predicate AllShown(rail: Rail, orders: Orders, sprints: seq<SprintSection>, masters: seq<MasterSection>) {
    forall m :: m in rail.masters && HasContent(m) ==> Shows(sprints, masters, MaterializeMaster(m, orders))
  }

  /** The manager's seat of the master at this path is taken. */
  ghost predicate ManagerHeld(model: Model, path: string) {
    exists section :: Shows(model.sprints, model.masters, section) && section.ref.path == path && section.manager.Some?
  }

  /** A loose session has no seat to take: none of the sprints is its own, the manager's seat at its path is
      taken, and its leaf has no master document. */
  ghost predicate LooseRightly(documents: seq<Doc>, model: Model, s: Session) {
    var docs, byPath := DocsByKey(documents), MastersByPath(documents);
    && !WantsSprint(docs, s)
    && (WantsManager(docs, s) && s.ref.value.path in byPath ==> ManagerHeld(model, s.ref.value.path))
    && (WantsLeaf(docs, s) && docs[DocumentKey(s.ref.value)].ref.Some? ==>
          MasterPath(docs[DocumentKey(s.ref.value)].ref.value) !in byPath)
  }

  lemma LooseIsRightly(documents: seq<Doc>, rail: Rail, orders: Orders, model: Model, s: Session)
    requires rail.docs == DocsByKey(documents) && MastersIndexed(rail.masters, MastersByPath(documents))
    requires Unseatable(rail.docs, rail.masters, s) && AllShown(rail, orders, model.sprints, model.masters)
    ensures LooseRightly(documents, model, s)
  {
    if WantsManager(rail.docs, s) && s.ref.value.path in MastersByPath(documents) {
      var m := rail.masters[MasterAt(rail.masters, s.ref.value.path)];
      assert m in rail.masters && HasContent(m);
      var section := MaterializeMaster(m, orders);
      assert Shows(model.sprints, model.masters, section) && section.ref.path == s.ref.value.path && section.manager.Some?;
    }
  }

  /** A landed session outside the masters has no master document. */
  ghost predicate CompletedRightly(documents: seq<Doc>, s: Session) {
    s.status == Landed && (HomePath(DocsByKey(documents), s).Some? ==> HomePath(DocsByKey(documents), s).value !in MastersByPath(documents))
  }

  /** Every seat of the rail is taken by a session whose document and role entitle it to that seat, a
      session is loose only for want of a seat, and a landed one is with its master if it has one. */
  ghost predicate ModelSeated(documents: seq<Doc>, model: Model) {
    && SprintSectionsSeated(DocsByKey(documents), model.sprints)
    && SectionsSeated(DocsByKey(documents), model.masters)
    && (forall s :: s in model.unattached ==> LooseRightly(documents, model, s))
    && (forall s :: s in model.completedUnattached ==> CompletedRightly(documents, s))
  }

  // ---------------------------------------------------------------- ordering

  function ClusterPath(cluster: Cluster): string { cluster.doc.docPath }
  function SectionPath(section: MasterSection): string { section.doc.docPath }
  function SprintPath(sprint: SprintSection): string { sprint.doc.docPath }

  ghost predicate SectionOrdered(o: Orders, section: MasterSection) {
    && InOrder(section.clusters, ByKey(ClusterPath, o.collate))
    && (forall cluster :: cluster in section.clusters ==> InOrder(cluster.seats, ClusterSeatOrder(o)))
    && InOrder(section.completed, LandedOrder(o))
  }

  ghost predicate SectionsOrdered(o: Orders, sections: seq<MasterSection>) {
    InOrder(sections, ByKey(SectionPath, o.collate)) && forall section :: section in sections ==> SectionOrdered(o, section)
  }

  ghost predicate SprintSectionsOrdered(o: Orders, sprints: seq<SprintSection>) {
    && InOrder(sprints, ByKey(SprintPath, o.collate))
    && forall sprint :: sprint in sprints ==> InOrder(sprint.seats, SprintSeatOrder(o)) && SectionsOrdered(o, sprint.masters)
  }

  /** Documents by path, sprint seats by role, cluster seats with the working ones first, loose sessions
      with the running ones first, and ties by id. */
  ghost predicate ModelOrdered(o: Orders, model: Model) {
    && SprintSectionsOrdered(o, model.sprints)
    && SectionsOrdered(o, model.masters)
    && InOrder(model.unattached, LooseOrder(o))
  }

  lemma MasterSectionOrdered(master: Master, o: Orders)
    requires StrictWeakOrder(o.collate)
    ensures SectionOrdered(o, MaterializeMaster(master, o))
  {
    var section := MaterializeMaster(master, o);
    var sorted := Sort(master.leaves, ByKey(LeafPath, o.collate));
    ComparatorsOrder(o);
    ByKeyOrders(LeafPath, o.collate);
    SortInOrder(master.leaves, ByKey(LeafPath, o.collate));
    SortInOrder(master.completed, LandedOrder(o));
    SameKeysInOrder(sorted, LeafPath, section.clusters, ClusterPath, o.collate);
    forall cluster | cluster in section.clusters ensures InOrder(cluster.seats, ClusterSeatOrder(o)) {
      var i :| 0 <= i < |sorted| && cluster == section.clusters[i];
      SortInOrder(sorted[i].seats, ClusterSeatOrder(o));
    }
  }

  lemma MasterSectionsOrdered(masters: seq<Master>, o: Orders)
    requires StrictWeakOrder(o.collate)
    ensures SectionsOrdered(o, MasterSections(masters, o))
  {
    var sorted := Sort(masters, ByKey(MasterDocPath, o.collate));
    var sections := MasterSections(masters, o);
    ByKeyOrders(MasterDocPath, o.collate);
    SortInOrder(masters, ByKey(MasterDocPath, o.collate));
    SameKeysInOrder(sorted, MasterDocPath, sections, SectionPath, o.collate);
    forall section | section in sections ensures SectionOrdered(o, section) {
      var i :| 0 <= i < |sorted| && section == sections[i];
      MasterSectionOrdered(sorted[i], o);
    }
  }

  lemma BundlesOrdered(bundles: seq<Bundle>, o: Orders)
    requires StrictWeakOrder(o.collate)
    ensures SprintSectionsOrdered(o, SprintSections(bundles, o))
  {
    var shown := ShownBundles(bundles);
    var sorted := Sort(shown, ByKey(BundlePath, o.collate));
    var sections := SprintSections(bundles, o);
    ComparatorsOrder(o);
    ByKeyOrders(BundlePath, o.collate);
    SortInOrder(shown, ByKey(BundlePath, o.collate));
    SameKeysInOrder(sorted, BundlePath, sections, SprintPath, o.collate);
    forall sprint | sprint in sections ensures InOrder(sprint.seats, SprintSeatOrder(o)) && SectionsOrdered(o, sprint.masters) {
      var i :| 0 <= i < |sorted| && sprint == sections[i];
      SortInOrder(sorted[i].sprint.seats, SprintSeatOrder(o));
      MasterSectionsOrdered(sorted[i].masters, o);
    }
  }

  // ---------------------------------------------------------------- homes of the sections

  /** The homes that the homing loop finds. */
  ghost predicate HomesFound(visible: seq<Master>, sprints: seq<Sprint>, homes: Homes) {
    && (forall key :: key in homes ==>
          exists m :: m in visible && DocumentKey(m.ref) == key && homes[key] == SprintForMaster(m.doc, sprints))
    && (forall m :: m in visible && Home(homes, m).None? ==> SprintForMaster(m.doc, sprints) == |sprints|)
  }

  /** The section shows a master of this key, and a master of this key is named by the sprint document. */
  ghost predicate NamedBy(masters: seq<Master>, sprint: Doc, section: MasterSection) {
    exists m :: m in masters && DocumentKey(m.ref) == section.key && Names(sprint, m.doc)
  }

  ghost predicate SectionsNamed(masters: seq<Master>, sprints: seq<SprintSection>) {
    forall sprint, section :: sprint in sprints && section in sprint.masters ==> NamedBy(masters, sprint.doc, section)
  }

  ghost predicate SectionsUnnamed(sprints: seq<Sprint>, sections: seq<MasterSection>) {
    forall sprint, section :: sprint in sprints && section in sections ==> !Names(sprint.doc, section.doc)
  }

  lemma SectionOf(masters: seq<Master>, orders: Orders, section: MasterSection) returns (m: Master)
    requires section in MasterSections(masters, orders)
    ensures m in masters && section.key == DocumentKey(m.ref) && section.doc == m.doc
  {
    var sorted := Sort(masters, ByKey(MasterDocPath, orders.collate));
    var i :| 0 <= i < |sorted| && section == MasterSections(masters, orders)[i];
    m := sorted[i];
  }

  lemma HomedSectionNamed(rail: Rail, orders: Orders, homes: Homes, i: nat, section: MasterSection)
    requires HomesFound(VisibleMasters(rail.masters), rail.sprints, homes) && i < |rail.sprints|
    requires section in MasterSections(HomedAt(VisibleMasters(rail.masters), homes, i), orders)
    ensures NamedBy(rail.masters, rail.sprints[i].doc, section)
  {
    var visible := VisibleMasters(rail.masters);
    var shown := SectionOf(HomedAt(visible, homes, i), orders, section);
    HomedMembers(visible, homes, i);
    VisibleMembers(rail.masters);
    var m :| m in visible && DocumentKey(m.ref) == section.key && homes[section.key] == SprintForMaster(m.doc, rail.sprints);
    assert m in rail.masters && Names(rail.sprints[i].doc, m.doc);
  }

  lemma SectionsAreNamed(rail: Rail, orders: Orders, homes: Homes, bundles: seq<Bundle>, named: seq<set<string>>)
    requires HomesFound(VisibleMasters(rail.masters), rail.sprints, homes) && |named| == |rail.sprints|
    requires bundles == Bundles(rail.sprints, named, VisibleMasters(rail.masters), homes, |rail.sprints|)
    ensures SectionsNamed(rail.masters, SprintSections(bundles, orders))
  {
    var sections := SprintSections(bundles, orders);
    var sorted := Sort(ShownBundles(bundles), ByKey(BundlePath, orders.collate));
    ShownMembers(bundles);
    forall sprint, section | sprint in sections && section in sprint.masters ensures NamedBy(rail.masters, sprint.doc, section) {
      var k :| 0 <= k < |sorted| && sprint == sections[k];
      assert sorted[k] in bundles;
      var i :| 0 <= i < |bundles| && sorted[k] == bundles[i];
      HomedSectionNamed(rail, orders, homes, i, section);
    }
  }

  lemma SectionsAreUnnamed(rail: Rail, orders: Orders, homes: Homes)
    requires HomesFound(VisibleMasters(rail.masters), rail.sprints, homes)
    ensures SectionsUnnamed(rail.sprints, MasterSections(Homeless(VisibleMasters(rail.masters), homes), orders))
  {
    var visible := VisibleMasters(rail.masters);
    HomelessMembers(visible, homes);
    forall sprint, section | sprint in rail.sprints && section in MasterSections(Homeless(visible, homes), orders)
      ensures !Names(sprint.doc, section.doc)
    {
      var m := SectionOf(Homeless(visible, homes), orders, section);
      var i :| 0 <= i < |rail.sprints| && rail.sprints[i] == sprint;
      assert i < SprintForMaster(m.doc, rail.sprints);
    }
  }

  /** The sections of the rail hold what the accumulators hold; a master stands under a sprint that names
      it, and at the top level only when no sprint does. */
  method MaterializeRailSections(rail: Rail, orders: Orders) returns (sprints: seq<SprintSection>, masters: seq<MasterSection>)
    ensures BagOf(SprintLive, sprints) + BagOf(SectionLive, masters) == BagOf(SprintSeats, rail.sprints) + BagOf(MasterLive, rail.masters)
    ensures BagOf(SprintCompleted, sprints) + BagOf(SectionCompleted, masters) == BagOf(MasterCompleted, rail.masters)
    ensures WellSeated(rail) ==> SprintSectionsSeated(rail.docs, sprints) && SectionsSeated(rail.docs, masters)
    ensures StrictWeakOrder(orders.collate) ==> SprintSectionsOrdered(orders, sprints) && SectionsOrdered(orders, masters)
    ensures SectionsNamed(rail.masters, sprints) && SectionsUnnamed(rail.sprints, masters)
    ensures AllShown(rail, orders, sprints, masters)
  {
    var visible := VisibleMasters(rail.masters);
    var homes, named := HomeMasters(visible, rail.sprints);
    var bundles := Bundles(rail.sprints, named, visible, homes, |rail.sprints|);
    sprints := SprintSections(bundles, orders);
    masters := MasterSections(Homeless(visible, homes), orders);
    HomedAreNamed(rail.sprints, named, visible, homes);
    SectionsHoldLive(rail, orders, homes, bundles, named);
    SectionsHoldCompleted(rail, orders, homes, bundles, named);
    SectionsAreNamed(rail, orders, homes, bundles, named);
    SectionsAreUnnamed(rail, orders, homes);
    forall m | m in rail.masters && HasContent(m) ensures Shows(sprints, masters, MaterializeMaster(m, orders)) {
      MasterShown(rail, orders, homes, bundles, named, m);
    }
    if WellSeated(rail) { RailSeated(rail, orders, homes, bundles, named); }
    if StrictWeakOrder(orders.collate) {
      BundlesOrdered(bundles, orders);
      MasterSectionsOrdered(Homeless(visible, homes), orders);
    }
  }

  /** The rows of the rail hold what its parts hold, and the total counts its completed rows. */
  lemma RowsOfRail(rail: Rail, model: Model, orders: Orders)
    requires model.unattached == Sort(rail.unattached, LooseOrder(orders))
    requires model.completedUnattached == rail.completedUnattached
    requires model.completedTotal == Total(model.masters) + SprintTotal(model.sprints) + |rail.completedUnattached|
    requires BagOf(SprintLive, model.sprints) + BagOf(SectionLive, model.masters) == BagOf(SprintSeats, rail.sprints) + BagOf(MasterLive, rail.masters)
    requires BagOf(SprintCompleted, model.sprints) + BagOf(SectionCompleted, model.masters) == BagOf(MasterCompleted, rail.masters)
    ensures multiset(LiveRows(model)) == Live(rail)
    ensures multiset(CompletedRows(model)) == Completed(rail)
    ensures model.completedTotal == |CompletedRows(model)|
  {
    SortPermutes(rail.unattached, LooseOrder(orders));
    TotalCounts(model.masters);
    SprintTotalCounts(model.sprints);
  }

  /**
   Conservation. Every session that is not terminated is in exactly one slot of the rail, in a
   completed list exactly when it has landed, and completedTotal counts the landed ones.
   */
  method BuildRailModel(sessions: seq<Session>, documents: seq<Doc>, orders: Orders) returns (model: Model)
    ensures multiset(LiveRows(model)) == multiset(LiveOnes(sessions))
    ensures multiset(CompletedRows(model)) == multiset(LandedOnes(sessions))
    ensures model.completedTotal == |LandedOnes(sessions)|
    ensures ModelSeated(documents, model)
    ensures StrictWeakOrder(orders.collate) ==> ModelOrdered(orders, model)
  {
    var initial := InitializeRailAccumulators(documents);
    var rail := AttachAll(initial, sessions);
    var sprints, masters := MaterializeRailSections(rail, orders);
    var total := Total(masters) + SprintTotal(sprints) + |rail.completedUnattached|;
    model := Model(sprints, masters, Sort(rail.unattached, LooseOrder(orders)), rail.completedUnattached, total);
    RowsOfRail(rail, model, orders);
    IndexKept(initial.masters, rail.masters, MastersByPath(documents));
    forall s | s in model.unattached ensures LooseRightly(documents, model, s) {
      LooseIsRightly(documents, rail, orders, model, s);
    }
    assert forall s :: s in model.completedUnattached ==> CompletedRightly(documents, s) by {
      forall s | s in model.completedUnattached ensures CompletedRightly(documents, s) {
        assert CompletedLoosely(rail.docs, rail.masters, s);
      }
    }
    if StrictWeakOrder(orders.collate) {
      ComparatorsOrder(orders);
      SortInOrder(rail.unattached, LooseOrder(orders));
    }
    assert |multiset(CompletedRows(model))| == |multiset(LandedOnes(sessions))|;
  }

  // ---------------------------------------------------------------- the cycle order

  function IdsOf(sessions: seq<Session>): (ids: seq<string>)
    ensures |ids| == |sessions| && forall i :: 0 <= i < |ids| ==> ids[i] == sessions[i].id
  {
    seq(|sessions|, i requires 0 <= i < |sessions| => sessions[i].id)
  }

  lemma IdsWithoutOne(xs: seq<Session>, j: nat, rest: seq<Session>)
    requires j < |xs| && rest == xs[..j] + xs[j + 1..]
    ensures multiset(IdsOf(xs)) == multiset(IdsOf(rest)) + multiset{xs[j].id}
  {
    WithoutOne(IdsOf(xs), j);
    assert IdsOf(rest) == IdsOf(xs)[..j] + IdsOf(xs)[j + 1..];
  }

  lemma {:induction false} IdsPermuted(xs: seq<Session>, ys: seq<Session>)
    requires multiset(xs) == multiset(ys)
    ensures multiset(IdsOf(xs)) == multiset(IdsOf(ys))
    decreases |xs|
  {
    if xs == [] {
      assert |multiset(ys)| == 0;
    } else {
      var j := RestPermuted(xs, ys);
      var rest := ys[..j] + ys[j + 1..];
      IdsPermuted(xs[1..], rest);
      IdsWithoutOne(xs, 0, xs[1..]);
      IdsWithoutOne(ys, j, rest);
    }
  }

  /** Flattening a longer prefix appends one part. */
  lemma FlattenNext<T>(part: T -> seq<Session>, xs: seq<T>, k: nat)
    requires k < |xs|
    ensures Flatten(part, xs[..k + 1]) == Flatten(part, xs[..k]) + part(xs[k])
  {
    if k > 0 {
      FlattenNext(part, xs[1..], k - 1);
      assert xs[..k + 1][1..] == xs[1..][..k];
      assert xs[..k][1..] == xs[1..][..k - 1];
    } else {
      assert xs[..1] == [xs[0]];
    }
  }

  lemma IdsAppend(xs: seq<Session>, ys: seq<Session>)
    ensures IdsOf(xs + ys) == IdsOf(xs) + IdsOf(ys)
  {
  }

  lemma IdsNext<T>(before: seq<string>, part: T -> seq<Session>, xs: seq<T>, k: nat)
    requires k < |xs|
    ensures before + IdsOf(Flatten(part, xs[..k + 1])) == (before + IdsOf(Flatten(part, xs[..k]))) + IdsOf(part(xs[k]))
  {
    FlattenNext(part, xs, k);
    IdsAppend(Flatten(part, xs[..k]), part(xs[k]));
  }

  method AppendSeats(seats: seq<Session>, before: seq<string>) returns (ids: seq<string>)
    ensures ids == before + IdsOf(seats)
  {
    ids := before;
    for k := 0 to |seats|
      invariant ids == before + IdsOf(seats[..k])
    {
      ids := ids + [seats[k].id];
      assert IdsOf(seats[..k + 1]) == IdsOf(seats[..k]) + [seats[k].id];
    }
    assert seats[..|seats|] == seats;
  }

  method AppendClusters(clusters: seq<Cluster>, before: seq<string>) returns (ids: seq<string>)
    ensures ids == before + IdsOf(Flatten(ClusterSeats, clusters))
  {
    ids := before;
    for k := 0 to |clusters|
      invariant ids == before + IdsOf(Flatten(ClusterSeats, clusters[..k]))
    {
      IdsNext(before, ClusterSeats, clusters, k);
      ids := AppendSeats(clusters[k].seats, ids);
    }
    assert clusters[..|clusters|] == clusters;
  }

  method AppendMaster(section: MasterSection, before: seq<string>) returns (ids: seq<string>)
    ensures ids == before + IdsOf(SectionLive(section))
  {
    ids := before;
    if section.manager.Some? { ids := ids + [section.manager.value.id]; }
    assert ids == before + IdsOf(ManagerSeat(section.manager));
    ids := AppendClusters(section.clusters, ids);
    IdsAppend(ManagerSeat(section.manager), Flatten(ClusterSeats, section.clusters));
  }

  method AppendMasters(sections: seq<MasterSection>, before: seq<string>) returns (ids: seq<string>)
    ensures ids == before + IdsOf(Flatten(SectionLive, sections))
  {
    ids := before;
    for k := 0 to |sections|
      invariant ids == before + IdsOf(Flatten(SectionLive, sections[..k]))
    {
      IdsNext(before, SectionLive, sections, k);
      ids := AppendMaster(sections[k], ids);
    }
    assert sections[..|sections|] == sections;
  }

  method AppendSprint(sprint: SprintSection, before: seq<string>) returns (ids: seq<string>)
    ensures ids == before + IdsOf(SprintLive(sprint))
  {
    ids := AppendSeats(sprint.seats, before);
    ids := AppendMasters(sprint.masters, ids);
    IdsAppend(sprint.seats, Flatten(SectionLive, sprint.masters));
  }

  method AppendSprints(sprints: seq<SprintSection>) returns (ids: seq<string>)
    ensures ids == IdsOf(Flatten(SprintLive, sprints))
  {
    ids := [];
    for k := 0 to |sprints|
      invariant ids == [] + IdsOf(Flatten(SprintLive, sprints[..k]))
    {
      IdsNext([], SprintLive, sprints, k);
      ids := AppendSprint(sprints[k], ids);
    }
    assert sprints[..|sprints|] == sprints;
  }

  /** The cycle order reads the live rows of the rail from top to bottom. */
  method RailCycleOrder(model: Model) returns (ids: seq<string>)
    ensures ids == IdsOf(LiveRows(model))
  {
    ids := AppendSprints(model.sprints);
    ids := AppendMasters(model.masters, ids);
    ids := AppendSeats(model.unattached, ids);
    IdsAppend(Flatten(SprintLive, model.sprints), Flatten(SectionLive, model.masters));
    IdsAppend(Flatten(SprintLive, model.sprints) + Flatten(SectionLive, model.masters), model.unattached);
  }

  /** Cycling over a built rail visits every session that is neither landed nor terminated, once. */
  method CycleOfBuiltRail(sessions: seq<Session>, documents: seq<Doc>, orders: Orders) returns (ids: seq<string>)
    ensures multiset(ids) == multiset(IdsOf(LiveOnes(sessions)))
  {
    var model := BuildRailModel(sessions, documents, orders);
    ids := RailCycleOrder(model);
    IdsPermuted(LiveRows(model), LiveOnes(sessions));
  }
}
