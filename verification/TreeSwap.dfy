/**
 replace_tree of scripts/sync-runtime.py, crash points included.

 A run cleans the leftovers of an earlier crash, copies the source beside the target, renames the old
 target aside and the copy into place, and removes the old tree. A crash may come between any two steps
 and in the middle of a copy or a removal; a later run may have a different source.
 */
module TreeSwap {
  import opened Prelude
  import opened SyncRuntime

  datatype Disk = Disk(target: Option<Tree>, staging: Option<Tree>, retired: Option<Tree>)

  // ---------------------------------------------------------------- every run, every crash

  /** What the script is about to do. */
  datatype Pc = Idle | CleanStaging | CleanRetired | Copying | SetAside | SwapIn | DropRetired

  datatype World = World(disk: Disk, pc: Pc, source: Tree)

  datatype Event =
    | Begin(source: Tree)   // a run starts, perhaps after the source has changed
    | Crash                 // the run is over, by a crash or an exception
    | Erode(left: Tree)     // a removal under way
    | Removed               // a removal is finished, or there was nothing to remove
    | CopySome(partial: Tree) // the copy under way
    | Copied                // the copy is complete
    | RenameAside           // the target, if there is one, becomes the retired tree
    | RenameIn              // the copy becomes the target

  /** A removal only takes away: every path left was there, and some path is gone. */
  ghost predicate Eroded(left: Node, before: Node) {
    && (forall path :: Resolve(left, path).Some? ==> Resolve(before, path).Some?)
    && Lacks(left, before)
  }

  ghost predicate Lacks(node: Node, whole: Node) {
    exists path :: Resolve(whole, path).Some? && Resolve(node, path).None?
  }

  ghost predicate Enabled(w: World, e: Event) {
    match e
    case Begin(_) => w.pc == Idle
    case Crash => w.pc != Idle
    case Erode(left) =>
      || (w.pc == CleanStaging && w.disk.staging.Some? && Eroded(left, w.disk.staging.value))
      || ((w.pc == CleanRetired || w.pc == DropRetired) && w.disk.retired.Some? && Eroded(left, w.disk.retired.value))
    case Removed => w.pc == CleanStaging || w.pc == CleanRetired || w.pc == DropRetired
    case CopySome(_) => w.pc == Copying
    case Copied => w.pc == Copying
    case RenameAside => w.pc == SetAside
    case RenameIn => w.pc == SwapIn
  }

  function Next(w: World, e: Event): World {
    match e
    case Begin(source) => World(w.disk, CleanStaging, source)
    case Crash => w.(pc := Idle)
    case Erode(left) =>
      if w.pc == CleanStaging then w.(disk := w.disk.(staging := Some(left))) else w.(disk := w.disk.(retired := Some(left)))
    case Removed =>
      if w.pc == CleanStaging then w.(disk := w.disk.(staging := None), pc := CleanRetired)
      else w.(disk := w.disk.(retired := None), pc := if w.pc == CleanRetired then Copying else Idle)
    case CopySome(partial) => w.(disk := w.disk.(staging := Some(partial)))
    case Copied => w.(disk := w.disk.(staging := Some(Copy(w.source))), pc := SetAside)
    case RenameAside =>
      var disk := w.disk;
      w.(disk := if disk.target.None? then disk else disk.(retired := disk.target, target := None), pc := SwapIn)
    case RenameIn => w.(disk := w.disk.(target := w.disk.staging, staging := None), pc := DropRetired)
  }

  /** `worlds[i]` is the world before `events[i]`. */
  datatype Run = Run(events: seq<Event>, worlds: seq<World>)

  ghost predicate IsRun(run: Run) {
    && |run.worlds| == |run.events| + 1
    && run.worlds[0].pc == Idle
    && forall i {:trigger run.events[i]} :: 0 <= i < |run.events| ==>
         Enabled(run.worlds[i], run.events[i]) && run.worlds[i + 1] == Next(run.worlds[i], run.events[i])
  }

  lemma RunStep(run: Run, i: nat)
    requires IsRun(run) && i < |run.events|
    ensures Enabled(run.worlds[i], run.events[i]) && run.worlds[i + 1] == Next(run.worlds[i], run.events[i])
  {
  }

  // ---------------------------------------------------------------- what each step may rely on

  /** The renames never meet an occupied name, and the one into place always has the whole copy. */
  ghost predicate Ready(w: World) {
    && (w.pc == SetAside || w.pc == SwapIn ==> w.disk.staging == Some(Copy(w.source)))
    && (w.pc == CleanRetired || w.pc == DropRetired ==> w.disk.staging.None?)
    && (w.pc == Copying || w.pc == SetAside ==> w.disk.retired.None?)
    && (w.pc == SwapIn ==> w.disk.target.None?)
    && (w.pc == DropRetired ==> w.disk.target == Some(Copy(w.source)))
  }

  lemma {:induction false} AlwaysReady(run: Run, n: nat)
    requires IsRun(run) && n <= |run.events|
    ensures Ready(run.worlds[n])
  {
    if n > 0 {
      AlwaysReady(run, n - 1);
      RunStep(run, n - 1);
    }
  }

  /** A run that is about to finish leaves the whole copy and nothing beside it. */
  lemma CompletedRunIsClean(run: Run, i: nat, digest: Content -> string)
    requires IsRun(run) && i < |run.events| && run.worlds[i].pc == DropRetired && run.events[i] == Removed
    ensures run.worlds[i + 1].disk == Disk(Some(Copy(run.worlds[i].source)), None, None)
    ensures SameFiles(Some(run.worlds[i].source), run.worlds[i + 1].disk.target, digest)
  {
    AlwaysReady(run, i);
    RunStep(run, i);
    CopyInSync(run.worlds[i].source, digest);
  }

  // ---------------------------------------------------------------- never a partial target

  /** One of the sources of the runs begun before n. */
  ghost predicate BegunWith(run: Run, n: nat, source: Tree)
    requires n <= |run.events|
  {
    exists i :: 0 <= i < n && run.events[i] == Begin(source)
  }

  ghost predicate WholeTarget(run: Run, n: nat, tree: Tree)
    requires n <= |run.events| && run.worlds != []
  {
    run.worlds[0].disk.target == Some(tree) || exists source: Tree :: BegunWith(run, n, source) && tree == Copy(source)
  }

  lemma {:induction false} SourceWasBegun(run: Run, n: nat)
    requires IsRun(run) && n <= |run.events|
    ensures run.worlds[n].pc != Idle ==> BegunWith(run, n, run.worlds[n].source)
  {
    if n > 0 {
      var m: nat := n - 1;
      SourceWasBegun(run, m);
      RunStep(run, m);
      if BegunWith(run, m, run.worlds[n].source) { BegunStays(run, m, run.worlds[n].source); }
    }
  }

  lemma BegunStays(run: Run, m: nat, source: Tree)
    requires m < |run.events| && BegunWith(run, m, source)
    ensures BegunWith(run, m + 1, source)
  {
    var i :| 0 <= i < m && run.events[i] == Begin(source);
    assert 0 <= i < m + 1;
  }

  lemma WholeStays(run: Run, m: nat, tree: Tree)
    requires m < |run.events| && run.worlds != [] && WholeTarget(run, m, tree)
    ensures WholeTarget(run, m + 1, tree)
  {
    if run.worlds[0].disk.target != Some(tree) {
      var source: Tree :| BegunWith(run, m, source) && tree == Copy(source);
      BegunStays(run, m, source);
    }
  }

  /** At every point of every run, whatever crashed before: the target is away, the tree it was at the
      start, or the whole copy of a source some run was begun with. */
  lemma {:induction false} NeverPartial(run: Run, n: nat)
    requires IsRun(run) && n <= |run.events|
    ensures run.worlds[n].disk.target.Some? ==> WholeTarget(run, n, run.worlds[n].disk.target.value)
  {
    if n > 0 {
      var m: nat := n - 1;
      NeverPartial(run, m);
      RunStep(run, m);
      AlwaysReady(run, m);
      if run.events[m].RenameIn? {
        SourceWasBegun(run, m);
        BegunStays(run, m, run.worlds[m].source);
      } else if run.worlds[n].disk.target.Some? {
        WholeStays(run, m, run.worlds[n].disk.target.value);
      }
    }
  }

  // ---------------------------------------------------------------- when the target is away

  predicate Aside(run: Run, i: nat)
    requires i < |run.events| < |run.worlds|
  {
    run.events[i].RenameAside? && run.worlds[i].disk.target.Some?
  }

  /** A target was renamed aside at i and no copy has been renamed into place between then and n. */
  ghost predicate AwaySince(run: Run, i: nat, n: nat)
    requires n <= |run.events| < |run.worlds|
  {
    i < n && Aside(run, i) && forall k :: i < k < n ==> !run.events[k].RenameIn?
  }

  ghost predicate Away(run: Run, n: nat)
    requires n <= |run.events| < |run.worlds|
  {
    exists i :: AwaySince(run, i, n)
  }

  ghost predicate NeverThere(run: Run, n: nat)
    requires n <= |run.events| < |run.worlds|
  {
    run.worlds[0].disk.target.None? && forall k :: 0 <= k < n ==> !run.events[k].RenameIn?
  }

  lemma AwayNext(run: Run, m: nat)
    requires IsRun(run) && m < |run.events|
    ensures Away(run, m + 1) <==> Aside(run, m) || (Away(run, m) && !run.events[m].RenameIn?)
  {
    if Aside(run, m) { assert AwaySince(run, m, m + 1); }
    if Away(run, m) && !run.events[m].RenameIn? {
      var i :| AwaySince(run, i, m);
      assert AwaySince(run, i, m + 1);
    }
    if Away(run, m + 1) && !Aside(run, m) {
      var i :| AwaySince(run, i, m + 1);
      assert AwaySince(run, i, m);
    }
  }

  /** The target is missing exactly when there never was one, or between the two renames of a run: until
      the second rename of that run or, after a crash between the two, of a later one. */
  lemma {:induction false} MissingIff(run: Run, n: nat)
    requires IsRun(run) && n <= |run.events|
    ensures run.worlds[n].disk.target.None? <==> NeverThere(run, n) || Away(run, n)
  {
    if n > 0 {
      var m: nat := n - 1;
      MissingIff(run, m);
      RunStep(run, m);
      AlwaysReady(run, m);
      AwayNext(run, m);
      assert NeverThere(run, n) <==> NeverThere(run, m) && !run.events[m].RenameIn?;
    }
  }

  /** So with a target at the start, a missing one has a crash between the renames behind it, or the run
      is just there. */
  lemma MissingOnlyAfterCrash(run: Run, n: nat) returns (i: nat)
    requires IsRun(run) && n <= |run.events| && run.worlds[0].disk.target.Some? && run.worlds[n].disk.target.None?
    ensures AwaySince(run, i, n)
    ensures i + 1 == n || run.events[i + 1] == Crash
  {
    MissingIff(run, n);
    i :| AwaySince(run, i, n);
    if i + 1 < n {
      RunStep(run, i);
      RunStep(run, i + 1);
    }
  }

  // ---------------------------------------------------------------- what becomes of the old tree

  /** A removal step on the retired tree. */
  predicate TouchesRetired(run: Run, k: nat)
    requires k < |run.events| < |run.worlds|
  {
    (run.events[k].Erode? || run.events[k].Removed?) && run.worlds[k].pc != CleanStaging
  }

  ghost predicate Untouched(run: Run, i: nat, n: nat)
    requires n <= |run.events| < |run.worlds|
  {
    forall k :: i < k < n ==> !TouchesRetired(run, k)
  }

  ghost predicate Damaged(disk: Disk, former: Tree) {
    disk.retired.None? || Lacks(disk.retired.value, former)
  }

  lemma ErosionDamages(left: Node, before: Node, former: Node)
    requires Eroded(left, before) && (before == former || Lacks(before, former))
    ensures Lacks(left, former)
  {
    if before != former {
      var path :| Resolve(former, path).Some? && Resolve(before, path).None?;
      assert Resolve(left, path).None?;
    }
  }

  lemma DamageNext(run: Run, i: nat, m: nat, former: Tree)
    requires IsRun(run) && m < |run.events| && AwaySince(run, i, m) && run.worlds[i].disk.target == Some(former)
    requires !run.events[m].RenameIn?
    requires if Untouched(run, i, m) then run.worlds[m].disk.retired == Some(former) else Damaged(run.worlds[m].disk, former)
    ensures if Untouched(run, i, m + 1) then run.worlds[m + 1].disk.retired == Some(former) else Damaged(run.worlds[m + 1].disk, former)
  {
    RunStep(run, m);
    assert Away(run, m);
    MissingIff(run, m);
    assert Untouched(run, i, m + 1) <==> Untouched(run, i, m) && !TouchesRetired(run, m);
    if run.events[m].Erode? && TouchesRetired(run, m) {
      ErosionDamages(run.events[m].left, run.worlds[m].disk.retired.value, former);
    }
  }

  /** While the target is away, the old tree is whole beside it exactly until a later run starts to
      remove it; that run does so before it has a copy to put in its place. */
  lemma {:induction false} OldTreeIff(run: Run, i: nat, n: nat, former: Tree)
    requires IsRun(run) && n <= |run.events| && AwaySince(run, i, n) && run.worlds[i].disk.target == Some(former)
    ensures if Untouched(run, i, n) then run.worlds[n].disk.retired == Some(former) else Damaged(run.worlds[n].disk, former)
  {
    if n == i + 1 {
      RunStep(run, i);
    } else {
      assert AwaySince(run, i, n - 1);
      OldTreeIff(run, i, n - 1, former);
      DamageNext(run, i, n - 1, former);
    }
  }

  // ---------------------------------------------------------------- two claims the script does not meet

  /** A crash between the two renames leaves no target, though there was one. */
  lemma CrashCanLeaveNoTarget(former: Tree, source: Tree) returns (run: Run)
    ensures IsRun(run) && run.worlds[0].disk.target == Some(former)
    ensures run.events != [] && run.events[|run.events| - 1] == Crash && run.worlds[|run.events|].disk.target == None
  {
    var w0 := World(Disk(Some(former), None, None), Idle, source);
    var w1 := Next(w0, Begin(source));
    var w2 := Next(w1, Removed);
    var w3 := Next(w2, Removed);
    var w4 := Next(w3, Copied);
    var w5 := Next(w4, RenameAside);
    var w6 := Next(w5, Crash);
    run := Run([Begin(source), Removed, Removed, Copied, RenameAside, Crash], [w0, w1, w2, w3, w4, w5, w6]);
  }

  /** A second crash, in the cleaning of the next run, leaves neither the old tree nor a copy. */
  lemma RerunCanLoseEveryTree(former: Tree, source: Tree) returns (run: Run)
    ensures IsRun(run) && run.worlds[0].disk == Disk(Some(former), None, None)
    ensures run.worlds[|run.events|] == World(Disk(None, None, None), Idle, source)
  {
    var w0 := World(Disk(Some(former), None, None), Idle, source);
    var w1 := Next(w0, Begin(source));
    var w2 := Next(w1, Removed);
    var w3 := Next(w2, Removed);
    var w4 := Next(w3, Copied);
    var w5 := Next(w4, RenameAside);
    var w6 := Next(w5, Crash);
    var w7 := Next(w6, Begin(source));
    var w8 := Next(w7, Removed);
    var w9 := Next(w8, Removed);
    var w10 := Next(w9, Crash);
    run := Run(
      [Begin(source), Removed, Removed, Copied, RenameAside, Crash, Begin(source), Removed, Removed, Crash],
      [w0, w1, w2, w3, w4, w5, w6, w7, w8, w9, w10]);
  }

  // ---------------------------------------------------------------- the script, step by step

  function Last(run: Run): World
    requires run.worlds != []
  {
    run.worlds[|run.worlds| - 1]
  }

  function Extended(run: Run, e: Event): Run
    requires run.worlds != []
  {
    Run(run.events + [e], run.worlds + [Next(Last(run), e)])
  }

  predicate Prefix(run: Run, longer: Run) {
    run.events <= longer.events && run.worlds <= longer.worlds
  }

  lemma ExtendedIsRun(run: Run, e: Event)
    requires IsRun(run) && Enabled(Last(run), e)
    ensures IsRun(Extended(run, e)) && Prefix(run, Extended(run, e)) && Last(Extended(run, e)) == Next(Last(run), e)
  {
    var longer := Extended(run, e);
    forall i {:trigger longer.events[i]} | 0 <= i < |longer.events|
      ensures Enabled(longer.worlds[i], longer.events[i]) && longer.worlds[i + 1] == Next(longer.worlds[i], longer.events[i])
    {
      if i < |run.events| {
        RunStep(run, i);
        assert longer.events[i] == run.events[i] && longer.worlds[i] == run.worlds[i] && longer.worlds[i + 1] == run.worlds[i + 1];
      }
    }
  }

  /** Where a run is cut short; a removal or a copy that was under way leaves a partial tree. */
  datatype Interruption =
    | Never
    | InStaging(left: Option<Tree>)
    | InRetired(left: Option<Tree>)
    | InCopy(left: Option<Tree>)
    | BeforeAside
    | BeforeIn
    | InDrop(left: Option<Tree>)

  /**
   replace_tree on a disk. The ghost `run` keeps all that happened to the disk over any number of calls, and
   `Valid` says that it is a run of the transition system: so every theorem about runs is about this code.
   */
  class FileSystem {
    var target: Option<Tree>
    var staging: Option<Tree>
    var retired: Option<Tree>
    ghost var run: Run

    ghost predicate Valid()
      reads this
    {
      IsRun(run) && Last(run).disk == Disk(target, staging, retired)
    }

    ghost predicate At(pc: Pc, source: Tree)
      reads this
    {
      Valid() && Last(run).pc == pc && Last(run).source == source
    }

    ghost predicate Resting()
      reads this
    {
      Valid() && Last(run).pc == Idle
    }

    constructor (target: Option<Tree>)
      ensures Resting() && this.target == target && staging == None && retired == None
      ensures run.events == []
    {
      this.target, staging, retired := target, None, None;
      run := Run([], [World(Disk(target, None, None), Idle, Dir(map[]))]);
    }

    ghost method Log(e: Event)
      requires IsRun(run) && Enabled(Last(run), e)
      modifies this`run
      ensures IsRun(run) && Prefix(old(run), run) && Last(run) == Next(Last(old(run)), e)
    {
      ExtendedIsRun(run, e);
      run := Extended(run, e);
    }

    /** Nothing more happens: a crash, or an exception that ends the script. */
    ghost method CutShort()
      requires Valid() && Last(run).pc != Idle
      modifies this`run
      ensures Resting() && Prefix(old(run), run)
    {
      Log(Crash);
    }

    /** rmtree of the staging tree, if there is one; interrupted when it leaves something. */
    method RemoveStaging(source: Tree, left: Option<Tree>, finish: bool)
      requires At(CleanStaging, source)
      requires left.Some? ==> staging.Some? && Eroded(left.value, staging.value)
      modifies this
      ensures At(if finish then CleanRetired else CleanStaging, source) && Prefix(old(run), run)
      ensures target == old(target) && retired == old(retired) && (finish ==> staging == None)
    {
      if left.Some? {
        staging := left;
        Log(Erode(left.value));
      }
      if finish {
        staging := None;
        Log(Removed);
      }
    }

    /** rmtree of the retired tree, before the copy or after the swap. */
    method RemoveRetired(pc: Pc, source: Tree, left: Option<Tree>, finish: bool)
      requires At(pc, source) && (pc == CleanRetired || pc == DropRetired)
      requires left.Some? ==> retired.Some? && Eroded(left.value, retired.value)
      modifies this
      ensures At(if !finish then pc else if pc == CleanRetired then Copying else Idle, source) && Prefix(old(run), run)
      ensures target == old(target) && staging == old(staging) && (finish ==> retired == None)
    {
      if left.Some? {
        retired := left;
        Log(Erode(left.value));
      }
      if finish {
        retired := None;
        Log(Removed);
      }
    }

    /** copytree into the staging tree. */
    method CopyTree(source: Tree, left: Option<Tree>, finish: bool)
      requires At(Copying, source)
      modifies this
      ensures At(if finish then SetAside else Copying, source) && Prefix(old(run), run)
      ensures target == old(target) && retired == old(retired) && (finish ==> staging == Some(Copy(source)))
    {
      if left.Some? {
        staging := left;
        Log(CopySome(left.value));
      }
      if finish {
        staging := Some(Copy(source));
        Log(Copied);
      }
    }

    method RenameTargetAside(source: Tree)
      requires At(SetAside, source)
      modifies this
      ensures At(SwapIn, source) && Prefix(old(run), run)
      ensures target == None && staging == old(staging)
      ensures retired == if old(target).Some? then old(target) else old(retired)
    {
      if target.Some? {
        retired := target;
        target := None;
      }
      Log(RenameAside);
    }

    method RenameStagingIn(source: Tree)
      requires At(SwapIn, source)
      modifies this
      ensures At(DropRetired, source) && Prefix(old(run), run)
      ensures target == old(staging) && staging == None && retired == old(retired)
    {
      target := staging;
      staging := None;
      Log(RenameIn);
    }

    /** The leftovers of an earlier crash are removed. */
    method CleanLeftovers(source: Tree, crash: Interruption) returns (through: bool)
      requires Resting()
      requires crash.InStaging? && crash.left.Some? ==> staging.Some? && Eroded(crash.left.value, staging.value)
      requires crash.InRetired? && crash.left.Some? ==> retired.Some? && Eroded(crash.left.value, retired.value)
      modifies this
      ensures through <==> !crash.InStaging? && !crash.InRetired?
      ensures Prefix(old(run), run) && target == old(target)
      ensures through ==> At(Copying, source) && staging == None && retired == None
      ensures !through ==> Resting()
    {
      Log(Begin(source));
      RemoveStaging(source, if crash.InStaging? then crash.left else None, !crash.InStaging?);
      if crash.InStaging? { CutShort(); return false; }
      RemoveRetired(CleanRetired, source, if crash.InRetired? then crash.left else None, !crash.InRetired?);
      if crash.InRetired? { CutShort(); return false; }
      through := true;
    }

    /** The two renames, and the removal of the old tree. */
    method SwapTrees(source: Tree, crash: Interruption) returns (completed: bool)
      requires At(SetAside, source) && staging == Some(Copy(source)) && retired == None
      requires crash.Never? || crash.BeforeIn? || crash.InDrop?
      requires crash.InDrop? && crash.left.Some? ==> target.Some? && Eroded(crash.left.value, target.value)
      modifies this
      ensures Resting() && Prefix(old(run), run)
      ensures completed <==> crash.Never?
      ensures target == if crash.BeforeIn? then None else Some(Copy(source))
      ensures crash.BeforeIn? ==> staging == Some(Copy(source)) && retired == old(target)
      ensures completed ==> staging == None && retired == None
    {
      completed := false;
      RenameTargetAside(source);
      if crash.BeforeIn? { CutShort(); return; }
      RenameStagingIn(source);
      RemoveRetired(DropRetired, source, if crash.InDrop? then crash.left else None, !crash.InDrop?);
      if crash.InDrop? { CutShort(); return; }
      completed := true;
    }

    /**
     One run, cut short anywhere or not. Whatever the cut, the target is the old tree, away between the two
     renames, or the whole copy; a completed run leaves nothing beside it.
     */
    method ReplaceTree(source: Tree, crash: Interruption) returns (completed: bool)
      requires Resting()
      requires crash.InStaging? && crash.left.Some? ==> staging.Some? && Eroded(crash.left.value, staging.value)
      requires crash.InRetired? && crash.left.Some? ==> retired.Some? && Eroded(crash.left.value, retired.value)
      requires crash.InDrop? && crash.left.Some? ==> target.Some? && Eroded(crash.left.value, target.value)
      modifies this
      ensures Resting() && Prefix(old(run), run)
      ensures completed <==> crash.Never?
      ensures target == (if crash.Never? || crash.InDrop? then Some(Copy(source)) else if crash.BeforeIn? then None else old(target))
      ensures crash.BeforeIn? ==> staging == Some(Copy(source)) && retired == old(target)
      ensures completed ==> staging == None && retired == None
    {
      completed := false;
      var through := CleanLeftovers(source, crash);
      if !through { return; }
      CopyTree(source, if crash.InCopy? then crash.left else None, !crash.InCopy?);
      if crash.InCopy? || crash.BeforeAside? { CutShort(); return; }
      completed := SwapTrees(source, crash);
    }
  }
}
