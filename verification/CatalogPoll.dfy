/**
 The shared terminal-catalog attempt (dashboard/src/data/catalogPoll.ts).

 Logical readers share one physical GET, union their exclusions, and are revoked by a generation
 counter. One step is the code between two awaits; the settlement of the shared promise takes two
 steps, because the slot is released in a later microtask than the one that records the beat.
 */
module CatalogPoll {
  import opened Prelude

  datatype Row = Row(id: string, info: string)

  /** A physical GET: in flight, landed with its result, then released to its waiters. */
  datatype Progress = Flying | Landed(list: Option<seq<Row>>) | Settled(list: Option<seq<Row>>)

  datatype Attempt = Attempt(generation: nat, excluded: set<string>, progress: Progress)

  datatype Reader =
    | Awaiting(attempt: nat, generation: nat, excluded: set<string>, allowEmpty: bool)
    | Fetched(attempt: nat, generation: nat, list: Option<seq<Row>>, excluded: set<string>, allowEmpty: bool)
    | Finished

  datatype Join = Join(reader: nat, attempt: nat, excluded: set<string>)
  datatype Beat = Beat(attempt: nat, ok: bool)
  datatype Hydrate = Hydrate(reader: nat, generation: nat, attempt: nat, rows: seq<Row>)

  datatype Catalog = Catalog(
    generation: nat,
    slot: Option<nat>,
    attempts: seq<Attempt>,
    readers: map<nat, Reader>,
    joins: seq<Join>,
    beats: seq<Beat>,
    hydrates: seq<Hydrate>)

  datatype Step =
    | Call(reader: nat, authority: nat, excluded: set<string>, allowEmpty: bool)
    | Land(attempt: nat, list: Option<seq<Row>>)
    | Release(attempt: nat)
    | Resume(reader: nat)
    | Finish(reader: nat)
    | Reset

  predicate Enabled(c: Catalog, step: Step) {
    match step
    case Call(r, _, _, _) => r !in c.readers
    case Land(a, _) => a < |c.attempts| && c.attempts[a].progress == Flying
    case Release(a) => a < |c.attempts| && c.attempts[a].progress.Landed?
    case Resume(r) => r in c.readers && c.readers[r].Awaiting? && c.readers[r].attempt < |c.attempts| &&
                      c.attempts[c.readers[r].attempt].progress.Settled?
    case Finish(r) => r in c.readers && c.readers[r].Fetched?
    case Reset => true
  }

  /** currentCatalogTransportAttempt, and registration of the reader's exclusions on it. */
  function JoinAttempt(c: Catalog, r: nat, generation: nat, excluded: set<string>, allowEmpty: bool): Catalog
    requires c.slot.Some? ==> c.slot.value < |c.attempts|
  {
    var a := if c.slot.Some? then c.slot.value else |c.attempts|;
    var attempts := if c.slot.Some? then c.attempts else c.attempts + [Attempt(c.generation, {}, Flying)];
    c.(slot := Some(a),
       attempts := attempts[a := attempts[a].(excluded := attempts[a].excluded + excluded)],
       readers := c.readers[r := Awaiting(a, generation, excluded, allowEmpty)],
       joins := c.joins + [Join(r, a, excluded)])
  }

  function Keep(rows: seq<Row>, excluded: set<string>): (kept: seq<Row>)
    ensures forall row :: row in kept <==> row in rows && row.id !in excluded
  {
    if rows == [] then []
    else (if rows[0].id in excluded then [] else [rows[0]]) + Keep(rows[1..], excluded)
  }

  function Next(c: Catalog, step: Step): Catalog
    requires Enabled(c, step)
    requires c.slot.Some? ==> c.slot.value < |c.attempts|
  {
    match step
    case Call(r, authority, excluded, allowEmpty) =>
      if authority != c.generation then c.(readers := c.readers[r := Finished])
      else JoinAttempt(c, r, c.generation, excluded, allowEmpty)
    case Land(a, list) =>
      var landed := c.(attempts := c.attempts[a := c.attempts[a].(progress := Landed(list))]);
      if c.attempts[a].generation == c.generation then landed.(beats := c.beats + [Beat(a, list.Some?)]) else landed
    case Release(a) =>
      c.(attempts := c.attempts[a := c.attempts[a].(progress := Settled(c.attempts[a].progress.list))],
         slot := if c.slot == Some(a) then None else c.slot)
    case Resume(r) =>
      var reader := c.readers[r];
      var attempt := c.attempts[reader.attempt];
      if reader.generation != c.generation then
        c.(readers := c.readers[r := Fetched(reader.attempt, reader.generation, None, {}, reader.allowEmpty)])
      else if attempt.generation == reader.generation then
        c.(readers := c.readers[r := Fetched(reader.attempt, reader.generation, attempt.progress.list, attempt.excluded, reader.allowEmpty)])
      else JoinAttempt(c, r, reader.generation, reader.excluded, reader.allowEmpty)
    case Finish(r) =>
      var reader := c.readers[r];
      var done := c.(readers := c.readers[r := Finished]);
      if reader.generation != c.generation || reader.list.None? || (reader.list.value == [] && !reader.allowEmpty) then done
      else done.(hydrates := c.hydrates + [Hydrate(r, c.generation, reader.attempt, Keep(reader.list.value, reader.excluded))])
    case Reset => c.(generation := c.generation + 1)
  }

  // ---------------------------------------------------------------- what every step keeps

  /** Every attempt still unsettled is the one in the slot, so at most one GET is in flight. */
  predicate OneInFlight(c: Catalog) {
    && (c.slot.Some? ==> c.slot.value < |c.attempts|)
    && (forall a :: 0 <= a < |c.attempts| ==> (!c.attempts[a].progress.Settled? <==> c.slot == Some(a)))
  }

  /** Exclusions registered by a join are on the attempt for good. */
  predicate JoinsRegistered(c: Catalog) {
    forall i :: 0 <= i < |c.joins| ==>
      c.joins[i].attempt < |c.attempts| && c.joins[i].excluded <= c.attempts[c.joins[i].attempt].excluded
  }

  /** A reader waits on an attempt that exists, or holds a settled result with its full exclusions. */
  predicate ReaderSound(c: Catalog, reader: Reader) {
    match reader
    case Finished => true
    case Awaiting(a, generation, _, _) => a < |c.attempts| && generation <= c.generation
    case Fetched(a, generation, list, excluded, _) =>
      && a < |c.attempts| && generation <= c.generation && c.attempts[a].progress.Settled?
      && (list.Some? ==> list == c.attempts[a].progress.list && excluded == c.attempts[a].excluded && c.attempts[a].generation == generation)
  }

  predicate ReadersSound(c: Catalog) {
    forall r :: r in c.readers ==> ReaderSound(c, c.readers[r])
  }

  /** At most one beat per attempt, reporting what it landed with. */
  predicate BeatsSound(c: Catalog) {
    && (forall i :: 0 <= i < |c.beats| ==>
          && c.beats[i].attempt < |c.attempts|
          && !c.attempts[c.beats[i].attempt].progress.Flying?
          && c.beats[i].ok == c.attempts[c.beats[i].attempt].progress.list.Some?)
    && (forall i, j :: 0 <= i < j < |c.beats| ==> c.beats[i].attempt != c.beats[j].attempt)
  }

  /** A hydrate holds rows of a settled attempt of its own generation, minus everything any reader excluded from it. */
  predicate HydratesSound(c: Catalog) {
    forall i :: 0 <= i < |c.hydrates| ==>
      var h := c.hydrates[i];
      && h.attempt < |c.attempts| && c.attempts[h.attempt].generation == h.generation
      && c.attempts[h.attempt].progress.Settled? && c.attempts[h.attempt].progress.list.Some?
      && h.rows == Keep(c.attempts[h.attempt].progress.list.value, c.attempts[h.attempt].excluded)
  }

  predicate Sound(c: Catalog) {
    OneInFlight(c) && JoinsRegistered(c) && ReadersSound(c) && BeatsSound(c) && HydratesSound(c)
  }

  lemma JoinSound(c: Catalog, r: nat, generation: nat, excluded: set<string>, allowEmpty: bool)
    requires Sound(c) && generation <= c.generation
    ensures Sound(JoinAttempt(c, r, generation, excluded, allowEmpty))
  {
    var next := JoinAttempt(c, r, generation, excluded, allowEmpty);
    forall a | 0 <= a < |c.attempts| && c.attempts[a].progress.Settled?
      ensures a < |next.attempts| && next.attempts[a] == c.attempts[a]
    {
    }
    forall q | q in next.readers ensures ReaderSound(next, next.readers[q]) {
      if q != r { assert ReaderSound(c, c.readers[q]); }
    }
  }

  lemma StepSound(c: Catalog, step: Step)
    requires Sound(c) && Enabled(c, step)
    ensures Sound(Next(c, step))
  {
    match step
    case Call(r, authority, excluded, allowEmpty) =>
      if authority == c.generation { JoinSound(c, r, c.generation, excluded, allowEmpty); }
    case Resume(r) =>
      var reader := c.readers[r];
      assert ReaderSound(c, reader);
      if reader.generation == c.generation && c.attempts[reader.attempt].generation != reader.generation {
        JoinSound(c, r, reader.generation, reader.excluded, reader.allowEmpty);
      }
    case Finish(r) => assert ReaderSound(c, c.readers[r]);
    case Land(a, list) => LandSound(c, a, list);
    case Release(a) => ReleaseSound(c, a);
    case Reset =>
  }

  lemma LandSound(c: Catalog, a: nat, list: Option<seq<Row>>)
    requires Sound(c) && Enabled(c, Land(a, list))
    ensures Sound(Next(c, Land(a, list)))
  {
    var next := Next(c, Land(a, list));
    forall q | q in next.readers ensures ReaderSound(next, next.readers[q]) {
      assert ReaderSound(c, c.readers[q]);
    }
  }

  lemma ReleaseSound(c: Catalog, a: nat)
    requires Sound(c) && Enabled(c, Release(a))
    ensures Sound(Next(c, Release(a)))
  {
    var next := Next(c, Release(a));
    forall q | q in next.readers ensures ReaderSound(next, next.readers[q]) {
      assert ReaderSound(c, c.readers[q]);
    }
  }

  // ---------------------------------------------------------------- runs

  datatype Run = Run(states: seq<Catalog>, steps: seq<Step>)

  ghost predicate IsRun(run: Run) {
    && |run.states| == |run.steps| + 1
    && forall i {:trigger run.steps[i]} :: 0 <= i < |run.steps| ==>
         && Enabled(run.states[i], run.steps[i])
         && (run.states[i].slot.Some? ==> run.states[i].slot.value < |run.states[i].attempts|)
         && run.states[i + 1] == Next(run.states[i], run.steps[i])
  }

  const EMPTY := Catalog(0, None, [], map[], [], [], [])

  lemma {:induction false} RunSound(run: Run, i: nat)
    requires IsRun(run) && run.states[0] == EMPTY && i < |run.states|
    ensures Sound(run.states[i])
  {
    if i > 0 {
      RunSound(run, i - 1);
      StepSound(run.states[i - 1], run.steps[i - 1]);
    }
  }

  /** In every reachable state at most one physical GET is in flight. */
  lemma AtMostOneGet(run: Run, i: nat, a: nat, b: nat)
    requires IsRun(run) && run.states[0] == EMPTY && i < |run.states|
    requires a < |run.states[i].attempts| && b < |run.states[i].attempts|
    requires run.states[i].attempts[a].progress == Flying && run.states[i].attempts[b].progress == Flying
    ensures a == b
  {
    RunSound(run, i);
  }

  /**
   In any continuation order, no hydrate built from an attempt contains an id that any reader which
   joined the attempt, before or after, asked to exclude; and every row was served by an attempt of
   the hydrating generation.
   */
  lemma ExclusionsRespected(run: Run, i: nat, h: nat, j: nat, row: Row)
    requires IsRun(run) && run.states[0] == EMPTY && i < |run.states|
    requires h < |run.states[i].hydrates| && j < |run.states[i].joins|
    requires run.states[i].joins[j].attempt == run.states[i].hydrates[h].attempt
    requires row in run.states[i].hydrates[h].rows
    ensures row.id !in run.states[i].joins[j].excluded
    ensures
      var c := run.states[i];
      var a := c.hydrates[h].attempt;
      && a < |c.attempts| && c.attempts[a].generation == c.hydrates[h].generation
      && c.attempts[a].progress.Settled? && c.attempts[a].progress.list.Some? && row in c.attempts[a].progress.list.value
  {
    RunSound(run, i);
  }

  lemma StepGeneration(c: Catalog, step: Step, r: nat)
    requires Enabled(c, step) && OneInFlight(c)
    ensures Next(c, step).generation == if step == Reset then c.generation + 1 else c.generation
    ensures r in c.readers ==>
              r in Next(c, step).readers &&
              (Next(c, step).readers[r] != Finished ==>
                 c.readers[r] != Finished && Next(c, step).readers[r].generation == c.readers[r].generation)
  {
  }

  lemma RunGeneration(run: Run, i: nat, r: nat)
    requires IsRun(run) && run.states[0] == EMPTY && i < |run.states| - 1
    ensures run.states[i + 1].generation == if run.steps[i] == Reset then run.states[i].generation + 1 else run.states[i].generation
    ensures r in run.states[i].readers ==>
              r in run.states[i + 1].readers &&
              (run.states[i + 1].readers[r] != Finished ==>
                 run.states[i].readers[r] != Finished && run.states[i + 1].readers[r].generation == run.states[i].readers[r].generation)
  {
    RunSound(run, i);
    StepGeneration(run.states[i], run.steps[i], r);
  }

  /** A reader keeps the generation it was called under; the catalog's only grows. */
  lemma {:induction false} ReaderGeneration(run: Run, i: nat, j: nat, r: nat)
    requires IsRun(run) && run.states[0] == EMPTY && i <= j < |run.states| && r in run.states[i].readers
    ensures r in run.states[j].readers && run.states[i].generation <= run.states[j].generation
    ensures run.states[j].readers[r] != Finished ==>
              run.states[i].readers[r] != Finished && run.states[j].readers[r].generation == run.states[i].readers[r].generation
    decreases j
  {
    if i < j {
      ReaderGeneration(run, i, j - 1, r);
      RunGeneration(run, j - 1, r);
    }
  }

  /** Once a reset has passed it, a reader never hydrates, however it is scheduled. */
  lemma RevokedNeverHydrates(run: Run, i: nat, k: nat, j: nat)
    requires IsRun(run) && run.states[0] == EMPTY && i < k < j < |run.steps|
    requires run.steps[i].Call? && run.steps[k] == Reset && run.steps[j] == Finish(run.steps[i].reader)
    ensures run.states[j + 1].hydrates == run.states[j].hydrates
  {
    var r := run.steps[i].reader;
    RunSound(run, i);
    assert r in run.states[i + 1].readers;
    ReaderGeneration(run, i + 1, k, r);
    RunGeneration(run, k, r);
    ReaderGeneration(run, k + 1, j, r);
    ReaderGeneration(run, i + 1, j, r);
    assert run.states[i + 1].readers[r] != Finished ==> run.states[i + 1].readers[r].generation == run.states[i + 1].generation;
  }

  // ---------------------------------------------------------------- what does hydrate

  /** A row is kept or dropped by itself, and what is kept of a list is what is kept of its parts. */
  lemma {:induction false} KeepExact(a: seq<Row>, b: seq<Row>, excluded: set<string>, row: Row)
    ensures Keep([row], excluded) == if row.id in excluded then [] else [row]
    ensures Keep(a + b, excluded) == Keep(a, excluded) + Keep(b, excluded)
  {
    assert Keep([row], excluded) == (if row.id in excluded then [] else [row]) + Keep([row][1..], excluded);
    if a == [] {
      assert a + b == b;
    } else {
      assert (a + b)[1..] == a[1..] + b;
      KeepExact(a[1..], b, excluded, row);
    }
  }

  /** Some reader that joined the attempt asked to exclude the id. */
  ghost predicate ExcludedBy(c: Catalog, a: nat, id: string) {
    exists j :: 0 <= j < |c.joins| && c.joins[j].attempt == a && id in c.joins[j].excluded
  }

  /** An attempt excludes what its readers asked for, and nothing else. */
  ghost predicate ExcludedExactly(c: Catalog) {
    forall a: nat, id :: a < |c.attempts| ==> (id in c.attempts[a].excluded <==> ExcludedBy(c, a, id))
  }

  lemma JoinExcludes(c: Catalog, r: nat, generation: nat, excluded: set<string>, allowEmpty: bool)
    requires Sound(c) && ExcludedExactly(c)
    ensures ExcludedExactly(JoinAttempt(c, r, generation, excluded, allowEmpty))
  {
    var next := JoinAttempt(c, r, generation, excluded, allowEmpty);
    var n := |c.joins|;
    forall a: nat, id | a < |next.attempts| ensures id in next.attempts[a].excluded <==> ExcludedBy(next, a, id) {
      if ExcludedBy(c, a, id) {
        var j :| 0 <= j < n && c.joins[j].attempt == a && id in c.joins[j].excluded;
        assert next.joins[j] == c.joins[j];
      }
      if next.joins[n].attempt == a && id in excluded { assert id in next.joins[n].excluded; }
      if ExcludedBy(next, a, id) {
        var j :| 0 <= j < |next.joins| && next.joins[j].attempt == a && id in next.joins[j].excluded;
        if j < n { assert c.joins[j] == next.joins[j]; assert ExcludedBy(c, a, id); assert a < |c.attempts|; }
      }
    }
  }

  lemma StepExcludes(c: Catalog, step: Step)
    requires Sound(c) && ExcludedExactly(c) && Enabled(c, step)
    ensures ExcludedExactly(Next(c, step))
  {
    var next := Next(c, step);
    if step.Call? && step.authority == c.generation {
      JoinExcludes(c, step.reader, c.generation, step.excluded, step.allowEmpty);
    } else if step.Resume? && next.joins != c.joins {
      var reader := c.readers[step.reader];
      JoinExcludes(c, step.reader, reader.generation, reader.excluded, reader.allowEmpty);
    } else {
      forall a: nat, id | a < |next.attempts| ensures id in next.attempts[a].excluded <==> ExcludedBy(next, a, id) {
        assert ExcludedBy(next, a, id) <==> ExcludedBy(c, a, id);
      }
    }
  }

  /** A reader of the current generation that has fetched holds the whole result of its attempt. */
  ghost predicate HoldsResult(c: Catalog, reader: Reader) {
    reader.Fetched? && reader.generation == c.generation ==>
      && reader.attempt < |c.attempts| && c.attempts[reader.attempt].progress == Settled(reader.list)
      && c.attempts[reader.attempt].excluded == reader.excluded
  }

  ghost predicate ResultsHeld(c: Catalog) {
    forall r :: r in c.readers ==> HoldsResult(c, c.readers[r])
  }

  lemma StepHolds(c: Catalog, step: Step)
    requires Sound(c) && ResultsHeld(c) && Enabled(c, step)
    ensures ResultsHeld(Next(c, step))
  {
    var next := Next(c, step);
    forall r | r in next.readers ensures HoldsResult(next, next.readers[r]) {
      if r in c.readers && next.readers[r] == c.readers[r] {
        assert HoldsResult(c, c.readers[r]) && ReaderSound(c, c.readers[r]);
      }
    }
  }

  lemma {:induction false} RunHolds(run: Run, i: nat)
    requires IsRun(run) && run.states[0] == EMPTY && i < |run.states|
    ensures ExcludedExactly(run.states[i]) && ResultsHeld(run.states[i])
  {
    if i > 0 {
      RunHolds(run, i - 1);
      RunSound(run, i - 1);
      StepExcludes(run.states[i - 1], run.steps[i - 1]);
      StepHolds(run.states[i - 1], run.steps[i - 1]);
    }
  }

  /** The reader's own leave to show an empty list never changes. */
  lemma {:induction false} AllowanceKept(run: Run, i: nat, j: nat, r: nat)
    requires IsRun(run) && run.states[0] == EMPTY && i <= j < |run.states| && r in run.states[i].readers
    ensures r in run.states[j].readers
    ensures run.states[j].readers[r] != Finished ==>
              run.states[i].readers[r] != Finished && run.states[j].readers[r].allowEmpty == run.states[i].readers[r].allowEmpty
    decreases j
  {
    if i < j {
      AllowanceKept(run, i, j - 1, r);
      RunSound(run, j - 1);
      StepAllowance(run.states[j - 1], run.steps[j - 1], r);
    }
  }

  lemma StepAllowance(c: Catalog, step: Step, r: nat)
    requires Enabled(c, step) && OneInFlight(c) && r in c.readers
    ensures r in Next(c, step).readers
    ensures Next(c, step).readers[r] != Finished ==>
              c.readers[r] != Finished && Next(c, step).readers[r].allowEmpty == c.readers[r].allowEmpty
  {
  }

  lemma {:induction false} NoResetSameGeneration(run: Run, i: nat, j: nat)
    requires IsRun(run) && run.states[0] == EMPTY && i <= j < |run.states|
    requires forall m :: i <= m < j ==> run.steps[m] != Reset
    ensures run.states[j].generation == run.states[i].generation
    decreases j
  {
    if i < j {
      NoResetSameGeneration(run, i, j - 1);
      RunGeneration(run, j - 1, 0);
    }
  }

  /** One hydrate is added: exactly the landed rows that no reader of the attempt excluded. */
  ghost predicate Hydrates(c: Catalog, next: Catalog, r: nat, a: nat, list: seq<Row>) {
    && |next.hydrates| == |c.hydrates| + 1 && c.hydrates <= next.hydrates
    && var h := next.hydrates[|c.hydrates|];
    && h.reader == r && h.attempt == a && h.generation == c.generation
    && (exists excluded :: h.rows == Keep(list, excluded) && forall id :: id in excluded <==> ExcludedBy(c, a, id))
  }

  lemma FinishStep(c: Catalog, r: nat)
    requires Sound(c) && ExcludedExactly(c) && ResultsHeld(c) && Enabled(c, Finish(r))
    ensures
      var reader := c.readers[r];
      var a := reader.attempt;
      if reader.generation == c.generation && c.attempts[a].progress.Settled? && c.attempts[a].progress.list.Some?
         && (c.attempts[a].progress.list.value != [] || reader.allowEmpty)
      then Hydrates(c, Next(c, Finish(r)), r, a, c.attempts[a].progress.list.value)
      else Next(c, Finish(r)).hydrates == c.hydrates
  {
    assert HoldsResult(c, c.readers[r]) && ReaderSound(c, c.readers[r]);
    var reader := c.readers[r];
    if reader.generation == c.generation {
      forall id ensures id in reader.excluded <==> ExcludedBy(c, reader.attempt, id) { }
    }
  }

  /**
   Progress, over every run. A reader called under the current generation, and not reset before it finishes, adds
   exactly one hydrate at its finish if its attempt landed with a list that has rows or that it may show empty:
   the landed rows that no reader of that attempt excluded. Otherwise its finish adds none.
   */
  lemma FinishHydratesIff(run: Run, k: nat, j: nat)
    requires IsRun(run) && run.states[0] == EMPTY && k < j < |run.steps|
    requires run.steps[k].Call? && run.steps[k].authority == run.states[k].generation
    requires run.steps[j] == Finish(run.steps[k].reader)
    requires forall m :: k < m < j ==> run.steps[m] != Reset
    ensures
      var c, r := run.states[j], run.steps[k].reader;
      && r in c.readers && c.readers[r].Fetched? && c.readers[r].attempt < |c.attempts|
      && var landed := c.attempts[c.readers[r].attempt].progress;
      && landed.Settled?
      && if landed.list.Some? && (landed.list.value != [] || run.steps[k].allowEmpty)
         then Hydrates(c, run.states[j + 1], r, c.readers[r].attempt, landed.list.value)
         else run.states[j + 1].hydrates == c.hydrates
  {
    var r := run.steps[k].reader;
    RunSound(run, k);
    assert run.states[k + 1].readers[r].generation == run.states[k].generation;
    RunGeneration(run, k, r);
    ReaderGeneration(run, k + 1, j, r);
    AllowanceKept(run, k + 1, j, r);
    NoResetSameGeneration(run, k + 1, j);
    RunSound(run, j);
    RunHolds(run, j);
    assert HoldsResult(run.states[j], run.states[j].readers[r]);
    FinishStep(run.states[j], r);
  }

  /** A reader called under the current generation waits on the one attempt in flight, with its exclusions on it;
      a stale one is over at once. */
  lemma CallJoinsIff(c: Catalog, step: Step)
    requires Sound(c) && Enabled(c, step) && step.Call?
    ensures
      var next := Next(c, step);
      if step.authority == c.generation then
        && next.readers[step.reader].Awaiting? && next.slot == Some(next.readers[step.reader].attempt)
        && next.slot.value < |next.attempts| && !next.attempts[next.slot.value].progress.Settled?
        && step.excluded <= next.attempts[next.slot.value].excluded
        && (c.slot.None? ==> next.attempts == c.attempts + [Attempt(c.generation, step.excluded, Flying)])
      else next.readers[step.reader] == Finished && next.attempts == c.attempts && next.slot == c.slot
  {
    assert {} + step.excluded == step.excluded;
  }

  /** A waiting reader whose attempt has settled holds its result, waits on the next attempt if this one was begun
      under an older generation, and holds nothing if it was itself revoked. */
  lemma ResumeExact(c: Catalog, r: nat)
    requires Sound(c) && Enabled(c, Resume(r))
    ensures
      var reader, next := c.readers[r], Next(c, Resume(r));
      if reader.generation != c.generation then next.readers[r].Fetched? && next.readers[r].list.None?
      else if c.attempts[reader.attempt].generation == c.generation then
        && next.readers[r].Fetched? && next.readers[r].attempt == reader.attempt
        && next.readers[r].list == c.attempts[reader.attempt].progress.list
      else
        && next.readers[r].Awaiting? && next.readers[r].attempt != reader.attempt
        && next.slot == Some(next.readers[r].attempt) && reader.excluded <= next.attempts[next.slot.value].excluded
  {
  }

  /** No step but a finish hydrates. */
  lemma OnlyFinishHydrates(c: Catalog, step: Step)
    requires Sound(c) && Enabled(c, step) && !step.Finish?
    ensures Next(c, step).hydrates == c.hydrates
  {
  }

  /** The number of health beats an attempt has caused. */
  function BeatCount(beats: seq<Beat>, a: nat): nat {
    if beats == [] then 0 else (if beats[0].attempt == a then 1 else 0) + BeatCount(beats[1..], a)
  }

  lemma {:induction false} BeatCountAppend(beats: seq<Beat>, beat: Beat, a: nat)
    ensures BeatCount(beats + [beat], a) == BeatCount(beats, a) + (if beat.attempt == a then 1 else 0)
  {
    if beats == [] {
      assert beats + [beat] == [beat];
    } else {
      assert (beats + [beat])[1..] == beats[1..] + [beat];
      BeatCountAppend(beats[1..], beat, a);
    }
  }

  lemma {:induction false} NoBeat(beats: seq<Beat>, a: nat)
    requires forall i :: 0 <= i < |beats| ==> beats[i].attempt != a
    ensures BeatCount(beats, a) == 0
  {
    if beats != [] { NoBeat(beats[1..], a); }
  }

  /** Only the landing of an attempt changes its beat count, and only while its generation is current. */
  lemma StepBeats(c: Catalog, step: Step, a: nat)
    requires Sound(c) && Enabled(c, step)
    ensures BeatCount(Next(c, step).beats, a) ==
            BeatCount(c.beats, a) + (if step.Land? && step.attempt == a && c.attempts[a].generation == c.generation then 1 else 0)
    ensures step.Land? && step.attempt == a ==> BeatCount(c.beats, a) == 0
  {
    if step.Land? {
      BeatCountAppend(c.beats, Beat(step.attempt, step.list.Some?), a);
      if step.attempt == a { NoBeat(c.beats, a); }
    }
  }

  lemma RunBeats(run: Run, i: nat, a: nat)
    requires IsRun(run) && run.states[0] == EMPTY && i < |run.states| - 1
    ensures BeatCount(run.states[i + 1].beats, a) ==
            BeatCount(run.states[i].beats, a) +
            (if run.steps[i].Land? && run.steps[i].attempt == a && run.states[i].attempts[a].generation == run.states[i].generation then 1 else 0)
    ensures run.steps[i].Land? && run.steps[i].attempt == a ==> BeatCount(run.states[i].beats, a) == 0
  {
    RunSound(run, i);
    StepBeats(run.states[i], run.steps[i], a);
  }

  lemma {:induction false} NoLaterBeat(run: Run, k: nat, j: nat, a: nat)
    requires IsRun(run) && run.states[0] == EMPTY && k <= j < |run.states|
    requires a < |run.states[k].attempts| && !run.states[k].attempts[a].progress.Flying?
    ensures BeatCount(run.states[j].beats, a) == BeatCount(run.states[k].beats, a)
    ensures a < |run.states[j].attempts| && !run.states[j].attempts[a].progress.Flying?
    decreases j
  {
    if k < j {
      NoLaterBeat(run, k, j - 1, a);
      RunSound(run, j - 1);
      RunBeats(run, j - 1, a);
      LandedStays(run.states[j - 1], run.steps[j - 1], a);
    }
  }

  lemma LandedStays(c: Catalog, step: Step, a: nat)
    requires Sound(c) && Enabled(c, step) && a < |c.attempts| && !c.attempts[a].progress.Flying?
    ensures a < |Next(c, step).attempts| && !Next(c, step).attempts[a].progress.Flying?
  {
  }

  /**
   However many readers shared it, an attempt that landed at step k has caused exactly one health
   beat at every later point if its generation was current when it landed, and none otherwise.
   */
  lemma BeatExactlyOnce(run: Run, k: nat, j: nat, a: nat)
    requires IsRun(run) && run.states[0] == EMPTY && k < j < |run.states|
    requires run.steps[k].Land? && run.steps[k].attempt == a
    ensures BeatCount(run.states[j].beats, a) == if run.states[k].attempts[a].generation == run.states[k].generation then 1 else 0
  {
    RunBeats(run, k, a);
    RunSound(run, k);
    assert a < |run.states[k + 1].attempts| && !run.states[k + 1].attempts[a].progress.Flying?;
    NoLaterBeat(run, k + 1, j, a);
  }

  // ---------------------------------------------------------------- the module, step by step

  class CatalogPoller {
    var catalogGeneration: nat
    var transportAttempt: Option<nat>
    var attempts: seq<Attempt>
    var readers: map<nat, Reader>
    var beats: seq<Beat>
    var hydrates: seq<Hydrate>
    ghost var joins: seq<Join>

    constructor ()
      ensures State() == EMPTY
    {
      catalogGeneration, transportAttempt, attempts, readers, beats, hydrates := 0, None, [], map[], [], [];
      joins := [];
    }

    ghost function State(): Catalog
      reads this
    {
      Catalog(catalogGeneration, transportAttempt, attempts, readers, joins, beats, hydrates)
    }

    method CurrentCatalogTransportAttempt() returns (a: nat)
      requires OneInFlight(State())
      modifies this`transportAttempt, this`attempts
      ensures a < |attempts| && transportAttempt == Some(a)
      ensures a == (if old(transportAttempt).Some? then old(transportAttempt).value else |old(attempts)|)
      ensures attempts == (if old(transportAttempt).Some? then old(attempts) else old(attempts) + [Attempt(catalogGeneration, {}, Flying)])
    {
      if transportAttempt.Some? { return transportAttempt.value; }
      a := |attempts|;
      attempts := attempts + [Attempt(catalogGeneration, {}, Flying)];
      transportAttempt := Some(a);
    }

    /** The head of the fetchCatalogForGeneration loop, up to its await. */
    method JoinFetch(r: nat, generation: nat, excluded: set<string>, allowEmpty: bool)
      requires OneInFlight(State())
      modifies this
      ensures State() == JoinAttempt(old(State()), r, generation, excluded, allowEmpty)
    {
      var a := CurrentCatalogTransportAttempt();
      attempts := attempts[a := attempts[a].(excluded := attempts[a].excluded + excluded)];
      readers := readers[r := Awaiting(a, generation, excluded, allowEmpty)];
      joins := joins + [Join(r, a, excluded)];
    }

    method HydrateTerminalSessions(r: nat, authority: nat, excluded: set<string>, allowEmpty: bool)
      requires Sound(State()) && r !in readers
      modifies this
      ensures State() == Next(old(State()), Call(r, authority, excluded, allowEmpty)) && Sound(State())
    {
      StepSound(State(), Call(r, authority, excluded, allowEmpty));
      if authority != catalogGeneration {
        readers := readers[r := Finished];
      } else {
        JoinFetch(r, catalogGeneration, excluded, allowEmpty);
      }
    }

    method OnFetched(a: nat, list: Option<seq<Row>>)
      requires Sound(State()) && Enabled(State(), Land(a, list))
      modifies this
      ensures State() == Next(old(State()), Land(a, list)) && Sound(State())
    {
      StepSound(State(), Land(a, list));
      if attempts[a].generation == catalogGeneration {
        beats := beats + [Beat(a, list.Some?)];
      }
      attempts := attempts[a := attempts[a].(progress := Landed(list))];
    }

    method OnFinally(a: nat)
      requires Sound(State()) && Enabled(State(), Release(a))
      modifies this
      ensures State() == Next(old(State()), Release(a)) && Sound(State())
    {
      StepSound(State(), Release(a));
      if transportAttempt == Some(a) { transportAttempt := None; }
      attempts := attempts[a := attempts[a].(progress := Settled(attempts[a].progress.list))];
    }

    /** The rest of the loop body, once the shared promise has settled. */
    method ResumeReader(r: nat)
      requires Sound(State()) && Enabled(State(), Resume(r))
      modifies this
      ensures State() == Next(old(State()), Resume(r)) && Sound(State())
    {
      StepSound(State(), Resume(r));
      var reader := readers[r];
      if reader.generation != catalogGeneration {
        readers := readers[r := Fetched(reader.attempt, reader.generation, None, {}, reader.allowEmpty)];
      } else if attempts[reader.attempt].generation == reader.generation {
        var attempt := attempts[reader.attempt];
        readers := readers[r := Fetched(reader.attempt, reader.generation, attempt.progress.list, attempt.excluded, reader.allowEmpty)];
      } else {
        JoinFetch(r, reader.generation, reader.excluded, reader.allowEmpty);
      }
    }

    /** hydrateTerminalSessionsFromCatalog after its await. */
    method FinishReader(r: nat)
      requires Sound(State()) && Enabled(State(), Finish(r))
      modifies this
      ensures State() == Next(old(State()), Finish(r)) && Sound(State())
    {
      StepSound(State(), Finish(r));
      var reader := readers[r];
      readers := readers[r := Finished];
      if reader.generation != catalogGeneration { return; }
      if reader.list.None? || (reader.list.value == [] && !reader.allowEmpty) { return; }
      hydrates := hydrates + [Hydrate(r, catalogGeneration, reader.attempt, Keep(reader.list.value, reader.excluded))];
    }

    method ResetForDev()
      requires Sound(State())
      modifies this`catalogGeneration
      ensures State() == Next(old(State()), Reset) && Sound(State())
    {
      StepSound(State(), Reset);
      catalogGeneration := catalogGeneration + 1;
    }
  }
}
