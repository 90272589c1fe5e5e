/**
 Runs from a fresh cockpit on which withdrawn text is lost or a dismissed recovery returns. Each is a run of
 the whole system; the exact conditions are in SubmissionLifecycle, SubmissionWithdrawal and WithdrawnText.
 */
module WithdrawnWitnesses {
  import opened Prelude
  import opened SubmitMachine
  import opened SubmitRetention
  import opened SessionCockpit
  import opened SubmissionLifecycle
  import opened SubmissionWithdrawal
  import opened SubmissionRuns
  import opened WithdrawnText

  // ---------------------------------------------------------------- building runs

  function Last(run: Run): World
    requires run.states != []
  {
    run.states[|run.states| - 1]
  }

  /** A run of the system from a fresh cockpit and a runner that has said nothing. */
  ghost predicate Genuine(run: Run) {
    IsRun(run) && Fresh(run.states[0]) && run.states[0].runner == map[] && run.states[0].said == {}
  }

  function Begin(): Run {
    Run([World(EMPTY, Idle, map[], {}, {})], [], [])
  }

  function Extended(run: Run, step: Step): Run
    requires run.states != [] && Enabled(Last(run), step)
  {
    Run(run.states + [Next(Last(run), step)], run.steps + [step], run.verdicts + [VerdictOf(Last(run), step)])
  }

  predicate ByUserHand(step: Step) { step.Edit? || step.Restore? || step.Dismiss? }

  /** `next` continues `run`, without an edit, a restore or a dismissal by the user if `quiet`. */
  ghost predicate Continues(run: Run, next: Run, quiet: bool) {
    && |run.steps| <= |next.steps| && |run.verdicts| == |run.steps| && |next.verdicts| == |next.steps|
    && |run.states| == |run.steps| + 1 && |next.states| == |next.steps| + 1
    && (forall k :: 0 <= k < |run.steps| ==> next.steps[k] == run.steps[k] && next.verdicts[k] == run.verdicts[k])
    && (forall k :: 0 <= k < |run.states| ==> next.states[k] == run.states[k])
    && (quiet ==> forall k :: |run.steps| <= k < |next.steps| ==> !ByUserHand(next.steps[k]))
  }

  lemma ContinuesOn(a: Run, b: Run, c: Run, quiet: bool)
    requires Continues(a, b, quiet) && Continues(b, c, quiet)
    ensures Continues(a, c, quiet)
  {
  }

  lemma ExtendedIsGenuine(run: Run, step: Step)
    requires Genuine(run) && Enabled(Last(run), step)
    ensures Genuine(Extended(run, step)) && Continues(run, Extended(run, step), !ByUserHand(step))
  {
    var longer := Extended(run, step);
    forall i {:trigger longer.steps[i]} | 0 <= i < |longer.steps|
      ensures Enabled(longer.states[i], longer.steps[i])
      ensures longer.states[i + 1] == Next(longer.states[i], longer.steps[i])
      ensures longer.verdicts[i] == VerdictOf(longer.states[i], longer.steps[i])
    {
      if i < |run.steps| {
        assert longer.steps[i] == run.steps[i] && longer.states[i] == run.states[i];
      }
    }
  }

  /** The theorems of WithdrawnText apply to these runs. */
  lemma GenuineIsWellFormed(run: Run, i: nat)
    requires Genuine(run) && i < |run.states|
    ensures WellFormed(run.states[i])
  {
    FreshIsWellFormed(run.states[0]);
    RunWellFormed(run, i);
  }

  // ---------------------------------------------------------------- a queued message

  /** No record of the request, or one that was never observed or restored. */
  predicate Unobserved(h: seq<SubmitRecord>, id: string) {
    var record := Find(h, id);
    record.None? || (ObservationSnapshot(record.value).None? && record.value.restoredAt.None?)
  }

  /** The last state, but for the history: an idle owner and an empty slot. */
  ghost predicate Rests(run: Run, draft: string, revision: int, queue: seq<QueuedSubmit>) {
    && Genuine(run) && DistinctIds(Last(run).session.history) && Last(run).owner == Idle
    && Last(run).session == Last(run).session.(draft := draft, draftRevision := revision, queue := queue, withdrawal := None)
  }

  function Entry(id: string, text: string): QueuedSubmit { QueuedSubmit(id, text, 0, "epoch") }

  lemma FirstRecord(h: seq<SubmitRecord>, record: SubmitRecord)
    requires DistinctIds(h) && ObservationSnapshot(record).None? && record.restoredAt.None?
    ensures DistinctIds(Upsert(h, record)) && Unobserved(Upsert(h, record), record.requestId)
    ensures forall other :: other != record.requestId ==> Find(Upsert(h, record), other) in {None, Find(h, other)}
  {
    UpsertFrame(h, record, record.requestId);
    forall other | other != record.requestId ensures Find(Upsert(h, record), other) in {None, Find(h, other)} {
      UpsertFrame(h, record, other);
    }
  }

  lemma Edited(run: Run, text: string, revision: int, queue: seq<QueuedSubmit>) returns (next: Run)
    requires Rests(run, "", revision, queue)
    ensures Rests(next, text, revision + 1, queue)
    ensures Last(next) == Last(run).(session := SetDraft(Last(run).session, text))
  {
    next := Extended(run, Edit(text));
    ExtendedIsGenuine(run, Edit(text));
  }

  lemma Launched(run: Run, id: string, text: string, revision: int, queue: seq<QueuedSubmit>) returns (next: Run)
    requires Rests(run, text, revision, queue) && text != ""
    ensures Rests(next, text, revision, queue)
    ensures
      var record := StartSubmitRecord(id, text, "epoch", Composer, revision, true, 0);
      && record in Last(next).launched && Last(next).session.history == Upsert(Last(run).session.history, record)
    ensures Last(next).said == Last(run).said && Last(next).runner == Last(run).runner
  {
    next := Extended(run, Launch(id, "epoch", 0));
    ExtendedIsGenuine(run, Launch(id, "epoch", 0));
    FirstRecord(Last(run).session.history, DraftRecord(Last(run).session, id, "epoch", 0));
  }

  /** What was not observed of other requests still is not, and the runner and its words are the same. */
  ghost predicate OthersKept(before: World, after: World, id: string) {
    && (forall other :: other != id && Unobserved(before.session.history, other) ==> Unobserved(after.session.history, other))
    && (forall other :: other != id && Find(before.session.history, other).None? ==> Find(after.session.history, other).None?)
    && after.runner.Keys <= before.runner.Keys + {id}
  }

  /** The receipt queues the launched message and clears the draft. */
  lemma ReceiptQueues(run: Run, id: string, text: string, revision: int, queue: seq<QueuedSubmit>) returns (next: Run)
    requires Rests(run, text, revision, queue) && !InQueue(queue, id) && |queue| < QUEUE_WINDOW
    requires StartSubmitRecord(id, text, "epoch", Composer, revision, true, 0) in Last(run).launched
    ensures Rests(next, "", revision + 1, queue + [Entry(id, text)])
    ensures Last(next).session.history == Last(run).session.history && Last(next).runner == Last(run).runner
  {
    var record := StartSubmitRecord(id, text, "epoch", Composer, revision, true, 0);
    var step := SettleSubmit(record.(phase := QueuedPhase));
    assert SameSubmission(step.record, record);
    next := Extended(run, step);
    ExtendedIsGenuine(run, step);
  }

  /** The user types a message and submits it, and it is queued. */
  lemma Queued(run: Run, id: string, text: string, revision: int, queue: seq<QueuedSubmit>) returns (next: Run)
    requires Rests(run, "", revision, queue) && text != "" && Find(Last(run).session.history, id).None?
    requires !InQueue(queue, id) && |queue| < QUEUE_WINDOW
    ensures Rests(next, "", revision + 2, queue + [Entry(id, text)])
    ensures Unobserved(Last(next).session.history, id) && OthersKept(Last(run), Last(next), id)
    ensures Last(next).runner == Last(run).runner
  {
    var edited := Edited(run, text, revision, queue);
    var launched := Launched(edited, id, text, revision + 1, queue);
    FirstRecord(Last(run).session.history, StartSubmitRecord(id, text, "epoch", Composer, revision + 1, true, 0));
    next := ReceiptQueues(launched, id, text, revision + 1, queue);
  }

  /** The user withdraws the newest queued message. */
  lemma Issued(run: Run, id: string, text: string, draft: string, revision: int, queue: seq<QueuedSubmit>) returns (next: Run)
    requires Rests(run, draft, revision, queue + [Entry(id, text)])
    ensures Genuine(next) && Continues(run, next, true)
    ensures
      var target := PendingWithdrawal(id, text, "epoch", revision, 0);
      && Last(next).session == Last(run).session.(withdrawal := Some(Pending(target)))
      && Last(next).owner == AwaitWithdraw(target, ObservationVersion(Last(run).session, id))
    ensures Last(next).runner == Last(run).runner && Last(next).said == Last(run).said
  {
    next := Extended(run, IssueWithdrawal(0));
    ExtendedIsGenuine(run, IssueWithdrawal(0));
  }

  /** The runner withdraws the message and says so. */
  lemma RunnerWithdraws(run: Run, id: string) returns (next: Run)
    requires Genuine(run) && id !in Last(run).runner
    ensures Genuine(next) && Continues(run, next, true)
    ensures Last(next).session == Last(run).session && Last(next).owner == Last(run).owner
    ensures Last(next).runner.Keys == Last(run).runner.Keys + {id} && (id, Withdrawn) in Last(next).said
  {
    var moved := Extended(run, RunnerMove(id, Withdrawn));
    ExtendedIsGenuine(run, RunnerMove(id, Withdrawn));
    next := Extended(moved, RunnerSays(id));
    ExtendedIsGenuine(moved, RunnerSays(id));
    ContinuesOn(run, moved, next, true);
  }

  // ---------------------------------------------------------------- a second withdrawal

  /** The session after the owner's withdrawn word over an untouched draft. */
  lemma OwnerRestores(s: PerSession, target: PendingWithdrawal, seen: int)
    requires s.withdrawal == Some(Pending(target)) && s.draftRevision == target.draftRevision
    requires DistinctIds(s.history) && Unobserved(s.history, target.requestId)
    ensures
      var turn := OwnerTurn(s, AwaitWithdraw(target, seen), WithdrawReply(WithdrawnResult(None)), 0);
      && turn.owner == Returning(target) && turn.verdict == RestoredForEditing(target)
      && turn.session == turn.session.(draft := target.text, draftRevision := s.draftRevision + 1,
                                       queue := WithoutRequest(s.queue, target.requestId), withdrawal := None)
      && DistinctIds(turn.session.history)
      && forall other :: other != target.requestId ==> Find(turn.session.history, other) in {None, Find(s.history, other)}
  {
    OwnerSavesIff(s, AwaitWithdraw(target, seen), WithdrawReply(WithdrawnResult(None)), 0);
    ObservationDraft(s, true, target.requestId, Server(Withdrawn), None, 0, seen, Some(target));
    var turn := OwnerTurn(s, AwaitWithdraw(target, seen), WithdrawReply(WithdrawnResult(None)), 0);
    ObservationFrame(s, true, target.requestId, Server(Withdrawn), None, 0, seen, Some(target), target.requestId);
    forall other | other != target.requestId ensures Find(turn.session.history, other) in {None, Find(s.history, other)} {
      ObservationFrame(s, true, target.requestId, Server(Withdrawn), None, 0, seen, Some(target), other);
    }
  }

  lemma ReplyApplied(run: Run, target: PendingWithdrawal, seen: int) returns (next: Run)
    requires Genuine(run) && Last(run).owner == AwaitWithdraw(target, seen) && (target.requestId, Withdrawn) in Last(run).said
    ensures Genuine(next) && Continues(run, next, true) && |next.steps| == |run.steps| + 1
    ensures
      var turn := OwnerTurn(Last(run).session, Last(run).owner, WithdrawReply(WithdrawnResult(None)), 0);
      Last(next) == Last(run).(session := turn.session, owner := turn.owner) && next.verdicts[|run.steps|] == turn.verdict
  {
    var reply := OwnerReply(WithdrawReply(WithdrawnResult(None)), 0);
    next := Extended(run, reply);
    ExtendedIsGenuine(run, reply);
  }

  lemma PromiseSettled(run: Run) returns (next: Run)
    requires Genuine(run) && Last(run).owner.Returning?
    ensures Genuine(next) && Continues(run, next, true) && Last(next) == Last(run).(owner := Idle)
  {
    next := Extended(run, OwnerDone);
    ExtendedIsGenuine(run, OwnerDone);
  }

  /** The owner's withdrawn word restores the text, and its promise settles. */
  lemma ReplyRestores(run: Run, target: PendingWithdrawal, seen: int) returns (i: nat, next: Run)
    requires Genuine(run) && Last(run).owner == AwaitWithdraw(target, seen) && (target.requestId, Withdrawn) in Last(run).said
    requires
      var s := Last(run).session;
      && s.withdrawal == Some(Pending(target)) && s.draftRevision == target.draftRevision
      && DistinctIds(s.history) && Unobserved(s.history, target.requestId)
    ensures Rests(next, target.text, target.draftRevision + 1, WithoutRequest(Last(run).session.queue, target.requestId))
    ensures OthersKept(Last(run), Last(next), target.requestId) && Continues(run, next, true)
    ensures i == |run.steps| < |next.steps| && next.verdicts[i] == RestoredForEditing(target)
  {
    OwnerRestores(Last(run).session, target, seen);
    var restored := ReplyApplied(run, target, seen);
    next := PromiseSettled(restored);
    ContinuesOn(run, restored, next, true);
    i := |run.steps|;
  }

  /** The newest queued message is withdrawn and its text restored into the composer. */
  lemma WithdrawnBack(run: Run, id: string, text: string, draft: string, revision: int, queue: seq<QueuedSubmit>)
    returns (i: nat, next: Run)
    requires Rests(run, draft, revision, queue + [Entry(id, text)]) && id !in Last(run).runner
    requires Unobserved(Last(run).session.history, id)
    ensures Rests(next, text, revision + 1, WithoutRequest(queue + [Entry(id, text)], id)) && OthersKept(Last(run), Last(next), id)
    ensures Continues(run, next, true) && |run.steps| <= i < |next.steps|
    ensures next.verdicts[i] == RestoredForEditing(PendingWithdrawal(id, text, "epoch", revision, 0))
  {
    var issued := Issued(run, id, text, draft, revision, queue);
    var told := RunnerWithdraws(issued, id);
    ContinuesOn(run, issued, told, true);
    i, next := ReplyRestores(told, PendingWithdrawal(id, text, "epoch", revision, 0), ObservationVersion(Last(run).session, id));
    ContinuesOn(run, told, next, true);
  }

  lemma TwoQueued(first: string, second: string) returns (run: Run)
    requires first != "" && second != ""
    ensures Rests(run, "", 4, [Entry("a", first)] + [Entry("b", second)]) && Last(run).runner == map[]
    ensures Unobserved(Last(run).session.history, "a") && Unobserved(Last(run).session.history, "b")
  {
    assert Rests(Begin(), "", 0, []);
    var one := Queued(Begin(), "a", first, 0, []);
    assert Rests(one, "", 2, [Entry("a", first)]) by { assert [] + [Entry("a", first)] == [Entry("a", first)]; }
    run := Queued(one, "b", second, 2, [Entry("a", first)]);
  }

  lemma WithoutLast(a: QueuedSubmit, b: QueuedSubmit)
    requires a.requestId != b.requestId
    ensures WithoutRequest([a] + [b], b.requestId) == [a]
  {
    assert ([a] + [b])[1..] == [b];
    assert WithoutRequest([b], b.requestId) == [] + WithoutRequest([b][1..], b.requestId);
  }

  /**
   A second withdrawal over an untouched restored draft replaces it: the text of the first, saved at i and
   never edited, restored or dismissed by hand afterwards, ends up nowhere.
   */
  lemma SecondWithdrawalReplaces(first: string, second: string) returns (run: Run, i: nat)
    requires first != "" && second != "" && first != second
    ensures Genuine(run) && i < |run.steps|
    ensures run.verdicts[i].RestoredForEditing? && run.verdicts[i].request.text == second
    ensures forall k :: i < k < |run.steps| ==> !ByUserHand(run.steps[k])
    ensures !TextHeld(Last(run).session, run.verdicts[i].request.requestId, second)
  {
    var two := TwoQueued(first, second);
    var at, back := WithdrawnBack(two, "b", second, "", 4, [Entry("a", first)]);
    WithoutLast(Entry("a", first), Entry("b", second));
    assert Rests(back, second, 5, [] + [Entry("a", first)]);
    var _, gone := WithdrawnBack(back, "a", first, second, 5, []);
    ContinuesOn(two, back, gone, true);
    run, i := gone, at;
  }

  // ---------------------------------------------------------------- a claim dropped with its authority

  lemma OneQueued(text: string) returns (run: Run)
    requires text != ""
    ensures Rests(run, "", 2, [] + [Entry("a", text)]) && Last(run).runner == map[]
    ensures Unobserved(Last(run).session.history, "a")
  {
    assert Rests(Begin(), "", 0, []);
    run := Queued(Begin(), "a", text, 0, []);
  }

  /** An epoch mismatch told to the owner empties the slot and saves nothing. */
  lemma MismatchDrops(s: PerSession, target: PendingWithdrawal, seen: int)
    requires s.withdrawal == Some(Pending(target)) && Unobserved(s.history, target.requestId)
    ensures
      var turn := OwnerTurn(s, AwaitWithdraw(target, seen), EpochMismatch("restarted"), 0);
      turn.session.withdrawal == None && turn.session.draft == s.draft && turn.verdict == NoVerdict
  {
    ClaimDroppedIff(s, true, target.requestId, GenerationLost, Some("restarted"), 0, seen, Some(target));
    ObservationDraft(s, true, target.requestId, GenerationLost, Some("restarted"), 0, seen, Some(target));
  }

  lemma ClaimLost(text: string) returns (i: nat, run: Run)
    requires text != ""
    ensures Genuine(run) && i < |run.states| && run.states[i].session.withdrawal == Some(Pending(PendingWithdrawal("a", text, "epoch", 2, 0)))
    ensures Last(run).session.withdrawal == None && Last(run).session.draft == "" && Last(run).runner == map[]
  {
    var queued := OneQueued(text);
    var issued := Issued(queued, "a", text, "", 2, []);
    var reply := OwnerReply(EpochMismatch("restarted"), 0);
    MismatchDrops(Last(issued).session, PendingWithdrawal("a", text, "epoch", 2, 0), Last(issued).owner.observedVersion);
    run := Extended(issued, reply);
    ExtendedIsGenuine(issued, reply);
    i := |issued.steps|;
  }

  /** A withdrawn page over an empty slot saves nothing and changes neither slot nor draft. */
  lemma LatePage(run: Run, id: string) returns (next: Run)
    requires Genuine(run) && Last(run).session.withdrawal == None && (id, Withdrawn) in Last(run).said
    ensures Genuine(next) && Continues(run, next, true) && |next.steps| == |run.steps| + 1
    ensures next.steps[|run.steps|] == Page(id, Server(Withdrawn), None, 0, 0) && !Saves(next.verdicts[|run.steps|])
    ensures Last(next).session.withdrawal == None && Last(next).session.draft == Last(run).session.draft
  {
    var s, page, inFlight := Last(run).session, Page(id, Server(Withdrawn), None, 0, 0), Last(run).owner != Idle;
    ObservationSavesIff(s, inFlight, id, Server(Withdrawn), None, 0, 0, None);
    ObservationSlot(s, inFlight, id, Server(Withdrawn), None, 0, 0, None);
    ObservationDraft(s, inFlight, id, Server(Withdrawn), None, 0, 0, None);
    next := Extended(run, page);
    ExtendedIsGenuine(run, page);
  }

  /**
   Withdrawn text is forfeited when authority is lost first: the withdrawal is pending at i, then the owner
   hears of an epoch mismatch, and the withdrawn word of the last step finds nothing to save.
   */
  lemma AuthorityLossForfeitsText(text: string) returns (i: nat, run: Run)
    requires text != ""
    ensures Genuine(run) && i < |run.steps| && PendingFor(run.states[i].session, "a")
    ensures run.states[i].session.withdrawal.value.request.text == text
    ensures
      var n := |run.steps| - 1;
      run.steps[n] == Page("a", Server(Withdrawn), None, 0, 0) && !Saves(run.verdicts[n])
    ensures !TextHeld(Last(run).session, "a", text)
  {
    var lost;
    i, lost := ClaimLost(text);
    var told := RunnerWithdraws(lost, "a");
    run := LatePage(told, "a");
    ContinuesOn(lost, told, run, true);
  }

  // ---------------------------------------------------------------- a dismissed recovery

  /** The owner loses its reply after a newer draft was typed, and asks for the status. */
  lemma StatusAwaited(text: string, newer: string) returns (run: Run)
    requires text != ""
    ensures Genuine(run) && DistinctIds(Last(run).session.history) && Unobserved(Last(run).session.history, "a")
    ensures
      var target := PendingWithdrawal("a", text, "epoch", 2, 0);
      && Last(run).session.withdrawal == Some(Pending(target)) && Last(run).session.draftRevision == 3
      && Last(run).owner.AwaitStatus? && Last(run).owner.target == target && ("a", Withdrawn) in Last(run).said
  {
    var queued := OneQueued(text);
    var issued := Issued(queued, "a", text, "", 2, []);
    var edited := Extended(issued, Edit(newer));
    ExtendedIsGenuine(issued, Edit(newer));
    var told := RunnerWithdraws(edited, "a");
    run := Extended(told, OwnerReply(Lost, 0));
    ExtendedIsGenuine(told, OwnerReply(Lost, 0));
  }

  /** A page then reports the withdrawal, and its text goes to the recovery slot. */
  lemma PageRecovers(run: Run, target: PendingWithdrawal) returns (next: Run)
    requires Genuine(run) && ("a", Withdrawn) in Last(run).said && target.requestId == "a"
    requires
      var s := Last(run).session;
      s.withdrawal == Some(Pending(target)) && s.draftRevision != target.draftRevision && DistinctIds(s.history) && Unobserved(s.history, "a")
    ensures Genuine(next) && Last(next).owner == Last(run).owner && Last(next).said == Last(run).said
    ensures RecoveryFor(Last(next).session, "a") && Last(next).session.withdrawal.value.text == target.text
    ensures Last(next).session.draftRevision == Last(run).session.draftRevision
    ensures DistinctIds(Last(next).session.history) && !WasRestored(Last(next).session, "a")
  {
    var s, page, inFlight := Last(run).session, Page("a", Server(Withdrawn), None, 0, 0), Last(run).owner != Idle;
    RecoveryAppearsIff(s, inFlight, "a", Server(Withdrawn), None, 0, 0, None, "a");
    ObservationSlot(s, inFlight, "a", Server(Withdrawn), None, 0, 0, None);
    ObservationDraft(s, inFlight, "a", Server(Withdrawn), None, 0, 0, None);
    ObservationFrame(s, inFlight, "a", Server(Withdrawn), None, 0, 0, None, "a");
    next := Extended(run, page);
    ExtendedIsGenuine(run, page);
  }

  /**
   A dismissed recovery returns: the user dismisses it in step i, which empties the slot, and the status
   reply that the owner was still awaiting puts it back.
   */
  lemma DismissedRecoveryReappears(text: string, newer: string) returns (i: nat, run: Run)
    requires text != ""
    ensures Genuine(run) && i < |run.steps| && run.steps[i].Dismiss? && EndsRecovery(run.states[i], run.steps[i], "a")
    ensures RecoveryFor(run.states[i].session, "a") && run.states[i + 1].session.withdrawal == None
    ensures RecoveryFor(Last(run).session, "a")
  {
    var awaited := StatusAwaited(text, newer);
    var target := PendingWithdrawal("a", text, "epoch", 2, 0);
    var recovered := PageRecovers(awaited, target);
    var dismiss := Dismiss("a", 3, 0);
    DismissedRecoveryReturns(Last(recovered).session, target, Last(recovered).owner.observedVersion, None, 0, 0);
    var dismissed := Extended(recovered, dismiss);
    ExtendedIsGenuine(recovered, dismiss);
    var reply := OwnerReply(StatusReply(Found(Withdrawn, None)), 0);
    run := Extended(dismissed, reply);
    ExtendedIsGenuine(dismissed, reply);
    i := |recovered.steps|;
  }
}
