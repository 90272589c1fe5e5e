/**
 Withdrawn text over whole runs: where it is held, what releases it, what brings it back.

 Text saved by a withdrawn verdict is in the recovery slot or in the composer. The theorems say exactly
 which steps end a recovery, which replace the draft, and which put a recovery into the slot, for every
 step of every run.
 */
module WithdrawnText {
  import opened Prelude
  import opened SubmitMachine
  import opened SubmitRetention
  import opened SessionCockpit
  import opened SubmissionLifecycle
  import opened SubmissionWithdrawal
  import opened SubmissionRuns

  // ---------------------------------------------------------------- the recovery slot

  /** The user restores or dismisses the recovery of `requestId`, at the current revision. */
  predicate EndsRecovery(w: World, step: Step, requestId: string) {
    (step.Restore? || step.Dismiss?) && step.requestId == requestId && step.expectedRevision == w.session.draftRevision
  }

  lemma RecoveryKept(w: World, step: Step, requestId: string)
    requires Enabled(w, step) && WellFormed(w) && RecoveryFor(w.session, requestId) && !step.Restore? && !step.Dismiss?
    ensures Next(w, step).session.withdrawal == w.session.withdrawal
  {
    match step
    case OwnerReply(reply, at) =>
      var quiet, o, detail, seen := OwnerTurnShape(w.session, w.owner, reply, at);
      if !quiet {
        RecoveryOutlives(w.session, true, w.owner.target.requestId, o, detail, at, seen, Some(w.owner.target));
      }
    case Page(r, o, detail, seen, at) => RecoveryOutlives(w.session, w.owner != Idle, r, o, detail, at, seen, None);
    case _ =>
  }

  /** Only the user ends a recovery, and only that one, at the revision they were shown; a restore puts its
      text into the composer. */
  lemma RecoveryEndsIff(w: World, step: Step, requestId: string)
    requires Enabled(w, step) && WellFormed(w) && RecoveryFor(w.session, requestId)
    ensures
      var after := Next(w, step).session;
      && (after.withdrawal == w.session.withdrawal <==> !EndsRecovery(w, step, requestId))
      && (EndsRecovery(w, step, requestId) ==>
            after.withdrawal == None && after.draft == if step.Restore? then w.session.withdrawal.value.text else w.session.draft)
  {
    if !step.Restore? && !step.Dismiss? { RecoveryKept(w, step, requestId); }
  }

  lemma RunRecoveryStep(run: Run, i: nat, requestId: string)
    requires IsRun(run) && WellFormed(run.states[0]) && i < |run.states| - 1 && RecoveryFor(run.states[i].session, requestId)
    ensures run.states[i + 1].session.withdrawal == run.states[i].session.withdrawal <==>
            !EndsRecovery(run.states[i], run.steps[i], requestId)
    ensures EndsRecovery(run.states[i], run.steps[i], requestId) ==> run.states[i + 1].session.withdrawal == None
  {
    RunWellFormed(run, i);
    RecoveryEndsIff(run.states[i], run.steps[i], requestId);
  }

  /** From one point of a run to another the slot keeps the recovery. */
  ghost predicate KeepsRecovery(run: Run, i: nat, j: nat)
    requires i <= j < |run.states|
  {
    forall k :: i <= k <= j ==> run.states[k].session.withdrawal == run.states[i].session.withdrawal
  }

  ghost predicate NeverEnded(run: Run, i: nat, j: nat, requestId: string)
    requires i <= j <= |run.steps| < |run.states|
  {
    forall k :: i <= k < j ==> !EndsRecovery(run.states[k], run.steps[k], requestId)
  }

  lemma KeepsNext(run: Run, i: nat, m: nat)
    requires i <= m < |run.states| - 1
    ensures KeepsRecovery(run, i, m + 1) <==>
            KeepsRecovery(run, i, m) && run.states[m + 1].session.withdrawal == run.states[m].session.withdrawal
    ensures KeepsRecovery(run, i, m) ==> run.states[m].session.withdrawal == run.states[i].session.withdrawal
  {
  }

  lemma NeverEndedNext(run: Run, i: nat, m: nat, requestId: string)
    requires i <= m < |run.steps| < |run.states|
    ensures NeverEnded(run, i, m + 1, requestId) <==>
            NeverEnded(run, i, m, requestId) && !EndsRecovery(run.states[m], run.steps[m], requestId)
  {
  }

  /**
   A recovery survives edits, launches, further withdrawals, pages, replies and sweeps: over every run it
   stays in the slot if and only if the user does not restore or dismiss it at the current revision.
   */
  lemma {:induction false} RecoveryOverRuns(run: Run, i: nat, j: nat, requestId: string)
    requires IsRun(run) && WellFormed(run.states[0]) && i <= j < |run.states| && RecoveryFor(run.states[i].session, requestId)
    ensures KeepsRecovery(run, i, j) <==> NeverEnded(run, i, j, requestId)
    decreases j
  {
    if i < j {
      var m: nat := j - 1;
      RecoveryOverRuns(run, i, m, requestId);
      KeepsNext(run, i, m);
      NeverEndedNext(run, i, m, requestId);
      if KeepsRecovery(run, i, m) { RunRecoveryStep(run, m, requestId); }
    }
  }

  // ---------------------------------------------------------------- the composer

  /** What replaces the draft: an edit, the user's own restore, and at an equal captured revision the
      success of a submission or an automatic restore. */
  predicate Displaces(w: World, step: Step)
    requires Enabled(w, step)
  {
    var s := w.session;
    match step
    case Edit(_) => true
    case Restore(r, revision, _) => RecoveryFor(s, r) && revision == s.draftRevision
    case SettleSubmit(record) => Commits(record) && record.submittedRevision == s.draftRevision
    case OwnerReply(reply, _) => OwnerSaves(s, w.owner, reply) && w.owner.target.draftRevision == s.draftRevision
    case Page(r, o, _, seen, _) => SavesBy(s, r, o, seen, None) && SelectedPending(s, r, None).value.draftRevision == s.draftRevision
    case _ => false
  }

  lemma AutomaticDisplacesIff(w: World, step: Step)
    requires Enabled(w, step) && (step.OwnerReply? || step.Page?)
    ensures VerdictOf(w, step).RestoredForEditing? <==> Displaces(w, step)
    ensures var before, after := w.session, Next(w, step).session;
            if Displaces(w, step) then after.draftRevision == before.draftRevision + 1
            else after.draftRevision == before.draftRevision && after.draft == before.draft
  {
    match step
    case OwnerReply(reply, at) =>
      OwnerSavesIff(w.session, w.owner, reply, at);
      var quiet, o, detail, seen := OwnerTurnShape(w.session, w.owner, reply, at);
      if !quiet {
        ObservationDraft(w.session, true, w.owner.target.requestId, o, detail, at, seen, Some(w.owner.target));
      }
    case Page(r, o, detail, seen, at) =>
      ObservationSavesIff(w.session, w.owner != Idle, r, o, detail, at, seen, None);
      ObservationDraft(w.session, w.owner != Idle, r, o, detail, at, seen, None);
  }

  /** A step replaces the draft, raising the revision by one, exactly when it displaces it. */
  lemma DraftDisplacedIff(w: World, step: Step)
    requires Enabled(w, step)
    ensures
      var before, after := w.session, Next(w, step).session;
      if Displaces(w, step) then after.draftRevision == before.draftRevision + 1
      else after.draftRevision == before.draftRevision && after.draft == before.draft
  {
    if step.OwnerReply? || step.Page? { AutomaticDisplacesIff(w, step); }
  }

  lemma RunDraftStep(run: Run, i: nat)
    requires IsRun(run) && i < |run.states| - 1
    ensures Enabled(run.states[i], run.steps[i])
    ensures
      var before, after := run.states[i].session, run.states[i + 1].session;
      if Displaces(run.states[i], run.steps[i]) then after.draftRevision == before.draftRevision + 1
      else after.draftRevision == before.draftRevision && after.draft == before.draft
  {
    DraftDisplacedIff(run.states[i], run.steps[i]);
  }

  ghost predicate DisplacedAt(run: Run, k: nat)
    requires k < |run.steps| < |run.states|
  {
    Enabled(run.states[k], run.steps[k]) && Displaces(run.states[k], run.steps[k])
  }

  ghost predicate NeverDisplaced(run: Run, i: nat, j: nat)
    requires i <= j <= |run.steps| < |run.states|
  {
    forall k :: i <= k < j ==> !DisplacedAt(run, k)
  }

  lemma NeverDisplacedNext(run: Run, i: nat, m: nat)
    requires i <= m < |run.steps| < |run.states|
    ensures NeverDisplaced(run, i, m + 1) <==> NeverDisplaced(run, i, m) && !DisplacedAt(run, m)
  {
  }

  /** Over every run the draft keeps its revision, and so its text, if and only if no step displaces it. */
  lemma {:induction false} DraftOverRuns(run: Run, i: nat, j: nat)
    requires IsRun(run) && i <= j < |run.states|
    ensures run.states[j].session.draftRevision == run.states[i].session.draftRevision <==> NeverDisplaced(run, i, j)
    ensures NeverDisplaced(run, i, j) ==> run.states[j].session.draft == run.states[i].session.draft
    decreases j
  {
    if i < j {
      var m: nat := j - 1;
      DraftOverRuns(run, i, m);
      RunDraftStep(run, m);
      RevisionDeterminesDraft(run, i, m);
      NeverDisplacedNext(run, i, m);
    }
  }

  // ---------------------------------------------------------------- saved text

  /** A verdict concerns a withdrawal the client knew when it was reached. */
  lemma VerdictKnown(w: World, step: Step)
    requires Enabled(w, step) && Saves(VerdictOf(w, step))
    ensures VerdictOf(w, step).request in Withdrawals(w)
    ensures !UserActs(step) && !step.SettleSubmit?
    ensures VerdictOf(w, step).RestoredForEditing? ==>
              var p := VerdictOf(w, step).request;
              w.session.draftRevision == p.draftRevision && Next(w, step).session.draftRevision == p.draftRevision + 1 &&
              Next(w, step).session.draft == p.text
    ensures VerdictOf(w, step).RetainedForRecovery? ==>
              var p := VerdictOf(w, step).request;
              RecoveryFor(Next(w, step).session, p.requestId) && Next(w, step).session.withdrawal.value.text == p.text
  {
    match step
    case OwnerReply(reply, at) =>
      var quiet, o, detail, seen := OwnerTurnShape(w.session, w.owner, reply, at);
      if !quiet {
        ObservationSlot(w.session, true, w.owner.target.requestId, o, detail, at, seen, Some(w.owner.target));
        ObservationDraft(w.session, true, w.owner.target.requestId, o, detail, at, seen, Some(w.owner.target));
      }
    case Page(r, o, detail, seen, at) =>
      ObservationSlot(w.session, w.owner != Idle, r, o, detail, at, seen, None);
      ObservationDraft(w.session, w.owner != Idle, r, o, detail, at, seen, None);
  }

  predicate InSlot(w: World, requestId: string, text: string) {
    RecoveryFor(w.session, requestId) && w.session.withdrawal.value.text == text
  }

  /** The step gives the text up: a dismissal while it is in the slot, else a replacement of the draft. */
  predicate Releases(w: World, step: Step, requestId: string, text: string)
    requires Enabled(w, step)
  {
    if InSlot(w, requestId, text) then step.Dismiss? && EndsRecovery(w, step, requestId) else Displaces(w, step)
  }

  /** A displacing step brings no recovery. */
  lemma DisplacingBringsNone(w: World, step: Step, requestId: string)
    requires Enabled(w, step) && Displaces(w, step) && !RecoveryFor(w.session, requestId)
    ensures !RecoveryFor(Next(w, step).session, requestId)
  {
    RecoveryBroughtIff(w, step, requestId);
  }

  lemma SlotTextStays(w: World, step: Step, requestId: string, text: string)
    requires Enabled(w, step) && WellFormed(w) && Displaces(w, step) && !InSlot(w, requestId, text)
    ensures !InSlot(Next(w, step), requestId, text)
  {
    if RecoveryFor(w.session, requestId) { RecoveryEndsIff(w, step, requestId); } else { DisplacingBringsNone(w, step, requestId); }
  }

  /** Text that is held stays held exactly through the steps that do not release it, unless the draft reads
      the same after the release. */
  lemma HeldUnlessReleased(w: World, step: Step, requestId: string, text: string)
    requires Enabled(w, step) && WellFormed(w) && TextHeld(w.session, requestId, text)
    ensures TextHeld(Next(w, step).session, requestId, text) <==>
            !Releases(w, step, requestId, text) || Next(w, step).session.draft == text
  {
    DraftDisplacedIff(w, step);
    if InSlot(w, requestId, text) { RecoveryEndsIff(w, step, requestId); }
    else if Displaces(w, step) { SlotTextStays(w, step, requestId, text); }
  }

  ghost predicate ReleasedAt(run: Run, k: nat, requestId: string, text: string)
    requires k < |run.steps| < |run.states|
  {
    Enabled(run.states[k], run.steps[k]) && Releases(run.states[k], run.steps[k], requestId, text)
  }

  lemma RunHeldStep(run: Run, i: nat, requestId: string, text: string)
    requires IsRun(run) && WellFormed(run.states[0]) && i < |run.states| - 1
    requires TextHeld(run.states[i].session, requestId, text) && !ReleasedAt(run, i, requestId, text)
    ensures TextHeld(run.states[i + 1].session, requestId, text)
  {
    RunWellFormed(run, i);
    HeldUnlessReleased(run.states[i], run.steps[i], requestId, text);
  }

  lemma {:induction false} HeldOverRuns(run: Run, i: nat, j: nat, requestId: string, text: string)
    requires IsRun(run) && WellFormed(run.states[0]) && i <= j < |run.states|
    requires forall k :: i <= k < j ==> !ReleasedAt(run, k, requestId, text)
    requires TextHeld(run.states[i].session, requestId, text)
    ensures TextHeld(run.states[j].session, requestId, text)
    decreases j
  {
    if i < j {
      HeldOverRuns(run, i, j - 1, requestId, text);
      RunHeldStep(run, j - 1, requestId, text);
    }
  }

  lemma RunVerdictHolds(run: Run, i: nat)
    requires IsRun(run) && i < |run.states| - 1 && Saves(run.verdicts[i])
    ensures TextHeld(run.states[i + 1].session, run.verdicts[i].request.requestId, run.verdicts[i].request.text)
  {
    VerdictKnown(run.states[i], run.steps[i]);
  }

  /**
   Withdrawn text is never lost by accident: from the verdict on, the exact text stays in the recovery slot
   or in the composer until a step releases it, that is until the recovery is dismissed or, once the text
   is in the composer, the draft is replaced. In the slot it survives every edit, launch and withdrawal.
   */
  lemma WithdrawnTextSurvives(run: Run, i: nat, j: nat, p: PendingWithdrawal)
    requires IsRun(run) && WellFormed(run.states[0]) && i < j < |run.states|
    requires Saves(run.verdicts[i]) && run.verdicts[i].request == p
    requires forall k :: i < k < j ==> !ReleasedAt(run, k, p.requestId, p.text)
    ensures TextHeld(run.states[j].session, p.requestId, p.text)
  {
    RunVerdictHolds(run, i);
    HeldOverRuns(run, i + 1, j, p.requestId, p.text);
  }

  // ---------------------------------------------------------------- the network alone releases nothing

  /** Acts of the user; every other step is the network's, the poller's or the submit loop's. */
  predicate UserActs(step: Step) {
    step.Edit? || step.Launch? || step.IssueWithdrawal? || step.Restore? || step.Dismiss?
  }

  /** The text is held, and nothing already on its way can displace it. */
  ghost predicate SafelyHeld(w: World, requestId: string, text: string) {
    || (RecoveryFor(w.session, requestId) && w.session.withdrawal.value.text == text)
    || (w.session.draft == text && CapturedUpTo(w, w.session.draftRevision - 1))
  }

  /** A saving verdict leaves the exact text safely held. */
  lemma VerdictSaves(w: World, step: Step)
    requires Enabled(w, step) && WellFormed(w) && Saves(VerdictOf(w, step))
    ensures SafelyHeld(Next(w, step), VerdictOf(w, step).request.requestId, VerdictOf(w, step).request.text)
  {
    VerdictKnown(w, step);
    var next := Next(w, step);
    if VerdictOf(w, step).RestoredForEditing? {
      StepLaunched(w, step);
      forall p | p in Withdrawals(next) ensures p.draftRevision <= next.session.draftRevision - 1 {
        StepWithdrawals(w, step, p);
      }
    }
  }

  /** A draft newer than every captured revision survives every step that is not the user's. */
  lemma DraftSurvives(w: World, step: Step)
    requires Enabled(w, step) && !UserActs(step) && CapturedUpTo(w, w.session.draftRevision - 1)
    ensures Next(w, step).session.draft == w.session.draft
    ensures CapturedUpTo(Next(w, step), Next(w, step).session.draftRevision - 1)
  {
    var next := Next(w, step);
    StepLaunched(w, step);
    match step {
      case OwnerReply(reply, at) =>
        var quiet, o, detail, seen := OwnerTurnShape(w.session, w.owner, reply, at);
        if !quiet {
          ObservationDraft(w.session, true, w.owner.target.requestId, o, detail, at, seen, Some(w.owner.target));
        }
      case Page(r, o, detail, seen, at) => ObservationDraft(w.session, w.owner != Idle, r, o, detail, at, seen, None);
      case SettleSubmit(record) =>
        var l :| l in w.launched && SameSubmission(record, l);
      case _ =>
    }
    RevisionStep(w, step);
    forall p | p in Withdrawals(next) ensures p.draftRevision <= next.session.draftRevision - 1 {
      StepWithdrawals(w, step, p);
    }
  }

  lemma RunSurvivalStep(run: Run, i: nat, requestId: string, text: string)
    requires IsRun(run) && WellFormed(run.states[0]) && i < |run.states| - 1
    requires !UserActs(run.steps[i]) && SafelyHeld(run.states[i], requestId, text)
    ensures SafelyHeld(run.states[i + 1], requestId, text)
  {
    RunWellFormed(run, i);
    if RecoveryFor(run.states[i].session, requestId) && run.states[i].session.withdrawal.value.text == text {
      RecoveryKept(run.states[i], run.steps[i], requestId);
    } else {
      DraftSurvives(run.states[i], run.steps[i]);
    }
  }

  lemma RunVerdictSaves(run: Run, i: nat)
    requires IsRun(run) && WellFormed(run.states[0]) && i < |run.states| - 1
    requires Saves(run.verdicts[i])
    ensures
      var p := run.verdicts[i].request;
      SafelyHeld(run.states[i + 1], p.requestId, p.text)
  {
    RunWellFormed(run, i);
    VerdictSaves(run.states[i], run.steps[i]);
  }

  lemma {:induction false} HeldSurvives(run: Run, i: nat, j: nat, requestId: string, text: string)
    requires IsRun(run) && WellFormed(run.states[0]) && i <= j < |run.states|
    requires forall k :: i <= k < j ==> !UserActs(run.steps[k])
    requires SafelyHeld(run.states[i], requestId, text)
    ensures SafelyHeld(run.states[j], requestId, text)
    decreases j
  {
    if i < j {
      HeldSurvives(run, i, j - 1, requestId, text);
      RunSurvivalStep(run, j - 1, requestId, text);
    }
  }

  /** Without an act of the user nothing releases the text: what was captured before a restore is older than
      the restored draft. */
  lemma NetworkReleasesNothing(run: Run, i: nat, j: nat, p: PendingWithdrawal)
    requires IsRun(run) && WellFormed(run.states[0]) && i < j < |run.states|
    requires Saves(run.verdicts[i]) && run.verdicts[i].request == p
    requires forall k :: i < k < j ==> !UserActs(run.steps[k])
    ensures TextHeld(run.states[j].session, p.requestId, p.text)
  {
    RunVerdictSaves(run, i);
    HeldSurvives(run, i + 1, j, p.requestId, p.text);
  }

  // ---------------------------------------------------------------- what brings a recovery back

  /** A reply to the owner or a page puts the recovery of `id` into the slot. */
  predicate BringsRecovery(w: World, step: Step, id: string)
    requires Enabled(w, step)
  {
    var s := w.session;
    match step
    case OwnerReply(reply, _) =>
      id == w.owner.target.requestId && OwnerSaves(s, w.owner, reply) && w.owner.target.draftRevision != s.draftRevision
    case Page(r, o, _, seen, _) =>
      id == r && SavesBy(s, r, o, seen, None) && SelectedPending(s, r, None).value.draftRevision != s.draftRevision
    case _ => false
  }

  /** Exactly when a step puts a recovery into the slot. A page can only do so for a pending withdrawal, so
      never into an empty slot. */
  lemma RecoveryBroughtIff(w: World, step: Step, id: string)
    requires Enabled(w, step) && !RecoveryFor(w.session, id)
    ensures RecoveryFor(Next(w, step).session, id) <==> BringsRecovery(w, step, id)
    ensures step.Page? && BringsRecovery(w, step, id) ==> PendingFor(w.session, id)
  {
    match step
    case OwnerReply(reply, at) => OwnerRecoversIff(w.session, w.owner, reply, at, id);
    case Page(r, o, detail, seen, at) => RecoveryAppearsIff(w.session, w.owner != Idle, r, o, detail, at, seen, None, id);
    case _ =>
  }

  predicate NonePending(w: World) {
    w.session.withdrawal.None? || w.session.withdrawal.value.Recovery?
  }

  lemma NonePendingStep(w: World, step: Step)
    requires Enabled(w, step) && NonePending(w) && !step.IssueWithdrawal?
    ensures NonePending(Next(w, step))
  {
    match step
    case OwnerReply(reply, at) =>
      var quiet, o, detail, seen := OwnerTurnShape(w.session, w.owner, reply, at);
      if !quiet {
        ObservationSlot(w.session, true, w.owner.target.requestId, o, detail, at, seen, Some(w.owner.target));
      }
    case Page(r, o, detail, seen, at) => ObservationSlot(w.session, w.owner != Idle, r, o, detail, at, seen, None);
    case _ =>
  }

  ghost predicate OwnerBrings(run: Run, k: nat, id: string)
    requires k < |run.steps| < |run.states|
  {
    run.steps[k].OwnerReply? && Enabled(run.states[k], run.steps[k]) && BringsRecovery(run.states[k], run.steps[k], id)
  }

  lemma RunReturnStep(run: Run, i: nat, id: string)
    requires IsRun(run) && i < |run.states| - 1 && NonePending(run.states[i]) && !run.steps[i].IssueWithdrawal?
    ensures NonePending(run.states[i + 1])
    ensures !RecoveryFor(run.states[i].session, id) ==>
              (RecoveryFor(run.states[i + 1].session, id) <==> OwnerBrings(run, i, id))
  {
    NonePendingStep(run.states[i], run.steps[i]);
    if !RecoveryFor(run.states[i].session, id) { RecoveryBroughtIff(run.states[i], run.steps[i], id); }
  }

  ghost predicate NeverBack(run: Run, i: nat, j: nat, id: string)
    requires i <= j < |run.states|
  {
    forall k :: i <= k <= j ==> !RecoveryFor(run.states[k].session, id)
  }

  ghost predicate OwnerNeverBrings(run: Run, i: nat, j: nat, id: string)
    requires i <= j <= |run.steps| < |run.states|
  {
    forall k :: i <= k < j ==> !OwnerBrings(run, k, id)
  }

  lemma NeverBackNext(run: Run, i: nat, m: nat, id: string)
    requires i <= m < |run.states| - 1
    ensures NeverBack(run, i, m + 1, id) <==> NeverBack(run, i, m, id) && !RecoveryFor(run.states[m + 1].session, id)
    ensures NeverBack(run, i, m, id) ==> !RecoveryFor(run.states[m].session, id)
  {
  }

  lemma OwnerNeverBringsNext(run: Run, i: nat, m: nat, id: string)
    requires i <= m < |run.steps| < |run.states|
    ensures OwnerNeverBrings(run, i, m + 1, id) <==> OwnerNeverBrings(run, i, m, id) && !OwnerBrings(run, m, id)
  {
  }

  ghost predicate NoneIssued(run: Run, i: nat, j: nat)
    requires i <= j <= |run.steps|
  {
    forall k :: i <= k < j ==> !run.steps[k].IssueWithdrawal?
  }

  lemma NoneIssuedBefore(run: Run, i: nat, m: nat)
    requires i <= m < |run.steps| && NoneIssued(run, i, m + 1)
    ensures NoneIssued(run, i, m) && NoneIssued(run, m, m + 1)
  {
  }

  lemma RunNonePending(run: Run, m: nat)
    requires IsRun(run) && m < |run.states| - 1 && NonePending(run.states[m]) && NoneIssued(run, m, m + 1)
    ensures NonePending(run.states[m + 1])
  {
    NonePendingStep(run.states[m], run.steps[m]);
  }

  lemma {:induction false} StaysNonePending(run: Run, i: nat, j: nat)
    requires IsRun(run) && i <= j < |run.states| && NonePending(run.states[i]) && NoneIssued(run, i, j)
    ensures NonePending(run.states[j])
    decreases j
  {
    if i < j {
      NoneIssuedBefore(run, i, j - 1);
      StaysNonePending(run, i, j - 1);
      RunNonePending(run, j - 1);
    }
  }

  lemma GoneStep(run: Run, i: nat, m: nat, id: string)
    requires IsRun(run) && i <= m < |run.states| - 1 && NonePending(run.states[m]) && NoneIssued(run, m, m + 1)
    requires NeverBack(run, i, m, id) <==> OwnerNeverBrings(run, i, m, id)
    ensures NeverBack(run, i, m + 1, id) <==> OwnerNeverBrings(run, i, m + 1, id)
  {
    RunReturnStep(run, m, id);
    NeverBackNext(run, i, m, id);
    OwnerNeverBringsNext(run, i, m, id);
  }

  /**
   A recovery that is gone, dismissed or restored, stays gone until the next withdrawal is issued if and
   only if the owner still in flight never saves its text again away from the captured revision. No page
   brings it back.
   */
  lemma {:induction false} DismissedStaysGoneIff(run: Run, i: nat, j: nat, id: string)
    requires IsRun(run) && i <= j < |run.states| && NonePending(run.states[i]) && !RecoveryFor(run.states[i].session, id)
    requires NoneIssued(run, i, j)
    ensures NeverBack(run, i, j, id) <==> OwnerNeverBrings(run, i, j, id)
    decreases j
  {
    if i < j {
      var m: nat := j - 1;
      NoneIssuedBefore(run, i, m);
      DismissedStaysGoneIff(run, i, m, id);
      StaysNonePending(run, i, m);
      GoneStep(run, i, m, id);
    }
  }

  // ---------------------------------------------------------------- restores and their provenance

  lemma RunRestoreRevision(run: Run, i: nat)
    requires IsRun(run) && i < |run.states| - 1
    requires run.verdicts[i].RestoredForEditing?
    ensures
      var p := run.verdicts[i].request;
      run.states[i].session.draftRevision == p.draftRevision && run.states[i + 1].session.draftRevision == p.draftRevision + 1
  {
    VerdictKnown(run.states[i], run.steps[i]);
  }

  /** Automatic restore happens at most once per withdrawal; later ones captured later revisions. */
  lemma RestoredAtMostOnce(run: Run, i: nat, j: nat)
    requires IsRun(run) && i < j < |run.states| - 1
    requires run.verdicts[i].RestoredForEditing? && run.verdicts[j].RestoredForEditing?
    ensures run.verdicts[i].request.draftRevision < run.verdicts[j].request.draftRevision
    ensures run.verdicts[i].request != run.verdicts[j].request
  {
    RunRestoreRevision(run, i);
    RunRestoreRevision(run, j);
    RevisionDeterminesDraft(run, i + 1, j);
  }

  lemma RunWithdrawals(run: Run, i: nat, p: PendingWithdrawal)
    requires IsRun(run) && i < |run.states| - 1 && p in Withdrawals(run.states[i + 1])
    ensures p in Withdrawals(run.states[i]) || FreshlyIssued(run.states[i], run.steps[i], p)
  {
    StepWithdrawals(run.states[i], run.steps[i], p);
  }

  lemma {:induction false} IssuedEarlier(run: Run, j: nat, p: PendingWithdrawal) returns (i: nat)
    requires IsRun(run) && Fresh(run.states[0]) && j < |run.states| && p in Withdrawals(run.states[j])
    ensures i < j && FreshlyIssued(run.states[i], run.steps[i], p)
    decreases j
  {
    if p in Withdrawals(run.states[j - 1]) {
      i := IssuedEarlier(run, j - 1, p);
    } else {
      RunWithdrawals(run, j - 1, p);
      i := j - 1;
    }
  }

  /**
   Provenance of restored text. In a run from a fresh cockpit, whatever a verdict restores or retains
   is the exact text of the message the user withdrew, and an automatic restore overwrites only the
   very draft that was in the composer when the withdrawal was issued.
   */
  lemma RestoredTextProvenance(run: Run, j: nat) returns (i: nat)
    requires IsRun(run) && Fresh(run.states[0]) && j < |run.states| - 1
    requires Saves(run.verdicts[j])
    ensures i < j && run.steps[i].IssueWithdrawal?
    ensures
      var p := run.verdicts[j].request;
      && (exists e :: e in run.states[i].session.queue && e.requestId == p.requestId && e.text == p.text)
      && p.draftRevision == run.states[i].session.draftRevision
      && (run.verdicts[j].RestoredForEditing? ==>
            run.states[j].session.draft == run.states[i].session.draft)
  {
    var p := run.verdicts[j].request;
    VerdictKnown(run.states[j], run.steps[j]);
    i := IssuedEarlier(run, j, p);
    assert run.states[i].session.queue[|run.states[i].session.queue| - 1] in run.states[i].session.queue;
    RevisionDeterminesDraft(run, i, j);
  }
}
