/**
 Whole runs of one session's submissions: the store, the withdrawal owner, the poller, the user,
 the submit loop, and the runner behind an adversarial network.

 The code between two awaits is one step. The runner may do anything except leave a definitive
 state. A word it has said once may be delivered late, repeatedly and in any order, because `said`
 is never consumed; not-found and epoch-mismatch replies are possible at any time; and an
 observation may be judged against any request version.
 */
module SubmissionRuns {
  import opened Prelude
  import opened SubmitMachine
  import opened SubmitRetention
  import opened SessionCockpit
  import opened SubmissionLifecycle
  import opened SubmissionWithdrawal

  datatype World = World(
    session: PerSession,
    owner: Owner,
    runner: map<string, ServerState>,
    said: set<(string, ServerState)>,
    launched: set<SubmitRecord>)

  datatype Step =
    | Edit(text: string)
    | Launch(requestId: string, epoch: string, at: int)
    | SubmitWrite(record: SubmitRecord)
    | SettleSubmit(record: SubmitRecord)
    | IssueWithdrawal(at: int)
    | OwnerReply(reply: Reply, at: int)
    | OwnerDone
    | Page(requestId: string, observation: Observation, detail: Option<string>, observedVersion: int, at: int)
    | Sweep(at: int)
    | Restore(requestId: string, expectedRevision: int, at: int)
    | Dismiss(requestId: string, expectedRevision: int, at: int)
    | RunnerMove(requestId: string, state: ServerState)
    | RunnerSays(requestId: string)

  /** submitSessionDraft's record: the draft and the revision it was read at. */
  function DraftRecord(s: PerSession, requestId: string, epoch: string, at: int): SubmitRecord {
    StartSubmitRecord(requestId, s.draft, epoch, Composer, s.draftRevision, true, at)
  }

  predicate Commits(record: SubmitRecord) {
    record.source == Composer && record.clearDraftOnAccept && record.phase in {Accepted, QueuedPhase, Delivering}
  }

  predicate InQueue(queue: seq<QueuedSubmit>, requestId: string) {
    exists i :: 0 <= i < |queue| && queue[i].requestId == requestId
  }

  /** settleStoredSubmission: enqueue what the receipt queued, clear the draft that was submitted. */
  function SettleStored(s: PerSession, record: SubmitRecord): PerSession {
    var queued :=
      if record.source == Composer && record.phase == QueuedPhase && !InQueue(s.queue, record.requestId)
      then Enqueue(s, QueuedSubmit(record.requestId, record.text, record.updatedAt, record.expectedBridgeEpoch)) else s;
    if Commits(record) then ReplaceDraftIfRevision(queued, record.submittedRevision, "") else queued
  }

  /** The settlement of a submission. A queued composer message is in the queue afterwards, last if it was not
      there before; and the draft is cleared exactly for a committed message at the revision it was submitted
      at. Nothing else changes. */
  lemma SettleStoredExact(s: PerSession, record: SubmitRecord)
    ensures
      var after := SettleStored(s, record);
      var added := record.source == Composer && record.phase == QueuedPhase && !InQueue(s.queue, record.requestId);
      && after.history == s.history && after.withdrawal == s.withdrawal
      && (!added ==> after.queue == s.queue)
      && (added ==> after.queue != [] && after.queue[|after.queue| - 1].requestId == record.requestId
                    && after.queue[|after.queue| - 1].text == record.text
                    && after.queue[|after.queue| - 1].expectedBridgeEpoch == record.expectedBridgeEpoch)
      && (if record.source == Composer && record.clearDraftOnAccept && record.submittedRevision == s.draftRevision
             && record.phase in {Accepted, QueuedPhase, Delivering}
          then after.draft == "" && after.draftRevision == s.draftRevision + 1
          else after.draft == s.draft && after.draftRevision == s.draftRevision)
  {
    EnqueueExact(s, QueuedSubmit(record.requestId, record.text, record.updatedAt, record.expectedBridgeEpoch));
  }

  predicate Truthful(w: World, target: string, reply: Reply) {
    match reply
    case WithdrawReply(WithdrawnResult(_)) => (target, Withdrawn) in w.said
    case WithdrawReply(NotWithdrawable(state, _)) => state.Some? ==> (target, state.value) in w.said
    case StatusReply(Found(state, _)) => (target, state) in w.said
    case _ => true
  }

  predicate Enabled(w: World, step: Step) {
    match step
    case Launch(_, _, _) => w.session.draft != ""
    case SettleSubmit(record) => exists l :: l in w.launched && SameSubmission(record, l)
    case OwnerReply(reply, _) => Expects(w.owner, reply) && Truthful(w, w.owner.target.requestId, reply)
    case OwnerDone => w.owner.Returning?
    case Page(r, o, _, _, _) => o.Server? ==> (r, o.state) in w.said
    case RunnerMove(r, _) => r in w.runner ==> !IsDefinitive(w.runner[r])
    case RunnerSays(r) => r in w.runner
    case _ => true
  }

  function PageApplied(w: World, step: Step): Applied
    requires step.Page?
  {
    ApplyObservation(w.session, w.owner != Idle, step.requestId, step.observation, step.detail, step.at, step.observedVersion, None)
  }

  function Next(w: World, step: Step): World
    requires Enabled(w, step)
  {
    var s := w.session;
    match step
    case Edit(text) => w.(session := SetDraft(s, text))
    case Launch(r, epoch, at) =>
      var record := DraftRecord(s, r, epoch, at);
      w.(session := UpsertRecord(s, record), launched := w.launched + {record})
    case SubmitWrite(record) => w.(session := UpsertRecord(s, record))
    case SettleSubmit(record) => w.(session := SettleStored(s, record))
    case IssueWithdrawal(at) => var turn := Issue(s, w.owner, at); w.(session := turn.session, owner := turn.owner)
    case OwnerReply(reply, at) => var turn := OwnerTurn(s, w.owner, reply, at); w.(session := turn.session, owner := turn.owner)
    case OwnerDone => w.(owner := Idle)
    case Page(_, _, _, _, _) => w.(session := PageApplied(w, step).session)
    case Sweep(at) => w.(session := s.(history := SweptAll(s.history, OwedTargets(s), at)))
    case Restore(r, revision, at) => w.(session := UserRestores(s, r, revision, at))
    case Dismiss(r, revision, at) => w.(session := UserDismisses(s, r, revision, at))
    case RunnerMove(r, state) => w.(runner := w.runner[r := state])
    case RunnerSays(r) => w.(said := w.said + {(r, w.runner[r])})
  }

  /** What a step decided about withdrawn text. */
  function VerdictOf(w: World, step: Step): Verdict
    requires Enabled(w, step)
  {
    match step
    case OwnerReply(reply, at) => OwnerTurn(w.session, w.owner, reply, at).verdict
    case Page(_, _, _, _, _) => PageApplied(w, step).verdict
    case _ => NoVerdict
  }

  /** A run, with what each of its steps decided about withdrawn text. */
  datatype Run = Run(states: seq<World>, steps: seq<Step>, verdicts: seq<Verdict>)

  ghost predicate IsRun(run: Run) {
    && |run.states| == |run.steps| + 1 && |run.verdicts| == |run.steps|
    && forall i {:trigger run.steps[i]} :: 0 <= i < |run.steps| ==>
         && Enabled(run.states[i], run.steps[i])
         && run.states[i + 1] == Next(run.states[i], run.steps[i])
         && run.verdicts[i] == VerdictOf(run.states[i], run.steps[i])
  }

  // ---------------------------------------------------------------- draft revisions

  lemma RevisionStep(w: World, step: Step)
    requires Enabled(w, step)
    ensures
      var before, after := w.session, Next(w, step).session;
      || (after.draftRevision == before.draftRevision && after.draft == before.draft)
      || after.draftRevision == before.draftRevision + 1
  {
    match step
    case OwnerReply(reply, at) =>
      var quiet, o, detail, seen := OwnerTurnShape(w.session, w.owner, reply, at);
      if !quiet {
        ObservationDraft(w.session, true, w.owner.target.requestId, o, detail, at, seen, Some(w.owner.target));
      }
    case Page(r, o, detail, seen, at) => ObservationDraft(w.session, w.owner != Idle, r, o, detail, at, seen, None);
    case _ =>
  }

  lemma RunRevisionStep(run: Run, i: nat)
    requires IsRun(run) && i < |run.states| - 1
    ensures
      var before, after := run.states[i].session, run.states[i + 1].session;
      || (after.draftRevision == before.draftRevision && after.draft == before.draft)
      || after.draftRevision == before.draftRevision + 1
  {
    RevisionStep(run.states[i], run.steps[i]);
  }

  /** Equal revisions at two points of a run mean an untouched draft in between. */
  lemma {:induction false} RevisionDeterminesDraft(run: Run, i: nat, j: nat)
    requires IsRun(run) && i <= j < |run.states|
    ensures run.states[i].session.draftRevision <= run.states[j].session.draftRevision
    ensures run.states[i].session.draftRevision == run.states[j].session.draftRevision ==>
              run.states[i].session.draft == run.states[j].session.draft
    decreases j
  {
    if i < j {
      RevisionDeterminesDraft(run, i, j - 1);
      RunRevisionStep(run, j - 1);
    }
  }

  /**
   When the success of a draft submission clears the composer, the text it erases is exactly the
   text that was submitted, whatever was edited, submitted or withdrawn in between.
   */
  lemma ClearedDraftWasSubmitted(run: Run, i: nat, j: nat)
    requires IsRun(run) && i < j < |run.steps|
    requires run.steps[i].Launch? && run.steps[j].SettleSubmit?
    requires SameSubmission(run.steps[j].record,
                            DraftRecord(run.states[i].session, run.steps[i].requestId, run.steps[i].epoch, run.steps[i].at))
    requires run.states[j + 1].session.draftRevision != run.states[j].session.draftRevision
    ensures run.states[j].session.draft == run.steps[j].record.text
    ensures run.states[j + 1].session.draft == ""
  {
    var record, before := run.steps[j].record, run.states[j].session;
    assert Next(run.states[j], run.steps[j]).session == SettleStored(before, record);
    assert before.draftRevision == record.submittedRevision == run.states[i].session.draftRevision;
    RevisionDeterminesDraft(run, i, j);
  }

  // ---------------------------------------------------------------- what every step keeps

  /** Withdrawals the client still knows: the one in the slot, the one in flight. */
  function Withdrawals(w: World): set<PendingWithdrawal> {
    (if w.session.withdrawal.Some? && w.session.withdrawal.value.Pending? then {w.session.withdrawal.value.request} else {}) +
    (if w.owner == Idle then {} else {w.owner.target})
  }

  /** Every revision captured so far, by a launch or by a withdrawal, is at most `bound`. */
  ghost predicate CapturedUpTo(w: World, bound: int) {
    && (forall l :: l in w.launched ==> l.submittedRevision <= bound)
    && (forall p :: p in Withdrawals(w) ==> p.draftRevision <= bound)
  }

  ghost predicate WellFormed(w: World) {
    && Retentive(w.session.history)
    && SlotMatchesOwner(w.session, w.owner)
    && CapturedUpTo(w, w.session.draftRevision)
  }

  lemma WriteRetentive(s: PerSession, record: Option<SubmitRecord>)
    requires Retentive(s.history)
    ensures Retentive(WriteRecord(s, record).history)
  {
    if record.Some? { UpsertRetentive(s.history, record.value); }
  }

  lemma ObservationRetentive(
    s: PerSession, inFlight: bool, requestId: string, incoming: Observation, detail: Option<string>, at: int,
    observedVersion: int, issued: Option<PendingWithdrawal>)
    requires Retentive(s.history)
    ensures Retentive(ApplyObservation(s, inFlight, requestId, incoming, detail, at, observedVersion, issued).session.history)
  {
    ObservationWrites(s, inFlight, requestId, incoming, detail, at, observedVersion, issued);
    WriteRetentive(s, ApplyObservation(s, inFlight, requestId, incoming, detail, at, observedVersion, issued).record);
  }

  lemma StepRetentive(w: World, step: Step)
    requires Enabled(w, step) && Retentive(w.session.history)
    ensures Retentive(Next(w, step).session.history)
  {
    match step
    case Launch(r, epoch, at) => UpsertRetentive(w.session.history, DraftRecord(w.session, r, epoch, at));
    case SubmitWrite(record) => UpsertRetentive(w.session.history, record);
    case OwnerReply(reply, at) =>
      var quiet, o, detail, seen := OwnerTurnShape(w.session, w.owner, reply, at);
      if !quiet {
        ObservationRetentive(w.session, true, w.owner.target.requestId, o, detail, at, seen, Some(w.owner.target));
      }
    case Page(r, o, detail, seen, at) => ObservationRetentive(w.session, w.owner != Idle, r, o, detail, at, seen, None);
    case Sweep(at) => SweepRetentive(w.session.history, |w.session.history|, OwedTargets(w.session), at);
    case Restore(r, revision, at) =>
      var record := Find(w.session.history, r);
      if record.Some? { UpsertRetentive(w.session.history, record.value.(restoredAt := Some(at), updatedAt := at)); }
    case Dismiss(r, revision, at) =>
      var record := Find(w.session.history, r);
      if record.Some? {
        UpsertRetentive(w.session.history,
                        record.value.(detail := Some(DISMISSED_DETAIL),
                                      recoveryDismissedAt := Some(at), updatedAt := at));
      }
    case _ =>
  }

  lemma StepSlot(w: World, step: Step)
    requires Enabled(w, step) && SlotMatchesOwner(w.session, w.owner)
    ensures SlotMatchesOwner(Next(w, step).session, Next(w, step).owner)
  {
    match step
    case OwnerReply(reply, at) =>
      var quiet, o, detail, seen := OwnerTurnShape(w.session, w.owner, reply, at);
      if !quiet {
        ObservationSlot(w.session, true, w.owner.target.requestId, o, detail, at, seen, Some(w.owner.target));
      }
    case Page(r, o, detail, seen, at) => ObservationSlot(w.session, w.owner != Idle, r, o, detail, at, seen, None);
    case _ =>
  }

  /** The withdrawal a fresh press of withdraw issues: the newest queue entry, at the current revision. */
  predicate FreshlyIssued(w: World, step: Step, p: PendingWithdrawal) {
    && step.IssueWithdrawal? && w.session.queue != []
    && var entry := w.session.queue[|w.session.queue| - 1];
    p == PendingWithdrawal(entry.requestId, entry.text, entry.expectedBridgeEpoch, w.session.draftRevision, step.at)
  }

  /** No step invents a withdrawal: every known one was known before, or has just been issued. */
  lemma StepWithdrawals(w: World, step: Step, p: PendingWithdrawal)
    requires Enabled(w, step)
    requires p in Withdrawals(Next(w, step))
    ensures p in Withdrawals(w) || FreshlyIssued(w, step, p)
  {
    match step
    case OwnerReply(reply, at) =>
      var quiet, o, detail, seen := OwnerTurnShape(w.session, w.owner, reply, at);
      if !quiet {
        ObservationSlot(w.session, true, w.owner.target.requestId, o, detail, at, seen, Some(w.owner.target));
      }
    case Page(r, o, detail, seen, at) => ObservationSlot(w.session, w.owner != Idle, r, o, detail, at, seen, None);
    case _ =>
  }

  lemma StepLaunched(w: World, step: Step)
    requires Enabled(w, step)
    ensures forall l :: l in Next(w, step).launched ==> l in w.launched || l.submittedRevision == w.session.draftRevision
    ensures !step.Launch? ==> Next(w, step).launched == w.launched
  {
  }

  lemma StepWellFormed(w: World, step: Step)
    requires Enabled(w, step) && WellFormed(w)
    ensures WellFormed(Next(w, step))
  {
    StepRetentive(w, step);
    StepSlot(w, step);
    RevisionStep(w, step);
    StepLaunched(w, step);
    forall p | p in Withdrawals(Next(w, step)) ensures p.draftRevision <= Next(w, step).session.draftRevision {
      StepWithdrawals(w, step, p);
    }
  }

  lemma {:induction false} RunWellFormed(run: Run, i: nat)
    requires IsRun(run) && WellFormed(run.states[0]) && i < |run.states|
    ensures WellFormed(run.states[i])
  {
    if i > 0 {
      RunWellFormed(run, i - 1);
      StepWellFormed(run.states[i - 1], run.steps[i - 1]);
    }
  }

  /** An untouched cockpit: nothing retained, nothing captured. */
  predicate Fresh(w: World) {
    w.session == EMPTY && w.owner == Idle && w.launched == {}
  }

  lemma FreshIsWellFormed(w: World)
    requires Fresh(w)
    ensures WellFormed(w)
  {
    assert SettledRecords([]) == [];
  }

  // ---------------------------------------------------------------- agreement with the runner

  /** Client and network speak the runner's definitive word for `r`, or no definitive word at all. */
  ghost predicate AgreesOn(w: World, r: string) {
    && (forall state :: (r, state) in w.said && IsDefinitive(state) ==> r in w.runner && w.runner[r] == state)
    && (var record := Find(w.session.history, r);
        record.Some? && DefinitiveWord(record.value).Some? ==>
          r in w.runner && w.runner[r] == DefinitiveWord(record.value).value)
  }

  /** The submit loop writes back its own copy of a record; evidence claims exclude those writes. */
  predicate SubmitLoopWrites(step: Step, r: string) {
    (step.Launch? && step.requestId == r) || (step.SubmitWrite? && step.record.requestId == r)
  }

  /** The record of `r` may be evicted, but while retained its evidence climbs and its word stands. */
  predicate EvidenceStep(w: World, next: World, r: string) {
    var before, after := Find(w.session.history, r), Find(next.session.history, r);
    && (before.None? ==> after.None?)
    && (before.Some? && after.Some? ==>
          Climbs(before.value, after.value) &&
          (DefinitiveWord(before.value).Some? ==> DefinitiveWord(after.value) == DefinitiveWord(before.value)))
  }

  lemma SameHistoryStep(w: World, next: World, r: string)
    requires Find(next.session.history, r) in {None, Find(w.session.history, r)}
    requires AgreesOn(w, r) && next.runner == w.runner && next.said == w.said
    ensures AgreesOn(next, r) && EvidenceStep(w, next, r)
  {
  }

  lemma ObservationAgrees(
    w: World, next: World, inFlight: bool, requestId: string, o: Observation, detail: Option<string>, at: int, seen: int,
    issued: Option<PendingWithdrawal>, r: string)
    requires DistinctIds(w.session.history) && AgreesOn(w, r)
    requires o.Server? ==> (requestId, o.state) in w.said
    requires next.session == ApplyObservation(w.session, inFlight, requestId, o, detail, at, seen, issued).session
    requires next.runner == w.runner && next.said == w.said
    ensures AgreesOn(next, r) && EvidenceStep(w, next, r)
  {
    ObservationClimbs(w.session, inFlight, requestId, o, detail, at, seen, issued, r);
    var before, after := Find(w.session.history, r), Find(next.session.history, r);
    if before.Some? && after.Some? && DefinitiveWord(after.value) != DefinitiveWord(before.value) {
      assert (r, o.state) in w.said;
    }
  }

  lemma RewriteKeepsSnapshot(h: seq<SubmitRecord>, written: SubmitRecord, r: string)
    requires DistinctIds(h)
    requires Find(h, written.requestId).Some? && ObservationSnapshot(written) == ObservationSnapshot(Find(h, written.requestId).value)
    ensures SnapshotsKept(h, Upsert(h, written), r)
  {
    UpsertFrame(h, written, r);
  }

  lemma SnapshotStep(w: World, next: World, r: string)
    requires AgreesOn(w, r) && next.runner == w.runner && next.said == w.said
    requires SnapshotsKept(w.session.history, next.session.history, r)
    ensures AgreesOn(next, r) && EvidenceStep(w, next, r)
  {
  }

  /** The records of `after` show what those of `before` show, or are gone. */
  predicate SnapshotsKept(before: seq<SubmitRecord>, after: seq<SubmitRecord>, r: string) {
    && (Find(before, r).None? ==> Find(after, r).None?)
    && (Find(before, r).Some? && Find(after, r).Some? ==>
          ObservationSnapshot(Find(after, r).value) == ObservationSnapshot(Find(before, r).value))
  }

  lemma RestoreKeepsSnapshots(s: PerSession, requestId: string, expectedRevision: int, at: int, r: string)
    requires DistinctIds(s.history)
    ensures SnapshotsKept(s.history, UserRestores(s, requestId, expectedRevision, at).history, r)
  {
    var record := Find(s.history, requestId);
    if record.Some? {
      RewriteKeepsSnapshot(s.history, record.value.(restoredAt := Some(at), updatedAt := at), r);
    }
  }

  lemma DismissKeepsSnapshots(s: PerSession, requestId: string, expectedRevision: int, at: int, r: string)
    requires DistinctIds(s.history)
    ensures SnapshotsKept(s.history, UserDismisses(s, requestId, expectedRevision, at).history, r)
  {
    var record := Find(s.history, requestId);
    if record.Some? {
      RewriteKeepsSnapshot(s.history, record.value.(detail := Some(DISMISSED_DETAIL), recoveryDismissedAt := Some(at), updatedAt := at), r);
    }
  }

  lemma SweepKeepsSnapshots(s: PerSession, at: int, r: string)
    ensures SnapshotsKept(s.history, SweptAll(s.history, OwedTargets(s), at), r)
  {
    SweepFind(s.history, OwedTargets(s), at, r);
  }

  lemma StepAgrees(w: World, step: Step, r: string)
    requires Enabled(w, step) && WellFormed(w) && AgreesOn(w, r) && !SubmitLoopWrites(step, r)
    ensures AgreesOn(Next(w, step), r) && EvidenceStep(w, Next(w, step), r)
  {
    match step
    case Launch(other, epoch, at) =>
      UpsertFrame(w.session.history, DraftRecord(w.session, other, epoch, at), r);
      SameHistoryStep(w, Next(w, step), r);
    case SubmitWrite(record) =>
      UpsertFrame(w.session.history, record, r);
      SameHistoryStep(w, Next(w, step), r);
    case OwnerReply(reply, at) =>
      var quiet, o, detail, seen := OwnerTurnShape(w.session, w.owner, reply, at);
      if !quiet {
        ObservationAgrees(w, Next(w, step), true, w.owner.target.requestId, o, detail, at, seen, Some(w.owner.target), r);
      }
    case Page(other, o, detail, seen, at) =>
      ObservationAgrees(w, Next(w, step), w.owner != Idle, other, o, detail, at, seen, None, r);
    case Sweep(at) =>
      SweepKeepsSnapshots(w.session, at, r);
      SnapshotStep(w, Next(w, step), r);
    case Restore(id, revision, at) =>
      RestoreKeepsSnapshots(w.session, id, revision, at, r);
      SnapshotStep(w, Next(w, step), r);
    case Dismiss(id, revision, at) =>
      DismissKeepsSnapshots(w.session, id, revision, at, r);
      SnapshotStep(w, Next(w, step), r);
    case _ =>
      assert Next(w, step).session.history == w.session.history;
  }

  ghost predicate NoLoopWrites(run: Run, r: string) {
    forall k :: 0 <= k < |run.steps| ==> !SubmitLoopWrites(run.steps[k], r)
  }

  lemma RunAgreesStep(run: Run, i: nat, r: string)
    requires IsRun(run) && WellFormed(run.states[0]) && i < |run.states| - 1
    requires AgreesOn(run.states[i], r) && NoLoopWrites(run, r)
    ensures AgreesOn(run.states[i + 1], r) && EvidenceStep(run.states[i], run.states[i + 1], r)
  {
    RunWellFormed(run, i);
    StepAgrees(run.states[i], run.steps[i], r);
  }

  lemma {:induction false} RunAgrees(run: Run, r: string, j: nat)
    requires IsRun(run) && WellFormed(run.states[0]) && AgreesOn(run.states[0], r) && j < |run.states|
    requires NoLoopWrites(run, r)
    ensures AgreesOn(run.states[j], r)
  {
    if j > 0 {
      RunAgrees(run, r, j - 1);
      RunAgreesStep(run, j - 1, r);
    }
  }

  predicate PossibleSend(record: SubmitRecord) {
    RecordEvidence(record).Some? && RecordEvidence(record).value in {DispatchingEvidence, UnknownEvidence, Definitive}
  }

  lemma {:induction false} EvidenceClimbsOverRun(run: Run, r: string, i: nat, j: nat)
    requires IsRun(run) && WellFormed(run.states[0]) && AgreesOn(run.states[0], r)
    requires NoLoopWrites(run, r)
    requires i <= j < |run.states|
    ensures EvidenceStep(run.states[i], run.states[j], r)
    decreases j
  {
    if i < j {
      EvidenceClimbsOverRun(run, r, i, j - 1);
      RunAgrees(run, r, j - 1);
      RunAgreesStep(run, j - 1, r);
      EvidenceStepsCompose(run.states[i], run.states[j - 1], run.states[j], r);
    }
  }

  lemma EvidenceStepsCompose(a: World, b: World, c: World, r: string)
    requires EvidenceStep(a, b, r) && EvidenceStep(b, c, r)
    ensures EvidenceStep(a, c, r)
  {
  }

  /**
   Agreement over whole runs. Whatever the order of status pages, withdrawal replies, not-found and
   epoch-mismatch replies: while the record is retained its evidence rank never falls, possible-send
   evidence never returns to queued, not-found or generation-lost, and a definitive word stays the
   same for good and is the runner's own.
   */
  lemma AgreementOverRuns(run: Run, r: string, i: nat, j: nat)
    requires IsRun(run) && WellFormed(run.states[0]) && AgreesOn(run.states[0], r)
    requires NoLoopWrites(run, r)
    requires i <= j < |run.states|
    requires Find(run.states[i].session.history, r).Some? && Find(run.states[j].session.history, r).Some?
    ensures
      var before, after := Find(run.states[i].session.history, r).value, Find(run.states[j].session.history, r).value;
      && (RecordEvidence(before).Some? ==>
            RecordEvidence(after).Some? && EvidenceRank(RecordEvidence(before).value) <= EvidenceRank(RecordEvidence(after).value))
      && (PossibleSend(before) ==>
            PossibleSend(after) && after.phase !in {NotFoundPhase, GenerationLostPhase} && after.serverLifecycleState != Some(Queued))
      && (DefinitiveWord(before).Some? ==>
            && DefinitiveWord(after) == DefinitiveWord(before)
            && r in run.states[j].runner && run.states[j].runner[r] == DefinitiveWord(before).value)
  {
    EvidenceClimbsOverRun(run, r, i, j);
    RunAgrees(run, r, j);
  }
}
