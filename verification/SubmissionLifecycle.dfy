/**
 Folding lifecycle evidence into the store (dashboard/src/data/submissionLifecycleClient.ts).

 `ApplyObservation` is the value-level meaning of applyLifecycleObservation; `LifecycleClient`
 performs the same work step by step on the store, as the source does, and is proved to agree.
 */
module SubmissionLifecycle {
  import opened Prelude
  import opened SubmitMachine
  import opened SubmitRetention
  import opened SessionCockpit

  const JOIN_DETAIL := "an earlier dispatching observation proves possible send; current authority can no longer resolve delivery"
  const WITHDRAWN_DETAIL := "withdrawn before dispatch"

  /** What became of the withdrawn text; the source tells the four cases apart by notice. */
  datatype Verdict =
    | NoVerdict
    | NothingPending
    | AlreadyRestored(request: PendingWithdrawal)
    | RestoredForEditing(request: PendingWithdrawal)
    | RetainedForRecovery(request: PendingWithdrawal)

  datatype Applied = Applied(session: PerSession, record: Option<SubmitRecord>, preserved: bool, verdict: Verdict)

  function CurrentSnapshot(s: PerSession, requestId: string): Option<Snapshot> {
    if RecoveryFor(s, requestId) then Some(Snapshot(Server(Withdrawn), Infinity))
    else
      var record := Find(s.history, requestId);
      if record.None? then None else ObservationSnapshot(record.value)
  }

  function ObservationVersion(s: PerSession, requestId: string): int {
    var record := Find(s.history, requestId);
    if record.None? then -1 else record.value.lifecycleObservationVersion
  }

  function ClearSettled(s: PerSession, requestId: string, owner: bool, inFlight: bool): PerSession {
    if !PendingFor(s, requestId) || (!owner && inFlight) then s else SetWithdrawal(s, None)
  }

  function WriteRecord(s: PerSession, record: Option<SubmitRecord>): PerSession {
    if record.None? then s else UpsertRecord(s, record.value)
  }

  /** The withdrawal a withdrawn verdict belongs to: the issuing request's own, else the stored one. */
  function SelectedPending(s: PerSession, requestId: string, issued: Option<PendingWithdrawal>): Option<PendingWithdrawal> {
    if issued.Some? && issued.value.requestId == requestId then issued
    else if s.withdrawal.Some? && s.withdrawal.value.Pending? then Some(s.withdrawal.value.request)
    else None
  }

  function WithdrawnRecord(s: PerSession, requestId: string, detail: Option<string>, at: int): Option<SubmitRecord> {
    var record := Find(s.history, requestId);
    if record.None? then None
    else Some(ProjectLifecycle(record.value, Withdrawn, if detail.Some? then detail else Some(WITHDRAWN_DETAIL), at))
  }

  function RestoreOrRecover(
    s: PerSession, requestId: string, pending: PendingWithdrawal, projected: Option<SubmitRecord>, at: int): Applied
  {
    if s.draftRevision == pending.draftRevision then
      var restored := if projected.None? then None else Some(projected.value.(restoredAt := Some(at)));
      var next := SetWithdrawal(WriteRecord(SetDraft(s, pending.text), restored), None);
      Applied(next, restored, false, RestoredForEditing(pending))
    else
      var next := SetWithdrawal(WriteRecord(s, projected), Some(Recovery(requestId, pending.text, at)));
      Applied(next, projected, false, RetainedForRecovery(pending))
  }

  predicate WasRestored(s: PerSession, requestId: string) {
    var record := Find(s.history, requestId);
    record.Some? && record.value.restoredAt.Some?
  }

  function ResolveWithdrawal(
    s: PerSession, requestId: string, detail: Option<string>, at: int, issued: Option<PendingWithdrawal>): Applied
  {
    var pending := SelectedPending(s, requestId, issued);
    var projected := WithdrawnRecord(s, requestId, detail, at);
    var dequeued := Dequeue(s, requestId);
    if pending.None? || pending.value.requestId != requestId then
      Applied(WriteRecord(dequeued, projected), projected, false, NothingPending)
    else if WasRestored(s, requestId) then
      Applied(SetWithdrawal(WriteRecord(dequeued, projected), None), projected, false, AlreadyRestored(pending.value))
    else RestoreOrRecover(dequeued, requestId, pending.value, projected, at)
  }

  /** An observation other than withdrawn: the record shows it, and all but queued ends the queueing. */
  function ApplyPlain(
    s: PerSession, inFlight: bool, requestId: string, o: Observation, detail: Option<string>, at: int, issuing: bool): Applied
  {
    var record := Find(s.history, requestId);
    var projected := if record.None? then None else Some(ProjectObservation(record.value, o, detail, at));
    var written := WriteRecord(s, projected);
    var next := if o == Server(Queued) then written else ClearSettled(Dequeue(written, requestId), requestId, issuing, inFlight);
    Applied(next, projected, false, NoVerdict)
  }

  function ApplyObservation(
    s: PerSession, inFlight: bool, requestId: string, incoming: Observation, detail: Option<string>, at: int,
    observedVersion: int, issued: Option<PendingWithdrawal>): Applied
  {
    var record := Find(s.history, requestId);
    match SettleObservation(CurrentSnapshot(s, requestId), incoming, observedVersion)
    case Preserve =>
      Applied(if issued.Some? then ClearSettled(s, requestId, true, inFlight) else s, record, true, NoVerdict)
    case Apply(o, reason) =>
      var settledDetail := if reason == PossibleSendJoin then Some(JOIN_DETAIL) else detail;
      if o == Server(Withdrawn) then ResolveWithdrawal(s, requestId, settledDetail, at, issued)
      else ApplyPlain(s, inFlight, requestId, o, settledDetail, at, issued.Some?)
  }

  // ---------------------------------------------------------------- what one observation does

  /** `after` is `before` rewritten to show observation `o`; identity and payload are untouched. */
  predicate Rewritten(before: SubmitRecord, after: SubmitRecord, o: Observation) {
    && after.requestId == before.requestId && after.text == before.text
    && ObservationSnapshot(after) == Some(Snapshot(o, At(before.lifecycleObservationVersion + 1)))
    && (before.lifecycleWatchStartedAt.Some? ==> after.lifecycleWatchStartedAt == before.lifecycleWatchStartedAt)
  }

  lemma ProjectionRewrites(record: SubmitRecord, o: Observation, detail: Option<string>, at: int)
    ensures Rewritten(record, ProjectObservation(record, o, detail, at), o)
  {
  }

  lemma SameHistoryWrites(s: PerSession, t: PerSession, record: Option<SubmitRecord>)
    requires s.history == t.history
    ensures WriteRecord(s, record).history == WriteRecord(t, record).history
  {
  }

  lemma ResolutionHistory(s: PerSession, requestId: string, detail: Option<string>, at: int, issued: Option<PendingWithdrawal>)
    ensures
      var applied := ResolveWithdrawal(s, requestId, detail, at, issued);
      !applied.preserved && applied.session.history == WriteRecord(s, applied.record).history
  {
    var dequeued := Dequeue(s, requestId);
    var applied := ResolveWithdrawal(s, requestId, detail, at, issued);
    SameHistoryWrites(s, dequeued, applied.record);
    var pending := SelectedPending(s, requestId, issued);
    if pending.Some? { SameHistoryWrites(s, SetDraft(dequeued, pending.value.text), applied.record); }
  }

  /** The record a withdrawn verdict writes: the projected one, perhaps stamped as restored. */
  lemma ResolutionRecord(s: PerSession, requestId: string, detail: Option<string>, at: int, issued: Option<PendingWithdrawal>)
    ensures
      var record := ResolveWithdrawal(s, requestId, detail, at, issued).record;
      var projected := WithdrawnRecord(s, requestId, detail, at);
      record == projected || (projected.Some? && record == Some(projected.value.(restoredAt := Some(at))))
  {
  }

  lemma ResolutionWrites(s: PerSession, requestId: string, detail: Option<string>, at: int, issued: Option<PendingWithdrawal>)
    ensures
      var applied := ResolveWithdrawal(s, requestId, detail, at, issued);
      && !applied.preserved
      && applied.session.history == WriteRecord(s, applied.record).history
      && (applied.record.None? <==> Find(s.history, requestId).None?)
      && (applied.record.Some? ==> Rewritten(Find(s.history, requestId).value, applied.record.value, Server(Withdrawn)))
  {
    ResolutionHistory(s, requestId, detail, at, issued);
    ResolutionRecord(s, requestId, detail, at, issued);
    WithdrawnRewrites(s, requestId, detail, at);
  }

  lemma WithdrawnRewrites(s: PerSession, requestId: string, detail: Option<string>, at: int)
    ensures
      var record, projected := Find(s.history, requestId), WithdrawnRecord(s, requestId, detail, at);
      && projected.Some? == record.Some?
      && (projected.Some? ==>
            && Rewritten(record.value, projected.value, Server(Withdrawn))
            && Rewritten(record.value, projected.value.(restoredAt := Some(at)), Server(Withdrawn)))
  {
    var record := Find(s.history, requestId);
    if record.Some? {
      ProjectionRewrites(record.value, Server(Withdrawn), if detail.Some? then detail else Some(WITHDRAWN_DETAIL), at);
    }
  }

  /** What one observation writes to the history: nothing, or the settled projection of its record. */
  lemma ObservationWrites(
    s: PerSession, inFlight: bool, requestId: string, incoming: Observation, detail: Option<string>, at: int,
    observedVersion: int, issued: Option<PendingWithdrawal>)
    ensures
      var applied := ApplyObservation(s, inFlight, requestId, incoming, detail, at, observedVersion, issued);
      var settlement := SettleObservation(CurrentSnapshot(s, requestId), incoming, observedVersion);
      && applied.preserved == settlement.Preserve?
      && (applied.preserved ==> applied.session.history == s.history)
      && (!applied.preserved ==>
            && applied.session.history == WriteRecord(s, applied.record).history
            && (applied.record.None? <==> Find(s.history, requestId).None?)
            && (applied.record.Some? ==>
                  Rewritten(Find(s.history, requestId).value, applied.record.value, settlement.observation)))
  {
    match SettleObservation(CurrentSnapshot(s, requestId), incoming, observedVersion)
    case Preserve =>
    case Apply(o, reason) =>
      var settledDetail := if reason == PossibleSendJoin then Some(JOIN_DETAIL) else detail;
      if o == Server(Withdrawn) {
        ResolutionWrites(s, requestId, settledDetail, at, issued);
      } else if Find(s.history, requestId).Some? {
        ProjectionRewrites(Find(s.history, requestId).value, o, settledDetail, at);
      }
  }

  /** Only the observed request's record is rewritten; any other is untouched or evicted. */
  lemma ObservationFrame(
    s: PerSession, inFlight: bool, requestId: string, incoming: Observation, detail: Option<string>, at: int,
    observedVersion: int, issued: Option<PendingWithdrawal>, id: string)
    requires DistinctIds(s.history)
    ensures
      var applied := ApplyObservation(s, inFlight, requestId, incoming, detail, at, observedVersion, issued);
      && DistinctIds(applied.session.history)
      && (id != requestId ==> Find(applied.session.history, id) in {None, Find(s.history, id)})
      && (applied.preserved ==> applied.session.history == s.history)
      && (!applied.preserved ==> Find(applied.session.history, requestId) in {None, applied.record})
  {
    ObservationWrites(s, inFlight, requestId, incoming, detail, at, observedVersion, issued);
    var applied := ApplyObservation(s, inFlight, requestId, incoming, detail, at, observedVersion, issued);
    if !applied.preserved && applied.record.Some? {
      assert Find(s.history, requestId).value.requestId == requestId;
      UpsertFrame(s.history, applied.record.value, id);
    }
  }

  lemma SettleClimbs(current: Snapshot, incoming: Observation, observedVersion: int)
    ensures
      match SettleObservation(Some(current), incoming, observedVersion)
      case Preserve => true
      case Apply(o, _) =>
        && Below(ObservationEvidence(current.observation), ObservationEvidence(o))
        && (ObservationEvidence(o) == Definitive ==> o == incoming)
  {
  }

  lemma RewriteClimbs(before: SubmitRecord, after: SubmitRecord, incoming: Observation, observedVersion: int, o: Observation, reason: Reason)
    requires SettleObservation(ObservationSnapshot(before), incoming, observedVersion) == Apply(o, reason)
    requires Rewritten(before, after, o)
    ensures Climbs(before, after)
    ensures DefinitiveWord(after) != DefinitiveWord(before) ==> incoming.Server? && DefinitiveWord(after) == Some(incoming.state)
  {
    if ObservationSnapshot(before).Some? {
      SettleClimbs(ObservationSnapshot(before).value, incoming, observedVersion);
    }
  }

  /** Evidence only climbs, and a definitive word can only be displaced by another definitive word. */
  lemma ObservationClimbs(
    s: PerSession, inFlight: bool, requestId: string, incoming: Observation, detail: Option<string>, at: int,
    observedVersion: int, issued: Option<PendingWithdrawal>, id: string)
    requires DistinctIds(s.history)
    ensures
      var before := Find(s.history, id);
      var after := Find(ApplyObservation(s, inFlight, requestId, incoming, detail, at, observedVersion, issued).session.history, id);
      && (before.None? ==> after.None?)
      && (before.Some? && after.Some? ==> Climbs(before.value, after.value))
      && (before.Some? && after.Some? && DefinitiveWord(after.value) != DefinitiveWord(before.value) ==>
            id == requestId && incoming.Server? && DefinitiveWord(after.value) == Some(incoming.state))
  {
    var applied := ApplyObservation(s, inFlight, requestId, incoming, detail, at, observedVersion, issued);
    ObservationFrame(s, inFlight, requestId, incoming, detail, at, observedVersion, issued, id);
    ObservationWrites(s, inFlight, requestId, incoming, detail, at, observedVersion, issued);
    var before := Find(s.history, id);
    if id == requestId && !applied.preserved && before.Some? {
      if RecoveryFor(s, requestId) {
        RecoverySettles(s, requestId, incoming, observedVersion);
      } else {
        var settlement := SettleObservation(CurrentSnapshot(s, requestId), incoming, observedVersion);
        RewriteClimbs(before.value, applied.record.value, incoming, observedVersion, settlement.observation, settlement.reason);
      }
    }
  }

  lemma RecoverySettles(s: PerSession, requestId: string, incoming: Observation, observedVersion: int)
    requires RecoveryFor(s, requestId)
    ensures SettleObservation(CurrentSnapshot(s, requestId), incoming, observedVersion) == Preserve
  {
  }

  /** The record's evidence does not fall from `before` to `after`. */
  predicate Climbs(before: SubmitRecord, after: SubmitRecord) {
    RecordEvidence(before).None? ||
    (RecordEvidence(after).Some? && Below(RecordEvidence(before).value, RecordEvidence(after).value))
  }

  /** The text is held for the user: in the composer, or in the recovery slot of its request. */
  predicate TextHeld(s: PerSession, requestId: string, text: string) {
    s.draft == text || (RecoveryFor(s, requestId) && s.withdrawal.value.text == text)
  }

  /** A withdrawal of this request is selected and its text was not restored before. */
  predicate Unresolved(s: PerSession, requestId: string, issued: Option<PendingWithdrawal>) {
    var pending := SelectedPending(s, requestId, issued);
    pending.Some? && pending.value.requestId == requestId && !WasRestored(s, requestId)
  }

  /**
   An applied withdrawn verdict saves text exactly when an unresolved withdrawal is selected, whether
   or not the history still holds the record: the exact text replaces the draft if and only if the
   composer is still at the captured revision, and otherwise goes to the recovery slot.
   */
  lemma WithdrawnVerdictSavesText(
    s: PerSession, inFlight: bool, requestId: string, detail: Option<string>, at: int, observedVersion: int,
    issued: Option<PendingWithdrawal>)
    requires SettleObservation(CurrentSnapshot(s, requestId), Server(Withdrawn), observedVersion).Apply?
    ensures
      var applied := ApplyObservation(s, inFlight, requestId, Server(Withdrawn), detail, at, observedVersion, issued);
      && (Saves(applied.verdict) <==> Unresolved(s, requestId, issued))
      && (Saves(applied.verdict) ==>
            var p := SelectedPending(s, requestId, issued).value;
            && applied.verdict.request == p
            && TextHeld(applied.session, requestId, p.text)
            && (applied.verdict.RestoredForEditing? <==> s.draftRevision == p.draftRevision))
      && (!applied.verdict.RestoredForEditing? ==> applied.session.draft == s.draft)
  {
    assert SettleObservation(CurrentSnapshot(s, requestId), Server(Withdrawn), observedVersion).observation == Server(Withdrawn);
  }

  predicate Saves(verdict: Verdict) {
    verdict.RestoredForEditing? || verdict.RetainedForRecovery?
  }

  /** Only an automatic restore, made at the captured revision, touches the composer. */
  predicate DraftStep(s: PerSession, requestId: string, issued: Option<PendingWithdrawal>, applied: Applied) {
    if applied.verdict.RestoredForEditing? then
      var p := applied.verdict.request;
      && SelectedPending(s, requestId, issued) == Some(p) && p.requestId == requestId
      && s.draftRevision == p.draftRevision
      && applied.session.draft == p.text && applied.session.draftRevision == s.draftRevision + 1
    else
      applied.session.draft == s.draft && applied.session.draftRevision == s.draftRevision
  }

  lemma ResolutionDraft(s: PerSession, requestId: string, detail: Option<string>, at: int, issued: Option<PendingWithdrawal>)
    ensures DraftStep(s, requestId, issued, ResolveWithdrawal(s, requestId, detail, at, issued))
  {
  }

  lemma PlainDraft(
    s: PerSession, inFlight: bool, requestId: string, o: Observation, detail: Option<string>, at: int, issued: Option<PendingWithdrawal>)
    ensures DraftStep(s, requestId, issued, ApplyPlain(s, inFlight, requestId, o, detail, at, issued.Some?))
  {
  }

  lemma ObservationDraft(
    s: PerSession, inFlight: bool, requestId: string, incoming: Observation, detail: Option<string>, at: int,
    observedVersion: int, issued: Option<PendingWithdrawal>)
    ensures DraftStep(s, requestId, issued,
                      ApplyObservation(s, inFlight, requestId, incoming, detail, at, observedVersion, issued))
  {
    match SettleObservation(CurrentSnapshot(s, requestId), incoming, observedVersion)
    case Preserve =>
    case Apply(o, reason) =>
      if o == Server(Withdrawn) {
        var settledDetail := if reason == PossibleSendJoin then Some(JOIN_DETAIL) else detail;
        ResolutionDraft(s, requestId, settledDetail, at, issued);
      } else {
        PlainDraft(s, inFlight, requestId, o, if reason == PossibleSendJoin then Some(JOIN_DETAIL) else detail, at, issued);
      }
  }

  /** The slot after an observation: emptied, unchanged, or holding the selected withdrawal's text. */
  predicate SlotStep(s: PerSession, requestId: string, at: int, issued: Option<PendingWithdrawal>, applied: Applied) {
    if applied.verdict.RetainedForRecovery? then
      var p := applied.verdict.request;
      && SelectedPending(s, requestId, issued) == Some(p) && p.requestId == requestId
      && applied.session.withdrawal == Some(Recovery(requestId, p.text, at))
    else applied.session.withdrawal in {None, s.withdrawal}
  }

  lemma ResolutionSlot(s: PerSession, requestId: string, detail: Option<string>, at: int, issued: Option<PendingWithdrawal>)
    ensures SlotStep(s, requestId, at, issued, ResolveWithdrawal(s, requestId, detail, at, issued))
  {
  }

  lemma PlainSlot(
    s: PerSession, inFlight: bool, requestId: string, o: Observation, detail: Option<string>, at: int, issued: Option<PendingWithdrawal>)
    ensures SlotStep(s, requestId, at, issued, ApplyPlain(s, inFlight, requestId, o, detail, at, issued.Some?))
  {
  }

  lemma ObservationSlot(
    s: PerSession, inFlight: bool, requestId: string, incoming: Observation, detail: Option<string>, at: int,
    observedVersion: int, issued: Option<PendingWithdrawal>)
    ensures SlotStep(s, requestId, at, issued,
                     ApplyObservation(s, inFlight, requestId, incoming, detail, at, observedVersion, issued))
  {
    match SettleObservation(CurrentSnapshot(s, requestId), incoming, observedVersion)
    case Preserve =>
    case Apply(o, reason) =>
      if o == Server(Withdrawn) {
        ResolutionSlot(s, requestId, if reason == PossibleSendJoin then Some(JOIN_DETAIL) else detail, at, issued);
      } else {
        PlainSlot(s, inFlight, requestId, o, if reason == PossibleSendJoin then Some(JOIN_DETAIL) else detail, at, issued);
      }
  }

  /** The withdrawn word saves the text of an unresolved withdrawal. */
  predicate SavesBy(s: PerSession, requestId: string, incoming: Observation, observedVersion: int, issued: Option<PendingWithdrawal>) {
    && incoming == Server(Withdrawn)
    && SettleObservation(CurrentSnapshot(s, requestId), incoming, observedVersion).Apply?
    && Unresolved(s, requestId, issued)
  }

  /** Exactly when an observation saves text, and exactly when by replacing the draft. */
  lemma ObservationSavesIff(
    s: PerSession, inFlight: bool, requestId: string, incoming: Observation, detail: Option<string>, at: int,
    observedVersion: int, issued: Option<PendingWithdrawal>)
    ensures
      var verdict := ApplyObservation(s, inFlight, requestId, incoming, detail, at, observedVersion, issued).verdict;
      && (Saves(verdict) <==> SavesBy(s, requestId, incoming, observedVersion, issued))
      && (Saves(verdict) ==>
            && Some(verdict.request) == SelectedPending(s, requestId, issued)
            && (verdict.RestoredForEditing? <==> s.draftRevision == verdict.request.draftRevision))
  {
    if incoming == Server(Withdrawn) && SettleObservation(CurrentSnapshot(s, requestId), incoming, observedVersion).Apply? {
      WithdrawnVerdictSavesText(s, inFlight, requestId, detail, at, observedVersion, issued);
    }
  }

  /** A recovery appears exactly when text is saved away from its captured revision. */
  lemma RecoveryAppearsIff(
    s: PerSession, inFlight: bool, requestId: string, incoming: Observation, detail: Option<string>, at: int,
    observedVersion: int, issued: Option<PendingWithdrawal>, id: string)
    requires !RecoveryFor(s, id)
    ensures
      RecoveryFor(ApplyObservation(s, inFlight, requestId, incoming, detail, at, observedVersion, issued).session, id) <==>
      && id == requestId && SavesBy(s, requestId, incoming, observedVersion, issued)
      && s.draftRevision != SelectedPending(s, requestId, issued).value.draftRevision
  {
    ObservationSavesIff(s, inFlight, requestId, incoming, detail, at, observedVersion, issued);
    ObservationSlot(s, inFlight, requestId, incoming, detail, at, observedVersion, issued);
  }

  /** The claim on a pending withdrawal is dropped by the loss or the progress of its request: told to its
      owner, or to anyone while no owner is in flight. */
  predicate Drops(
    s: PerSession, inFlight: bool, requestId: string, incoming: Observation, observedVersion: int, owned: bool)
  {
    match SettleObservation(CurrentSnapshot(s, requestId), incoming, observedVersion)
    case Preserve => owned
    case Apply(o, _) => o !in {Server(Queued), Server(Withdrawn)} && (owned || !inFlight)
  }

  lemma ResolutionKeepsClaim(s: PerSession, requestId: string, detail: Option<string>, at: int, issued: Option<PendingWithdrawal>)
    requires PendingFor(s, requestId)
    ensures
      var applied := ResolveWithdrawal(s, requestId, detail, at, issued);
      && (Saves(applied.verdict) || applied.verdict.AlreadyRestored?)
      && (applied.session.withdrawal.None? <==> !applied.verdict.RetainedForRecovery?)
  {
  }

  lemma PlainDrops(
    s: PerSession, inFlight: bool, requestId: string, o: Observation, detail: Option<string>, at: int, issuing: bool)
    requires PendingFor(s, requestId)
    ensures
      ApplyPlain(s, inFlight, requestId, o, detail, at, issuing).session.withdrawal ==
      if o != Server(Queued) && (issuing || !inFlight) then None else s.withdrawal
  {
  }

  /**
   A pending withdrawal loses its claim without its text being saved, or found restored, exactly when
   the observation drops it; and the slot is emptied exactly by that, by a restore into the draft, or by
   finding the text restored before.
   */
  lemma ClaimDroppedIff(
    s: PerSession, inFlight: bool, requestId: string, incoming: Observation, detail: Option<string>, at: int,
    observedVersion: int, issued: Option<PendingWithdrawal>)
    requires PendingFor(s, requestId)
    ensures
      var applied := ApplyObservation(s, inFlight, requestId, incoming, detail, at, observedVersion, issued);
      var dropped := Drops(s, inFlight, requestId, incoming, observedVersion, issued.Some?);
      && (applied.session.withdrawal.None? && !Saves(applied.verdict) && !applied.verdict.AlreadyRestored? <==> dropped)
      && (applied.session.withdrawal.None? <==> dropped || applied.verdict.RestoredForEditing? || applied.verdict.AlreadyRestored?)
  {
    match SettleObservation(CurrentSnapshot(s, requestId), incoming, observedVersion)
    case Preserve =>
    case Apply(o, reason) =>
      var settledDetail := if reason == PossibleSendJoin then Some(JOIN_DETAIL) else detail;
      if o == Server(Withdrawn) { ResolutionKeepsClaim(s, requestId, settledDetail, at, issued); }
      else { PlainDrops(s, inFlight, requestId, o, settledDetail, at, issued.Some?); }
  }

  // ---------------------------------------------------------------- the queue

  /** Dequeuing keeps exactly the entries of other requests, in their order and number: an entry is kept or
      dropped by itself, and what is kept of a queue is what is kept of its parts. */
  lemma {:induction false} DequeueExact(a: seq<QueuedSubmit>, b: seq<QueuedSubmit>, requestId: string, e: QueuedSubmit)
    ensures WithoutRequest([e], requestId) == if e.requestId == requestId then [] else [e]
    ensures WithoutRequest(a + b, requestId) == WithoutRequest(a, requestId) + WithoutRequest(b, requestId)
  {
    assert WithoutRequest([e], requestId) == (if e.requestId == requestId then [] else [e]) + WithoutRequest([e][1..], requestId);
    if a == [] {
      assert a + b == b;
    } else {
      assert (a + b)[1..] == a[1..] + b;
      DequeueExact(a[1..], b, requestId, e);
    }
  }

  lemma ResolutionQueue(s: PerSession, requestId: string, detail: Option<string>, at: int, issued: Option<PendingWithdrawal>)
    ensures ResolveWithdrawal(s, requestId, detail, at, issued).session.queue == WithoutRequest(s.queue, requestId)
  {
  }

  lemma PlainQueue(
    s: PerSession, inFlight: bool, requestId: string, o: Observation, detail: Option<string>, at: int, issuing: bool)
    ensures ApplyPlain(s, inFlight, requestId, o, detail, at, issuing).session.queue ==
            if o == Server(Queued) then s.queue else WithoutRequest(s.queue, requestId)
  {
  }

  /** An observation takes its request out of the queue exactly when it is applied and settles as anything but
      queued; it never touches another entry. */
  lemma ObservationQueue(
    s: PerSession, inFlight: bool, requestId: string, incoming: Observation, detail: Option<string>, at: int,
    observedVersion: int, issued: Option<PendingWithdrawal>)
    ensures
      var settlement := SettleObservation(CurrentSnapshot(s, requestId), incoming, observedVersion);
      ApplyObservation(s, inFlight, requestId, incoming, detail, at, observedVersion, issued).session.queue ==
      if settlement.Preserve? || settlement.observation == Server(Queued) then s.queue else WithoutRequest(s.queue, requestId)
  {
    match SettleObservation(CurrentSnapshot(s, requestId), incoming, observedVersion)
    case Preserve =>
    case Apply(o, reason) =>
      var settledDetail := if reason == PossibleSendJoin then Some(JOIN_DETAIL) else detail;
      if o == Server(Withdrawn) { ResolutionQueue(s, requestId, settledDetail, at, issued); }
      else { PlainQueue(s, inFlight, requestId, o, settledDetail, at, issued.Some?); }
  }

  /** An automatic restore is final: the record, while retained, says so, and no later verdict saves again. */
  lemma AutomaticRestoreIsFinal(
    s: PerSession, inFlight: bool, requestId: string, incoming: Observation, detail: Option<string>, at: int,
    observedVersion: int, issued: Option<PendingWithdrawal>, later: Option<PendingWithdrawal>)
    requires DistinctIds(s.history)
    ensures
      var applied := ApplyObservation(s, inFlight, requestId, incoming, detail, at, observedVersion, issued);
      applied.verdict.RestoredForEditing? && Find(applied.session.history, requestId).Some? ==>
        WasRestored(applied.session, requestId) && !Unresolved(applied.session, requestId, later)
  {
    var applied := ApplyObservation(s, inFlight, requestId, incoming, detail, at, observedVersion, issued);
    ObservationFrame(s, inFlight, requestId, incoming, detail, at, observedVersion, issued, requestId);
    if applied.verdict.RestoredForEditing? {
      RestoredIsStamped(s, inFlight, requestId, incoming, detail, at, observedVersion, issued);
    }
  }

  lemma RestoredIsStamped(
    s: PerSession, inFlight: bool, requestId: string, incoming: Observation, detail: Option<string>, at: int,
    observedVersion: int, issued: Option<PendingWithdrawal>)
    ensures
      var applied := ApplyObservation(s, inFlight, requestId, incoming, detail, at, observedVersion, issued);
      applied.verdict.RestoredForEditing? ==> !applied.preserved && (applied.record.Some? ==> applied.record.value.restoredAt == Some(at))
  {
  }

  /** A withdrawn verdict that no pending withdrawal asked for touches neither the slot nor the draft. */
  lemma UnselectedVerdict(s: PerSession, requestId: string, detail: Option<string>, at: int, issued: Option<PendingWithdrawal>)
    requires var pending := SelectedPending(s, requestId, issued); pending.None? || pending.value.requestId != requestId
    ensures
      var applied := ResolveWithdrawal(s, requestId, detail, at, issued);
      applied.verdict == NothingPending && applied.session.withdrawal == s.withdrawal && applied.session.draft == s.draft
  {
  }

  lemma PlainKeepsRecovery(
    s: PerSession, inFlight: bool, requestId: string, o: Observation, detail: Option<string>, at: int, issuing: bool)
    requires s.withdrawal.Some? && s.withdrawal.value.Recovery?
    ensures
      var session := ApplyPlain(s, inFlight, requestId, o, detail, at, issuing).session;
      session.withdrawal == s.withdrawal && session.draft == s.draft
  {
  }

  /** A retained recovery outlives every observation that does not own another withdrawal. */
  lemma RecoveryOutlives(
    s: PerSession, inFlight: bool, requestId: string, incoming: Observation, detail: Option<string>, at: int,
    observedVersion: int, issued: Option<PendingWithdrawal>)
    requires s.withdrawal.Some? && s.withdrawal.value.Recovery?
    requires issued.Some? ==> issued.value.requestId == requestId == s.withdrawal.value.requestId
    ensures ApplyObservation(s, inFlight, requestId, incoming, detail, at, observedVersion, issued).session.withdrawal == s.withdrawal
    ensures ApplyObservation(s, inFlight, requestId, incoming, detail, at, observedVersion, issued).session.draft == s.draft
  {
    match SettleObservation(CurrentSnapshot(s, requestId), incoming, observedVersion)
    case Preserve =>
    case Apply(o, reason) =>
      if RecoveryFor(s, requestId) { RecoverySettles(s, requestId, incoming, observedVersion); }
      var settledDetail := if reason == PossibleSendJoin then Some(JOIN_DETAIL) else detail;
      if o == Server(Withdrawn) { UnselectedVerdict(s, requestId, settledDetail, at, issued); }
      else { PlainKeepsRecovery(s, inFlight, requestId, o, settledDetail, at, issued.Some?); }
  }

  // ---------------------------------------------------------------- the poller's sweep

  datatype PollTarget = PollTarget(requestId: string, expectedBridgeEpoch: string)

  function QueueTargets(queue: seq<QueuedSubmit>): (targets: seq<PollTarget>)
    ensures |targets| == |queue|
    ensures forall i :: 0 <= i < |queue| ==> targets[i] == PollTarget(queue[i].requestId, queue[i].expectedBridgeEpoch)
  {
    seq(|queue|, i requires 0 <= i < |queue| => PollTarget(queue[i].requestId, queue[i].expectedBridgeEpoch))
  }

  predicate Targeted(targets: seq<PollTarget>, requestId: string) {
    exists i :: 0 <= i < |targets| && targets[i].requestId == requestId
  }

  /** Targets owed by the queue and by a pending withdrawal, before watched records are appended. */
  function OwedTargets(s: PerSession): seq<PollTarget> {
    var queued := QueueTargets(s.queue);
    if s.withdrawal.Some? && s.withdrawal.value.Pending? && !Targeted(queued, s.withdrawal.value.request.requestId)
    then queued + [PollTarget(s.withdrawal.value.request.requestId, s.withdrawal.value.request.expectedBridgeEpoch)]
    else queued
  }

  /** What the sweep makes of one history record not otherwise polled. */
  function Swept(record: SubmitRecord, owed: seq<PollTarget>, at: int): SubmitRecord {
    if !Targeted(owed, record.requestId) && LifecycleWatchState(record, at) == Expired then EnterEndgame(record, at) else record
  }

  /** The sweep after k records: the swept prefix, the untouched rest. */
  function SweptTo(records: seq<SubmitRecord>, k: nat, owed: seq<PollTarget>, at: int): (swept: seq<SubmitRecord>)
    ensures |swept| == |records|
    ensures forall i :: 0 <= i < |records| ==> swept[i] == if i < k then Swept(records[i], owed, at) else records[i]
  {
    seq(|records|, i requires 0 <= i < |records| => if i < k then Swept(records[i], owed, at) else records[i])
  }

  function SweptAll(records: seq<SubmitRecord>, owed: seq<PollTarget>, at: int): seq<SubmitRecord> {
    SweptTo(records, |records|, owed, at)
  }

  /** The watched records among the first k that a pass polls besides the owed targets. */
  function WatchedTargets(records: seq<SubmitRecord>, k: nat, owed: seq<PollTarget>, at: int): seq<PollTarget>
    requires k <= |records|
  {
    if k == 0 then []
    else
      var r := records[k - 1];
      WatchedTargets(records, k - 1, owed, at) +
      (if !Targeted(owed, r.requestId) && LifecycleWatchState(r, at) == Active
       then [PollTarget(r.requestId, r.expectedBridgeEpoch)] else [])
  }

  lemma {:induction false} WatchedAreRecords(records: seq<SubmitRecord>, k: nat, owed: seq<PollTarget>, at: int, j: nat)
    requires k <= |records| && j < |WatchedTargets(records, k, owed, at)|
    ensures exists i :: 0 <= i < k && records[i].requestId == WatchedTargets(records, k, owed, at)[j].requestId
  {
    if k > 0 {
      if j < |WatchedTargets(records, k - 1, owed, at)| {
        WatchedAreRecords(records, k - 1, owed, at, j);
      } else {
        assert records[k - 1].requestId == WatchedTargets(records, k, owed, at)[j].requestId;
      }
    }
  }

  lemma SweepTargeting(records: seq<SubmitRecord>, k: nat, owed: seq<PollTarget>, at: int)
    requires k < |records| && DistinctIds(records)
    ensures Targeted(owed + WatchedTargets(records, k, owed, at), records[k].requestId) <==> Targeted(owed, records[k].requestId)
  {
    var watched := WatchedTargets(records, k, owed, at);
    var targets := owed + watched;
    if j :| 0 <= j < |targets| && targets[j].requestId == records[k].requestId {
      if j < |owed| { assert owed[j] == targets[j]; } else { WatchedAreRecords(records, k, owed, at, j - |owed|); }
    }
    if j :| 0 <= j < |owed| && owed[j].requestId == records[k].requestId {
      assert targets[j] == owed[j];
    }
  }

  lemma SweepStep(records: seq<SubmitRecord>, k: nat, owed: seq<PollTarget>, at: int)
    requires k < |records|
    ensures SweptTo(records, k + 1, owed, at) == SweptTo(records, k, owed, at)[k := Swept(records[k], owed, at)]
    ensures Swept(records[k], owed, at) == records[k] ==> SweptTo(records, k + 1, owed, at) == SweptTo(records, k, owed, at)
  {
  }

  /** Settling one expired record is one protected rewrite of the partly swept history. */
  lemma ExpiredRewrite(records: seq<SubmitRecord>, k: nat, owed: seq<PollTarget>, at: int)
    requires k < |records| && Retentive(SweptTo(records, k, owed, at))
    requires LifecycleWatchState(records[k], at) == Expired && !Targeted(owed, records[k].requestId)
    ensures Upsert(SweptTo(records, k, owed, at), EnterEndgame(records[k], at)) == SweptTo(records, k + 1, owed, at)
    ensures Retentive(SweptTo(records, k + 1, owed, at))
  {
    SweepStep(records, k, owed, at);
    RewriteProtected(SweptTo(records, k, owed, at), k, EnterEndgame(records[k], at));
  }

  /** Every partial sweep keeps the history retentive, and keeps each record's evidence. */
  lemma {:induction false} SweepRetentive(records: seq<SubmitRecord>, k: nat, owed: seq<PollTarget>, at: int)
    requires Retentive(records) && k <= |records|
    ensures Retentive(SweptTo(records, k, owed, at))
  {
    if k == 0 {
      assert SweptTo(records, 0, owed, at) == records;
    } else {
      var j: nat := k - 1;
      SweepRetentive(records, j, owed, at);
      if LifecycleWatchState(records[j], at) == Expired && !Targeted(owed, records[j].requestId) {
        ExpiredRewrite(records, j, owed, at);
      } else {
        SweepStep(records, j, owed, at);
      }
    }
  }

  /** What the visit of one record adds to the targets and does to the history. */
  lemma SweepVisit(records: seq<SubmitRecord>, k: nat, owed: seq<PollTarget>, at: int)
    requires k < |records| && DistinctIds(records)
    ensures Targeted(owed + WatchedTargets(records, k, owed, at), records[k].requestId) <==> Targeted(owed, records[k].requestId)
    ensures
      var polled := !Targeted(owed, records[k].requestId) && LifecycleWatchState(records[k], at) == Active;
      owed + WatchedTargets(records, k + 1, owed, at) ==
      (owed + WatchedTargets(records, k, owed, at)) + (if polled then [PollTarget(records[k].requestId, records[k].expectedBridgeEpoch)] else [])
    ensures Targeted(owed, records[k].requestId) || LifecycleWatchState(records[k], at) != Expired ==>
              SweptTo(records, k + 1, owed, at) == SweptTo(records, k, owed, at)
  {
    SweepTargeting(records, k, owed, at);
    SweepStep(records, k, owed, at);
  }

  lemma SweepFind(records: seq<SubmitRecord>, owed: seq<PollTarget>, at: int, id: string)
    ensures
      var before, after := Find(records, id), Find(SweptAll(records, owed, at), id);
      && (before.None? <==> after.None?)
      && (before.Some? ==> after.value == Swept(before.value, owed, at))
  {
    var swept := SweptAll(records, owed, at);
    assert forall i :: 0 <= i < |records| ==> swept[i].requestId == records[i].requestId;
    assert IndexOf(swept, id) == IndexOf(records, id);
  }

  /** Ids still owed a poll after a pass; the pass returns their number. */
  function Remaining(s: PerSession, at: int): set<string> {
    (set e | e in s.queue :: e.requestId) +
    (if s.withdrawal.Some? && s.withdrawal.value.Pending? then {s.withdrawal.value.request.requestId} else {}) +
    (set r | r in s.history && LifecycleWatchState(r, at) == Active :: r.requestId)
  }

  /** Nothing but expired or settled records is left to poll. */
  predicate Quiet(s: PerSession, at: int) {
    && s.queue == []
    && (s.withdrawal.Some? ==> s.withdrawal.value.Recovery?)
    && (forall r :: r in s.history ==> LifecycleWatchState(r, at) != Active)
  }

  lemma SweptIsDone(record: SubmitRecord, at: int)
    requires LifecycleWatchState(record, at) != Active
    ensures Swept(record, [], at) == (if LifecycleWatchState(record, at) == Expired then EnterEndgame(record, at) else record)
    ensures forall later :: LifecycleWatchState(Swept(record, [], at), later) == Inactive
  {
  }

  /** A quiet sweep moves exactly the expired records to the endgame, and no watch is left. */
  lemma QuietSweep(records: seq<SubmitRecord>, at: int, i: nat)
    requires i < |records| && LifecycleWatchState(records[i], at) != Active
    ensures SweptAll(records, [], at)[i] ==
            (if LifecycleWatchState(records[i], at) == Expired then EnterEndgame(records[i], at) else records[i])
    ensures forall later :: LifecycleWatchState(SweptAll(records, [], at)[i], later) == Inactive
  {
    SweptIsDone(records[i], at);
    assert SweptAll(records, [], at)[i] == Swept(records[i], [], at);
  }

  /**
   Once quiet, a pass has no target and, after its sweep, owes nothing more at any time: it returns
   0 and the poller retires.
   */
  lemma QuietPollerRetires(s: PerSession, at: int, later: int)
    requires Quiet(s, at)
    ensures OwedTargets(s) == [] && WatchedTargets(s.history, |s.history|, [], at) == []
    ensures Remaining(s.(history := SweptAll(s.history, [], at)), later) == {}
  {
    NothingWatched(s.history, |s.history|, at);
    forall r | r in SweptAll(s.history, [], at) ensures LifecycleWatchState(r, later) == Inactive {
      var i :| 0 <= i < |s.history| && SweptAll(s.history, [], at)[i] == r;
      assert s.history[i] in s.history;
      QuietSweep(s.history, at, i);
    }
  }

  lemma {:induction false} NothingWatched(records: seq<SubmitRecord>, k: nat, at: int)
    requires k <= |records|
    requires forall r :: r in records ==> LifecycleWatchState(r, at) != Active
    ensures WatchedTargets(records, k, [], at) == []
  {
    if k > 0 { NothingWatched(records, k - 1, at); }
  }

  // ---------------------------------------------------------------- the client, step by step

  // ---------------------------------------------------------------- who is polled

  /** The request is owed a poll: it is queued, its withdrawal is pending, or its watch is active. */
  ghost predicate Owed(s: PerSession, requestId: string, at: int) {
    || (exists e :: e in s.queue && e.requestId == requestId)
    || PendingFor(s, requestId)
    || (exists r :: r in s.history && r.requestId == requestId && LifecycleWatchState(r, at) == Active)
  }

  function PassTargets(s: PerSession, at: int): seq<PollTarget> {
    OwedTargets(s) + WatchedTargets(s.history, |s.history|, OwedTargets(s), at)
  }

  lemma TargetedAppend(a: seq<PollTarget>, b: seq<PollTarget>, id: string)
    ensures Targeted(a + b, id) <==> Targeted(a, id) || Targeted(b, id)
  {
    if i :| 0 <= i < |a| && a[i].requestId == id { assert (a + b)[i].requestId == id; }
    if i :| 0 <= i < |b| && b[i].requestId == id { assert (a + b)[|a| + i].requestId == id; }
    if i :| 0 <= i < |a + b| && (a + b)[i].requestId == id {
      if i < |a| { assert a[i].requestId == id; } else { assert b[i - |a|].requestId == id; }
    }
  }

  lemma QueueTargeted(queue: seq<QueuedSubmit>, id: string)
    ensures Targeted(QueueTargets(queue), id) <==> exists e :: e in queue && e.requestId == id
  {
    if i :| 0 <= i < |queue| && QueueTargets(queue)[i].requestId == id { assert queue[i] in queue; }
    if e :| e in queue && e.requestId == id {
      var i :| 0 <= i < |queue| && queue[i] == e;
      assert QueueTargets(queue)[i].requestId == id;
    }
  }

  lemma OneTargeted(t: PollTarget, id: string)
    ensures Targeted([t], id) <==> t.requestId == id
  {
    if t.requestId == id { assert [t][0].requestId == id; }
  }

  lemma {:induction false} WatchedTargeted(records: seq<SubmitRecord>, k: nat, owed: seq<PollTarget>, at: int, id: string)
    requires k <= |records|
    ensures Targeted(WatchedTargets(records, k, owed, at), id) <==>
            !Targeted(owed, id) && exists i :: 0 <= i < k && records[i].requestId == id && LifecycleWatchState(records[i], at) == Active
  {
    if k > 0 {
      var r := records[k - 1];
      var one := if !Targeted(owed, r.requestId) && LifecycleWatchState(r, at) == Active then [PollTarget(r.requestId, r.expectedBridgeEpoch)] else [];
      WatchedTargeted(records, k - 1, owed, at, id);
      TargetedAppend(WatchedTargets(records, k - 1, owed, at), one, id);
      OneTargeted(PollTarget(r.requestId, r.expectedBridgeEpoch), id);
      if i :| 0 <= i < k && records[i].requestId == id && LifecycleWatchState(records[i], at) == Active { assert i < k - 1 || i == k - 1; }
    }
  }

  lemma OwedTargeted(s: PerSession, id: string)
    ensures Targeted(OwedTargets(s), id) <==> PendingFor(s, id) || exists e :: e in s.queue && e.requestId == id
  {
    QueueTargeted(s.queue, id);
    if s.withdrawal.Some? && s.withdrawal.value.Pending? {
      var p := PollTarget(s.withdrawal.value.request.requestId, s.withdrawal.value.request.expectedBridgeEpoch);
      QueueTargeted(s.queue, p.requestId);
      TargetedAppend(QueueTargets(s.queue), [p], id);
      OneTargeted(p, id);
    }
  }

  lemma HistoryActive(records: seq<SubmitRecord>, at: int, id: string)
    ensures (exists i :: 0 <= i < |records| && records[i].requestId == id && LifecycleWatchState(records[i], at) == Active) <==>
            exists r :: r in records && r.requestId == id && LifecycleWatchState(r, at) == Active
  {
    if r :| r in records && r.requestId == id && LifecycleWatchState(r, at) == Active {
      var i :| 0 <= i < |records| && records[i] == r;
    }
    if i :| 0 <= i < |records| && records[i].requestId == id && LifecycleWatchState(records[i], at) == Active {
      assert records[i] in records;
    }
  }

  /** A pass asks for exactly the requests that are owed a poll. */
  lemma PollTargetsIff(s: PerSession, at: int, id: string)
    ensures Targeted(PassTargets(s, at), id) <==> Owed(s, id, at)
  {
    OwedTargeted(s, id);
    WatchedTargeted(s.history, |s.history|, OwedTargets(s), at, id);
    TargetedAppend(OwedTargets(s), WatchedTargets(s.history, |s.history|, OwedTargets(s), at), id);
    HistoryActive(s.history, at, id);
  }

  lemma {:induction false} WatchedEpochs(records: seq<SubmitRecord>, k: nat, owed: seq<PollTarget>, at: int, t: PollTarget)
    requires k <= |records| && t in WatchedTargets(records, k, owed, at)
    ensures exists r :: r in records && t == PollTarget(r.requestId, r.expectedBridgeEpoch)
  {
    if t in WatchedTargets(records, k - 1, owed, at) { WatchedEpochs(records, k - 1, owed, at, t); }
    else { assert records[k - 1] in records; }
  }

  /** Each request is asked for under the authority it was made with: that of its queue entry, its pending
      withdrawal, or its record. */
  lemma TargetsCarryEpochs(s: PerSession, at: int, t: PollTarget)
    requires t in PassTargets(s, at)
    ensures
      || (exists e :: e in s.queue && t == PollTarget(e.requestId, e.expectedBridgeEpoch))
      || (s.withdrawal.Some? && s.withdrawal.value.Pending?
          && t == PollTarget(s.withdrawal.value.request.requestId, s.withdrawal.value.request.expectedBridgeEpoch))
      || (exists r :: r in s.history && t == PollTarget(r.requestId, r.expectedBridgeEpoch))
  {
    if t in QueueTargets(s.queue) {
      var i :| 0 <= i < |s.queue| && QueueTargets(s.queue)[i] == t;
      assert s.queue[i] in s.queue;
    } else if t !in OwedTargets(s) {
      WatchedEpochs(s.history, |s.history|, OwedTargets(s), at, t);
    }
  }

  /** And it counts exactly those as remaining, so it returns 0 if and only if nothing is owed. */
  lemma RemainingIff(s: PerSession, at: int)
    ensures forall id :: id in Remaining(s, at) <==> Owed(s, id, at)
    ensures |Remaining(s, at)| == 0 <==> forall id :: !Owed(s, id, at)
  {
    forall id ensures id in Remaining(s, at) <==> Owed(s, id, at) {
    }
    if |Remaining(s, at)| == 0 { assert Remaining(s, at) == {}; }
    if forall id :: !Owed(s, id, at) { assert Remaining(s, at) == {}; }
  }

  lemma IdleIff(s: PerSession, at: int)
    ensures PassTargets(s, at) == [] <==> forall id :: !Owed(s, id, at)
  {
    if PassTargets(s, at) != [] {
      var id := PassTargets(s, at)[0].requestId;
      assert Targeted(PassTargets(s, at), id);
      PollTargetsIff(s, at, id);
    } else {
      forall id ensures !Owed(s, id, at) { PollTargetsIff(s, at, id); }
    }
  }

  /**
   A message that may be on its way is never forgotten: for 120 s after its first dispatching or unknown word,
   while the further words leave its outcome open, every pass asks for it and returns at least 1; and the
   first pass after that puts it into the endgame.
   */
  lemma DispatchedIsPolled(
    s: PerSession, i: nat, record: SubmitRecord, state: ServerState, detail: Option<string>, t0: int, words: seq<Arrival>, at: int)
    requires record.lifecycleWatchStartedAt.None? && (state == Dispatching || state == Unknown)
    requires forall a :: a in words ==> OutcomeOpen(a)
    requires i < |s.history| && s.history[i] == Fold(ProjectLifecycle(record, state, detail, t0), words)
    ensures at <= t0 + LIFECYCLE_WATCH_WINDOW_MS ==>
              Targeted(PassTargets(s, at), s.history[i].requestId) && |Remaining(s, at)| >= 1
    ensures at > t0 + LIFECYCLE_WATCH_WINDOW_MS && !Targeted(OwedTargets(s), s.history[i].requestId) ==>
              SweptAll(s.history, OwedTargets(s), at)[i].phase == Endgame
  {
    WatchLasts(record, state, detail, t0, words, at);
    var id := s.history[i].requestId;
    if at <= t0 + LIFECYCLE_WATCH_WINDOW_MS {
      assert s.history[i] in s.history;
      assert Owed(s, id, at);
      PollTargetsIff(s, at, id);
      RemainingIff(s, at);
    }
  }

  /** One entry of a status page: what was observed of a request, and the version read before the await. */
  datatype Report = Report(requestId: string, observation: Observation, detail: Option<string>, observedVersion: int)

  /** The session after the entries of the pages, in order. */
  function Reported(s: PerSession, inFlight: bool, at: int, reports: seq<Report>): PerSession {
    if reports == [] then s
    else
      var last := reports[|reports| - 1];
      ApplyObservation(Reported(s, inFlight, at, reports[..|reports| - 1]), inFlight, last.requestId, last.observation,
                       last.detail, at, last.observedVersion, None).session
  }

  class LifecycleClient {
    const store: SessionCockpitStore
    /** Sessions with an issued withdrawal still on the wire. */
    var withdrawalsInFlight: set<string>

    constructor (store: SessionCockpitStore)
      ensures this.store == store && withdrawalsInFlight == {}
    {
      this.store := store;
      withdrawalsInFlight := {};
    }

    method ClearSettledWithdrawal(id: string, requestId: string, withdrawalOwner: bool)
      modifies store
      ensures SessionOf(store.perSession, id) ==
              ClearSettled(SessionOf(old(store.perSession), id), requestId, withdrawalOwner, id in withdrawalsInFlight)
      ensures store.perSession - {id} == old(store.perSession) - {id}
    {
      var current := SessionOf(store.perSession, id);
      if !PendingFor(current, requestId) { return; }
      if !withdrawalOwner && id in withdrawalsInFlight { return; }
      store.PutWithdrawal(id, None);
    }

    method RestoreOrRecoverWithdrawal(
      id: string, requestId: string, pending: PendingWithdrawal, projected: Option<SubmitRecord>, at: int)
      returns (applied: Applied)
      modifies store
      ensures applied == RestoreOrRecover(SessionOf(old(store.perSession), id), requestId, pending, projected, at)
      ensures SessionOf(store.perSession, id) == applied.session
      ensures store.perSession - {id} == old(store.perSession) - {id}
    {
      var currentRevision := SessionOf(store.perSession, id).draftRevision;
      if currentRevision == pending.draftRevision {
        var replaced := store.ReplaceComposerDraftIfRevision(id, pending.draftRevision, pending.text);
        if replaced {
          var restored := if projected.None? then None else Some(projected.value.(restoredAt := Some(at)));
          if restored.Some? { store.UpsertSubmitRecord(id, restored.value); }
          store.PutWithdrawal(id, None);
          return Applied(SessionOf(store.perSession, id), restored, false, RestoredForEditing(pending));
        }
      }
      if projected.Some? { store.UpsertSubmitRecord(id, projected.value); }
      store.PutWithdrawal(id, Some(Recovery(requestId, pending.text, at)));
      applied := Applied(SessionOf(store.perSession, id), projected, false, RetainedForRecovery(pending));
    }

    method ResolveAuthoritativeWithdrawal(
      id: string, requestId: string, detail: Option<string>, at: int, issued: Option<PendingWithdrawal>)
      returns (applied: Applied)
      modifies store
      ensures applied == ResolveWithdrawal(SessionOf(old(store.perSession), id), requestId, detail, at, issued)
      ensures SessionOf(store.perSession, id) == applied.session
      ensures store.perSession - {id} == old(store.perSession) - {id}
    {
      var cockpit := SessionOf(store.perSession, id);
      var pending := SelectedPending(cockpit, requestId, issued);
      var projected := WithdrawnRecord(cockpit, requestId, detail, at);
      store.DequeueSubmit(id, requestId);
      if pending.None? || pending.value.requestId != requestId {
        if projected.Some? { store.UpsertSubmitRecord(id, projected.value); }
        return Applied(SessionOf(store.perSession, id), projected, false, NothingPending);
      }
      if WasRestored(cockpit, requestId) {
        if projected.Some? { store.UpsertSubmitRecord(id, projected.value); }
        store.PutWithdrawal(id, None);
        return Applied(SessionOf(store.perSession, id), projected, false, AlreadyRestored(pending.value));
      }
      applied := RestoreOrRecoverWithdrawal(id, requestId, pending.value, projected, at);
    }

    /** The tail of applyLifecycleObservation, for an observation other than withdrawn. */
    method WriteObservation(id: string, requestId: string, o: Observation, detail: Option<string>, at: int, issuing: bool)
      returns (applied: Applied)
      modifies store
      ensures applied == ApplyPlain(SessionOf(old(store.perSession), id), id in withdrawalsInFlight, requestId, o, detail, at, issuing)
      ensures SessionOf(store.perSession, id) == applied.session
      ensures store.perSession - {id} == old(store.perSession) - {id}
    {
      var record := Find(SessionOf(store.perSession, id).history, requestId);
      var projected := None;
      if record.Some? {
        projected := Some(ProjectObservation(record.value, o, detail, at));
        store.UpsertSubmitRecord(id, projected.value);
      }
      if o != Server(Queued) {
        store.DequeueSubmit(id, requestId);
        ClearSettledWithdrawal(id, requestId, issuing);
      }
      applied := Applied(SessionOf(store.perSession, id), projected, false, NoVerdict);
    }

    method ApplyLifecycleObservation(
      id: string, requestId: string, incoming: Observation, detail: Option<string>, at: int, observedVersion: int,
      issued: Option<PendingWithdrawal>)
      returns (applied: Applied)
      modifies store
      ensures applied == ApplyObservation(SessionOf(old(store.perSession), id), id in withdrawalsInFlight, requestId,
                                          incoming, detail, at, observedVersion, issued)
      ensures SessionOf(store.perSession, id) == applied.session
      ensures store.perSession - {id} == old(store.perSession) - {id}
    {
      var cockpit := SessionOf(store.perSession, id);
      var record := Find(cockpit.history, requestId);
      var settlement := SettleObservation(CurrentSnapshot(cockpit, requestId), incoming, observedVersion);
      if settlement.Preserve? {
        if issued.Some? { ClearSettledWithdrawal(id, requestId, true); }
        return Applied(SessionOf(store.perSession, id), record, true, NoVerdict);
      }
      var o := settlement.observation;
      var settledDetail := if settlement.reason == PossibleSendJoin then Some(JOIN_DETAIL) else detail;
      if o == Server(Withdrawn) {
        applied := ResolveAuthoritativeWithdrawal(id, requestId, settledDetail, at, issued);
        return;
      }
      applied := WriteObservation(id, requestId, o, settledDetail, at, issued.Some?);
    }

    /** The expired arm of appendWatchedTargets: settle one record to the endgame. */
    method SettleExpired(id: string, cockpit: PerSession, k: nat, owed: seq<PollTarget>, at: int)
      requires k < |cockpit.history| && DistinctIds(cockpit.history)
      requires SessionOf(store.perSession, id) == cockpit.(history := SweptTo(cockpit.history, k, owed, at))
      requires Retentive(SweptTo(cockpit.history, k, owed, at))
      requires LifecycleWatchState(cockpit.history[k], at) == Expired && !Targeted(owed, cockpit.history[k].requestId)
      modifies store
      ensures SessionOf(store.perSession, id) == cockpit.(history := SweptTo(cockpit.history, k + 1, owed, at))
      ensures Retentive(SweptTo(cockpit.history, k + 1, owed, at))
      ensures store.perSession - {id} == old(store.perSession) - {id}
    {
      ExpiredRewrite(cockpit.history, k, owed, at);
      store.UpsertSubmitRecord(id, EnterEndgame(cockpit.history[k], at));
    }

    /** The loop body of appendWatchedTargets: one record of the history as the pass first read it. */
    method VisitRecord(id: string, cockpit: PerSession, k: nat, owed: seq<PollTarget>, targets: seq<PollTarget>, at: int)
      returns (next: seq<PollTarget>)
      requires k < |cockpit.history| && DistinctIds(cockpit.history)
      requires targets == owed + WatchedTargets(cockpit.history, k, owed, at)
      requires SessionOf(store.perSession, id) == cockpit.(history := SweptTo(cockpit.history, k, owed, at))
      requires Retentive(SweptTo(cockpit.history, k, owed, at))
      modifies store
      ensures next == owed + WatchedTargets(cockpit.history, k + 1, owed, at)
      ensures SessionOf(store.perSession, id) == cockpit.(history := SweptTo(cockpit.history, k + 1, owed, at))
      ensures Retentive(SweptTo(cockpit.history, k + 1, owed, at))
      ensures store.perSession - {id} == old(store.perSession) - {id}
    {
      var record := cockpit.history[k];
      next := targets;
      SweepVisit(cockpit.history, k, owed, at);
      if Targeted(targets, record.requestId) { return; }
      var watch := LifecycleWatchState(record, at);
      if watch == Inactive { return; }
      if watch == Expired {
        SettleExpired(id, cockpit, k, owed, at);
        return;
      }
      next := targets + [PollTarget(record.requestId, record.expectedBridgeEpoch)];
    }

    /** One pass of lifecyclePollTargets: collect the targets, settling expired watches to the endgame. */
    method LifecyclePollTargets(id: string, at: int) returns (targets: seq<PollTarget>)
      requires Retentive(SessionOf(store.perSession, id).history)
      modifies store
      ensures
        var s := SessionOf(old(store.perSession), id);
        && targets == OwedTargets(s) + WatchedTargets(s.history, |s.history|, OwedTargets(s), at)
        && SessionOf(store.perSession, id) == s.(history := SweptAll(s.history, OwedTargets(s), at))
      ensures Retentive(SessionOf(store.perSession, id).history)
      ensures store.perSession - {id} == old(store.perSession) - {id}
    {
      var cockpit := SessionOf(store.perSession, id);
      var owed := OwedTargets(cockpit);
      targets := owed;
      var k := 0;
      assert SweptTo(cockpit.history, 0, owed, at) == cockpit.history;
      while k < |cockpit.history|
        invariant 0 <= k <= |cockpit.history|
        invariant targets == owed + WatchedTargets(cockpit.history, k, owed, at)
        invariant SessionOf(store.perSession, id) == cockpit.(history := SweptTo(cockpit.history, k, owed, at))
        invariant Retentive(SweptTo(cockpit.history, k, owed, at))
        invariant store.perSession - {id} == old(store.perSession) - {id}
      {
        targets := VisitRecord(id, cockpit, k, owed, targets, at);
        k := k + 1;
      }
    }

    /** remainingPollTargets: the number of requests still owed a poll. */
    method RemainingPollTargets(id: string, at: int) returns (n: nat)
      ensures n == |Remaining(SessionOf(store.perSession, id), at)|
    {
      var current := SessionOf(store.perSession, id);
      var queued := set e | e in current.queue :: e.requestId;
      var remaining := queued;
      if current.withdrawal.Some? && current.withdrawal.value.Pending? {
        remaining := remaining + {current.withdrawal.value.request.requestId};
      }
      ghost var start := remaining;
      for k := 0 to |current.history|
        invariant remaining == start + set r | r in current.history[..k] && LifecycleWatchState(r, at) == Active :: r.requestId
      {
        assert current.history[..k + 1] == current.history[..k] + [current.history[k]];
        if LifecycleWatchState(current.history[k], at) == Active {
          remaining := remaining + {current.history[k].requestId};
        }
      }
      assert current.history[..|current.history|] == current.history;
      n := |remaining|;
    }

    /** applyStatusPage, page after page. */
    method ApplyReports(id: string, at: int, reports: seq<Report>)
      modifies store
      ensures SessionOf(store.perSession, id) == Reported(SessionOf(old(store.perSession), id), id in withdrawalsInFlight, at, reports)
      ensures store.perSession - {id} == old(store.perSession) - {id}
    {
      for k := 0 to |reports|
        invariant SessionOf(store.perSession, id) == Reported(SessionOf(old(store.perSession), id), id in withdrawalsInFlight, at, reports[..k])
        invariant store.perSession - {id} == old(store.perSession) - {id}
      {
        var report := reports[k];
        assert reports[..k + 1][..k] == reports[..k];
        var _ := ApplyLifecycleObservation(id, report.requestId, report.observation, report.detail, at, report.observedVersion, None);
      }
      assert reports[..|reports|] == reports;
    }

    /**
     pollSubmissionLifecycleOnce: settle and collect, apply what the status pages report, count what is
     left. Without targets no page is asked for, so a pass over a quiet session returns 0.
     */
    method PollSubmissionLifecycleOnce(id: string, at: int, reports: seq<Report>) returns (remaining: nat)
      requires Retentive(SessionOf(store.perSession, id).history)
      modifies store
      ensures
        var s := SessionOf(old(store.perSession), id);
        var swept := s.(history := SweptAll(s.history, OwedTargets(s), at));
        var idle := PassTargets(s, at) == [];
        SessionOf(store.perSession, id) == if idle then swept else Reported(swept, id in withdrawalsInFlight, at, reports)
      ensures remaining == |Remaining(SessionOf(store.perSession, id), at)|
      ensures remaining == 0 <==> forall requestId :: !Owed(SessionOf(store.perSession, id), requestId, at)
      ensures Quiet(SessionOf(old(store.perSession), id), at) ==> remaining == 0
      ensures store.perSession - {id} == old(store.perSession) - {id}
    {
      ghost var s := SessionOf(store.perSession, id);
      if Quiet(s, at) { QuietPollerRetires(s, at, at); }
      var targets := LifecyclePollTargets(id, at);
      if targets != [] { ApplyReports(id, at, reports); }
      remaining := RemainingPollTargets(id, at);
      RemainingIff(SessionOf(store.perSession, id), at);
    }
  }
}
