/**
 The withdrawal transaction (dashboard/src/data/submissionWithdrawal.ts).

 withdrawLastQueued is an asynchronous function. Its states are the points where it awaits the
 network, and one turn is the code between two awaits, driven by the reply that arrives. The owner
 stays in flight until its promise has settled.
 */
module SubmissionWithdrawal {
  import opened Prelude
  import opened SubmitMachine
  import opened SubmitRetention
  import opened SessionCockpit
  import opened SubmissionLifecycle

  datatype WithdrawResult =
    | WithdrawnResult(detail: Option<string>)
    | NotWithdrawable(state: Option<ServerState>, detail: Option<string>)
    | NotRetained

  datatype Lookup = Found(state: ServerState, detail: Option<string>) | NotFoundLookup

  /** What an awaited request comes to: a parsed body, an epoch mismatch, or any other failure. */
  datatype Reply = WithdrawReply(result: WithdrawResult) | StatusReply(lookup: Lookup) | EpochMismatch(detail: string) | Lost

  datatype Owner =
    | Idle
    | AwaitWithdraw(target: PendingWithdrawal, observedVersion: int)
    | AwaitStatus(target: PendingWithdrawal, observedVersion: int)
    | AwaitRetry(target: PendingWithdrawal, observedVersion: int)
    | Returning(target: PendingWithdrawal)

  datatype Turn = Turn(session: PerSession, owner: Owner, verdict: Verdict)

  const NOT_RETAINED := "submission is not retained by this authority; withdrawal is unavailable and the draft was not restored"

  const LOST_AFTER_WITHDRAW :=
    "withdraw response was lost and the request is not retained; withdrawal is unavailable and the draft was not restored"

  const DISMISSED_DETAIL := "withdrawn before dispatch \U{00B7} current draft kept; withdrawn text dismissed"

  /** The withdrawal to issue: the stored pending one, else the newest queue entry. */
  function WithdrawalTarget(s: PerSession, at: int): Option<PendingWithdrawal> {
    if s.withdrawal.Some? && s.withdrawal.value.Recovery? then None
    else if s.withdrawal.Some? then Some(s.withdrawal.value.request)
    else if s.queue == [] then None
    else
      var entry := s.queue[|s.queue| - 1];
      Some(PendingWithdrawal(entry.requestId, entry.text, entry.expectedBridgeEpoch, s.draftRevision, at))
  }

  /** withdrawLastQueuedSubmission: a second call while one is in flight joins it. */
  function Issue(s: PerSession, owner: Owner, at: int): Turn {
    var target := WithdrawalTarget(s, at);
    if owner != Idle || target.None? then Turn(s, owner, NoVerdict)
    else
      var next := SetWithdrawal(s, Some(Pending(target.value)));
      Turn(next, AwaitWithdraw(target.value, ObservationVersion(next, target.value.requestId)), NoVerdict)
  }

  /** An observation made on behalf of the issued withdrawal. */
  function Owned(s: PerSession, target: PendingWithdrawal, o: Observation, detail: Option<string>, at: int, observedVersion: int): Turn {
    var applied := ApplyObservation(s, true, target.requestId, o, detail, at, observedVersion, Some(target));
    Turn(applied.session, Returning(target), applied.verdict)
  }

  function OwnedResult(s: PerSession, target: PendingWithdrawal, result: WithdrawResult, at: int, observedVersion: int): Turn {
    match result
    case WithdrawnResult(detail) => Owned(s, target, Server(Withdrawn), detail, at, observedVersion)
    case NotWithdrawable(state, detail) =>
      if state.Some? then Owned(s, target, Server(state.value), detail, at, observedVersion)
      else Turn(s, Returning(target), NoVerdict)
    case NotRetained => Owned(s, target, NotFound, Some(NOT_RETAINED), at, observedVersion)
  }

  /** The reply is one the current await can produce. */
  predicate Expects(owner: Owner, reply: Reply) {
    match owner
    case AwaitWithdraw(_, _) => !reply.StatusReply?
    case AwaitRetry(_, _) => !reply.StatusReply?
    case AwaitStatus(_, _) => !reply.WithdrawReply?
    case _ => false
  }

  function OwnerTurn(s: PerSession, owner: Owner, reply: Reply, at: int): Turn
    requires Expects(owner, reply)
  {
    var target := owner.target;
    var latest := ObservationVersion(s, target.requestId);
    match reply
    case EpochMismatch(detail) => Owned(s, target, GenerationLost, Some(detail), at, owner.observedVersion)
    case WithdrawReply(result) =>
      OwnedResult(s, target, result, at, if owner.AwaitWithdraw? then owner.observedVersion else latest)
    case StatusReply(lookup) =>
      if RecoveryFor(s, target.requestId) then Turn(s, Returning(target), NoVerdict)
      else if lookup.NotFoundLookup? then Owned(s, target, NotFound, Some(LOST_AFTER_WITHDRAW), at, latest)
      else if lookup.state == Queued then Turn(s, AwaitRetry(target, owner.observedVersion), NoVerdict)
      else Owned(s, target, Server(lookup.state), lookup.detail, at, latest)
    case Lost =>
      if owner.AwaitWithdraw? && !RecoveryFor(s, target.requestId)
      then Turn(s, AwaitStatus(target, latest), NoVerdict)
      else Turn(s, Returning(target), NoVerdict)
  }

  /** restoreWithdrawnRecovery: the user takes the retained text, at the revision they were shown. */
  function UserRestores(s: PerSession, requestId: string, expectedRevision: int, at: int): PerSession {
    if !RecoveryFor(s, requestId) || s.draftRevision != expectedRevision then s
    else
      var record := Find(s.history, requestId);
      var written := if record.None? then None else Some(record.value.(restoredAt := Some(at), updatedAt := at));
      SetWithdrawal(WriteRecord(SetDraft(s, s.withdrawal.value.text), written), None)
  }

  /** dismissWithdrawnRecovery: the user keeps the current draft and gives the text up. */
  function UserDismisses(s: PerSession, requestId: string, expectedRevision: int, at: int): PerSession {
    if !CanDismiss(s, requestId, expectedRevision) then s
    else
      var record := Find(s.history, requestId);
      var written := if record.None? then None
        else Some(record.value.(detail := Some(DISMISSED_DETAIL),
                                recoveryDismissedAt := Some(at), updatedAt := at));
      WriteRecord(SetWithdrawal(s, None), written)
  }

  // ---------------------------------------------------------------- the owner and the slot

  /** While a withdrawal is in flight the slot is empty or speaks of that very withdrawal. */
  predicate SlotMatchesOwner(s: PerSession, owner: Owner) {
    owner == Idle || s.withdrawal.None? ||
    s.withdrawal.value == Pending(owner.target) ||
    (s.withdrawal.value.Recovery? && s.withdrawal.value.requestId == owner.target.requestId &&
     s.withdrawal.value.text == owner.target.text)
  }

  /** The observation an owner's reply stands for. */
  predicate OwnedWord(reply: Reply, o: Observation) {
    match reply
    case EpochMismatch(_) => o == GenerationLost
    case WithdrawReply(WithdrawnResult(_)) => o == Server(Withdrawn)
    case WithdrawReply(NotWithdrawable(state, _)) => state.Some? && o == Server(state.value)
    case WithdrawReply(NotRetained) => o == NotFound
    case StatusReply(Found(state, _)) => o == Server(state)
    case StatusReply(NotFoundLookup) => o == NotFound
    case Lost => false
  }

  /** A loss, a refusal without a state, a queued status, and any status while the recovery is held. */
  predicate QuietReply(s: PerSession, owner: Owner, reply: Reply)
    requires Expects(owner, reply)
  {
    match reply
    case Lost => true
    case WithdrawReply(NotWithdrawable(state, _)) => state.None?
    case StatusReply(Found(state, _)) => state == Queued || RecoveryFor(s, owner.target.requestId)
    case StatusReply(NotFoundLookup) => RecoveryFor(s, owner.target.requestId)
    case _ => false
  }

  /** The detail that a reply brings or stands for. */
  predicate OwnedDetail(reply: Reply, detail: Option<string>) {
    match reply
    case EpochMismatch(message) => detail == Some(message)
    case WithdrawReply(WithdrawnResult(d)) => detail == d
    case WithdrawReply(NotWithdrawable(_, d)) => detail == d
    case WithdrawReply(NotRetained) => detail == Some(NOT_RETAINED)
    case StatusReply(Found(_, d)) => detail == d
    case StatusReply(NotFoundLookup) => detail == Some(LOST_AFTER_WITHDRAW)
    case Lost => false
  }

  /** What a reply is judged against: the version read before its request for the withdrawal and for an
      epoch mismatch, the version read after it for everything that follows a loss. */
  function VersionUsed(s: PerSession, owner: Owner, reply: Reply): int
    requires Expects(owner, reply)
  {
    if reply.EpochMismatch? || (reply.WithdrawReply? && owner.AwaitWithdraw?) then owner.observedVersion
    else ObservationVersion(s, owner.target.requestId)
  }

  /** Where a quiet turn leaves the owner: after a loss it asks for the status, after a queued status it
      withdraws again, and otherwise it returns. */
  predicate QuietNext(s: PerSession, owner: Owner, reply: Reply, next: Owner)
    requires Expects(owner, reply)
  {
    var held := RecoveryFor(s, owner.target.requestId);
    if reply.Lost? && owner.AwaitWithdraw? && !held then next == AwaitStatus(owner.target, ObservationVersion(s, owner.target.requestId))
    else if reply.StatusReply? && !held then next == AwaitRetry(owner.target, owner.observedVersion)
    else next == Returning(owner.target)
  }

  /**
   What every reply does. A quiet one leaves the session alone; each other one is exactly one observation of
   the word it brings, made as the owner of the issued withdrawal, and ends the transaction.
   */
  lemma OwnerTurnExact(s: PerSession, owner: Owner, reply: Reply, at: int) returns (o: Observation, detail: Option<string>)
    requires Expects(owner, reply)
    ensures
      var turn := OwnerTurn(s, owner, reply, at);
      if QuietReply(s, owner, reply) then turn.session == s && turn.verdict == NoVerdict && QuietNext(s, owner, reply, turn.owner)
      else
        && OwnedWord(reply, o) && OwnedDetail(reply, detail)
        && var applied := ApplyObservation(s, true, owner.target.requestId, o, detail, at, VersionUsed(s, owner, reply), Some(owner.target));
        && turn == Turn(applied.session, Returning(owner.target), applied.verdict)
  {
    o, detail := NotFound, Some(NOT_RETAINED);
    match reply
    case EpochMismatch(message) => o, detail := GenerationLost, Some(message);
    case WithdrawReply(WithdrawnResult(d)) => o, detail := Server(Withdrawn), d;
    case WithdrawReply(NotWithdrawable(state, d)) => if state.Some? { o, detail := Server(state.value), d; }
    case WithdrawReply(NotRetained) =>
    case StatusReply(Found(state, d)) => o, detail := Server(state), d;
    case StatusReply(NotFoundLookup) => detail := Some(LOST_AFTER_WITHDRAW);
    case Lost =>
  }

  /** A turn of the owner is one owned observation of the word it received, or leaves the session alone. */
  lemma OwnerTurnShape(s: PerSession, owner: Owner, reply: Reply, at: int)
    returns (quiet: bool, o: Observation, detail: Option<string>, seen: int)
    requires Expects(owner, reply)
    ensures OwnerTurn(s, owner, reply, at).owner != Idle && OwnerTurn(s, owner, reply, at).owner.target == owner.target
    ensures quiet ==> OwnerTurn(s, owner, reply, at).session == s && OwnerTurn(s, owner, reply, at).verdict == NoVerdict
    ensures !quiet ==> OwnedWord(reply, o) && OwnerTurn(s, owner, reply, at) == Owned(s, owner.target, o, detail, at, seen)
    ensures quiet <==> QuietReply(s, owner, reply)
  {
    quiet, seen := QuietReply(s, owner, reply), VersionUsed(s, owner, reply);
    o, detail := OwnerTurnExact(s, owner, reply, at);
  }

  /**
   What a press of withdraw does: nothing while an owner is in flight or a recovery is held, or without a
   pending or queued message; else it puts the withdrawal into the slot and awaits its reply. A withdrawal
   still pending is issued again, else the newest queued message at the current revision.
   */
  lemma IssueExact(s: PerSession, owner: Owner, at: int)
    ensures
      var turn := Issue(s, owner, at);
      var pending := s.withdrawal.Some? && s.withdrawal.value.Pending?;
      if owner == Idle && (pending || (s.withdrawal.None? && s.queue != [])) then
        && turn.owner.AwaitWithdraw? && turn.owner.observedVersion == ObservationVersion(s, turn.owner.target.requestId)
        && turn.session == s.(withdrawal := Some(Pending(turn.owner.target)))
        && (pending ==> turn.owner.target == s.withdrawal.value.request)
        && (!pending ==>
              var last := s.queue[|s.queue| - 1];
              && turn.owner.target.requestId == last.requestId && turn.owner.target.text == last.text
              && turn.owner.target.expectedBridgeEpoch == last.expectedBridgeEpoch
              && turn.owner.target.draftRevision == s.draftRevision)
      else turn.session == s && turn.owner == owner
  {
  }

  /** The user's own restore is final: the record says so, and no later verdict saves the text again. */
  lemma UserRestoreIsFinal(s: PerSession, requestId: string, at: int, issued: Option<PendingWithdrawal>)
    requires RecoveryFor(s, requestId) && DistinctIds(s.history)
    ensures
      var restored := UserRestores(s, requestId, s.draftRevision, at);
      Find(restored.history, requestId).Some? ==> WasRestored(restored, requestId) && !Unresolved(restored, requestId, issued)
  {
    var record := Find(s.history, requestId);
    if record.Some? { UpsertFrame(s.history, record.value.(restoredAt := Some(at), updatedAt := at), requestId); }
  }

  // ---------------------------------------------------------------- when the owner saves text

  /** The reply brings a withdrawn word; the version it is judged against. */
  function WithdrawnAt(s: PerSession, owner: Owner, reply: Reply): Option<int>
    requires Expects(owner, reply)
  {
    var latest := ObservationVersion(s, owner.target.requestId);
    match reply
    case WithdrawReply(WithdrawnResult(_)) => Some(if owner.AwaitWithdraw? then owner.observedVersion else latest)
    case WithdrawReply(NotWithdrawable(Some(Withdrawn), _)) => Some(if owner.AwaitWithdraw? then owner.observedVersion else latest)
    case StatusReply(Found(Withdrawn, _)) => Some(latest)
    case _ => None
  }

  /** A withdrawn word that is applied, of a request whose text was not restored before. */
  predicate OwnerSaves(s: PerSession, owner: Owner, reply: Reply)
    requires Expects(owner, reply)
  {
    var seen := WithdrawnAt(s, owner, reply);
    && seen.Some?
    && SettleObservation(CurrentSnapshot(s, owner.target.requestId), Server(Withdrawn), seen.value).Apply?
    && !WasRestored(s, owner.target.requestId)
  }

  lemma OwnerHearsWithdrawn(s: PerSession, owner: Owner, reply: Reply, at: int) returns (detail: Option<string>)
    requires Expects(owner, reply) && WithdrawnAt(s, owner, reply).Some?
    ensures !RecoveryFor(s, owner.target.requestId) ==>
              OwnerTurn(s, owner, reply, at) == Owned(s, owner.target, Server(Withdrawn), detail, at, WithdrawnAt(s, owner, reply).value)
    ensures reply.WithdrawReply? ==>
              OwnerTurn(s, owner, reply, at) == Owned(s, owner.target, Server(Withdrawn), detail, at, WithdrawnAt(s, owner, reply).value)
  {
    match reply
    case WithdrawReply(WithdrawnResult(d)) => detail := d;
    case WithdrawReply(NotWithdrawable(_, d)) => detail := d;
    case StatusReply(Found(_, d)) => detail := d;
  }

  /** Exactly when a turn of the owner saves text, and exactly when by replacing the draft. */
  lemma OwnerSavesIff(s: PerSession, owner: Owner, reply: Reply, at: int)
    requires Expects(owner, reply)
    ensures
      var verdict := OwnerTurn(s, owner, reply, at).verdict;
      && (Saves(verdict) <==> OwnerSaves(s, owner, reply))
      && (Saves(verdict) ==>
            verdict.request == owner.target && (verdict.RestoredForEditing? <==> s.draftRevision == owner.target.draftRevision))
  {
    var target, seen := owner.target, WithdrawnAt(s, owner, reply);
    if RecoveryFor(s, target.requestId) && seen.Some? { RecoverySettles(s, target.requestId, Server(Withdrawn), seen.value); }
    if seen.Some? && (reply.WithdrawReply? || !RecoveryFor(s, target.requestId)) {
      var detail := OwnerHearsWithdrawn(s, owner, reply, at);
      ObservationSavesIff(s, true, target.requestId, Server(Withdrawn), detail, at, seen.value, Some(target));
    } else {
      var quiet, o, detail, version := OwnerTurnShape(s, owner, reply, at);
      if !quiet { ObservationSavesIff(s, true, target.requestId, o, detail, at, version, Some(target)); }
    }
  }

  /**
   A turn of the owner puts a recovery into a slot that does not hold it exactly when it saves the text of
   that request while the composer is away from the captured revision. An earlier dismissal is no part
   of the condition.
   */
  lemma OwnerRecoversIff(s: PerSession, owner: Owner, reply: Reply, at: int, id: string)
    requires Expects(owner, reply) && !RecoveryFor(s, id)
    ensures
      RecoveryFor(OwnerTurn(s, owner, reply, at).session, id) <==>
      id == owner.target.requestId && OwnerSaves(s, owner, reply) && s.draftRevision != owner.target.draftRevision
  {
    OwnerSavesIff(s, owner, reply, at);
    var quiet, o, detail, seen := OwnerTurnShape(s, owner, reply, at);
    if !quiet {
      ObservationSlot(s, true, owner.target.requestId, o, detail, at, seen, Some(owner.target));
    }
  }

  /** A dismissal is on the record while that is retained, and costs nothing else. */
  lemma DismissalRecorded(s: PerSession, requestId: string, at: int)
    requires RecoveryFor(s, requestId) && DistinctIds(s.history)
    ensures
      var dismissed := UserDismisses(s, requestId, s.draftRevision, at);
      var before, after := Find(s.history, requestId), Find(dismissed.history, requestId);
      && dismissed.draft == s.draft && dismissed.queue == s.queue
      && (after.Some? ==> before.Some? && after.value.recoveryDismissedAt == Some(at) && after.value.detail == Some(DISMISSED_DETAIL)
                          && after.value.phase == before.value.phase && after.value.restoredAt == before.value.restoredAt)
  {
    var record := Find(s.history, requestId);
    if record.Some? {
      UpsertFrame(s.history, record.value.(detail := Some(DISMISSED_DETAIL), recoveryDismissedAt := Some(at), updatedAt := at), requestId);
    }
  }

  /** A dismissal empties the slot and leaves no mark that the owner looks at. */
  lemma DismissalLeaves(s: PerSession, requestId: string, at: int)
    requires RecoveryFor(s, requestId) && DistinctIds(s.history) && !WasRestored(s, requestId)
    ensures
      var dismissed := UserDismisses(s, requestId, s.draftRevision, at);
      dismissed.withdrawal == None && dismissed.draftRevision == s.draftRevision && !WasRestored(dismissed, requestId)
  {
    var record := Find(s.history, requestId);
    if record.Some? {
      UpsertFrame(s.history, record.value.(detail := Some(DISMISSED_DETAIL), recoveryDismissedAt := Some(at), updatedAt := at), requestId);
    }
  }

  /** Judged against the latest version, a withdrawn word is always applied. */
  lemma LatestApplies(s: PerSession, requestId: string)
    requires !RecoveryFor(s, requestId)
    ensures SettleObservation(CurrentSnapshot(s, requestId), Server(Withdrawn), ObservationVersion(s, requestId)).Apply?
  {
  }

  /** A dismissed recovery comes back if the owner then learns from a status lookup that its request was
      withdrawn, because the lookup is judged against the version read after its await. */
  lemma DismissedRecoveryReturns(s: PerSession, target: PendingWithdrawal, seen: int, detail: Option<string>, at: int, later: int)
    requires RecoveryFor(s, target.requestId) && s.draftRevision != target.draftRevision
    requires DistinctIds(s.history) && !WasRestored(s, target.requestId)
    ensures
      var dismissed := UserDismisses(s, target.requestId, s.draftRevision, at);
      && dismissed.withdrawal == None
      && RecoveryFor(OwnerTurn(dismissed, AwaitStatus(target, seen), StatusReply(Found(Withdrawn, detail)), later).session, target.requestId)
  {
    var dismissed := UserDismisses(s, target.requestId, s.draftRevision, at);
    DismissalLeaves(s, target.requestId, at);
    LatestApplies(dismissed, target.requestId);
    OwnerRecoversIff(dismissed, AwaitStatus(target, seen), StatusReply(Found(Withdrawn, detail)), later, target.requestId);
  }

  // ---------------------------------------------------------------- the client, step by step

  class WithdrawalClient {
    const client: LifecycleClient
    /** The suspended withdrawLastQueued call of each session. */
    var owners: map<string, Owner>

    constructor (client: LifecycleClient)
      requires client.withdrawalsInFlight == {}
      ensures this.client == client && owners == map[]
      ensures InFlightAgrees()
    {
      this.client := client;
      owners := map[];
    }

    ghost predicate InFlightAgrees()
      reads this, client
    {
      forall id :: id in client.withdrawalsInFlight <==> OwnerOf(id) != Idle
    }

    function OwnerOf(id: string): Owner
      reads this
    {
      if id in owners then owners[id] else Idle
    }

    /** withdrawLastQueuedSubmission up to its first await. */
    method WithdrawLastQueuedSubmission(id: string, at: int)
      requires InFlightAgrees()
      modifies this, client`withdrawalsInFlight, client.store
      ensures InFlightAgrees()
      ensures
        var turn := Issue(SessionOf(old(client.store.perSession), id), old(OwnerOf(id)), at);
        SessionOf(client.store.perSession, id) == turn.session && OwnerOf(id) == turn.owner
      ensures forall other :: other != id ==> OwnerOf(other) == old(OwnerOf(other))
      ensures client.store.perSession - {id} == old(client.store.perSession) - {id}
    {
      if OwnerOf(id) != Idle { return; }
      var cockpit := SessionOf(client.store.perSession, id);
      if cockpit.withdrawal.Some? && cockpit.withdrawal.value.Recovery? { return; }
      var target;
      if cockpit.withdrawal.Some? {
        target := cockpit.withdrawal.value.request;
      } else if cockpit.queue != [] {
        var entry := cockpit.queue[|cockpit.queue| - 1];
        target := PendingWithdrawal(entry.requestId, entry.text, entry.expectedBridgeEpoch, cockpit.draftRevision, at);
        client.store.PutWithdrawal(id, Some(Pending(target)));
      } else {
        return;
      }
      owners := owners[id := AwaitWithdraw(target, ObservationVersion(SessionOf(client.store.perSession, id), target.requestId))];
      client.withdrawalsInFlight := client.withdrawalsInFlight + {id};
    }

    /** The code between two awaits, on the reply the first one produced. */
    method Resume(id: string, reply: Reply, at: int) returns (verdict: Verdict)
      requires InFlightAgrees() && Expects(OwnerOf(id), reply)
      modifies this, client.store
      ensures InFlightAgrees()
      ensures
        var turn := OwnerTurn(SessionOf(old(client.store.perSession), id), old(OwnerOf(id)), reply, at);
        SessionOf(client.store.perSession, id) == turn.session && OwnerOf(id) == turn.owner && verdict == turn.verdict
      ensures forall other :: other != id ==> OwnerOf(other) == old(OwnerOf(other))
      ensures client.store.perSession - {id} == old(client.store.perSession) - {id}
    {
      var owner := OwnerOf(id);
      var target := owner.target;
      var cockpit := SessionOf(client.store.perSession, id);
      var latest := ObservationVersion(cockpit, target.requestId);
      verdict := NoVerdict;
      var next := Returning(target);
      if reply.EpochMismatch? {
        verdict := Observe(id, target, GenerationLost, Some(reply.detail), at, owner.observedVersion);
      } else if reply.WithdrawReply? {
        var seen := if owner.AwaitWithdraw? then owner.observedVersion else latest;
        match reply.result {
          case WithdrawnResult(detail) => verdict := Observe(id, target, Server(Withdrawn), detail, at, seen);
          case NotWithdrawable(state, detail) =>
            if state.Some? { verdict := Observe(id, target, Server(state.value), detail, at, seen); }
          case NotRetained => verdict := Observe(id, target, NotFound, Some(NOT_RETAINED), at, seen);
        }
      } else if reply.StatusReply? {
        if !RecoveryFor(cockpit, target.requestId) {
          if reply.lookup.NotFoundLookup? {
            verdict := Observe(id, target, NotFound, Some(LOST_AFTER_WITHDRAW), at, latest);
          } else if reply.lookup.state == Queued {
            next := AwaitRetry(target, owner.observedVersion);
          } else {
            verdict := Observe(id, target, Server(reply.lookup.state), reply.lookup.detail, at, latest);
          }
        }
      } else if owner.AwaitWithdraw? && !RecoveryFor(cockpit, target.requestId) {
        next := AwaitStatus(target, latest);
      }
      owners := owners[id := next];
    }

    method Observe(id: string, target: PendingWithdrawal, o: Observation, detail: Option<string>, at: int, seen: int)
      returns (verdict: Verdict)
      requires id in client.withdrawalsInFlight
      modifies client.store
      ensures
        var turn := Owned(SessionOf(old(client.store.perSession), id), target, o, detail, at, seen);
        SessionOf(client.store.perSession, id) == turn.session && verdict == turn.verdict
      ensures client.store.perSession - {id} == old(client.store.perSession) - {id}
    {
      var applied := client.ApplyLifecycleObservation(id, target.requestId, o, detail, at, seen, Some(target));
      verdict := applied.verdict;
    }

    /** The promise has settled: the session may start another withdrawal. */
    method Settle(id: string)
      requires InFlightAgrees() && OwnerOf(id).Returning?
      modifies this, client`withdrawalsInFlight
      ensures InFlightAgrees()
      ensures OwnerOf(id) == Idle && forall other :: other != id ==> OwnerOf(other) == old(OwnerOf(other))
    {
      owners := owners - {id};
      client.withdrawalsInFlight := client.withdrawalsInFlight - {id};
    }
  }
}
