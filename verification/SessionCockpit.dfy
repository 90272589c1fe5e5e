/**
 The per-session part of the cockpit store (dashboard/src/data/sessionCockpitStore.ts): composer,
 queue, submit history and the single withdrawal slot.

 A session's state is an immutable value that the store replaces; the store itself is an object
 whose methods update `perSession`. The value-level functions specify those methods, and the run
 theorems of SubmissionRuns are stated about them.
 */
module SessionCockpit {
  import opened Prelude
  import opened SubmitMachine
  import opened SubmitRetention

  datatype QueuedSubmit = QueuedSubmit(requestId: string, text: string, queuedAt: int, expectedBridgeEpoch: string)

  /** A withdrawal whose result is not known yet; `draftRevision` is captured before the request. */
  datatype PendingWithdrawal = PendingWithdrawal(
    requestId: string, text: string, expectedBridgeEpoch: string, draftRevision: int, requestedAt: int)

  datatype Withdrawal = Pending(request: PendingWithdrawal) | Recovery(requestId: string, text: string, withdrawnAt: int)

  datatype PerSession = PerSession(
    draft: string,
    draftRevision: int,
    queue: seq<QueuedSubmit>,
    history: seq<SubmitRecord>,
    withdrawal: Option<Withdrawal>)

  const EMPTY := PerSession("", 0, [], [], None)

  function SetDraft(s: PerSession, draft: string): PerSession {
    s.(draft := draft, draftRevision := s.draftRevision + 1)
  }

  function ReplaceDraftIfRevision(s: PerSession, expected: int, draft: string): PerSession {
    if s.draftRevision != expected then s else SetDraft(s, draft)
  }

  function Enqueue(s: PerSession, entry: QueuedSubmit): PerSession {
    s.(queue := CompactQueue(s.queue + [entry]))
  }

  /** The entry just queued is the last one, which is the one a withdrawal takes; before it stand the newest of
      the others, in their order, and nothing is dropped while there is room. */
  lemma EnqueueExact(s: PerSession, entry: QueuedSubmit)
    ensures
      var queue := Enqueue(s, entry).queue;
      && queue != [] && queue[|queue| - 1] == entry && |queue| <= QUEUE_WINDOW
      && queue[..|queue| - 1] <= s.queue[|s.queue| + 1 - |queue|..]
      && |queue| == if |s.queue| < QUEUE_WINDOW then |s.queue| + 1 else QUEUE_WINDOW
  {
    var all := s.queue + [entry];
    var cut := if |all| <= QUEUE_WINDOW then 0 else |all| - QUEUE_WINDOW;
    assert CompactQueue(all) == all[cut..];
    assert all[cut..] == s.queue[cut..] + [entry];
  }

  function WithoutRequest(queue: seq<QueuedSubmit>, requestId: string): (rest: seq<QueuedSubmit>)
    ensures forall e :: e in rest <==> e in queue && e.requestId != requestId
  {
    if queue == [] then []
    else (if queue[0].requestId == requestId then [] else [queue[0]]) + WithoutRequest(queue[1..], requestId)
  }

  function Dequeue(s: PerSession, requestId: string): PerSession {
    s.(queue := WithoutRequest(s.queue, requestId))
  }

  function UpsertRecord(s: PerSession, record: SubmitRecord): PerSession {
    s.(history := Upsert(s.history, record))
  }

  function SetWithdrawal(s: PerSession, withdrawal: Option<Withdrawal>): PerSession {
    s.(withdrawal := withdrawal)
  }

  predicate RecoveryFor(s: PerSession, requestId: string) {
    s.withdrawal.Some? && s.withdrawal.value.Recovery? && s.withdrawal.value.requestId == requestId
  }

  predicate PendingFor(s: PerSession, requestId: string) {
    s.withdrawal.Some? && s.withdrawal.value.Pending? && s.withdrawal.value.request.requestId == requestId
  }

  predicate CanDismiss(s: PerSession, requestId: string, expectedRevision: int) {
    s.draftRevision == expectedRevision && RecoveryFor(s, requestId)
  }

  /** A missing session reads as the empty one. */
  function SessionOf(perSession: map<string, PerSession>, id: string): PerSession {
    if id in perSession then perSession[id] else EMPTY
  }

  class SessionCockpitStore {
    var perSession: map<string, PerSession>

    constructor ()
      ensures perSession == map[]
    {
      perSession := map[];
    }

    method SetComposerDraft(id: string, draft: string)
      modifies this
      ensures perSession == old(perSession)[id := SetDraft(SessionOf(old(perSession), id), draft)]
    {
      var current := SessionOf(perSession, id);
      perSession := perSession[id := current.(draft := draft, draftRevision := current.draftRevision + 1)];
    }

    method ReplaceComposerDraftIfRevision(id: string, expectedRevision: int, draft: string) returns (replaced: bool)
      modifies this
      ensures replaced == (SessionOf(old(perSession), id).draftRevision == expectedRevision)
      ensures perSession == old(perSession)[id := ReplaceDraftIfRevision(SessionOf(old(perSession), id), expectedRevision, draft)]
      ensures !replaced ==> SessionOf(perSession, id) == SessionOf(old(perSession), id)
    {
      var current := SessionOf(perSession, id);
      replaced := false;
      if current.draftRevision == expectedRevision {
        replaced := true;
        current := current.(draft := draft, draftRevision := current.draftRevision + 1);
      }
      perSession := perSession[id := current];
    }

    method ClearComposerDraftIfRevision(id: string, submittedRevision: int) returns (cleared: bool)
      modifies this
      ensures cleared == (SessionOf(old(perSession), id).draftRevision == submittedRevision)
      ensures perSession == old(perSession)[id := ReplaceDraftIfRevision(SessionOf(old(perSession), id), submittedRevision, "")]
    {
      cleared := ReplaceComposerDraftIfRevision(id, submittedRevision, "");
    }

    method EnqueueSubmit(id: string, entry: QueuedSubmit)
      modifies this
      ensures perSession == old(perSession)[id := Enqueue(SessionOf(old(perSession), id), entry)]
    {
      var current := SessionOf(perSession, id);
      perSession := perSession[id := current.(queue := CompactQueue(current.queue + [entry]))];
    }

    method DequeueSubmit(id: string, requestId: string)
      modifies this
      ensures perSession == old(perSession)[id := Dequeue(SessionOf(old(perSession), id), requestId)]
    {
      var current := SessionOf(perSession, id);
      perSession := perSession[id := current.(queue := WithoutRequest(current.queue, requestId))];
    }

    method UpsertSubmitRecord(id: string, record: SubmitRecord)
      modifies this
      ensures perSession == old(perSession)[id := UpsertRecord(SessionOf(old(perSession), id), record)]
    {
      var current := SessionOf(perSession, id);
      var index := IndexOf(current.history, record.requestId);
      var history := current.history;
      if index == |history| {
        history := history + [record];
      } else {
        history := history[index := record];
      }
      perSession := perSession[id := current.(history := Compact(history))];
    }

    method PutWithdrawal(id: string, withdrawal: Option<Withdrawal>)
      modifies this
      ensures perSession == old(perSession)[id := SetWithdrawal(SessionOf(old(perSession), id), withdrawal)]
    {
      var current := SessionOf(perSession, id);
      perSession := perSession[id := current.(withdrawal := withdrawal)];
    }

    method DismissWithdrawalRecoveryIfMatches(id: string, requestId: string, expectedRevision: int) returns (dismissed: bool)
      modifies this
      ensures dismissed == CanDismiss(SessionOf(old(perSession), id), requestId, expectedRevision)
      ensures dismissed ==> perSession == old(perSession)[id := SetWithdrawal(SessionOf(old(perSession), id), None)]
      ensures !dismissed ==> perSession == old(perSession)[id := SessionOf(old(perSession), id)]
    {
      var current := SessionOf(perSession, id);
      dismissed := CanDismiss(current, requestId, expectedRevision);
      if dismissed {
        current := current.(withdrawal := None);
      }
      perSession := perSession[id := current];
    }
  }
}
