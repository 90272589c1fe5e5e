/**
 The reliable-submit state machine (dashboard/src/data/submitMachine.ts).

 Every reducer of the source is an expression over an immutable record, and is one here. The main
 results are about the evidence a record carries: settling overlapping observations is a join in a
 five-point semilattice, hence independent of the order in which the observations arrive, and the
 bounded lifecycle watch is anchored once and for all by the first non-terminal word.
 */
module SubmitMachine {
  import opened Prelude

  const RECONCILE_WINDOW_MS: int := 120_000
  const LIFECYCLE_WATCH_WINDOW_MS: int := RECONCILE_WINDOW_MS

  datatype SubmitSource = Composer | LeafContext | Highlight | Background

  datatype SubmitPhase =
    | Sending | Accepted | QueuedPhase | Delivering | WithdrawnPhase | RejectedPhase
    | UnsupportedPhase | Ambiguous | Reconciling | Endgame | Released | GenerationLostPhase
    | NotFoundPhase | RouteErrorPhase

  /** The authority's own lifecycle vocabulary. */
  datatype ServerState =
    | Queued | Dispatching | Delivered | Withdrawn | Unknown | Rejected | Unsupported

  datatype Acceptance = Immediate | QueuedReceipt | RejectedReceipt | UnsupportedReceipt | UnknownReceipt
  datatype Receipt = Receipt(acceptance: Acceptance, detail: Option<string>, bridgeEpoch: string)

  datatype ReconciliationState = ReconAccepted | ReconRejected | ReconUnresolved | ReconUnsupported
  datatype Reconciliation = Reconciliation(
    state: ReconciliationState,
    detail: Option<string>,
    bridgeEpoch: string,
    submissionState: Option<ServerState>)

  datatype RouteFailure = RouteFailure(httpStatus: Option<int>, status: string, detail: string)

  datatype SubmitRecord = SubmitRecord(
    requestId: string,
    text: string,
    expectedBridgeEpoch: string,
    source: SubmitSource,
    submittedRevision: int,
    clearDraftOnAccept: bool,
    startedAt: int,
    updatedAt: int,
    phase: SubmitPhase,
    receipt: Option<Receipt>,
    reconciliation: Option<Reconciliation>,
    routeFailure: Option<RouteFailure>,
    reconcileAttempts: nat,
    reconcileWindowElapsedMs: int,
    reconcileWindowStartedAt: Option<int>,
    detail: Option<string>,
    releasedAt: Option<int>,
    restoredAt: Option<int>,
    recoveryDismissedAt: Option<int>,
    serverLifecycleState: Option<ServerState>,
    lifecycleObservationVersion: int,
    lifecycleWatchStartedAt: Option<int>)

  /** What the browser may learn about one request. */
  datatype Observation = Server(state: ServerState) | NotFound | GenerationLost

  /** Observation versions; a retained recovery is newer than every version. */
  datatype Version = At(n: int) | Infinity

  datatype Snapshot = Snapshot(observation: Observation, version: Version)

  datatype Reason = Incoming | PossibleSendJoin
  datatype Settlement = Preserve | Apply(observation: Observation, reason: Reason)

  datatype Evidence = QueuedEvidence | AvailabilityLoss | DispatchingEvidence | UnknownEvidence | Definitive

  predicate IsDefinitive(state: ServerState) {
    state in {Delivered, Withdrawn, Rejected, Unsupported}
  }

  function EvidenceRank(e: Evidence): nat {
    match e
    case QueuedEvidence => 0
    case AvailabilityLoss => 1
    case DispatchingEvidence => 2
    case UnknownEvidence => 3
    case Definitive => 4
  }

  function ObservationEvidence(o: Observation): Evidence {
    if !o.Server? then AvailabilityLoss
    else if o.state == Queued then QueuedEvidence
    else if o.state == Dispatching then DispatchingEvidence
    else if o.state == Unknown then UnknownEvidence
    else if IsDefinitive(o.state) then Definitive else QueuedEvidence
  }

  function ObservationSnapshot(record: SubmitRecord): Option<Snapshot> {
    var version := At(record.lifecycleObservationVersion);
    if record.phase == NotFoundPhase then Some(Snapshot(NotFound, version))
    else if record.phase == GenerationLostPhase then Some(Snapshot(GenerationLost, version))
    else if record.serverLifecycleState.Some? then
      Some(Snapshot(Server(record.serverLifecycleState.value), version))
    else None
  }

  predicate NewerThan(version: Version, observedVersion: int) {
    version.Infinity? || version.n > observedVersion
  }

  /** Fold one observation into the current one; mirrors the source branch for branch. */
  function SettleObservation(current: Option<Snapshot>, incoming: Observation, observedVersion: int): Settlement {
    if current.None? then Apply(incoming, Incoming)
    else
      var currentEvidence := ObservationEvidence(current.value.observation);
      var incomingEvidence := ObservationEvidence(incoming);
      var currentIsNewer := NewerThan(current.value.version, observedVersion);
      if (currentEvidence == AvailabilityLoss && incomingEvidence == DispatchingEvidence) ||
         (currentEvidence == DispatchingEvidence && incomingEvidence == AvailabilityLoss && !currentIsNewer)
      then Apply(Server(Unknown), PossibleSendJoin)
      else if EvidenceRank(incomingEvidence) > EvidenceRank(currentEvidence) then Apply(incoming, Incoming)
      else if EvidenceRank(incomingEvidence) < EvidenceRank(currentEvidence) || currentIsNewer then Preserve
      else Apply(incoming, Incoming)
  }

  function StartSubmitRecord(
    requestId: string, text: string, epoch: string, source: SubmitSource, revision: int, clear: bool, at: int): SubmitRecord
  {
    SubmitRecord(
      requestId, text, epoch, source, revision, clear, at, at, Sending, None, None, None, 0, 0, None, None,
      None, None, None, None, 0, None)
  }

  function ReduceReceipt(current: SubmitRecord, receipt: Receipt, at: int): SubmitRecord {
    var common := current.(receipt := Some(receipt), updatedAt := at, detail := receipt.detail,
                           expectedBridgeEpoch := receipt.bridgeEpoch);
    match receipt.acceptance
    case Immediate => common.(phase := Accepted, serverLifecycleState := Some(Delivered))
    case QueuedReceipt => common.(phase := QueuedPhase, serverLifecycleState := None)
    case RejectedReceipt => common.(phase := RejectedPhase, serverLifecycleState := Some(Rejected))
    case UnsupportedReceipt => common.(phase := UnsupportedPhase, serverLifecycleState := Some(Unsupported))
    case UnknownReceipt => common.(phase := Ambiguous, serverLifecycleState := Some(Unknown))
  }

  function PhaseOf(state: ServerState): SubmitPhase {
    match state
    case Queued => QueuedPhase
    case Dispatching => Delivering
    case Delivered => Accepted
    case Withdrawn => WithdrawnPhase
    case Unknown => Ambiguous
    case Rejected => RejectedPhase
    case Unsupported => UnsupportedPhase
  }

  /** Phases tell lifecycle states apart, and a receipt has the phase of the state it stands for. */
  lemma PhasesTellStatesApart(a: ServerState, b: ServerState, current: SubmitRecord, receipt: Receipt, at: int)
    ensures PhaseOf(a) == PhaseOf(b) ==> a == b
    ensures
      var phase := ReduceReceipt(current, receipt, at).phase;
      match receipt.acceptance
      case Immediate => phase == PhaseOf(Delivered)
      case QueuedReceipt => phase == PhaseOf(Queued)
      case RejectedReceipt => phase == PhaseOf(Rejected)
      case UnsupportedReceipt => phase == PhaseOf(Unsupported)
      case UnknownReceipt => phase == PhaseOf(Unknown)
  {
  }

  function ProjectLifecycle(current: SubmitRecord, state: ServerState, detail: Option<string>, at: int): SubmitRecord {
    current.(
      phase := PhaseOf(state),
      serverLifecycleState := Some(state),
      detail := detail,
      updatedAt := at,
      lifecycleObservationVersion := current.lifecycleObservationVersion + 1,
      lifecycleWatchStartedAt :=
        if state == Queued || IsDefinitive(state) then current.lifecycleWatchStartedAt
        else if current.lifecycleWatchStartedAt.Some? then current.lifecycleWatchStartedAt
        else Some(at))
  }

  /** projectObservation of submissionLifecycleClient.ts: the non-withdrawn record writes. */
  function ProjectObservation(record: SubmitRecord, o: Observation, detail: Option<string>, at: int): SubmitRecord {
    if o.Server? then ProjectLifecycle(record, o.state, detail, at)
    else record.(
      phase := if o == NotFound then NotFoundPhase else GenerationLostPhase,
      serverLifecycleState := None,
      detail := detail,
      updatedAt := at,
      lifecycleObservationVersion := record.lifecycleObservationVersion + 1)
  }

  datatype WatchState = Active | Expired | Inactive

  function LifecycleWatchState(record: SubmitRecord, at: int): WatchState {
    if record.serverLifecycleState.None?
       || IsDefinitive(record.serverLifecycleState.value)
       || record.phase !in {QueuedPhase, Delivering, Ambiguous}
    then Inactive
    else
      var startedAt := if record.lifecycleWatchStartedAt.Some? then record.lifecycleWatchStartedAt.value else record.updatedAt;
      if at - startedAt > LIFECYCLE_WATCH_WINDOW_MS then Expired else Active
  }

  function ReduceReconciliation(current: SubmitRecord, result: Reconciliation, at: int): SubmitRecord {
    var common := current.(reconciliation := Some(result), updatedAt := at, detail := result.detail,
                           expectedBridgeEpoch := result.bridgeEpoch);
    if result.submissionState.Some? && !(result.state == ReconUnresolved && result.submissionState.value == Unknown)
    then ProjectLifecycle(common, result.submissionState.value, result.detail, at)
    else
      match result.state
      case ReconAccepted => common.(phase := Accepted)
      case ReconRejected => common.(phase := RejectedPhase)
      case ReconUnsupported => common.(phase := UnsupportedPhase)
      case ReconUnresolved => common.(phase := Reconciling)
  }

  function ReconcileDelay(attempt: nat): int {
    if attempt == 0 then 1_000 else if attempt == 1 then 2_000 else 5_000
  }

  function Max(a: int, b: int): int { if a >= b then a else b }

  function EnterReconcileWindow(record: SubmitRecord, at: int, windowStartedAt: int): SubmitRecord {
    record.(phase := Reconciling, updatedAt := at, reconcileWindowStartedAt := Some(windowStartedAt),
            reconcileWindowElapsedMs := Max(0, at - windowStartedAt))
  }

  function WindowStart(record: SubmitRecord, at: int): int {
    if record.reconcileWindowStartedAt.Some? then record.reconcileWindowStartedAt.value else at
  }

  function RecordReconcileDelay(record: SubmitRecord, at: int): SubmitRecord {
    record.(phase := Reconciling, updatedAt := at, reconcileAttempts := record.reconcileAttempts + 1,
            reconcileWindowElapsedMs := Max(record.reconcileWindowElapsedMs, at - WindowStart(record, at)))
  }

  function RefreshReconcileElapsed(record: SubmitRecord, at: int): SubmitRecord {
    record.(updatedAt := at,
            reconcileWindowElapsedMs := Max(record.reconcileWindowElapsedMs, at - WindowStart(record, at)))
  }

  function EnterEndgame(record: SubmitRecord, at: int): SubmitRecord {
    record.(phase := Endgame, updatedAt := at,
            detail := Some("still unresolved \U{2014} keep waiting, copy requestId, or release the retained draft"))
  }

  /** The same message under the same request: what no execution of a submit may change. */
  predicate SameSubmission(a: SubmitRecord, b: SubmitRecord) {
    && a.requestId == b.requestId && a.text == b.text && a.source == b.source
    && a.submittedRevision == b.submittedRevision && a.clearDraftOnAccept == b.clearDraftOnAccept
  }

  // ---------------------------------------------------------------- the evidence semilattice

  /** Strength order on evidence: authority loss and dispatching are incomparable. */
  predicate Below(a: Evidence, b: Evidence) {
    a == b || a == QueuedEvidence || b == Definitive || (b == UnknownEvidence && a != Definitive)
  }

  function Join(a: Evidence, b: Evidence): Evidence {
    if Below(a, b) then b else if Below(b, a) then a else UnknownEvidence
  }

  ghost predicate IsLeastUpperBound(least: Evidence, es: set<Evidence>) {
    && (forall e :: e in es ==> Below(e, least))
    && (forall bound: Evidence :: (forall e :: e in es ==> Below(e, bound)) ==> Below(least, bound))
  }

  /** The evidence a record holds; a record without any observation holds none. */
  function RecordEvidence(record: SubmitRecord): Option<Evidence> {
    var current := ObservationSnapshot(record);
    if current.None? then None else Some(ObservationEvidence(current.value.observation))
  }

  /** The definitive word a record carries, if any. */
  function DefinitiveWord(record: SubmitRecord): Option<ServerState> {
    var current := ObservationSnapshot(record);
    if current.Some? && current.value.observation.Server? && IsDefinitive(current.value.observation.state)
    then Some(current.value.observation.state) else None
  }

  /** One observation arriving at a record: its word, and the version its request saw. */
  datatype Arrival = Arrival(observation: Observation, observedVersion: int, detail: Option<string>, at: int)

  /** The record-level effect of settling one arrival. */
  function Settled(record: SubmitRecord, a: Arrival): SubmitRecord {
    match SettleObservation(ObservationSnapshot(record), a.observation, a.observedVersion)
    case Preserve => record
    case Apply(o, _) => ProjectObservation(record, o, a.detail, a.at)
  }

  function Fold(record: SubmitRecord, arrivals: seq<Arrival>): SubmitRecord
    decreases |arrivals|
  {
    if arrivals == [] then record else Fold(Settled(record, arrivals[0]), arrivals[1..])
  }

  /** No arrival was requested against a version older than the record it meets. */
  predicate AllFresh(record: SubmitRecord, arrivals: seq<Arrival>)
    decreases |arrivals|
  {
    arrivals == [] ||
    (record.lifecycleObservationVersion <= arrivals[0].observedVersion &&
     AllFresh(Settled(record, arrivals[0]), arrivals[1..]))
  }

  function EvidenceSet(record: SubmitRecord, arrivals: seq<Arrival>): set<Evidence> {
    (if RecordEvidence(record).Some? then {RecordEvidence(record).value} else {}) +
    set a | a in arrivals :: ObservationEvidence(a.observation)
  }

  lemma ProjectedEvidence(record: SubmitRecord, o: Observation, detail: Option<string>, at: int)
    ensures RecordEvidence(ProjectObservation(record, o, detail, at)) == Some(ObservationEvidence(o))
  {
  }

  /** A stale arrival departs from the join exactly when it is an authority loss meeting dispatching. */
  lemma SettleIsJoin(record: SubmitRecord, a: Arrival)
    ensures RecordEvidence(Settled(record, a)).Some?
    ensures RecordEvidence(record).None? ==>
              RecordEvidence(Settled(record, a)).value == ObservationEvidence(a.observation)
    ensures RecordEvidence(record).Some? ==>
              var was, now, came := RecordEvidence(record).value, RecordEvidence(Settled(record, a)).value,
                ObservationEvidence(a.observation);
              var stale := record.lifecycleObservationVersion > a.observedVersion;
              && (now == Join(was, came) <==> !(stale && was == DispatchingEvidence && came == AvailabilityLoss))
              && (now != Join(was, came) ==> now == was)
  {
    var current := ObservationSnapshot(record);
    match SettleObservation(current, a.observation, a.observedVersion)
    case Preserve =>
    case Apply(o, _) => ProjectedEvidence(record, o, a.detail, a.at);
  }

  lemma JoinIsLeastUpperBound(a: Evidence, b: Evidence)
    ensures IsLeastUpperBound(Join(a, b), {a, b})
  {
    forall bound: Evidence | forall e :: e in {a, b} ==> Below(e, bound)
      ensures Below(Join(a, b), bound)
    {
      assert a in {a, b} && b in {a, b};
      assert Below(a, bound) && Below(b, bound);
    }
  }

  lemma LeastUpperBoundStep(a: Evidence, b: Evidence, rest: set<Evidence>, least: Evidence)
    requires IsLeastUpperBound(least, {Join(a, b)} + rest)
    ensures IsLeastUpperBound(least, {a, b} + rest)
  {
    JoinIsLeastUpperBound(a, b);
    var joined, all := {Join(a, b)} + rest, {a, b} + rest;
    assert Join(a, b) in joined;
    forall e | e in all ensures Below(e, least) {
      if e !in rest { assert e in {a, b}; assert Below(e, Join(a, b)); } else { assert e in joined; }
    }
    forall bound: Evidence | forall e :: e in all ==> Below(e, bound)
      ensures Below(least, bound)
    {
      forall e | e in joined ensures Below(e, bound) {
        if e == Join(a, b) { assert a in all && b in all; } else { assert e in all; }
      }
    }
  }

  /** Folding fresh observations yields the semilattice join of everything seen. */
  lemma {:induction false} FoldIsJoin(record: SubmitRecord, arrivals: seq<Arrival>)
    requires AllFresh(record, arrivals)
    requires RecordEvidence(record).Some? || arrivals != []
    ensures RecordEvidence(Fold(record, arrivals)).Some?
    ensures IsLeastUpperBound(RecordEvidence(Fold(record, arrivals)).value, EvidenceSet(record, arrivals))
    decreases |arrivals|
  {
    if arrivals == [] {
      assert EvidenceSet(record, arrivals) == {RecordEvidence(record).value};
    } else {
      var a, rest := arrivals[0], arrivals[1..];
      var next := Settled(record, a);
      SettleIsJoin(record, a);
      FoldIsJoin(next, rest);
      assert arrivals == [a] + rest;
      var tail := set b | b in rest :: ObservationEvidence(b.observation);
      var came := ObservationEvidence(a.observation);
      assert EvidenceSet(next, rest) == {RecordEvidence(next).value} + tail;
      assert (set b | b in arrivals :: ObservationEvidence(b.observation)) == {came} + tail;
      if RecordEvidence(record).None? {
        assert EvidenceSet(record, arrivals) == {came} + tail;
      } else {
        var was := RecordEvidence(record).value;
        assert EvidenceSet(record, arrivals) == {was, came} + tail;
        LeastUpperBoundStep(was, came, tail, RecordEvidence(Fold(record, arrivals)).value);
      }
    }
  }

  function Words(arrivals: seq<Arrival>): set<Observation> {
    set a | a in arrivals :: a.observation
  }

  /**
   Arrival order is irrelevant: two fresh interleavings that carry the same words, with any details,
   times, repetitions and request versions, leave the record with the same evidence.
   */
  lemma {:induction false} ArrivalOrderIrrelevant(record: SubmitRecord, first: seq<Arrival>, second: seq<Arrival>)
    requires AllFresh(record, first) && AllFresh(record, second)
    requires Words(first) == Words(second)
    ensures RecordEvidence(Fold(record, first)) == RecordEvidence(Fold(record, second))
  {
    assert first == [] <==> second == [] by {
      assert first != [] ==> first[0].observation in Words(first);
      assert second != [] ==> second[0].observation in Words(second);
    }
    if RecordEvidence(record).Some? || first != [] {
      FoldIsJoin(record, first);
      FoldIsJoin(record, second);
      var words := Words(first);
      assert EvidenceSet(record, first) == EvidenceSet(record, second) by {
        assert (set a | a in first :: ObservationEvidence(a.observation)) == set o | o in words :: ObservationEvidence(o);
        assert (set a | a in second :: ObservationEvidence(a.observation)) == set o | o in words :: ObservationEvidence(o);
      }
      LeastUpperBoundUnique(
        RecordEvidence(Fold(record, first)).value, RecordEvidence(Fold(record, second)).value, EvidenceSet(record, first));
    }
  }

  lemma LeastUpperBoundUnique(a: Evidence, b: Evidence, es: set<Evidence>)
    requires IsLeastUpperBound(a, es) && IsLeastUpperBound(b, es)
    ensures a == b
  {
    assert Below(a, b) && Below(b, a);
  }

  /** Every definitive word in play, stored or arriving, is `word`. */
  predicate OneDefinitiveWord(record: SubmitRecord, arrivals: seq<Arrival>, word: ServerState) {
    && (DefinitiveWord(record).Some? ==> DefinitiveWord(record).value == word)
    && (forall a :: a in arrivals && a.observation.Server? && IsDefinitive(a.observation.state) ==> a.observation.state == word)
  }

  lemma {:induction false} FoldKeepsWord(record: SubmitRecord, arrivals: seq<Arrival>, word: ServerState)
    requires OneDefinitiveWord(record, arrivals, word)
    ensures DefinitiveWord(Fold(record, arrivals)).Some? ==> DefinitiveWord(Fold(record, arrivals)).value == word
    decreases |arrivals|
  {
    if arrivals != [] {
      assert arrivals[0] in arrivals;
      FoldKeepsWord(Settled(record, arrivals[0]), arrivals[1..], word);
    }
  }

  lemma WordIffDefinitive(record: SubmitRecord)
    ensures DefinitiveWord(record).Some? <==> RecordEvidence(record) == Some(Definitive)
  {
  }

  /** With one definitive word in play, its arrival is order-independent too. */
  lemma {:induction false} ArrivalOrderKeepsWord(record: SubmitRecord, first: seq<Arrival>, second: seq<Arrival>, word: ServerState)
    requires AllFresh(record, first) && AllFresh(record, second)
    requires Words(first) == Words(second)
    requires OneDefinitiveWord(record, first, word)
    ensures DefinitiveWord(Fold(record, first)) == DefinitiveWord(Fold(record, second))
  {
    forall a | a in second && a.observation.Server? && IsDefinitive(a.observation.state)
      ensures a.observation.state == word
    {
      assert a.observation in Words(second);
    }
    FoldKeepsWord(record, first, word);
    FoldKeepsWord(record, second, word);
    ArrivalOrderIrrelevant(record, first, second);
    WordIffDefinitive(Fold(record, first));
    WordIffDefinitive(Fold(record, second));
  }

  // ---------------------------------------------------------------- the bounded lifecycle watch

  /** Every write the lifecycle client makes to a record that is already anchored. */
  datatype RecordWrite = ObservationWrite(arrival: Arrival) | EndgameWrite(at: int)

  function AfterWrites(record: SubmitRecord, writes: seq<RecordWrite>): SubmitRecord
    decreases |writes|
  {
    if writes == [] then record
    else
      var next := match writes[0]
        case ObservationWrite(a) => Settled(record, a)
        case EndgameWrite(at) => EnterEndgame(record, at);
      AfterWrites(next, writes[1..])
  }

  lemma {:induction false} WatchAnchorFixed(record: SubmitRecord, writes: seq<RecordWrite>)
    requires record.lifecycleWatchStartedAt.Some?
    ensures AfterWrites(record, writes).lifecycleWatchStartedAt == record.lifecycleWatchStartedAt
    decreases |writes|
  {
    if writes != [] {
      var next := match writes[0]
        case ObservationWrite(a) => Settled(record, a)
        case EndgameWrite(at) => EnterEndgame(record, at);
      assert next.lifecycleWatchStartedAt == record.lifecycleWatchStartedAt;
      WatchAnchorFixed(next, writes[1..]);
    }
  }

  /**
   The first dispatching or unknown word at t0 bounds the watch for good: whatever is observed
   afterwards, in any order and however often, the watch is not active later than t0 + 120 s.
   */
  lemma WatchBounded(record: SubmitRecord, state: ServerState, detail: Option<string>, t0: int, writes: seq<RecordWrite>, at: int)
    requires record.lifecycleWatchStartedAt.None?
    requires state == Dispatching || state == Unknown
    requires at > t0 + LIFECYCLE_WATCH_WINDOW_MS
    ensures LifecycleWatchState(AfterWrites(ProjectLifecycle(record, state, detail, t0), writes), at) != Active
  {
    WatchAnchorFixed(ProjectLifecycle(record, state, detail, t0), writes);
  }

  /** A server word that leaves the outcome open. */
  predicate OutcomeOpen(a: Arrival) { a.observation.Server? && !IsDefinitive(a.observation.state) }

  /** The record shows dispatching or unknown, and its watch is anchored at t0. */
  predicate Watched(record: SubmitRecord, t0: int) {
    && record.serverLifecycleState in {Some(Dispatching), Some(Unknown)}
    && record.phase == PhaseOf(record.serverLifecycleState.value) && record.lifecycleWatchStartedAt == Some(t0)
  }

  lemma {:induction false} StaysWatched(record: SubmitRecord, words: seq<Arrival>, t0: int)
    requires Watched(record, t0) && forall a :: a in words ==> OutcomeOpen(a)
    ensures Watched(Fold(record, words), t0)
    decreases |words|
  {
    if words != [] {
      assert words[0] in words;
      StaysWatched(Settled(record, words[0]), words[1..], t0);
    }
  }

  /**
   The watch lasts: from the first dispatching or unknown word at t0, through any further words that leave the
   outcome open, in any order and however stale, the watch is active up to t0 + 120 s and expired after it.
   */
  lemma WatchLasts(record: SubmitRecord, state: ServerState, detail: Option<string>, t0: int, words: seq<Arrival>, at: int)
    requires record.lifecycleWatchStartedAt.None?
    requires state == Dispatching || state == Unknown
    requires forall a :: a in words ==> OutcomeOpen(a)
    ensures LifecycleWatchState(Fold(ProjectLifecycle(record, state, detail, t0), words), at) ==
            if at <= t0 + LIFECYCLE_WATCH_WINDOW_MS then Active else Expired
  {
    StaysWatched(ProjectLifecycle(record, state, detail, t0), words, t0);
  }

  /** A queued word that no watch anchors is watched from the moment it was shown. */
  lemma QueuedIsWatched(record: SubmitRecord, detail: Option<string>, t: int, at: int)
    requires record.lifecycleWatchStartedAt.None?
    ensures LifecycleWatchState(ProjectLifecycle(record, Queued, detail, t), at) ==
            if at <= t + LIFECYCLE_WATCH_WINDOW_MS then Active else Expired
  {
  }

  /** A definitive word ends the watch at once. */
  lemma DefinitiveEndsWatch(record: SubmitRecord, at: int)
    requires DefinitiveWord(record).Some?
    ensures LifecycleWatchState(record, at) == Inactive
  {
  }

  /**
   Which word a settled record shows. Stronger evidence always replaces weaker; evidence of the same rank
   replaces it exactly when it is not stale; weaker evidence never does; and the two incomparable classes,
   told apart by staleness, meet in unknown.
   */
  lemma SettleChoosesWord(record: SubmitRecord, a: Arrival)
    requires ObservationSnapshot(record).Some?
    ensures
      var was, now := ObservationSnapshot(record).value.observation, ObservationSnapshot(Settled(record, a)).value.observation;
      var e, f := ObservationEvidence(was), ObservationEvidence(a.observation);
      var stale := record.lifecycleObservationVersion > a.observedVersion;
      now ==
      if e != f && Below(e, f) then a.observation
      else if e != f && Below(f, e) then was
      else if e == f then (if stale then was else a.observation)
      else if e == DispatchingEvidence && stale then was
      else Server(Unknown)
  {
  }
}
