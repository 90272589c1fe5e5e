/**
 The reliable-submit driver (dashboard/src/data/submitClient.ts): one submit, at most one certified
 retry, then same-id reconciliation inside a wall-clock window.

 The transport, the clock and the sleeps are an adversary: arbitrary scripts decide what every call
 returns, throws or hangs on, and how far time moves at every look at the clock. All that is granted
 is a clock that never runs backwards and sleeps that last at least as long as requested.
 */
module ReliableSubmit {
  import opened Prelude
  import opened SubmitMachine

  datatype SubmitError =
    | DeadlineError
    | MismatchError(detail: string)
    | PreDispatchError(detail: string)
    | RouteError(failure: RouteFailure)
    | OtherError(detail: string)

  /** What an injected transport may do with one call. */
  datatype Reply<+T> = Returns(value: T) | Throws(error: SubmitError) | Hangs

  datatype Attempt<+T> = Completed(value: T) | Failed(error: SubmitError)

  datatype StatusLookup = StatusFound(state: ServerState, detail: Option<string>) | StatusMissing

  /** One POST of the submit route, with what came of it. */
  datatype SubmitCall = SubmitCall(requestId: string, text: string, epoch: string, reply: Reply<Receipt>)

  /** One status lookup or one reconciliation, with what came of it. */
  datatype Lookup<+T> = Lookup(requestId: string, epoch: string, reply: Reply<T>)

  /** Evidence the server returned, in order of arrival, be it in time or not. */
  datatype Heard =
    | HeardReceipt(receipt: Receipt)
    | HeardStatus(state: ServerState, detail: Option<string>)
    | HeardReconciliation(result: Reconciliation)

  /** How far n looks at the clock, from the given one on, let time move. */
  function Drifts(drift: nat -> nat, from: nat, n: nat): nat
    decreases n
  {
    if n == 0 then 0 else drift(from) + Drifts(drift, from + 1, n - 1)
  }

  /** What a reply that arrives at a given moment comes to, raced against the deadline. */
  function Raced<T>(reply: Reply<T>, arrival: int, deadlineAt: int): Attempt<T> {
    match reply
    case Hangs => Failed(DeadlineError)
    case Throws(error) => Failed(error)
    case Returns(value) => if arrival >= deadlineAt then Failed(DeadlineError) else Completed(value)
  }

  /** A moment of an execution: the clock, how often it was read, and how many calls were posted. */
  datatype Moment = Moment(clock: int, looks: nat, posted: nat)

  function Look(drift: nat -> nat, m: Moment): Moment {
    m.(clock := m.clock + drift(m.looks), looks := m.looks + 1)
  }

  /** What the script and the clock hold for a submit attempt started at a moment: the first look finds the
      deadline ahead or passed, the call takes the second, and the third finds the reply in time or late. */
  function SubmitAttempt(script: nat -> Reply<Receipt>, drift: nat -> nat, m: Moment, deadlineAt: int): Attempt<Receipt> {
    if Look(drift, m).clock >= deadlineAt then Failed(DeadlineError)
    else Raced(script(m.posted), Look(drift, Look(drift, Look(drift, m))).clock, deadlineAt)
  }

  /** The attempt is certified undispatched. */
  predicate Certified(attempt: Attempt<Receipt>) { attempt.Failed? && attempt.error.PreDispatchError? }

  /** The moment after a call that threw. */
  function AfterThrow(drift: nat -> nat, m: Moment): Moment {
    Look(drift, Look(drift, m)).(posted := m.posted + 1)
  }

  /** What the submit loop comes to: its first attempt or, on the certificate, the one retry. */
  function SubmitVerdict(script: nat -> Reply<Receipt>, drift: nat -> nat, m: Moment, deadlineAt: int): Attempt<Receipt> {
    var first := SubmitAttempt(script, drift, m, deadlineAt);
    if Certified(first) then SubmitAttempt(script, drift, AfterThrow(drift, m), deadlineAt) else first
  }

  /** How often it posts: not at all past the deadline, and again exactly on the certificate. */
  function SubmitCount(script: nat -> Reply<Receipt>, drift: nat -> nat, m: Moment, deadlineAt: int): nat {
    if Look(drift, m).clock >= deadlineAt then 0
    else if Certified(SubmitAttempt(script, drift, m, deadlineAt)) && Look(drift, AfterThrow(drift, m)).clock < deadlineAt then 2
    else 1
  }

  class Environment {
    const submitScript: nat -> Reply<Receipt>
    const statusScript: nat -> Reply<StatusLookup>
    const reconcileScript: nat -> Reply<Reconciliation>
    const drift: nat -> nat

    var clock: int
    var looks: nat
    var submits: seq<SubmitCall>
    var statuses: seq<Lookup<StatusLookup>>
    var reconciles: seq<Lookup<Reconciliation>>
    var heard: seq<Heard>
    var published: seq<SubmitRecord>

    constructor (
      submitScript: nat -> Reply<Receipt>, statusScript: nat -> Reply<StatusLookup>,
      reconcileScript: nat -> Reply<Reconciliation>, drift: nat -> nat, clock: int)
      ensures this.submitScript == submitScript && this.statusScript == statusScript
      ensures this.reconcileScript == reconcileScript && this.drift == drift && this.clock == clock
      ensures submits == [] && statuses == [] && reconciles == [] && heard == [] && published == []
    {
      this.submitScript, this.statusScript, this.reconcileScript, this.drift := submitScript, statusScript, reconcileScript, drift;
      this.clock, looks, submits, statuses, reconciles, heard, published := clock, 0, [], [], [], [], [];
    }

    /** The reading of the n-th look at the clock from now on, if nothing sleeps in between. */
    function Ahead(n: nat): int
      reads this`clock, this`looks
    {
      clock + Drifts(drift, looks, n)
    }

    /** Where the submit route stands now. */
    function Here(): Moment
      reads this`clock, this`looks, this`submits
    {
      Moment(clock, looks, |submits|)
    }

    /** What a submit loop started at a moment comes to. */
    function VerdictFrom(m: Moment, deadlineAt: int): Attempt<Receipt> {
      SubmitVerdict(submitScript, drift, m, deadlineAt)
    }

    /** And the posts it makes. */
    ghost predicate PostsFrom(m: Moment, deadlineAt: int, before: seq<SubmitCall>, after: seq<SubmitCall>, initial: SubmitRecord) {
      Posts(before, after, initial, SubmitCount(submitScript, drift, m, deadlineAt), submitScript)
    }

    /** What a submit attempt started now comes to. */
    function NextSubmit(deadlineAt: int): Attempt<Receipt>
      reads this`clock, this`looks, this`submits
    {
      SubmitAttempt(submitScript, drift, Here(), deadlineAt)
    }

    /** The same for a status lookup started now. */
    function NextStatus(deadlineAt: int): Attempt<StatusLookup>
      reads this`clock, this`looks, this`statuses
    {
      if Ahead(1) >= deadlineAt then Failed(DeadlineError) else Raced(statusScript(|statuses|), Ahead(3), deadlineAt)
    }

    /** The same for a reconciliation started now. */
    function NextReconcile(deadlineAt: int): Attempt<Reconciliation>
      reads this`clock, this`looks, this`reconciles
    {
      if Ahead(1) >= deadlineAt then Failed(DeadlineError) else Raced(reconcileScript(|reconciles|), Ahead(3), deadlineAt)
    }

    method Now() returns (t: int)
      modifies this`clock, this`looks
      ensures t == clock == old(Ahead(1)) && looks == old(looks) + 1
    {
      clock, looks := clock + drift(looks), looks + 1;
      t := clock;
    }

    method Sleep(ms: int)
      modifies this`clock, this`looks
      ensures clock == old(Ahead(1)) + Max(ms, 0) && looks == old(looks) + 1
    {
      clock, looks := clock + Max(ms, 0) + drift(looks), looks + 1;
    }

    method Submit(requestId: string, text: string, epoch: string) returns (reply: Reply<Receipt>)
      modifies this`clock, this`looks, this`submits, this`heard
      ensures clock == old(Ahead(1)) && looks == old(looks) + 1
      ensures reply == submitScript(|old(submits)|)
      ensures submits == old(submits) + [SubmitCall(requestId, text, epoch, reply)]
      ensures heard == old(heard) + if reply.Returns? then [HeardReceipt(reply.value)] else []
    {
      reply := submitScript(|submits|);
      submits := submits + [SubmitCall(requestId, text, epoch, reply)];
      if reply.Returns? { heard := heard + [HeardReceipt(reply.value)]; }
      var _ := Now();
    }

    method Status(requestId: string, epoch: string) returns (reply: Reply<StatusLookup>)
      modifies this`clock, this`looks, this`statuses, this`heard
      ensures clock == old(Ahead(1)) && looks == old(looks) + 1
      ensures reply == statusScript(|old(statuses)|)
      ensures statuses == old(statuses) + [Lookup(requestId, epoch, reply)]
      ensures heard == old(heard) + if reply.Returns? && reply.value.StatusFound? then [HeardStatus(reply.value.state, reply.value.detail)] else []
    {
      reply := statusScript(|statuses|);
      statuses := statuses + [Lookup(requestId, epoch, reply)];
      if reply.Returns? && reply.value.StatusFound? { heard := heard + [HeardStatus(reply.value.state, reply.value.detail)]; }
      var _ := Now();
    }

    method Reconcile(requestId: string, epoch: string) returns (reply: Reply<Reconciliation>)
      modifies this`clock, this`looks, this`reconciles, this`heard
      ensures clock == old(Ahead(1)) && looks == old(looks) + 1
      ensures reply == reconcileScript(|old(reconciles)|)
      ensures reconciles == old(reconciles) + [Lookup(requestId, epoch, reply)]
      ensures heard == old(heard) + if reply.Returns? then [HeardReconciliation(reply.value)] else []
    {
      reply := reconcileScript(|reconciles|);
      reconciles := reconciles + [Lookup(requestId, epoch, reply)];
      if reply.Returns? { heard := heard + [HeardReconciliation(reply.value)]; }
      var _ := Now();
    }

    method Publish(record: SubmitRecord)
      modifies this`published
      ensures published == old(published) + [record]
    {
      published := published + [record];
    }
  }

  /** Everything published from `from` on is the same message in some state; the last is `latest`. */
  predicate Published(records: seq<SubmitRecord>, from: nat, latest: SubmitRecord) {
    && from < |records| && records[|records| - 1] == latest
    && forall i :: from <= i < |records| ==> SameSubmission(records[i], latest)
  }

  /**
   At-most-once dispatch, of the calls from `from` on: every call repeats the same immutable message,
   and a further call is made only after a certificate that the previous one was never dispatched.
   */
  predicate AtMostOnce(calls: seq<SubmitCall>, from: nat, initial: SubmitRecord) {
    && from <= |calls| <= from + 2
    && (forall i :: from <= i < |calls| ==>
          calls[i].requestId == initial.requestId && calls[i].text == initial.text && calls[i].epoch == initial.expectedBridgeEpoch)
    && (|calls| == from + 2 ==> calls[from].reply.Throws? && calls[from].reply.error.PreDispatchError?)
  }

  /** A reconciliation quotes the lifecycle, unless it is unresolved and the lifecycle is unknown too. */
  predicate QuotesLifecycle(result: Reconciliation) {
    result.submissionState.Some? && !(result.state == ReconUnresolved && result.submissionState.value == Unknown)
  }

  /** The phase a piece of server evidence stands for. */
  function PhaseHeard(evidence: Heard): SubmitPhase {
    match evidence
    case HeardReceipt(receipt) =>
      (match receipt.acceptance
       case Immediate => Accepted
       case QueuedReceipt => QueuedPhase
       case RejectedReceipt => RejectedPhase
       case UnsupportedReceipt => UnsupportedPhase
       case UnknownReceipt => Ambiguous)
    case HeardStatus(state, _) => PhaseOf(state)
    case HeardReconciliation(result) =>
      if QuotesLifecycle(result) then PhaseOf(result.submissionState.value)
      else
        (match result.state
         case ReconAccepted => Accepted
         case ReconRejected => RejectedPhase
         case ReconUnsupported => UnsupportedPhase
         case ReconUnresolved => Reconciling)
  }

  /** The lifecycle word a receipt carries; a bare queued receipt is acceptance, not a lifecycle word. */
  function ReceiptWord(acceptance: Acceptance): Option<ServerState> {
    match acceptance
    case Immediate => Some(Delivered)
    case QueuedReceipt => None
    case RejectedReceipt => Some(Rejected)
    case UnsupportedReceipt => Some(Unsupported)
    case UnknownReceipt => Some(Unknown)
  }

  /** The record stores what the evidence says: its phase, its word, its authority and its detail. */
  predicate Reflects(record: SubmitRecord, evidence: Heard) {
    && record.phase == PhaseHeard(evidence)
    && match evidence
       case HeardReceipt(receipt) =>
         && record.receipt == Some(receipt) && record.expectedBridgeEpoch == receipt.bridgeEpoch
         && record.detail == receipt.detail && record.serverLifecycleState == ReceiptWord(receipt.acceptance)
       case HeardStatus(state, detail) => record.serverLifecycleState == Some(state) && record.detail == detail
       case HeardReconciliation(result) =>
         && record.reconciliation == Some(result) && record.expectedBridgeEpoch == result.bridgeEpoch
         && record.detail == result.detail
         && (QuotesLifecycle(result) ==> record.serverLifecycleState == result.submissionState)
  }

  /** A receipt is stored with the phase, the word and the epoch it stands for; what is definitive about the
      record is the definitive word of the receipt. */
  lemma ReceiptReflected(current: SubmitRecord, receipt: Receipt, at: int)
    requires current.phase !in {NotFoundPhase, GenerationLostPhase}
    ensures Reflects(ReduceReceipt(current, receipt, at), HeardReceipt(receipt))
    ensures DefinitiveWord(ReduceReceipt(current, receipt, at)) ==
            if receipt.acceptance in {Immediate, RejectedReceipt, UnsupportedReceipt} then ReceiptWord(receipt.acceptance) else None
  {
  }

  /** Phases that claim to know what the server did. */
  predicate ClaimsServerWord(phase: SubmitPhase) {
    phase in {Accepted, QueuedPhase, Delivering, WithdrawnPhase, RejectedPhase, UnsupportedPhase, Ambiguous}
  }

  /** A returned phase is final for this call, and a claim about the server is its latest word. */
  predicate HonestResult(record: SubmitRecord, heard: seq<Heard>) {
    && record.phase !in {Sending, Reconciling, Released, NotFoundPhase}
    && (ClaimsServerWord(record.phase) ==> heard != [] && Reflects(record, heard[|heard| - 1]))
  }

  // ---------------------------------------------------------------- attempts against the deadline

  method Race<T>(env: Environment, deadlineAt: int, remainingMs: int, reply: Reply<T>) returns (outcome: Attempt<T>)
    requires env.clock + remainingMs >= deadlineAt
    modifies env`clock, env`looks
    ensures outcome == Raced(reply, old(env.Ahead(1)), deadlineAt)
    ensures env.clock >= old(env.clock) && env.looks == old(env.looks) + if reply.Throws? then 0 else 1
    ensures !reply.Hangs? ==> env.clock == if reply.Throws? then old(env.clock) else old(env.Ahead(1))
    ensures !reply.Throws? && outcome.Failed? ==> env.clock >= deadlineAt
  {
    match reply
    case Hangs =>
      env.Sleep(remainingMs);
      outcome := Failed(DeadlineError);
    case Throws(error) => outcome := Failed(error);
    case Returns(value) =>
      var t := env.Now();
      if t >= deadlineAt { outcome := Failed(DeadlineError); } else { outcome := Completed(value); }
  }

  /** A failed attempt is excused by the deadline or by what the transport threw. */
  predicate Excused<T>(outcome: Attempt<T>, called: bool, reply: Reply<T>, clock: int, deadlineAt: int) {
    outcome.Failed? ==> (called && reply == Throws(outcome.error)) || (outcome.error.DeadlineError? && clock >= deadlineAt)
  }

  /** Exactly one call unless the deadline has passed when the attempt starts, and exactly what came of it. */
  method BoundedSubmit(env: Environment, deadlineAt: int, record: SubmitRecord) returns (outcome: Attempt<Receipt>)
    modifies env`clock, env`looks, env`submits, env`heard
    ensures env.clock >= old(env.Ahead(1)) >= old(env.clock)
    ensures outcome == old(env.NextSubmit(deadlineAt))
    ensures
      var called := old(env.Ahead(1)) < deadlineAt;
      var reply := env.submitScript(|old(env.submits)|);
      && env.submits == old(env.submits) +
           (if called then [SubmitCall(record.requestId, record.text, record.expectedBridgeEpoch, reply)] else [])
      && env.heard == old(env.heard) + (if called && reply.Returns? then [HeardReceipt(reply.value)] else [])
      && Excused(outcome, called, reply, env.clock, deadlineAt)
      && (called && reply.Throws? ==> env.clock == old(env.Ahead(2)) && env.looks == old(env.looks) + 2)
  {
    var t := env.Now();
    var remainingMs := deadlineAt - t;
    if remainingMs <= 0 { return Failed(DeadlineError); }
    var reply := env.Submit(record.requestId, record.text, record.expectedBridgeEpoch);
    outcome := Race(env, deadlineAt, remainingMs, reply);
  }

  method BoundedStatus(env: Environment, deadlineAt: int, record: SubmitRecord) returns (outcome: Attempt<StatusLookup>)
    modifies env`clock, env`looks, env`statuses, env`heard
    ensures env.clock >= old(env.Ahead(1)) >= old(env.clock)
    ensures outcome == old(env.NextStatus(deadlineAt))
    ensures
      var called := old(env.Ahead(1)) < deadlineAt;
      var reply := env.statusScript(|old(env.statuses)|);
      && env.statuses == old(env.statuses) + (if called then [Lookup(record.requestId, record.expectedBridgeEpoch, reply)] else [])
      && env.heard == old(env.heard) +
           (if called && reply.Returns? && reply.value.StatusFound? then [HeardStatus(reply.value.state, reply.value.detail)] else [])
      && Excused(outcome, called, reply, env.clock, deadlineAt)
  {
    var t := env.Now();
    var remainingMs := deadlineAt - t;
    if remainingMs <= 0 { return Failed(DeadlineError); }
    var reply := env.Status(record.requestId, record.expectedBridgeEpoch);
    outcome := Race(env, deadlineAt, remainingMs, reply);
  }

  method BoundedReconcile(env: Environment, deadlineAt: int, record: SubmitRecord) returns (outcome: Attempt<Reconciliation>)
    modifies env`clock, env`looks, env`reconciles, env`heard
    ensures env.clock >= old(env.Ahead(1)) >= old(env.clock)
    ensures outcome == old(env.NextReconcile(deadlineAt))
    ensures
      var called := old(env.Ahead(1)) < deadlineAt;
      var reply := env.reconcileScript(|old(env.reconciles)|);
      && env.reconciles == old(env.reconciles) + (if called then [Lookup(record.requestId, record.expectedBridgeEpoch, reply)] else [])
      && env.heard == old(env.heard) + (if called && reply.Returns? then [HeardReconciliation(reply.value)] else [])
      && Excused(outcome, called, reply, env.clock, deadlineAt)
  {
    var t := env.Now();
    var remainingMs := deadlineAt - t;
    if remainingMs <= 0 { return Failed(DeadlineError); }
    var reply := env.Reconcile(record.requestId, record.expectedBridgeEpoch);
    outcome := Race(env, deadlineAt, remainingMs, reply);
  }

  // ---------------------------------------------------------------- what may end or prolong the window

  /** The transport threw the error at one of the calls from `from` on. */
  ghost predicate ThrownIn<T(!new)>(log: seq<Lookup<T>>, from: nat, error: SubmitError) {
    exists i :: from <= i < |log| && log[i].reply == Throws(error)
  }

  lemma LastThrown<T(!new)>(log: seq<Lookup<T>>, from: nat, error: SubmitError)
    requires from < |log| && log[|log| - 1].reply == Throws(error)
    ensures ThrownIn(log, from, error)
  {
  }

  /** Every lookup from `from` on asks for the same request. */
  predicate AllFor<T>(log: seq<Lookup<T>>, from: nat, requestId: string) {
    from <= |log| && forall i :: from <= i < |log| ==> log[i].requestId == requestId
  }

  /** The record shows the error that ended the window. */
  predicate EndedBy(record: SubmitRecord, error: SubmitError) {
    match error
    case MismatchError(detail) =>
      record.phase == GenerationLostPhase && record.serverLifecycleState == None && record.detail == Some(detail)
    case RouteError(failure) =>
      record.phase == RouteErrorPhase && record.routeFailure == Some(failure) && record.detail == Some(failure.detail)
    case DeadlineError => record.phase == Endgame
    case _ => false
  }

  /** Errors after which the window goes on asking: a 503, and whatever is not classified. */
  predicate Transient(error: SubmitError) {
    error.PreDispatchError? || error.OtherError? || (error.RouteError? && error.failure.httpStatus == Some(503))
  }

  /** A phase that quotes no server word has its cause: the deadline, or an error of a call of this window. */
  ghost predicate Caused(
    record: SubmitRecord, statuses: seq<Lookup<StatusLookup>>, sFrom: nat, reconciles: seq<Lookup<Reconciliation>>, rFrom: nat,
    clock: int, deadlineAt: int)
  {
    record.phase in {GenerationLostPhase, RouteErrorPhase, Endgame} ==>
      || (record.phase == Endgame && clock >= deadlineAt)
      || exists error: SubmitError :: EndedBy(record, error) && (ThrownIn(statuses, sFrom, error) || ThrownIn(reconciles, rFrom, error))
  }

  lemma CausedEarlier(
    record: SubmitRecord, statuses: seq<Lookup<StatusLookup>>, sFrom: nat, sMid: nat,
    reconciles: seq<Lookup<Reconciliation>>, rFrom: nat, rMid: nat, clock: int, deadlineAt: int)
    requires sFrom <= sMid && rFrom <= rMid && Caused(record, statuses, sMid, reconciles, rMid, clock, deadlineAt)
    ensures Caused(record, statuses, sFrom, reconciles, rFrom, clock, deadlineAt)
  {
    if record.phase in {GenerationLostPhase, RouteErrorPhase, Endgame} && !(record.phase == Endgame && clock >= deadlineAt) {
      var error :| EndedBy(record, error) && (ThrownIn(statuses, sMid, error) || ThrownIn(reconciles, rMid, error));
      assert ThrownIn(statuses, sFrom, error) || ThrownIn(reconciles, rFrom, error);
    }
  }

  // ---------------------------------------------------------------- the reconcile window

  method Finish(env: Environment, record: SubmitRecord) returns (ended: SubmitRecord)
    modifies env`clock, env`looks, env`published
    ensures env.clock >= old(env.clock)
    ensures ended.phase == Endgame && SameSubmission(ended, record) && ended.reconcileAttempts == record.reconcileAttempts
    ensures env.published == old(env.published) + [ended]
  {
    var first := env.Now();
    var refreshed := RefreshReconcileElapsed(record, first);
    var second := env.Now();
    ended := EnterEndgame(refreshed, second);
    env.Publish(ended);
  }

  /** The error ends the window: by itself, or because the deadline has passed meanwhile. */
  function Ends(error: SubmitError, late: bool): bool {
    late || !Transient(error)
  }

  /** What the catch arm of the reconcile loop makes of an error. */
  method ReconcileCatch(env: Environment, error: SubmitError, record: SubmitRecord, deadlineAt: int)
    returns (next: SubmitRecord, done: bool)
    modifies env`clock, env`looks, env`published
    ensures env.clock >= old(env.clock)
    ensures SameSubmission(next, record) && next.reconcileAttempts == record.reconcileAttempts
    ensures env.published == old(env.published) + [next]
    ensures done <==> Ends(error, old(env.Ahead(1)) >= deadlineAt)
    ensures done ==> next.phase in {GenerationLostPhase, Endgame, RouteErrorPhase}
    ensures done ==> EndedBy(next, error) || (next.phase == Endgame && env.clock >= deadlineAt)
    ensures !done ==> next.phase == record.phase && next.detail == Some(Message(error))
    ensures error.MismatchError? ==> next.phase == GenerationLostPhase
  {
    if error.MismatchError? {
      var t := env.Now();
      next := record.(phase := GenerationLostPhase, serverLifecycleState := None, detail := Some(error.detail), updatedAt := t);
      env.Publish(next);
      return next, true;
    }
    var late := error.DeadlineError?;
    if !late {
      var t := env.Now();
      late := t >= deadlineAt;
    }
    if late {
      next := Finish(env, record);
      return next, true;
    }
    var at := env.Now();
    if error.RouteError? && error.failure.httpStatus != Some(503) {
      next := record.(phase := RouteErrorPhase, routeFailure := Some(error.failure), detail := Some(error.failure.detail), updatedAt := at);
      env.Publish(next);
      return next, true;
    }
    next := record.(detail := Some(Message(error)), updatedAt := at);
    env.Publish(next);
    done := false;
  }

  function Message(error: SubmitError): string {
    match error
    case DeadlineError => "attempt reached the reliable-submit wall-clock deadline"
    case MismatchError(detail) => detail
    case PreDispatchError(detail) => detail
    case RouteError(failure) => failure.detail
    case OtherError(detail) => detail
  }

  lemma PublishedJoin(records: seq<SubmitRecord>, from: nat, mid: nat, earlier: SubmitRecord, latest: SubmitRecord)
    requires mid <= |records| && Published(records[..mid], from, earlier) && Published(records, mid, latest)
    requires SameSubmission(latest, earlier)
    ensures Published(records, from, latest)
  {
    forall i | from <= i < |records| ensures SameSubmission(records[i], latest) {
      if i < mid { assert records[i] == records[..mid][i]; }
    }
  }

  /** Everything published from `from` on, possibly nothing, is the message of `record`. */
  predicate PublishedOnly(records: seq<SubmitRecord>, from: nat, record: SubmitRecord) {
    forall i :: from <= i < |records| ==> SameSubmission(records[i], record)
  }

  /** A status that resolves the record: any lifecycle word but unknown. */
  predicate Resolves(status: Attempt<StatusLookup>) {
    status.Completed? && status.value.StatusFound? && status.value.state != Unknown
  }

  /** applyLifecycleReconcile: project the authority's status word, if it has one. */
  method ApplyLifecycleReconcile(env: Environment, waiting: SubmitRecord, hasLifecycle: bool, deadlineAt: int)
    returns (record: SubmitRecord, resolved: bool, error: Option<SubmitError>)
    modifies env`clock, env`looks, env`statuses, env`heard, env`published
    ensures env.clock >= old(env.clock) && (hasLifecycle ==> env.clock >= old(env.Ahead(1)))
    ensures SameSubmission(record, waiting) && record.reconcileAttempts == waiting.reconcileAttempts
    ensures old(env.statuses) <= env.statuses && AllFor(env.statuses, |old(env.statuses)|, waiting.requestId)
    ensures |env.statuses| == |old(env.statuses)| + if hasLifecycle && old(env.Ahead(1)) < deadlineAt then 1 else 0
    ensures old(env.published) <= env.published && PublishedOnly(env.published, |old(env.published)|, record)
    ensures resolved <==> hasLifecycle && Resolves(old(env.NextStatus(deadlineAt)))
    ensures resolved ==> record.phase == PhaseOf(old(env.NextStatus(deadlineAt)).value.state)
    ensures resolved ==> HonestResult(record, env.heard) && Published(env.published, |old(env.published)|, record)
    ensures !hasLifecycle ==> record == waiting && env.clock == old(env.clock) && env.looks == old(env.looks)
    ensures error == if hasLifecycle && old(env.NextStatus(deadlineAt)).Failed? then Some(old(env.NextStatus(deadlineAt)).error) else None
    ensures error.Some? ==> ThrownIn(env.statuses, |old(env.statuses)|, error.value) || (error.value.DeadlineError? && env.clock >= deadlineAt)
  {
    record, resolved, error := waiting, false, None;
    if !hasLifecycle { return; }
    var status := BoundedStatus(env, deadlineAt, record);
    if status.Failed? {
      error := Some(status.error);
      if |env.statuses| > |old(env.statuses)| && env.statuses[|env.statuses| - 1].reply == Throws(status.error) {
        LastThrown(env.statuses, |old(env.statuses)|, status.error);
      }
    } else if status.value.StatusFound? {
      var t := env.Now();
      record := ProjectLifecycle(record, status.value.state, status.value.detail, t);
      env.Publish(record);
      resolved := record.phase != Ambiguous;
    }
  }

  /** The same-id reconciliation: its answer projected, or the error it came to. */
  method AskReconciliation(env: Environment, waiting: SubmitRecord, deadlineAt: int)
    returns (record: SubmitRecord, done: bool, error: Option<SubmitError>, ghost result: Attempt<Reconciliation>)
    modifies env`clock, env`looks, env`reconciles, env`heard, env`published
    ensures result == old(env.NextReconcile(deadlineAt))
    ensures env.clock >= old(env.Ahead(1)) >= old(env.clock)
    ensures SameSubmission(record, waiting) && record.reconcileAttempts == waiting.reconcileAttempts
    ensures old(env.reconciles) <= env.reconciles && AllFor(env.reconciles, |old(env.reconciles)|, waiting.requestId)
    ensures |env.reconciles| == |old(env.reconciles)| + if old(env.Ahead(1)) < deadlineAt then 1 else 0
    ensures old(env.published) <= env.published && PublishedOnly(env.published, |old(env.published)|, record)
    ensures
      if result.Completed? then
        && error.None? && (done <==> PhaseHeard(HeardReconciliation(result.value)) != Reconciling)
        && Reflects(record, HeardReconciliation(result.value)) && Published(env.published, |old(env.published)|, record)
        && (done ==> HonestResult(record, env.heard))
        && |env.reconciles| > |old(env.reconciles)| && env.reconciles[|env.reconciles| - 1].reply == Returns(result.value)
      else
        && !done && error == Some(result.error) && record == waiting
        && (ThrownIn(env.reconciles, |old(env.reconciles)|, result.error) || (result.error.DeadlineError? && env.clock >= deadlineAt))
  {
    record, done, error := waiting, false, None;
    var outcome := BoundedReconcile(env, deadlineAt, record);
    result := outcome;
    if outcome.Completed? {
      var at := env.Now();
      record := ReduceReconciliation(record, outcome.value, at);
      env.Publish(record);
      done := record.phase != Reconciling;
    } else {
      error := Some(outcome.error);
      if |env.reconciles| > |old(env.reconciles)| && env.reconciles[|env.reconciles| - 1].reply == Throws(result.error) {
        LastThrown(env.reconciles, |old(env.reconciles)|, result.error);
      }
    }
  }

  /** The window goes on only after an unresolved reconciliation or a transient error. */
  ghost predicate Unsettled(
    statuses: seq<Lookup<StatusLookup>>, sFrom: nat, reconciles: seq<Lookup<Reconciliation>>, rFrom: nat)
  {
    || (rFrom < |reconciles| && reconciles[|reconciles| - 1].reply.Returns?
        && PhaseHeard(HeardReconciliation(reconciles[|reconciles| - 1].reply.value)) == Reconciling)
    || exists error: SubmitError :: Transient(error) && (ThrownIn(statuses, sFrom, error) || ThrownIn(reconciles, rFrom, error))
  }

  /** The error a catch arm was given is the cause of the end, or of going on. */
  lemma CatchExplained(
    record: SubmitRecord, done: bool, error: SubmitError, late: bool, statuses: seq<Lookup<StatusLookup>>, sFrom: nat,
    reconciles: seq<Lookup<Reconciliation>>, rFrom: nat, clock: int, deadlineAt: int)
    requires ThrownIn(statuses, sFrom, error) || ThrownIn(reconciles, rFrom, error) || (error.DeadlineError? && clock >= deadlineAt)
    requires done <==> Ends(error, late)
    requires done ==> EndedBy(record, error) || (record.phase == Endgame && clock >= deadlineAt)
    ensures done ==> Caused(record, statuses, sFrom, reconciles, rFrom, clock, deadlineAt)
    ensures !done ==> Unsettled(statuses, sFrom, reconciles, rFrom)
  {
  }

  /** A claim about the server is made on a call of this window. */
  predicate Grounded(record: SubmitRecord, calls: int) {
    ClaimsServerWord(record.phase) ==> calls > 0
  }

  /** Where the calls of one attempt stand against its deadline. */
  predicate AsksOnce(hasLifecycle: bool, inTime: bool, statuses: int, reconciles: int) {
    && 0 <= statuses <= (if hasLifecycle then 1 else 0) && 0 <= reconciles <= 1
    && (inTime ==> if hasLifecycle then statuses == 1 else reconciles == 1)
  }

  /** The try block: the lifecycle status, then the same-id reconciliation, up to the first error. */
  method ReconcileTry(env: Environment, waiting: SubmitRecord, hasLifecycle: bool, deadlineAt: int)
    returns (record: SubmitRecord, done: bool, error: Option<SubmitError>)
    modifies env`clock, env`looks, env`statuses, env`reconciles, env`heard, env`published
    ensures env.clock >= old(env.clock)
    ensures SameSubmission(record, waiting) && record.reconcileAttempts == waiting.reconcileAttempts
    ensures old(env.statuses) <= env.statuses && AllFor(env.statuses, |old(env.statuses)|, waiting.requestId)
    ensures old(env.reconciles) <= env.reconciles && AllFor(env.reconciles, |old(env.reconciles)|, waiting.requestId)
    ensures AsksOnce(hasLifecycle, env.clock < deadlineAt, |env.statuses| - |old(env.statuses)|, |env.reconciles| - |old(env.reconciles)|)
    ensures
      var status := old(env.NextStatus(deadlineAt));
      hasLifecycle ==>
        && (Resolves(status) ==> done && record.phase == PhaseOf(status.value.state))
        && (Resolves(status) || status.Failed? ==> env.reconciles == old(env.reconciles))
        && (status.Completed? && !Resolves(status) && env.clock < deadlineAt ==> |env.reconciles| == |old(env.reconciles)| + 1)
    ensures
      var result := old(env.NextReconcile(deadlineAt));
      !hasLifecycle && result.Completed? ==>
        && error.None? && Reflects(record, HeardReconciliation(result.value))
        && (done <==> PhaseHeard(HeardReconciliation(result.value)) != Reconciling)
    ensures old(env.published) <= env.published && PublishedOnly(env.published, |old(env.published)|, record)
    ensures error.None? ==> Published(env.published, |old(env.published)|, record)
    ensures done ==> |env.statuses| + |env.reconciles| > |old(env.statuses)| + |old(env.reconciles)|
    ensures done ==> error.None? && HonestResult(record, env.heard) && record.phase !in {GenerationLostPhase, RouteErrorPhase, Endgame}
    ensures !done && error.None? ==> Unsettled(env.statuses, |old(env.statuses)|, env.reconciles, |old(env.reconciles)|)
    ensures error.Some? ==>
              || ThrownIn(env.statuses, |old(env.statuses)|, error.value)
              || ThrownIn(env.reconciles, |old(env.reconciles)|, error.value)
              || (error.value.DeadlineError? && env.clock >= deadlineAt)
  {
    record, done, error := ApplyLifecycleReconcile(env, waiting, hasLifecycle, deadlineAt);
    if done || error.Some? { return; }
    ghost var result;
    record, done, error, result := AskReconciliation(env, record, deadlineAt);
  }

  /** One attempt: the try block and its catch. */
  method ReconcileOnce(env: Environment, waiting: SubmitRecord, hasLifecycle: bool, deadlineAt: int)
    returns (record: SubmitRecord, done: bool)
    modifies env`clock, env`looks, env`statuses, env`reconciles, env`heard, env`published
    ensures env.clock >= old(env.clock)
    ensures SameSubmission(record, waiting) && record.reconcileAttempts == waiting.reconcileAttempts
    ensures old(env.statuses) <= env.statuses && AllFor(env.statuses, |old(env.statuses)|, waiting.requestId)
    ensures old(env.reconciles) <= env.reconciles && AllFor(env.reconciles, |old(env.reconciles)|, waiting.requestId)
    ensures AsksOnce(hasLifecycle, env.clock < deadlineAt, |env.statuses| - |old(env.statuses)|, |env.reconciles| - |old(env.reconciles)|)
    ensures hasLifecycle && Resolves(old(env.NextStatus(deadlineAt))) ==> done && record.phase == PhaseOf(old(env.NextStatus(deadlineAt)).value.state)
    ensures
      var result := old(env.NextReconcile(deadlineAt));
      !hasLifecycle && result.Completed? ==>
        Reflects(record, HeardReconciliation(result.value)) && (done <==> PhaseHeard(HeardReconciliation(result.value)) != Reconciling)
    ensures old(env.published) <= env.published && Published(env.published, |old(env.published)|, record)
    ensures done ==> HonestResult(record, env.heard)
    ensures done ==> Grounded(record, |env.statuses| + |env.reconciles| - |old(env.statuses)| - |old(env.reconciles)|)
    ensures done ==> Caused(record, env.statuses, |old(env.statuses)|, env.reconciles, |old(env.reconciles)|, env.clock, deadlineAt)
    ensures !done ==> Unsettled(env.statuses, |old(env.statuses)|, env.reconciles, |old(env.reconciles)|)
  {
    var error;
    record, done, error := ReconcileTry(env, waiting, hasLifecycle, deadlineAt);
    if error.None? { return; }
    ghost var late := env.Ahead(1) >= deadlineAt;
    record, done := ReconcileCatch(env, error.value, record, deadlineAt);
    CatchExplained(record, done, error.value, late, env.statuses, |old(env.statuses)|, env.reconciles, |old(env.reconciles)|,
                   env.clock, deadlineAt);
  }

  /** How much sooner than a constant five seconds the backoff schedule runs from attempt `a` on. */
  function Lead(a: nat): int {
    if a == 0 then 7_000 else if a == 1 then 3_000 else 0
  }

  lemma LeadSpent(a: nat)
    ensures Lead(a) + ReconcileDelay(a) == 5_000 + Lead(a + 1)
  {
  }

  /** Every attempt is paid for with five seconds, less the lead of the initial ramp, and begins before the
      deadline; so fewer than (window + 7 s) / 5 s attempts fit. */
  predicate Paced(elapsed: int, windowMs: int, from: nat, attempts: nat) {
    && elapsed >= 5_000 * attempts - Lead(from) + Lead(from + attempts)
    && (attempts == 0 || 5_000 * attempts < windowMs + 7_000)
  }

  lemma PacedNext(before: int, after: int, windowMs: int, from: nat, attempts: nat, attempted: bool)
    requires Paced(before, windowMs, from, attempts) && before <= after
    requires attempted ==> before + ReconcileDelay(from + attempts) <= after && before + ReconcileDelay(from + attempts) < windowMs
    ensures Paced(after, windowMs, from, if attempted then attempts + 1 else attempts)
  {
    LeadSpent(from + attempts);
  }

  /** The backoff before an attempt, cut at the deadline: at the deadline the endgame, else a counted attempt. */
  method PayDelay(env: Environment, waiting: SubmitRecord, deadlineAt: int) returns (record: SubmitRecord, ended: bool)
    modifies env`clock, env`looks, env`published
    ensures env.clock >= old(env.clock) && SameSubmission(record, waiting)
    ensures ended <==> old(env.Ahead(3)) + ReconcileDelay(waiting.reconcileAttempts) >= deadlineAt
    ensures ended ==> record.phase == Endgame && record.reconcileAttempts == waiting.reconcileAttempts && env.clock >= deadlineAt
    ensures !ended ==> record.phase == Reconciling && record.reconcileAttempts == waiting.reconcileAttempts + 1
    ensures !ended ==> old(env.clock) + ReconcileDelay(waiting.reconcileAttempts) <= env.clock
    ensures env.published == old(env.published) + [record]
  {
    var t := env.Now();
    var remainingMs := deadlineAt - t;
    if remainingMs <= 0 {
      record := Finish(env, waiting);
      return record, true;
    }
    var delayMs := ReconcileDelay(waiting.reconcileAttempts);
    env.Sleep(if delayMs <= remainingMs then delayMs else remainingMs);
    var woke := env.Now();
    if woke >= deadlineAt {
      record := Finish(env, waiting);
      return record, true;
    }
    var at := env.Now();
    record := RecordReconcileDelay(waiting, at);
    env.Publish(record);
    ended := false;
  }

  /** The body of the reconcile loop: an attempt exactly if the deadline is still ahead after the delay, else
      the endgame. */
  method ReconcileTurn(env: Environment, waiting: SubmitRecord, hasLifecycle: bool, deadlineAt: int)
    returns (record: SubmitRecord, done: bool)
    modifies env`clock, env`looks, env`statuses, env`reconciles, env`heard, env`published
    ensures env.clock >= old(env.clock) && SameSubmission(record, waiting)
    ensures
      var delayMs := ReconcileDelay(waiting.reconcileAttempts);
      if old(env.Ahead(3)) + delayMs < deadlineAt then
        && record.reconcileAttempts == waiting.reconcileAttempts + 1 && old(env.clock) + delayMs <= env.clock
        && (done ==> Caused(record, env.statuses, |old(env.statuses)|, env.reconciles, |old(env.reconciles)|, env.clock, deadlineAt))
        && (!done ==> Unsettled(env.statuses, |old(env.statuses)|, env.reconciles, |old(env.reconciles)|))
      else
        && done && record.phase == Endgame && record.reconcileAttempts == waiting.reconcileAttempts && env.clock >= deadlineAt
        && env.statuses == old(env.statuses) && env.reconciles == old(env.reconciles)
    ensures record.reconcileAttempts > waiting.reconcileAttempts ==>
              AsksOnce(hasLifecycle, env.clock < deadlineAt, |env.statuses| - |old(env.statuses)|, |env.reconciles| - |old(env.reconciles)|)
    ensures old(env.statuses) <= env.statuses && AllFor(env.statuses, |old(env.statuses)|, waiting.requestId)
    ensures old(env.reconciles) <= env.reconciles && AllFor(env.reconciles, |old(env.reconciles)|, waiting.requestId)
    ensures old(env.published) <= env.published && Published(env.published, |old(env.published)|, record)
    ensures done ==> HonestResult(record, env.heard)
    ensures done ==> Grounded(record, |env.statuses| + |env.reconciles| - |old(env.statuses)| - |old(env.reconciles)|)
  {
    ghost var before := env.published;
    record, done := PayDelay(env, waiting, deadlineAt);
    if done { return; }
    ghost var delayed, mid := record, env.published;
    record, done := ReconcileOnce(env, record, hasLifecycle, deadlineAt);
    PublishedJoin(env.published, |before|, |mid|, delayed, record);
  }

  /** The calls of a window against its attempts: each attempt asks, but for the last if the deadline cut it. */
  predicate Asks(calls: int, attempts: int, inTime: bool) {
    calls <= attempts && (if inTime then calls == attempts else calls >= attempts - 1)
  }

  /** The calls of a window so far: all for one request, and as many as its attempts ask. */
  predicate Logged(
    statuses: seq<Lookup<StatusLookup>>, sFrom: nat, reconciles: seq<Lookup<Reconciliation>>, rFrom: nat, requestId: string,
    hasLifecycle: bool, attempts: nat, inTime: bool)
  {
    && AllFor(statuses, sFrom, requestId) && AllFor(reconciles, rFrom, requestId)
    && |statuses| <= sFrom + attempts && |reconciles| <= rFrom + attempts
    && (if hasLifecycle then Asks(|statuses| - sFrom, attempts, inTime) else Asks(|reconciles| - rFrom, attempts, inTime))
  }

  lemma LoggedNext(
    statuses: seq<Lookup<StatusLookup>>, sFrom: nat, more: seq<Lookup<StatusLookup>>,
    reconciles: seq<Lookup<Reconciliation>>, rFrom: nat, others: seq<Lookup<Reconciliation>>, requestId: string,
    hasLifecycle: bool, attempts: nat, before: bool, inTime: bool, attempted: bool)
    requires Logged(statuses, sFrom, reconciles, rFrom, requestId, hasLifecycle, attempts, before)
    requires statuses <= more && AllFor(more, |statuses|, requestId) && reconciles <= others && AllFor(others, |reconciles|, requestId)
    requires inTime || attempted ==> before
    requires attempted ==> AsksOnce(hasLifecycle, inTime, |more| - |statuses|, |others| - |reconciles|)
    requires !attempted ==> more == statuses && others == reconciles && !inTime
    ensures Logged(more, sFrom, others, rFrom, requestId, hasLifecycle, if attempted then attempts + 1 else attempts, inTime)
  {
  }

  /** What a window starts from. */
  datatype Opening = Opening(
    record: SubmitRecord, statuses: seq<Lookup<StatusLookup>>, reconciles: seq<Lookup<Reconciliation>>, published: seq<SubmitRecord>,
    startedAt: int, deadlineAt: int)

  /** How a window stands: the same message, its attempts paced, its calls logged, its records published. */
  ghost predicate InWindow(env: Environment, o: Opening, hasLifecycle: bool, record: SubmitRecord)
    reads env
  {
    && SameSubmission(record, o.record) && record.reconcileAttempts >= o.record.reconcileAttempts
    && o.statuses <= env.statuses && o.reconciles <= env.reconciles && o.published <= env.published
    && Published(env.published, |o.published|, record)
    && var attempts := record.reconcileAttempts - o.record.reconcileAttempts;
    && Paced(env.clock - o.startedAt, o.deadlineAt - o.startedAt, o.record.reconcileAttempts, attempts)
    && Logged(env.statuses, |o.statuses|, env.reconciles, |o.reconciles|, o.record.requestId, hasLifecycle, attempts, env.clock < o.deadlineAt)
  }

  /** One turn of the loop, seen from the start of the window. */
  method WindowTurn(env: Environment, waiting: SubmitRecord, hasLifecycle: bool, deadlineAt: int, ghost o: Opening)
    returns (record: SubmitRecord, done: bool)
    requires InWindow(env, o, hasLifecycle, waiting) && o.deadlineAt == deadlineAt
    modifies env`clock, env`looks, env`statuses, env`reconciles, env`heard, env`published
    ensures InWindow(env, o, hasLifecycle, record) && env.clock >= old(env.clock)
    ensures record.reconcileAttempts ==
              waiting.reconcileAttempts + if old(env.Ahead(3)) + ReconcileDelay(waiting.reconcileAttempts) < deadlineAt then 1 else 0
    ensures !done ==> record.reconcileAttempts > waiting.reconcileAttempts && env.clock > old(env.clock) && old(env.clock) < deadlineAt
    ensures done ==> HonestResult(record, env.heard)
    ensures done ==> Grounded(record, |env.statuses| + |env.reconciles| - |o.statuses| - |o.reconciles|)
    ensures done ==> Caused(record, env.statuses, |o.statuses|, env.reconciles, |o.reconciles|, env.clock, deadlineAt)
  {
    ghost var mid, ss, rs := env.published, env.statuses, env.reconciles;
    record, done := ReconcileTurn(env, waiting, hasLifecycle, deadlineAt);
    ghost var attempts, attempted := waiting.reconcileAttempts - o.record.reconcileAttempts, record.reconcileAttempts > waiting.reconcileAttempts;
    PublishedJoin(env.published, |o.published|, |mid|, waiting, record);
    LoggedNext(ss, |o.statuses|, env.statuses, rs, |o.reconciles|, env.reconciles, o.record.requestId, hasLifecycle, attempts,
               old(env.clock) < deadlineAt, env.clock < deadlineAt, attempted);
    PacedNext(old(env.clock) - o.startedAt, env.clock - o.startedAt, deadlineAt - o.startedAt, o.record.reconcileAttempts, attempts, attempted);
    if done { CausedEarlier(record, env.statuses, |o.statuses|, |ss|, env.reconciles, |o.reconciles|, |rs|, env.clock, deadlineAt); }
  }

  /**
   reconcileWindow. Terminates on the deadline, with attempts paced by the backoff. It gives up on nothing but
   the deadline or an error of the transport, and each attempt asks.
   */
  method ReconcileWindow(env: Environment, initial: SubmitRecord, hasLifecycle: bool, windowStartedAt: int, deadlineAt: int)
    returns (record: SubmitRecord)
    requires env.clock >= windowStartedAt
    modifies env`clock, env`looks, env`statuses, env`reconciles, env`heard, env`published
    ensures env.clock >= old(env.clock)
    ensures HonestResult(record, env.heard)
    ensures Grounded(record, |env.statuses| + |env.reconciles| - |old(env.statuses)| - |old(env.reconciles)|)
    ensures Caused(record, env.statuses, |old(env.statuses)|, env.reconciles, |old(env.reconciles)|, env.clock, deadlineAt)
    ensures old(env.Ahead(4)) + ReconcileDelay(initial.reconcileAttempts) < deadlineAt ==> record.reconcileAttempts > initial.reconcileAttempts
    ensures InWindow(env, Opening(initial, old(env.statuses), old(env.reconciles), old(env.published), windowStartedAt, deadlineAt), hasLifecycle, record)
  {
    ghost var o := Opening(initial, env.statuses, env.reconciles, env.published, windowStartedAt, deadlineAt);
    ghost var next := env.Ahead(4);
    var start := env.Now();
    assert next == env.Ahead(3);
    record := EnterReconcileWindow(initial, start, windowStartedAt);
    env.Publish(record);
    ghost var clock := env.clock;
    var done;
    record, done := WindowTurn(env, record, hasLifecycle, deadlineAt, o);
    while !done
      invariant env.clock >= old(env.clock) && InWindow(env, o, hasLifecycle, record)
      invariant next + ReconcileDelay(initial.reconcileAttempts) < deadlineAt ==> record.reconcileAttempts > initial.reconcileAttempts
      invariant done ==> HonestResult(record, env.heard)
      invariant done ==> Grounded(record, |env.statuses| + |env.reconciles| - |o.statuses| - |o.reconciles|)
      invariant done ==> Caused(record, env.statuses, |o.statuses|, env.reconciles, |o.reconciles|, env.clock, deadlineAt)
      decreases !done, deadlineAt - env.clock
    {
      record, done := WindowTurn(env, record, hasLifecycle, deadlineAt, o);
    }
  }

  // ---------------------------------------------------------------- submit

  /** What the record shows after an error of the submit route that is not retried. */
  predicate SubmitEndedBy(record: SubmitRecord, error: SubmitError) {
    match error
    case MismatchError(_) => EndedBy(record, error)
    case RouteError(_) => EndedBy(record, error)
    case PreDispatchError(detail) =>
      record.phase == RouteErrorPhase && record.routeFailure == Some(RouteFailure(None, "pre-dispatch-failed", detail))
    case _ => record.phase == Ambiguous && record.detail == Some(Message(error))
  }

  /** What the catch arm of the submit loop makes of an error. */
  method SubmitCatch(env: Environment, error: SubmitError, record: SubmitRecord, preDispatchRetries: nat)
    returns (next: SubmitRecord, retry: bool)
    modifies env`clock, env`looks, env`published
    ensures env.clock >= old(env.clock)
    ensures retry <==> error.PreDispatchError? && preDispatchRetries == 0
    ensures retry ==> next == record && env.published == old(env.published) && env.clock == old(env.clock) && env.looks == old(env.looks)
    ensures !retry ==> SubmitEndedBy(next, error) && env.published == old(env.published) + [next]
    ensures SameSubmission(next, record) && next.reconcileAttempts == record.reconcileAttempts
  {
    retry := false;
    if error.MismatchError? {
      var t := env.Now();
      next := record.(phase := GenerationLostPhase, serverLifecycleState := None, detail := Some(error.detail), updatedAt := t);
    } else if error.PreDispatchError? && preDispatchRetries == 0 {
      return record, true;
    } else if error.RouteError? || error.PreDispatchError? {
      var failure := if error.RouteError? then error.failure else RouteFailure(None, "pre-dispatch-failed", error.detail);
      var t := env.Now();
      next := record.(phase := RouteErrorPhase, routeFailure := Some(failure), detail := Some(failure.detail), updatedAt := t);
    } else {
      var t := env.Now();
      next := record.(phase := Ambiguous, detail := Some(Message(error)), updatedAt := t);
    }
    env.Publish(next);
  }

  /** The call that a record posts. */
  function CallOf(record: SubmitRecord, reply: Reply<Receipt>): SubmitCall {
    SubmitCall(record.requestId, record.text, record.expectedBridgeEpoch, reply)
  }

  /** What a submit attempt makes of the record. */
  predicate SubmitShows(record: SubmitRecord, attempt: Attempt<Receipt>) {
    if attempt.Completed? then Reflects(record, HeardReceipt(attempt.value)) else SubmitEndedBy(record, attempt.error)
  }

  /** The body of the submit loop: one call, unless the deadline has passed, and what its outcome makes of the
      record. */
  method SubmitOnce(env: Environment, initial: SubmitRecord, deadlineAt: int, preDispatchRetries: nat)
    returns (record: SubmitRecord, retry: bool, ghost attempt: Attempt<Receipt>)
    modifies env`clock, env`looks, env`submits, env`heard, env`published
    ensures env.clock >= old(env.clock) && attempt == old(env.NextSubmit(deadlineAt))
    ensures env.submits == old(env.submits) +
              if old(env.Ahead(1)) < deadlineAt then [CallOf(initial, env.submitScript(|old(env.submits)|))] else []
    ensures retry <==> Certified(attempt) && preDispatchRetries == 0
    ensures !retry ==> SubmitShows(record, attempt)
    ensures retry ==> record == initial && env.published == old(env.published)
    ensures retry ==> env.clock == old(env.Ahead(2)) && env.looks == old(env.looks) + 2 && old(env.Ahead(1)) < deadlineAt
    ensures SameSubmission(record, initial) && record.reconcileAttempts == initial.reconcileAttempts
    ensures !retry && record.phase != Ambiguous ==> HonestResult(record, env.heard)
    ensures !retry ==> env.published == old(env.published) + [record]
  {
    var outcome := BoundedSubmit(env, deadlineAt, initial);
    attempt := outcome;
    if outcome.Completed? {
      var at := env.Now();
      record := ReduceReceipt(initial, outcome.value, at);
      env.Publish(record);
      retry := false;
    } else {
      record, retry := SubmitCatch(env, outcome.error, initial, preDispatchRetries);
    }
  }

  /** An attempt that leaves the outcome open: the deadline, an unclassified error, or an unknown receipt. */
  predicate LeavesOpen(attempt: Attempt<Receipt>) {
    if attempt.Completed? then attempt.value.acceptance == UnknownReceipt else attempt.error.DeadlineError? || attempt.error.OtherError?
  }

  lemma OpenIsAmbiguous(record: SubmitRecord, attempt: Attempt<Receipt>)
    requires SubmitShows(record, attempt)
    ensures record.phase == Ambiguous <==> LeavesOpen(attempt)
  {
  }

  /** The calls of the submit phase: so many, and every one the same message. */
  predicate Posts(before: seq<SubmitCall>, after: seq<SubmitCall>, initial: SubmitRecord, count: nat, script: nat -> Reply<Receipt>) {
    && |after| == |before| + count && before <= after
    && forall i :: |before| <= i < |after| ==> after[i] == CallOf(initial, script(i))
  }

  /** The posts of the loop, from those before its last round. */
  lemma PostsSettled(
    script: nat -> Reply<Receipt>, drift: nat -> nat, m: Moment, deadlineAt: int, before: seq<SubmitCall>, mid: seq<SubmitCall>,
    after: seq<SubmitCall>, initial: SubmitRecord, retried: bool)
    requires m.posted == |before| && (retried <==> Certified(SubmitAttempt(script, drift, m, deadlineAt)))
    requires if retried then Look(drift, m).clock < deadlineAt && Posts(before, mid, initial, 1, script) else mid == before
    requires
      var here := if retried then AfterThrow(drift, m) else m;
      after == mid + if Look(drift, here).clock < deadlineAt then [CallOf(initial, script(|mid|))] else []
    ensures Posts(before, after, initial, SubmitCount(script, drift, m, deadlineAt), script)
  {
  }

  /** The submit loop: the posts and the verdict that the scripts and the clock hold. */
  method SubmitLoop(env: Environment, initial: SubmitRecord, deadlineAt: int) returns (record: SubmitRecord)
    requires env.published != [] && env.published[|env.published| - 1] == initial
    modifies env`clock, env`looks, env`submits, env`heard, env`published
    ensures env.clock >= old(env.clock)
    ensures env.PostsFrom(old(env.Here()), deadlineAt, old(env.submits), env.submits, initial)
    ensures SubmitShows(record, env.VerdictFrom(old(env.Here()), deadlineAt))
    ensures SameSubmission(record, initial) && record.reconcileAttempts == initial.reconcileAttempts
    ensures record.phase != Ambiguous ==> HonestResult(record, env.heard)
    ensures env.published == old(env.published) + [record]
  {
    ghost var m := env.Here();
    ghost var again := AfterThrow(env.drift, m);
    ghost var first, second := env.NextSubmit(deadlineAt), SubmitAttempt(env.submitScript, env.drift, again, deadlineAt);
    ghost var before := env.submits;
    var preDispatchRetries: nat := 0;
    var retry := true;
    record := initial;
    while retry
      invariant 0 <= preDispatchRetries <= 1 && env.clock >= old(env.clock)
      invariant retry ==> env.published == old(env.published) && record == initial
      invariant retry && preDispatchRetries == 0 ==> env.submits == before && env.Here() == m
      invariant retry && preDispatchRetries == 1 ==>
                  env.Here() == again && Certified(first) && Look(env.drift, m).clock < deadlineAt && Posts(before, env.submits, initial, 1, env.submitScript)
      invariant !retry ==> SubmitShows(record, if Certified(first) then second else first)
      invariant !retry ==> env.PostsFrom(m, deadlineAt, before, env.submits, initial)
      invariant !retry ==> (record.phase != Ambiguous ==> HonestResult(record, env.heard)) && env.published == old(env.published) + [record]
      invariant SameSubmission(record, initial) && record.reconcileAttempts == initial.reconcileAttempts
      decreases retry, 1 - preDispatchRetries
    {
      ghost var attempt, mid := first, env.submits;
      record, retry, attempt := SubmitOnce(env, initial, deadlineAt, preDispatchRetries);
      assert attempt == if preDispatchRetries == 0 then first else second;
      if retry {
        preDispatchRetries := preDispatchRetries + 1;
      } else {
        PostsSettled(env.submitScript, env.drift, m, deadlineAt, before, mid, env.submits, initial, preDispatchRetries == 1);
      }
    }
  }

  /** A second post has its certificate. */
  lemma PostsAtMostOnce(
    before: seq<SubmitCall>, after: seq<SubmitCall>, initial: SubmitRecord, script: nat -> Reply<Receipt>, drift: nat -> nat, m: Moment,
    deadlineAt: int)
    requires m.posted == |before| && Posts(before, after, initial, SubmitCount(script, drift, m, deadlineAt), script)
    ensures AtMostOnce(after, |before|, initial)
  {
  }

  /** The submit loop, seen from its callers. */
  method PostMessage(env: Environment, initial: SubmitRecord, deadlineAt: int) returns (record: SubmitRecord, ghost verdict: Attempt<Receipt>)
    requires env.published != [] && env.published[|env.published| - 1] == initial
    modifies env`clock, env`looks, env`submits, env`heard, env`published
    ensures env.clock >= old(env.clock)
    ensures verdict == env.VerdictFrom(old(env.Here()), deadlineAt)
    ensures env.PostsFrom(old(env.Here()), deadlineAt, old(env.submits), env.submits, initial)
    ensures AtMostOnce(env.submits, |old(env.submits)|, initial)
    ensures SubmitShows(record, verdict) && (record.phase == Ambiguous <==> LeavesOpen(verdict))
    ensures SameSubmission(record, initial) && record.reconcileAttempts == initial.reconcileAttempts
    ensures record.phase != Ambiguous ==> HonestResult(record, env.heard)
    ensures env.published == old(env.published) + [record]
  {
    verdict := env.VerdictFrom(env.Here(), deadlineAt);
    record := SubmitLoop(env, initial, deadlineAt);
    OpenIsAmbiguous(record, verdict);
    PostsAtMostOnce(old(env.submits), env.submits, initial, env.submitScript, env.drift, old(env.Here()), deadlineAt);
  }

  /** executeReliableSubmit up to its reconcile window: the deadline is set, and the message posted. */
  method SubmitPhase(env: Environment, initial: SubmitRecord, windowMs: int)
    returns (record: SubmitRecord, windowStartedAt: int, deadlineAt: int, ghost verdict: Attempt<Receipt>)
    modifies env`clock, env`looks, env`submits, env`heard, env`published
    ensures windowStartedAt == old(env.Ahead(1)) <= env.clock && deadlineAt == windowStartedAt + windowMs
    ensures verdict == env.VerdictFrom(Look(env.drift, old(env.Here())), deadlineAt)
    ensures env.PostsFrom(Look(env.drift, old(env.Here())), deadlineAt, old(env.submits), env.submits, initial)
    ensures AtMostOnce(env.submits, |old(env.submits)|, initial)
    ensures SubmitShows(record, verdict) && (record.phase == Ambiguous <==> LeavesOpen(verdict))
    ensures SameSubmission(record, initial) && record.reconcileAttempts == initial.reconcileAttempts
    ensures record.phase != Ambiguous ==> HonestResult(record, env.heard)
    ensures old(env.published) <= env.published && Published(env.published, |old(env.published)|, record)
  {
    windowStartedAt := env.Now();
    deadlineAt := windowStartedAt + windowMs;
    env.Publish(initial);
    assert env.Here() == Look(env.drift, old(env.Here()));
    record, verdict := PostMessage(env, initial, deadlineAt);
  }

  /** The attempts of a record against those it started with, and against the window. */
  predicate Bounded(attempts: int, windowMs: int) {
    0 <= attempts && (attempts == 0 || 5_000 * attempts < windowMs + 7_000) && (windowMs == RECONCILE_WINDOW_MS ==> attempts <= 25)
  }

  /** What an execution makes of the verdict of its submit loop: a settled one is final, without a lookup; an
      open one is reconciled. */
  ghost predicate Concluded(
    record: SubmitRecord, verdict: Attempt<Receipt>, statuses: seq<Lookup<StatusLookup>>, sFrom: nat,
    reconciles: seq<Lookup<Reconciliation>>, rFrom: nat, clock: int, deadlineAt: int)
  {
    if LeavesOpen(verdict) then
      Caused(record, statuses, sFrom, reconciles, rFrom, clock, deadlineAt) && Grounded(record, |statuses| + |reconciles| - sFrom - rFrom)
    else
      SubmitShows(record, verdict) && |statuses| == sFrom && |reconciles| == rFrom
  }

  /** The end of executeReliableSubmit: an ambiguous record is reconciled, any other is final. */
  method ResolveOutcome(
    env: Environment, submitted: SubmitRecord, hasLifecycle: bool, windowStartedAt: int, deadlineAt: int,
    ghost from: nat, ghost verdict: Attempt<Receipt>)
    returns (record: SubmitRecord)
    requires Published(env.published, from, submitted)
    requires SubmitShows(submitted, verdict) && (submitted.phase == Ambiguous <==> LeavesOpen(verdict))
    requires env.clock >= windowStartedAt && (submitted.phase != Ambiguous ==> HonestResult(submitted, env.heard))
    modifies env`clock, env`looks, env`statuses, env`reconciles, env`heard, env`published
    ensures Concluded(record, verdict, env.statuses, |old(env.statuses)|, env.reconciles, |old(env.reconciles)|, env.clock, deadlineAt)
    ensures old(env.published) <= env.published && Published(env.published, from, record)
    ensures SameSubmission(record, submitted) && HonestResult(record, env.heard)
    ensures
      var attempts := record.reconcileAttempts - submitted.reconcileAttempts;
      && Bounded(attempts, deadlineAt - windowStartedAt)
      && Logged(env.statuses, |old(env.statuses)|, env.reconciles, |old(env.reconciles)|, submitted.requestId, hasLifecycle, attempts,
                env.clock < deadlineAt)
  {
    record := submitted;
    if record.phase == Ambiguous {
      ghost var mid := env.published;
      record := ReconcileWindow(env, record, hasLifecycle, windowStartedAt, deadlineAt);
      PublishedJoin(env.published, from, |mid|, submitted, record);
    }
  }

  /**
   executeReliableSubmit. The message is posted exactly as often as the deadline and the pre-dispatch
   certificate say, never more than twice; an outcome that is not open is final at once, without a lookup;
   an open one is reconciled until the server's word, an error of the transport or the deadline. The result
   quotes the server's latest word, and the reconcile attempts are bounded by the window.
   */
  method ExecuteReliableSubmit(env: Environment, initial: SubmitRecord, hasLifecycle: bool, windowMs: int)
    returns (record: SubmitRecord, ghost verdict: Attempt<Receipt>)
    modifies env`clock, env`looks, env`submits, env`statuses, env`reconciles, env`heard, env`published
    ensures verdict == env.VerdictFrom(Look(env.drift, old(env.Here())), old(env.Ahead(1)) + windowMs)
    ensures env.PostsFrom(Look(env.drift, old(env.Here())), old(env.Ahead(1)) + windowMs, old(env.submits), env.submits, initial)
    ensures Concluded(record, verdict, env.statuses, |old(env.statuses)|, env.reconciles, |old(env.reconciles)|, env.clock,
                      old(env.Ahead(1)) + windowMs)
    ensures AtMostOnce(env.submits, |old(env.submits)|, initial)
    ensures SameSubmission(record, initial) && HonestResult(record, env.heard)
    ensures
      var attempts := record.reconcileAttempts - initial.reconcileAttempts;
      && Bounded(attempts, windowMs)
      && Logged(env.statuses, |old(env.statuses)|, env.reconciles, |old(env.reconciles)|, initial.requestId, hasLifecycle, attempts,
                env.clock < old(env.Ahead(1)) + windowMs)
    ensures old(env.published) <= env.published && Published(env.published, |old(env.published)|, record)
  {
    var submitted, windowStartedAt, deadlineAt;
    submitted, windowStartedAt, deadlineAt, verdict := SubmitPhase(env, initial, windowMs);
    record := ResolveOutcome(env, submitted, hasLifecycle, windowStartedAt, deadlineAt, |old(env.published)|, verdict);
  }
}
