/**
 The serialized change of a model and its effort (dashboard/src/data/pairChange.ts): the model is set,
 evidence is awaited, and only then is the effort set. The machine is pure; the theorems are about
 every sequence of results, route errors and readbacks, in any order and for either step.
 */
module PairChange {
  import opened Prelude

  datatype Step = Model | Effort
  datatype Phase = Inflight | AwaitingReadback
  datatype Acceptance = EchoVerified | Immediate | Queued | Unknown | Unsupported
  datatype SetResult = SetResult(acceptance: Acceptance, detail: Option<string>)

  /** `routeError` says that the step's request failed without any result. */
  datatype Outcome =
    | Completed
    | Aborted(detail: string, routeError: bool)
    | Partial(model: string, detail: string, routeError: bool)

  datatype State = State(
    modelKey: string,
    effort: string,
    step: Step,
    phase: Phase,
    modelResult: Option<SetResult>,
    effortResult: Option<SetResult>,
    outcome: Option<Outcome>)

  datatype Directive = Directive(state: State, sendEffort: bool, done: bool)

  const ACCEPTED := {EchoVerified, Immediate, Queued}

  function Start(modelKey: string, effort: string): State {
    State(modelKey, effort, Model, Inflight, None, None, None)
  }

  function Ignored(s: State): Directive { Directive(s, false, s.outcome.Some?) }
  function Held(s: State): Directive { Directive(s.(phase := AwaitingReadback), false, false) }
  function Ended(s: State, outcome: Outcome): Directive { Directive(s.(outcome := Some(outcome)), false, true) }
  function GateOpens(s: State): Directive { Directive(s.(step := Effort, phase := Inflight), true, false) }

  function DetailOr(result: SetResult, text: string): string {
    if result.detail.Some? then result.detail.value else text
  }

  function ApplyStepResult(s: State, kind: Step, result: SetResult): Directive {
    if s.outcome.Some? || kind != s.step then Ignored(s)
    else if kind == Model then
      var next := s.(modelResult := Some(result));
      if result.acceptance in ACCEPTED then GateOpens(next)
      else if result.acceptance == Unknown then Held(next)
      else Ended(next, Aborted(DetailOr(result, "model request refused"), false))
    else
      var next := s.(effortResult := Some(result));
      if result.acceptance in ACCEPTED then Ended(next, Completed)
      else if result.acceptance == Unknown then Held(next)
      else Ended(next, Partial(s.modelKey, DetailOr(result, "effort request refused"), false))
  }

  function ApplyRouteError(s: State, kind: Step, detail: string): Directive {
    if s.outcome.Some? || kind != s.step then Ignored(s)
    else if kind == Model then Ended(s, Aborted(detail, true))
    else Ended(s, Partial(s.modelKey, detail, true))
  }

  const MODEL_NOT_EFFECTIVE := "model set outcome was unknown and the snapshot readback shows it did not take effect"
  const EFFORT_NOT_EFFECTIVE := "effort set outcome was unknown and the snapshot readback shows it did not take effect"

  function ApplyReadback(s: State, confirmed: bool): Directive {
    if s.outcome.Some? || s.phase != AwaitingReadback then Ignored(s)
    else if s.step == Model then
      if confirmed then GateOpens(s) else Ended(s, Aborted(MODEL_NOT_EFFECTIVE, false))
    else
      if confirmed then Ended(s, Completed) else Ended(s, Partial(s.modelKey, EFFORT_NOT_EFFECTIVE, false))
  }

  // ---------------------------------------------------------------- runs

  datatype Event =
    | Result(kind: Step, result: SetResult)
    | RouteError(kind: Step, detail: string)
    | Readback(confirmed: bool)

  function Apply(s: State, e: Event): Directive {
    match e
    case Result(kind, result) => ApplyStepResult(s, kind, result)
    case RouteError(kind, detail) => ApplyRouteError(s, kind, detail)
    case Readback(confirmed) => ApplyReadback(s, confirmed)
  }

  /** `states[i]` is the state before `events[i]`, `directives[i]` what the driver is told then. */
  datatype Run = Run(modelKey: string, effort: string, events: seq<Event>, states: seq<State>, directives: seq<Directive>)

  ghost predicate IsRun(run: Run) {
    && |run.states| == |run.events| + 1 && |run.directives| == |run.events|
    && run.states[0] == Start(run.modelKey, run.effort)
    && forall i {:trigger run.directives[i]} :: 0 <= i < |run.events| ==>
         run.directives[i] == Apply(run.states[i], run.events[i]) && run.states[i + 1] == run.directives[i].state
  }

  lemma RunStep(run: Run, i: nat)
    requires IsRun(run) && i < |run.events|
    ensures run.directives[i] == Apply(run.states[i], run.events[i]) && run.states[i + 1] == run.directives[i].state
  {
  }

  // ---------------------------------------------------------------- what the log says

  predicate AcceptedFor(e: Event, kind: Step) { e.Result? && e.kind == kind && e.result.acceptance in ACCEPTED }
  predicate UnknownFor(e: Event, kind: Step) { e.Result? && e.kind == kind && e.result.acceptance == Unknown }
  predicate RefusedFor(e: Event, kind: Step) { e.Result? && e.kind == kind && e.result.acceptance == Unsupported }

  /** A result of unknown effect for the step, among the events from `from` and before i. */
  ghost predicate HeldSince(run: Run, kind: Step, from: nat, i: nat)
    requires i <= |run.events|
  {
    exists k :: from <= k < i && UnknownFor(run.events[k], kind)
  }

  /** The event proves the step effective: it is accepted, or an unknown one is confirmed by readback. */
  ghost predicate Proves(run: Run, kind: Step, from: nat, i: nat)
    requires i < |run.events|
  {
    AcceptedFor(run.events[i], kind) || (run.events[i] == Readback(true) && HeldSince(run, kind, from, i))
  }

  /** The event ends the change at the step without proof: refused, route error, or denied by readback. */
  ghost predicate Denies(run: Run, kind: Step, from: nat, i: nat)
    requires i < |run.events|
  {
    || RefusedFor(run.events[i], kind)
    || (run.events[i].RouteError? && run.events[i].kind == kind)
    || (run.events[i] == Readback(false) && HeldSince(run, kind, from, i))
  }

  /** No verdict on the step yet. */
  ghost predicate Undecided(run: Run, kind: Step, from: nat, n: nat)
    requires n <= |run.events|
  {
    forall k :: from <= k < n ==> !Proves(run, kind, from, k) && !Denies(run, kind, from, k)
  }

  predicate Sent(run: Run, i: nat)
    requires i < |run.directives|
  {
    run.directives[i].sendEffort
  }

  /** The effort was sent at m, and the log says what became of the model step until then. */
  ghost predicate SentAt(run: Run, m: nat, n: nat)
    requires n <= |run.events| == |run.directives|
  {
    && m < n && Sent(run, m) && Proves(run, Model, 0, m)
    && (forall k :: 0 <= k < n && Sent(run, k) ==> k == m)
    && Undecided(run, Model, 0, m)
  }

  ghost predicate NeverSent(run: Run, n: nat)
    requires n <= |run.directives|
  {
    forall k :: 0 <= k < n ==> !Sent(run, k)
  }

  /** Before any verdict on the model step. */
  ghost predicate ModelPending(run: Run, n: nat)
    requires IsRun(run) && n <= |run.events|
  {
    && NeverSent(run, n) && Undecided(run, Model, 0, n)
    && run.states[n].step == Model && run.states[n].outcome.None?
    && (run.states[n].phase == AwaitingReadback <==> HeldSince(run, Model, 0, n))
  }

  /** The effort is out, without a verdict of its own. */
  ghost predicate EffortPending(run: Run, m: nat, n: nat)
    requires IsRun(run) && n <= |run.events|
  {
    && SentAt(run, m, n)
    && Undecided(run, Effort, m + 1, n)
    && run.states[n].step == Effort && run.states[n].outcome.None?
    && (run.states[n].phase == AwaitingReadback <==> HeldSince(run, Effort, m + 1, n))
  }

  /** Ended at k: the first verdict that the log holds decides the outcome. */
  ghost predicate EndedOnModel(run: Run, k: nat, n: nat)
    requires IsRun(run) && n <= |run.events|
  {
    && k < n && Denies(run, Model, 0, k) && NeverSent(run, n)
    && Undecided(run, Model, 0, k)
    && run.states[n].outcome.Some? && run.states[n].outcome.value.Aborted?
    && (run.states[n].outcome.value.routeError <==> run.events[k].RouteError?)
  }

  ghost predicate EndedOnEffort(run: Run, m: nat, k: nat, n: nat)
    requires IsRun(run) && n <= |run.events|
  {
    && SentAt(run, m, n) && m < k < n
    && Undecided(run, Effort, m + 1, k)
    && run.states[n].outcome.Some?
    && (Proves(run, Effort, m + 1, k) || Denies(run, Effort, m + 1, k))
    && (run.states[n].outcome.value.Completed? <==> Proves(run, Effort, m + 1, k))
    && (run.states[n].outcome.value.Partial? <==> Denies(run, Effort, m + 1, k))
    && (run.states[n].outcome.value.Partial? ==>
          run.states[n].outcome.value.model == run.modelKey && (run.states[n].outcome.value.routeError <==> run.events[k].RouteError?))
  }

  /** Where the log stands after n events; `m` and `k` are the positions of the two verdicts. */
  datatype Standing =
    | OnModel
    | OnEffort(m: nat)
    | ModelDenied(k: nat)
    | EffortJudged(m: nat, k: nat)

  ghost predicate Stands(run: Run, n: nat, at: Standing)
    requires IsRun(run) && n <= |run.events|
  {
    && run.states[n].modelKey == run.modelKey
    && match at
       case OnModel => ModelPending(run, n)
       case OnEffort(m) => EffortPending(run, m, n)
       case ModelDenied(k) => EndedOnModel(run, k, n)
       case EffortJudged(m, k) => EndedOnEffort(run, m, k, n)
  }

  // ---------------------------------------------------------------- one event further

  lemma HeldNext(run: Run, kind: Step, from: nat, i: nat)
    requires from <= i < |run.events|
    ensures HeldSince(run, kind, from, i + 1) <==> HeldSince(run, kind, from, i) || UnknownFor(run.events[i], kind)
  {
    if HeldSince(run, kind, from, i) {
      var k :| from <= k < i && UnknownFor(run.events[k], kind);
      assert from <= k < i + 1;
    }
    if UnknownFor(run.events[i], kind) { assert from <= i < i + 1; }
  }

  lemma ModelPendingNext(run: Run, n: nat) returns (at: Standing)
    requires IsRun(run) && n < |run.events| && Stands(run, n, OnModel)
    ensures Stands(run, n + 1, at)
  {
    RunStep(run, n);
    HeldNext(run, Model, 0, n);
    if Proves(run, Model, 0, n) {
      assert !HeldSince(run, Effort, n + 1, n + 1);
      at := OnEffort(n);
    } else if Denies(run, Model, 0, n) {
      at := ModelDenied(n);
    } else {
      at := OnModel;
    }
  }

  lemma EffortPendingNext(run: Run, m: nat, n: nat) returns (at: Standing)
    requires IsRun(run) && n < |run.events| && Stands(run, n, OnEffort(m))
    ensures Stands(run, n + 1, at)
  {
    RunStep(run, n);
    HeldNext(run, Effort, m + 1, n);
    assert SentAt(run, m, n + 1);
    if Proves(run, Effort, m + 1, n) || Denies(run, Effort, m + 1, n) {
      at := EffortJudged(m, n);
    } else {
      at := OnEffort(m);
    }
  }

  lemma EndedNext(run: Run, n: nat, at: Standing)
    requires IsRun(run) && n < |run.events| && Stands(run, n, at) && (at.ModelDenied? || at.EffortJudged?)
    ensures Stands(run, n + 1, at)
  {
    RunStep(run, n);
    assert run.states[n + 1] == run.states[n] && !Sent(run, n);
  }

  /** Every run stands somewhere. */
  lemma {:induction false} RunStands(run: Run, n: nat) returns (at: Standing)
    requires IsRun(run) && n <= |run.events|
    ensures Stands(run, n, at)
  {
    if n == 0 {
      at := OnModel;
    } else {
      var m: nat := n - 1;
      var before := RunStands(run, m);
      match before
      case OnModel => at := ModelPendingNext(run, m);
      case OnEffort(k) => at := EffortPendingNext(run, k, m);
      case ModelDenied(_) => EndedNext(run, m, before); at := before;
      case EffortJudged(_, _) => EndedNext(run, m, before); at := before;
    }
  }

  // ---------------------------------------------------------------- theorems

  /** The effort is sent at most once, and only on proof that the model step took effect. */
  lemma SentOnceOnProof(run: Run, i: nat, j: nat)
    requires IsRun(run) && i < |run.events| && j < |run.events| && Sent(run, i) && Sent(run, j)
    ensures i == j && Proves(run, Model, 0, i)
    ensures Undecided(run, Model, 0, i)
  {
    var at := RunStands(run, |run.events|);
  }

  /** Exactly then: the first verdict on the model step sends the effort if and only if it is proof. */
  lemma FirstVerdictDecides(run: Run, i: nat)
    requires IsRun(run) && i < |run.events|
    requires Proves(run, Model, 0, i) || Denies(run, Model, 0, i)
    requires Undecided(run, Model, 0, i)
    ensures Sent(run, i) <==> Proves(run, Model, 0, i)
  {
    var at := RunStands(run, i);
    RunStep(run, i);
  }

  /** The first verdict on the effort completes the change if it is proof, and leaves it partial if not. */
  lemma FirstVerdictEnds(run: Run, m: nat, i: nat)
    requires IsRun(run) && m < i < |run.events| && Sent(run, m)
    requires Proves(run, Effort, m + 1, i) || Denies(run, Effort, m + 1, i)
    requires Undecided(run, Effort, m + 1, i)
    ensures run.states[i + 1].outcome.Some? && run.directives[i].done
    ensures if Proves(run, Effort, m + 1, i) then run.states[i + 1].outcome.value == Completed
            else run.states[i + 1].outcome.value.Partial? && run.states[i + 1].outcome.value.model == run.modelKey
  {
    var at := RunStands(run, i);
    RunStep(run, i);
  }

  /** The first verdict on the model ends the change aborted if it is denial. */
  lemma FirstDenialAborts(run: Run, i: nat)
    requires IsRun(run) && i < |run.events| && Denies(run, Model, 0, i) && Undecided(run, Model, 0, i)
    ensures run.states[i + 1].outcome.Some? && run.states[i + 1].outcome.value.Aborted? && run.directives[i].done
  {
    var at := RunStands(run, i);
    RunStep(run, i);
  }

  /** The step never goes back, and is the effort exactly after the effort was sent. */
  lemma StepNeverGoesBack(run: Run, i: nat, j: nat)
    requires IsRun(run) && i <= j <= |run.events|
    ensures run.states[i].step == Effort ==> run.states[j].step == Effort
    ensures run.states[i].step == Effort <==> exists k :: 0 <= k < i && Sent(run, k)
    decreases j
  {
    StepIsSent(run, i);
    StepIsSent(run, j);
    if k :| 0 <= k < i && Sent(run, k) { assert 0 <= k < j; }
  }

  lemma {:induction false} StepIsSent(run: Run, n: nat)
    requires IsRun(run) && n <= |run.events|
    ensures run.states[n].step == Effort <==> exists k :: 0 <= k < n && Sent(run, k)
  {
    if n > 0 {
      var m: nat := n - 1;
      StepIsSent(run, m);
      RunStep(run, m);
      if k :| 0 <= k < m && Sent(run, k) { assert 0 <= k < n; }
      if Sent(run, m) { assert 0 <= m < n; }
    }
  }

  /** An ended change stays as it is, and the driver is told so at every further event. */
  lemma {:induction false} OutcomeAbsorbing(run: Run, i: nat, j: nat)
    requires IsRun(run) && i <= j <= |run.events| && run.states[i].outcome.Some?
    ensures run.states[j] == run.states[i]
    ensures forall k :: i <= k < j ==> run.directives[k] == Directive(run.states[i], false, true)
    decreases j - i
  {
    if i < j {
      RunStep(run, i);
      OutcomeAbsorbing(run, i + 1, j);
    }
  }

  /** The outcome tells the story of the log: completed with proof of both steps, partial with proof of
      the model alone, aborted with proof of neither. */
  lemma OutcomeExplained(run: Run, n: nat) returns (m: nat, k: nat)
    requires IsRun(run) && n <= |run.events| && run.states[n].outcome.Some?
    ensures var outcome := run.states[n].outcome.value;
            && (outcome.Completed? ==> m < k < n && Sent(run, m) && Proves(run, Model, 0, m) && Proves(run, Effort, m + 1, k))
            && (outcome.Partial? ==> m < k < n && Sent(run, m) && Proves(run, Model, 0, m) && Denies(run, Effort, m + 1, k)
                                     && outcome.model == run.modelKey)
            && (outcome.Aborted? ==> k < n && Denies(run, Model, 0, k) && NeverSent(run, n))
  {
    var at := RunStands(run, n);
    match at
    case ModelDenied(d) => m, k := 0, d;
    case EffortJudged(s, d) => m, k := s, d;
  }

  /** The results kept beside the outcome are the ones that justify it. */
  ghost predicate LedgerKept(s: State) {
    && (s.step == Effort ==> s.modelResult.Some? && s.modelResult.value.acceptance != Unsupported)
    && (s.outcome.None? && s.phase == AwaitingReadback ==>
          var held := if s.step == Model then s.modelResult else s.effortResult;
          held.Some? && held.value.acceptance == Unknown)
    && (s.outcome.Some? ==>
          match s.outcome.value
          case Completed => s.step == Effort && s.effortResult.Some? && s.effortResult.value.acceptance != Unsupported
          case Aborted(_, routeError) => s.step == Model && s.effortResult.None? && (!routeError ==> s.modelResult.Some?)
          case Partial(model, _, routeError) => s.step == Effort && model == s.modelKey && (!routeError ==> s.effortResult.Some?))
    && (s.step == Model ==> s.effortResult.None?)
  }

  lemma {:induction false} LedgerOverRuns(run: Run, n: nat)
    requires IsRun(run) && n <= |run.events|
    ensures LedgerKept(run.states[n])
  {
    if n > 0 {
      LedgerOverRuns(run, n - 1);
      RunStep(run, n - 1);
    }
  }
}
