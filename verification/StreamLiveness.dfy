/**
 The liveness watchdog of a long-lived event stream (dashboard/src/data/streamLiveness.ts).

 Ticks judge an open, visible channel by two detectors: a jump of the wall clock between ticks (the
 machine slept), and a long silence (the socket may be half open). The second one is one-shot: it
 fires once and re-arms only for a frame outside the settle window of its own last cycle.
 The clock, the visibility of the tab and the state of the channel are supplied by each event.
 */
module StreamLiveness {
  import opened Prelude

  const SLEEP_JUMP_MS := 30_000
  const FRAME_TIMEOUT_MS := 90_000
  const HANDSHAKE_SETTLE_MS := 10_000

  datatype Tuning = Tuning(frameTimeoutMs: int, sleepJumpMs: int, handshakeSettleMs: int)

  const DEFAULT_TUNING := Tuning(FRAME_TIMEOUT_MS, SLEEP_JUMP_MS, HANDSHAKE_SETTLE_MS)

  /** `lastCycleAt` is absent where the source holds negative infinity. */
  datatype State = State(lastTickAt: int, lastFrameAt: int, stopped: bool, backstopSpent: bool, lastCycleAt: Option<int>)

  datatype Event =
    | Tick(at: int, hidden: bool, open: bool)
    | Frame(at: int)
    | Stop(at: int)

  datatype Verdict = Quiet | SleepCycle | FrameCycle

  function Started(at: int): State { State(at, at, false, false, None) }

  function JudgeVerdict(t: Tuning, s: State, at: int, hidden: bool, open: bool): Verdict {
    if s.stopped || hidden || !open then Quiet
    else if at - s.lastTickAt >= t.sleepJumpMs then SleepCycle
    else if t.frameTimeoutMs > 0 && !s.backstopSpent && at - s.lastFrameAt >= t.frameTimeoutMs then FrameCycle
    else Quiet
  }

  function Judged(t: Tuning, s: State, at: int, hidden: bool, open: bool): State {
    var ticked := s.(lastTickAt := at);
    if JudgeVerdict(t, s, at, hidden, open).FrameCycle? then ticked.(backstopSpent := true, lastCycleAt := Some(at))
    else ticked
  }

  function MarkedAlive(t: Tuning, s: State, at: int): State {
    var framed := s.(lastFrameAt := at);
    if s.lastCycleAt.None? || at - s.lastCycleAt.value > t.handshakeSettleMs then framed.(backstopSpent := false) else framed
  }

  function Next(t: Tuning, s: State, e: Event): State {
    match e
    case Tick(at, hidden, open) => Judged(t, s, at, hidden, open)
    case Frame(at) => MarkedAlive(t, s, at)
    case Stop(_) => s.(stopped := true)
  }

  function VerdictOn(t: Tuning, s: State, e: Event): Verdict {
    if e.Tick? then JudgeVerdict(t, s, e.at, e.hidden, e.open) else Quiet
  }

  // ---------------------------------------------------------------- the closure

  class Watchdog {
    const tuning: Tuning
    var lastTickAt: int
    var lastFrameAt: int
    var stopped: bool
    var backstopSpent: bool
    var lastCycleAt: Option<int>

    function Now(): State
      reads this
    {
      State(lastTickAt, lastFrameAt, stopped, backstopSpent, lastCycleAt)
    }

    constructor (tuning: Tuning, at: int)
      ensures Now() == Started(at) && this.tuning == tuning
    {
      this.tuning := tuning;
      lastTickAt, lastFrameAt, stopped, backstopSpent, lastCycleAt := at, at, false, false, None;
    }

    /** A tick; `dead` when the caller has to close the channel and subscribe afresh. */
    method Judge(at: int, hidden: bool, open: bool) returns (dead: bool)
      modifies this
      ensures Now() == Judged(tuning, old(Now()), at, hidden, open)
      ensures dead <==> JudgeVerdict(tuning, old(Now()), at, hidden, open) != Quiet
    {
      dead := false;
      var elapsed := at - lastTickAt;
      lastTickAt := at;
      if stopped || hidden || !open { return; }
      if elapsed >= tuning.sleepJumpMs { return true; }
      if tuning.frameTimeoutMs > 0 && !backstopSpent && at - lastFrameAt >= tuning.frameTimeoutMs {
        backstopSpent := true;
        lastCycleAt := Some(at);
        dead := true;
      }
    }

    method MarkAlive(at: int)
      modifies this
      ensures Now() == MarkedAlive(tuning, old(Now()), at)
    {
      lastFrameAt := at;
      if lastCycleAt.None? || at - lastCycleAt.value > tuning.handshakeSettleMs { backstopSpent := false; }
    }

    method Stop()
      modifies this
      ensures Now() == old(Now()).(stopped := true)
    {
      stopped := true;
    }
  }

  // ---------------------------------------------------------------- runs

  /** `states[i]` is the watchdog before `events[i]`, `verdicts[i]` what that event brought. */
  datatype Run = Run(tuning: Tuning, start: int, events: seq<Event>, states: seq<State>, verdicts: seq<Verdict>)

  ghost predicate IsRun(run: Run) {
    && |run.states| == |run.events| + 1 && |run.verdicts| == |run.events|
    && run.states[0] == Started(run.start)
    && forall i {:trigger run.verdicts[i]} :: 0 <= i < |run.events| ==>
         && run.states[i + 1] == Next(run.tuning, run.states[i], run.events[i])
         && run.verdicts[i] == VerdictOn(run.tuning, run.states[i], run.events[i])
  }

  lemma RunStep(run: Run, i: nat)
    requires IsRun(run) && i < |run.events|
    ensures run.states[i + 1] == Next(run.tuning, run.states[i], run.events[i])
    ensures run.verdicts[i] == VerdictOn(run.tuning, run.states[i], run.events[i])
  {
    var _ := run.verdicts[i];
  }

  /** The clock does not go back. */
  ghost predicate Monotone(run: Run) {
    forall i {:trigger TimeAt(run, i)} :: 0 <= i < |run.events| ==> TimeAt(run, i) <= run.events[i].at
  }

  /** The clock before the event at i. */
  function TimeAt(run: Run, i: nat): int
    requires i <= |run.events|
  {
    if i == 0 then run.start else run.events[i - 1].at
  }

  lemma {:induction false} TimeGrows(run: Run, i: nat, j: nat)
    requires Monotone(run) && i <= j <= |run.events|
    ensures TimeAt(run, i) <= TimeAt(run, j)
    decreases j - i
  {
    if i < j { TimeGrows(run, i + 1, j); }
  }

  // ---------------------------------------------------------------- what the log says

  /** The last frame before i, or the start. */
  function LastFrame(run: Run, i: nat): int
    requires i <= |run.events|
  {
    if i == 0 then run.start
    else if run.events[i - 1].Frame? then run.events[i - 1].at
    else LastFrame(run, i - 1)
  }

  /** The last tick before i, or the start. */
  function LastTick(run: Run, i: nat): int
    requires i <= |run.events|
  {
    if i == 0 then run.start
    else if run.events[i - 1].Tick? then run.events[i - 1].at
    else LastTick(run, i - 1)
  }

  /** The last frame-timeout cycle before i. */
  function LastCycle(run: Run, i: nat): (c: Option<nat>)
    requires i <= |run.events| == |run.verdicts|
    ensures c.Some? ==> c.value < i && run.verdicts[c.value] == FrameCycle
    ensures forall k :: 0 <= k < i && run.verdicts[k] == FrameCycle ==> c.Some? && k <= c.value
  {
    if i == 0 then None
    else if run.verdicts[i - 1].FrameCycle? then Some(i - 1)
    else LastCycle(run, i - 1)
  }

  /** A frame that is not the handshake of the last cycle. */
  predicate ProvesLife(run: Run, i: nat)
    requires i < |run.events| == |run.verdicts|
  {
    && run.events[i].Frame?
    && var c := LastCycle(run, i);
       c.None? || run.events[i].at - run.events[c.value].at > run.tuning.handshakeSettleMs
  }

  /** The channel proved life after its last cycle, or was never cycled. */
  ghost predicate Armed(run: Run, i: nat)
    requires i <= |run.events| == |run.verdicts|
  {
    var c := LastCycle(run, i);
    c.Some? ==> exists k :: c.value < k < i && ProvesLife(run, k)
  }

  ghost predicate StoppedBefore(run: Run, i: nat)
    requires i <= |run.events|
  {
    exists k :: 0 <= k < i && run.events[k].Stop?
  }

  /** The closure's variables carry exactly this much of the log. */
  ghost predicate Explains(run: Run, i: nat)
    requires IsRun(run) && i <= |run.events|
  {
    var s := run.states[i];
    && s.lastFrameAt == LastFrame(run, i)
    && s.lastTickAt == LastTick(run, i)
    && (s.stopped <==> StoppedBefore(run, i))
    && s.lastCycleAt == (var c := LastCycle(run, i); if c.None? then None else Some(run.events[c.value].at))
    && (!s.backstopSpent <==> Armed(run, i))
  }

  lemma ExplainsStop(run: Run, i: nat)
    requires IsRun(run) && i < |run.events| && Explains(run, i)
    ensures run.states[i + 1].stopped <==> StoppedBefore(run, i + 1)
  {
    RunStep(run, i);
    if StoppedBefore(run, i) {
      var k :| 0 <= k < i && run.events[k].Stop?;
      assert k < i + 1;
    }
  }

  lemma ExplainsArm(run: Run, i: nat)
    requires IsRun(run) && i < |run.events| && Explains(run, i)
    ensures !run.states[i + 1].backstopSpent <==> Armed(run, i + 1)
  {
    RunStep(run, i);
    var c := LastCycle(run, i);
    if run.verdicts[i] == FrameCycle {
      assert LastCycle(run, i + 1) == Some(i);
    } else {
      assert LastCycle(run, i + 1) == c;
      if c.Some? && Armed(run, i) {
        var k :| c.value < k < i && ProvesLife(run, k);
        assert k < i + 1;
      }
      if c.Some? && ProvesLife(run, i) { assert c.value < i < i + 1; }
    }
  }

  lemma {:induction false} StateExplained(run: Run, i: nat)
    requires IsRun(run) && i <= |run.events|
    ensures Explains(run, i)
  {
    if i > 0 {
      var j: nat := i - 1;
      StateExplained(run, j);
      RunStep(run, j);
      ExplainsStop(run, j);
      ExplainsArm(run, j);
    }
  }

  /**
   The one-shot contract, told by the log alone: a tick cycles a silent channel exactly when the
   channel is watched, open and visible, the machine did not sleep, nothing came for the timeout,
   and there was life since the last such cycle.
   */
  lemma FrameCycleIff(run: Run, i: nat)
    requires IsRun(run) && i < |run.events|
    ensures run.verdicts[i] == FrameCycle <==>
              && run.events[i].Tick? && !run.events[i].hidden && run.events[i].open && !StoppedBefore(run, i)
              && run.events[i].at - LastTick(run, i) < run.tuning.sleepJumpMs
              && run.tuning.frameTimeoutMs > 0 && run.events[i].at - LastFrame(run, i) >= run.tuning.frameTimeoutMs
              && Armed(run, i)
  {
    RunStep(run, i);
    StateExplained(run, i);
  }

  /** A wake always earns its cycle, whatever the backstop did. */
  lemma SleepCycleIff(run: Run, i: nat)
    requires IsRun(run) && i < |run.events|
    ensures run.verdicts[i] == SleepCycle <==>
              && run.events[i].Tick? && !run.events[i].hidden && run.events[i].open && !StoppedBefore(run, i)
              && run.events[i].at - LastTick(run, i) >= run.tuning.sleepJumpMs
  {
    RunStep(run, i);
    StateExplained(run, i);
  }

  // ---------------------------------------------------------------- quiescence

  lemma {:induction false} LastFrameCovers(run: Run, k: nat, i: nat)
    requires Monotone(run) && k < i <= |run.events| && run.events[k].Frame?
    ensures run.events[k].at <= LastFrame(run, i)
    decreases i - k
  {
    if run.events[i - 1].Frame? {
      TimeGrows(run, k + 1, i);
    } else {
      LastFrameCovers(run, k, i - 1);
    }
  }

  lemma LastCycleWithin(run: Run, c: nat, k: nat, j: nat)
    requires IsRun(run) && c < k < j <= |run.events| && LastCycle(run, j) == Some(c)
    ensures LastCycle(run, k) == Some(c)
  {
  }

  /** While armed, the last frame is past the settle window of the last cycle. */
  lemma ArmedIsSettled(run: Run, c: nat, j: nat)
    requires IsRun(run) && Monotone(run) && j <= |run.events| && LastCycle(run, j) == Some(c) && Armed(run, j)
    ensures LastFrame(run, j) - run.events[c].at > run.tuning.handshakeSettleMs
  {
    var k :| c < k < j && ProvesLife(run, k);
    LastCycleWithin(run, c, k, j);
    LastFrameCovers(run, k, j);
  }

  /** Two frame-timeout cycles are further apart than the timeout and the settle window together. */
  lemma FrameCyclesSpaced(run: Run, i: nat, j: nat)
    requires IsRun(run) && Monotone(run) && i < j < |run.events|
    requires run.verdicts[i] == FrameCycle && run.verdicts[j] == FrameCycle
    ensures run.events[j].at - run.events[i].at > run.tuning.frameTimeoutMs + run.tuning.handshakeSettleMs
  {
    FrameCycleIff(run, j);
    var c := LastCycle(run, j);
    assert c.Some? && i <= c.value;
    ArmedIsSettled(run, c.value, j);
    TimeGrows(run, i + 1, c.value + 1);
  }

  /** With the tuning the dashboard uses that is more than 100 seconds. */
  lemma DefaultCyclesSpaced(run: Run, i: nat, j: nat)
    requires IsRun(run) && Monotone(run) && run.tuning == DEFAULT_TUNING && i < j < |run.events|
    requires run.verdicts[i] == FrameCycle && run.verdicts[j] == FrameCycle
    ensures run.events[j].at - run.events[i].at > 100_000
  {
    FrameCyclesSpaced(run, i, j);
  }

  function FrameCycles(run: Run, n: nat): nat
    requires n <= |run.verdicts|
  {
    if n == 0 then 0 else FrameCycles(run, n - 1) + (if run.verdicts[n - 1].FrameCycle? then 1 else 0)
  }

  function SignsOfLife(run: Run, n: nat): nat
    requires n <= |run.events| == |run.verdicts|
  {
    if n == 0 then 0 else SignsOfLife(run, n - 1) + (if ProvesLife(run, n - 1) then 1 else 0)
  }

  lemma {:induction false} CyclesAgainstLife(run: Run, n: nat)
    requires IsRun(run) && n <= |run.events|
    ensures FrameCycles(run, n) <= SignsOfLife(run, n) + (if run.states[n].backstopSpent then 1 else 0)
  {
    if n > 0 {
      var m: nat := n - 1;
      CyclesAgainstLife(run, m);
      StateExplained(run, m);
      RunStep(run, m);
    }
  }

  /** Each episode of observed life costs at most one quiet resubscribe; a silent channel, one in all. */
  lemma FrameCyclesBounded(run: Run)
    requires IsRun(run)
    ensures FrameCycles(run, |run.events|) <= 1 + SignsOfLife(run, |run.events|)
    ensures (forall i :: 0 <= i < |run.events| ==> !run.events[i].Frame?) ==> FrameCycles(run, |run.events|) <= 1
  {
    CyclesAgainstLife(run, |run.events|);
    if forall i :: 0 <= i < |run.events| ==> !run.events[i].Frame? { NoFrameNoLife(run, |run.events|); }
  }

  lemma {:induction false} NoFrameNoLife(run: Run, n: nat)
    requires n <= |run.events| == |run.verdicts| && forall i :: 0 <= i < n ==> !run.events[i].Frame?
    ensures SignsOfLife(run, n) == 0
  {
    if n > 0 { NoFrameNoLife(run, n - 1); }
  }

  // ---------------------------------------------------------------- sleep cycles are self-limiting

  function SleepCycles(run: Run, n: nat): nat
    requires n <= |run.verdicts|
  {
    if n == 0 then 0 else SleepCycles(run, n - 1) + (if run.verdicts[n - 1].SleepCycle? then 1 else 0)
  }

  lemma OneMore(n: nat, jump: int)
    ensures (n + 1) * jump == n * jump + jump
  {
  }

  lemma TickAdvances(run: Run, m: nat)
    requires IsRun(run) && Monotone(run) && m < |run.events| && run.states[m].lastTickAt <= TimeAt(run, m)
    ensures run.states[m].lastTickAt <= run.states[m + 1].lastTickAt <= TimeAt(run, m + 1)
    ensures run.verdicts[m].SleepCycle? ==> run.states[m + 1].lastTickAt - run.states[m].lastTickAt >= run.tuning.sleepJumpMs
  {
    assert TimeAt(run, m) <= run.events[m].at;
    RunStep(run, m);
  }

  /** Every sleep cycle uses up a jump of its own. */
  lemma {:induction false} SleepCyclesBudget(run: Run, n: nat)
    requires IsRun(run) && Monotone(run) && n <= |run.events|
    ensures SleepCycles(run, n) * run.tuning.sleepJumpMs <= run.states[n].lastTickAt - run.start
    ensures run.states[n].lastTickAt <= TimeAt(run, n)
  {
    if n > 0 {
      var m: nat := n - 1;
      SleepCyclesBudget(run, m);
      TickAdvances(run, m);
      OneMore(SleepCycles(run, m), run.tuning.sleepJumpMs);
    } else {
      assert SleepCycles(run, 0) == 0 && run.states[0] == Started(run.start);
    }
  }
}
