/**
 Start-up and shutdown of the container job service.  A retention goroutine runs only when a
 retention time is set; it leaves when `stopCh` is closed and says so by closing
 `retentionJobDoneCh`, which is closed at start-up when there is no such goroutine.
 */
module Shutdown {

  datatype Job = Absent | Selecting | Sweeping | Finished

  datatype Call = Waiting | Returned

  /** `doneCloses` counts the closings of `retentionJobDoneCh`, `calls` the calls of
      `Shutdown` that got past closing `stopCh`. */
  datatype State = State(job: Job, stopClosed: bool, doneCloses: nat, calls: map<nat, Call>, panicked: bool)

  datatype Step = Tick | SweepEnds | Leave | CallShutdown(p: nat) | ShutdownReturns(p: nat)

  function Start(retention: int): State {
    if 0 < retention then State(Selecting, false, 0, map[], false) else State(Absent, false, 1, map[], false)
  }

  /** A panic takes the process down.  A select with both cases ready takes either. */
  predicate Enabled(s: State, a: Step) {
    && !s.panicked
    && match a
       case Tick => s.job.Selecting?
       case SweepEnds => s.job.Sweeping?
       case Leave => s.job.Selecting? && s.stopClosed
       case CallShutdown(p) => p !in s.calls
       case ShutdownReturns(p) => p in s.calls && s.calls[p].Waiting? && 0 < s.doneCloses
  }

  /** Closing a closed channel panics. */
  function Apply(s: State, a: Step): State
    requires Enabled(s, a)
  {
    match a
    case Tick => s.(job := Sweeping)
    case SweepEnds => s.(job := Selecting)
    case Leave =>
      if 0 < s.doneCloses then s.(panicked := true) else s.(job := Finished, doneCloses := s.doneCloses + 1)
    case CallShutdown(p) =>
      if s.stopClosed then s.(panicked := true) else s.(stopClosed := true, calls := s.calls[p := Waiting])
    case ShutdownReturns(p) => s.(calls := s.calls[p := Returned])
  }

  ghost predicate IsRun(retention: int, states: seq<State>, steps: seq<Step>) {
    && |states| == |steps| + 1
    && states[0] == Start(retention)
    && forall i {:trigger steps[i]} :: 0 <= i < |steps| ==> Enabled(states[i], steps[i]) && states[i + 1] == Apply(states[i], steps[i])
  }

  predicate IsOver(job: Job) {
    job.Absent? || job.Finished?
  }

  ghost predicate Inv(retention: int, s: State) {
    && s.doneCloses == (if IsOver(s.job) then 1 else 0)
    && (s.job.Absent? <==> retention <= 0)
    && (s.job.Finished? ==> s.stopClosed)
    && (s.calls != map[] <==> s.stopClosed)
    && forall p :: p in s.calls && s.calls[p].Returned? ==> IsOver(s.job)
  }

  lemma {:induction false} RunKeepsInv(retention: int, states: seq<State>, steps: seq<Step>, n: nat)
    requires IsRun(retention, states, steps) && n < |states|
    ensures Inv(retention, states[n])
  {
    if n > 0 {
      RunKeepsInv(retention, states, steps, n - 1);
      assert states[n] == Apply(states[n - 1], steps[n - 1]);
      assert steps[n - 1].CallShutdown? && !states[n - 1].stopClosed ==> steps[n - 1].p in states[n].calls;
    }
  }

  /** On both start-up branches `retentionJobDoneCh` is closed at most once, and it is closed
      exactly when no retention goroutine is running. */
  lemma DoneIsClosedOnce(retention: int, states: seq<State>, steps: seq<Step>, n: nat)
    requires IsRun(retention, states, steps) && n < |states|
    ensures states[n].doneCloses <= 1
    ensures states[n].doneCloses == 1 <==> IsOver(states[n].job)
  {
    RunKeepsInv(retention, states, steps, n);
  }

  /** When a call of `Shutdown` has returned, the retention goroutine has finished (or never
      was), and it does not come back: from then on there is no sweep. */
  lemma {:induction false} ShutdownWaitsForRetention(retention: int, states: seq<State>, steps: seq<Step>, i: nat, j: nat, p: nat)
    requires IsRun(retention, states, steps) && i <= j < |states|
    requires p in states[i].calls && states[i].calls[p].Returned?
    ensures states[j].job == if retention <= 0 then Absent else Finished
  {
    RunKeepsInv(retention, states, steps, i);
    if i < j {
      ShutdownWaitsForRetention(retention, states, steps, i, j - 1, p);
      assert states[j] == Apply(states[j - 1], steps[j - 1]);
    }
  }

  function CountShutdowns(steps: seq<Step>): nat {
    if steps == [] then 0 else CountShutdowns(steps[..|steps| - 1]) + if steps[|steps| - 1].CallShutdown? then 1 else 0
  }

  /** The only way to panic is to call `Shutdown` a second time, and that always does. */
  lemma {:induction false} PanicsIffShutDownTwice(retention: int, states: seq<State>, steps: seq<Step>, n: nat)
    requires IsRun(retention, states, steps) && n <= |steps|
    ensures states[n].panicked <==> 2 <= CountShutdowns(steps[..n])
    ensures states[n].stopClosed <==> 1 <= CountShutdowns(steps[..n])
  {
    if n > 0 {
      PanicsIffShutDownTwice(retention, states, steps, n - 1);
      RunKeepsInv(retention, states, steps, n - 1);
      assert states[n] == Apply(states[n - 1], steps[n - 1]);
      assert steps[..n][..n - 1] == steps[..n - 1];
    }
  }

  /** Once `stopCh` is closed the goroutine can leave, after the sweep it is in, and then the
      waiting call returns: nobody is stuck. */
  lemma ShutdownCanFinish(retention: int, states: seq<State>, steps: seq<Step>, n: nat, p: nat)
    requires IsRun(retention, states, steps) && n < |states|
    requires !states[n].panicked && p in states[n].calls && states[n].calls[p].Waiting?
    ensures if IsOver(states[n].job) then Enabled(states[n], ShutdownReturns(p))
            else if states[n].job.Selecting? then Enabled(states[n], Leave) && Enabled(Apply(states[n], Leave), ShutdownReturns(p))
            else Enabled(states[n], SweepEnds) && Enabled(Apply(states[n], SweepEnds), Leave)
                 && Enabled(Apply(Apply(states[n], SweepEnds), Leave), ShutdownReturns(p))
  {
    RunKeepsInv(retention, states, steps, n);
  }
}
