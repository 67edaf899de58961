/** What holds over whole runs of the job lifecycle. */
module JobRuns {
  import opened Docker
  import opened JobLifecycle
  import Store

  lemma {:induction false} RunKeepsInv(retention: int, states: seq<State>, steps: seq<Step>, n: nat)
    requires IsRun(retention, states, steps) && n < |states|
    ensures Inv(states[n])
  {
    if n > 0 {
      RunKeepsInv(retention, states, steps, n - 1);
      StepKeepsInv(retention, states[n - 1], steps[n - 1]);
    }
  }

  lemma EvolvesIsTransitive(a: State, b: State, c: State)
    requires Evolves(a, b) && Evolves(b, c)
    ensures Evolves(a, c)
  {
  }

  lemma {:induction false} EvolvesAlong(states: seq<State>, i: nat, j: nat)
    requires i <= j < |states|
    requires forall k :: i <= k < j ==> Evolves(states[k], states[k + 1])
    ensures Evolves(states[i], states[j])
  {
    if i < j {
      EvolvesAlong(states, i, j - 1);
      EvolvesIsTransitive(states[i], states[j - 1], states[j]);
    }
  }

  lemma RunEvolves(retention: int, states: seq<State>, steps: seq<Step>, i: nat, j: nat)
    requires IsRun(retention, states, steps) && i <= j < |states|
    ensures Evolves(states[i], states[j])
  {
    forall k | i <= k < j
      ensures Evolves(states[k], states[k + 1])
    {
      RunKeepsInv(retention, states, steps, k);
      StepKeepsInv(retention, states[k], steps[k]);
    }
    EvolvesAlong(states, i, j);
  }

  // ---------------------------------------------------------------------------
  // Containers and volumes
  // ---------------------------------------------------------------------------

  /** No run ever removes a running container.  Whoever asks the daemon to remove one, the
      callback, a delete request or the retention sweep, names a container that has exited
      or is already gone; so whatever disappears had exited. */
  lemma NeverRemovesRunning(retention: int, states: seq<State>, steps: seq<Step>, i: nat)
    requires IsRun(retention, states, steps) && i < |steps|
    ensures steps[i].Delete? && steps[i].delete.Remove? ==>
              Stopped(states[i], states[i].procs[steps[i].p].id)
    ensures forall id :: id in states[i].daemon.containers && id !in states[i + 1].daemon.containers ==>
              states[i].daemon.containers[id].status.Exited?
  {
    RunKeepsInv(retention, states, steps, i);
    var s, a := states[i], steps[i];
    if a.Delete? {
      assert ProcOk(s, s.procs[a.p]);
    }
    forall id | id in s.daemon.containers && id !in states[i + 1].daemon.containers
      ensures s.daemon.containers[id].status.Exited?
    {
      if !TouchesContainer(s, a, id) {
        OtherContainersStay(retention, s, a, id);
      }
    }
  }

  /** A container that exists has its volume, at every moment of every run and however many
      deletions are in progress. */
  lemma ContainersHaveTheirVolume(retention: int, states: seq<State>, steps: seq<Step>, n: nat, id: string)
    requires IsRun(retention, states, steps) && n < |states| && id in states[n].daemon.containers
    ensures id in states[n].issued
    ensures states[n].daemon.containers[id].mounts == [states[n].issued[id]]
    ensures states[n].issued[id] in states[n].daemon.volumes
  {
    RunKeepsInv(retention, states, steps, n);
    assert ContainerOk(states[n].daemon, states[n].issued, id);
  }

  /** A volume that disappears was the volume of one container, which is already removed, now
      and for the rest of the run; no other container mounts it. */
  lemma RemovedVolumesAreOrphans(retention: int, states: seq<State>, steps: seq<Step>, i: nat, volume: string) returns (owner: string)
    requires IsRun(retention, states, steps) && i < |steps|
    requires volume in states[i].daemon.volumes && volume !in states[i + 1].daemon.volumes
    ensures owner in states[i].issued && states[i].issued[owner] == volume
    ensures forall j :: i <= j < |states| ==> owner !in states[j].daemon.containers
    ensures forall id :: id in states[i].daemon.containers ==> volume !in states[i].daemon.containers[id].mounts
  {
    RunKeepsInv(retention, states, steps, i);
    var s, a := states[i], steps[i];
    OnlyDropVolumeDropsVolumes(retention, s, a, volume);
    assert ProcOk(s, s.procs[a.p]);
    owner := s.procs[a.p].id;
    assert Gone(s, owner);
    forall j | i <= j < |states|
      ensures owner !in states[j].daemon.containers
    {
      RunEvolves(retention, states, steps, i, j);
      assert Gone(states[j], owner);
    }
    forall id | id in s.daemon.containers
      ensures volume !in s.daemon.containers[id].mounts
    {
      assert ContainerOk(s.daemon, s.issued, id);
    }
  }

  lemma OnlyDropVolumeDropsVolumes(retention: int, s: State, a: Step, volume: string)
    requires Enabled(s, a) && volume in s.daemon.volumes && volume !in Apply(retention, s, a).daemon.volumes
    ensures a.Delete? && a.delete.DropVolume? && volume == s.procs[a.p].phase.mounts[0]
  {
    if !a.Delete? {
      OtherStepsKeepVolumes(retention, s, a);
    }
  }

  lemma OtherStepsKeepVolumes(retention: int, s: State, a: Step)
    requires Enabled(s, a) && !a.Delete?
    ensures s.daemon.volumes <= Apply(retention, s, a).daemon.volumes
  {
  }

  // ---------------------------------------------------------------------------
  // The verdict on an exited job
  // ---------------------------------------------------------------------------

  predicate ExitedWith(s: State, id: string, zero: bool) {
    && id in s.daemon.containers && s.daemon.containers[id].status.Exited?
    && (s.daemon.containers[id].status.code == 0 <==> zero)
  }

  /** A watcher that learns of the exit hands over to the callback, and what it hands over is whether
      the exit code is 0; a watcher that had to stop the container first reads the code afterwards. */
  lemma WatcherReports(s: State, p: nat, a: WatchStep)
    requires Inv(s) && CanWatch(s, p, a)
    ensures var id, s' := s.procs[p].id, DoWatch(s, p, a);
            && (a.WaitReturns? ==>
                  && id in s.daemon.containers && s.daemon.containers[id].status.Exited?
                  && p in s'.procs && s'.procs[p] == Fetching(id, s.daemon.containers[id].status.code == 0))
            && (a.StopAfterTimeout? && !a.reply.Refused? && id in s.daemon.containers ==>
                  id in s'.daemon.containers && s'.daemon.containers[id].status.Exited?)
            && (a.StopAfterTimeout? && a.reply.Done? && id in s.daemon.containers ==>
                  p in s'.procs && s'.procs[p] == Inspecting(id))
            && (a.InspectExit? && !a.fails && id in s.daemon.containers ==>
                  p in s'.procs && s'.procs[p] == Fetching(id, s.daemon.containers[id].status.code == 0))
  {
    assert ProcOk(s, s.procs[p]);
  }

  /** Whichever step brings a callback about: it is told success exactly if the exit code is 0. */
  lemma VerdictIsExitCode(retention: int, s: State, a: Step, p: nat)
    requires Inv(s) && Enabled(s, a)
    ensures var s' := Apply(retention, s, a);
            p in s'.procs && s'.procs[p].Fetching? ==>
              || (p in s.procs && s.procs[p] == s'.procs[p])
              || ExitedWith(s, s'.procs[p].id, s'.procs[p].success)
  {
    if !WasFetching(s, Apply(retention, s, a), p) {
      OnlyWatchersReport(retention, s, a, p);
      WatcherReports(s, a.p, a.watch);
    }
  }

  ghost predicate WasFetching(s: State, s': State, q: nat) {
    q in s'.procs && s'.procs[q].Fetching? ==> q in s.procs && s.procs[q] == s'.procs[q]
  }

  lemma JobStepsReportNothing(s: State, p: nat, q: nat)
    ensures forall a :: CanCreate(s, p, a) ==> WasFetching(s, DoCreate(s, p, a), q)
    ensures forall a :: CanCall(s, p, a) ==> WasFetching(s, DoCall(s, p, a), q)
  {
  }

  lemma CleanupReportsNothing(retention: int, s: State, p: nat, q: nat)
    ensures forall a :: CanDelete(s, p, a) ==> WasFetching(s, DoDelete(s, p, a), q)
    ensures forall a :: CanClean(s, p, a) ==> WasFetching(s, DoClean(retention, s, p, a), q)
  {
  }

  lemma OnlyWatchersReport(retention: int, s: State, a: Step, q: nat)
    requires Enabled(s, a) && !WasFetching(s, Apply(retention, s, a), q)
    ensures a.Watch? && q == a.p && !a.watch.StopAfterTimeout?
    ensures Apply(retention, s, a).procs[q].id == s.procs[q].id
    ensures a.watch.InspectExit? ==> !a.watch.fails && s.procs[q].id in s.daemon.containers
  {
    if !a.Tick? && !a.Exit? && !a.Restart? {
      JobStepsReportNothing(s, a.p, q);
      CleanupReportsNothing(retention, s, a.p, q);
    }
  }

  /** The job a process works on as a callback that was told success. */
  function SuccessOf(proc: Proc): set<string> {
    match proc
    case Fetching(id, true) => {id}
    case Stamping(id, true, _) => {id}
    case Storing(id, true, _) => {id}
    case Removing(id, _, Callback) => {id}
    case Dropping(id) => {id}
    case Returned(id, true, _) => {id}
    case _ => {}
  }

  /** The process is told success now, or was before. */
  ghost predicate NewSuccess(s: State, s': State, q: nat) {
    q in s'.procs ==> SuccessOf(s'.procs[q]) <= (if q in s.procs then SuccessOf(s.procs[q]) else {})
  }

  lemma JobStepsKeepVerdict(s: State, p: nat, q: nat)
    ensures forall a :: CanCreate(s, p, a) ==> NewSuccess(s, DoCreate(s, p, a), q)
    ensures forall a :: CanCall(s, p, a) ==> NewSuccess(s, DoCall(s, p, a), q)
  {
  }

  lemma CleanupKeepsVerdict(retention: int, s: State, p: nat, q: nat)
    ensures forall a :: CanDelete(s, p, a) ==> NewSuccess(s, DoDelete(s, p, a), q)
    ensures forall a :: CanClean(s, p, a) ==> NewSuccess(s, DoClean(retention, s, p, a), q)
  {
  }

  lemma WatchVerdict(s: State, p: nat, a: WatchStep, q: nat)
    requires Inv(s) && CanWatch(s, p, a)
    ensures var s' := DoWatch(s, p, a);
            NewSuccess(s, s', q) || (q in s'.procs && forall id :: id in SuccessOf(s'.procs[q]) ==> ExitedWith(s, id, true))
  {
    WatcherReports(s, p, a);
  }

  lemma StepVerdict(retention: int, s: State, a: Step, q: nat)
    requires Inv(s) && Enabled(s, a)
    ensures var s' := Apply(retention, s, a);
            NewSuccess(s, s', q) || (q in s'.procs && forall id :: id in SuccessOf(s'.procs[q]) ==> ExitedWith(s, id, true))
  {
    if a.Watch? {
      WatchVerdict(s, a.p, a.watch, q);
    } else if !a.Tick? && !a.Exit? && !a.Restart? {
      JobStepsKeepVerdict(s, a.p, q);
      CleanupKeepsVerdict(retention, s, a.p, q);
    }
  }

  /** The container of a job whose callback was told success has exit code 0, or is gone. */
  ghost predicate SuccessOk(s: State, proc: Proc) {
    forall id :: id in SuccessOf(proc) ==> Stopped(s, id) && (id in s.daemon.containers ==> s.daemon.containers[id].status.code == 0)
  }

  ghost predicate AllSuccessOk(s: State) {
    forall p :: p in s.procs ==> SuccessOk(s, s.procs[p])
  }

  lemma StepKeepsSuccessOk(retention: int, s: State, a: Step, q: nat)
    requires Inv(s) && Enabled(s, a) && AllSuccessOk(s) && q in Apply(retention, s, a).procs
    ensures SuccessOk(Apply(retention, s, a), Apply(retention, s, a).procs[q])
  {
    var s' := Apply(retention, s, a);
    StepEvolves(retention, s, a);
    StepVerdict(retention, s, a, q);
    forall id | id in SuccessOf(s'.procs[q])
      ensures Stopped(s', id) && (id in s'.daemon.containers ==> s'.daemon.containers[id].status.code == 0)
    {
      if q in s.procs && id in SuccessOf(s.procs[q]) {
        assert SuccessOk(s, s.procs[q]);
      } else {
        assert ContainerOk(s.daemon, s.issued, id);
      }
      StoppedStays(retention, s, a, id);
    }
  }

  lemma {:induction false} RunKeepsSuccessOk(retention: int, states: seq<State>, steps: seq<Step>, n: nat)
    requires IsRun(retention, states, steps) && n < |states|
    ensures AllSuccessOk(states[n])
  {
    if n > 0 {
      RunKeepsSuccessOk(retention, states, steps, n - 1);
      RunKeepsInv(retention, states, steps, n - 1);
      forall q | q in states[n].procs
        ensures SuccessOk(states[n], states[n].procs[q])
      {
        StepKeepsSuccessOk(retention, states[n - 1], steps[n - 1], q);
      }
    }
  }

  /** No callback ever removes a container that exited with another code than 0. */
  lemma CallbacksRemoveOnlySuccesses(retention: int, states: seq<State>, steps: seq<Step>, i: nat)
    requires IsRun(retention, states, steps) && i < |steps|
    requires steps[i].Delete? && steps[i].delete.Remove? && states[i].procs[steps[i].p].caller.Callback?
    ensures var id := states[i].procs[steps[i].p].id;
            id in states[i].daemon.containers ==> ExitedWith(states[i], id, true)
  {
    RunKeepsSuccessOk(retention, states, steps, i);
    RunKeepsInv(retention, states, steps, i);
    assert SuccessOk(states[i], states[i].procs[steps[i].p]);
    assert states[i].procs[steps[i].p].id in SuccessOf(states[i].procs[steps[i].p]);
  }

  /** The job failed, and no callback was told otherwise. */
  ghost predicate IsFailed(s: State, id: string) {
    && Stopped(s, id)
    && (id in s.daemon.containers ==> s.daemon.containers[id].status.code != 0)
    && forall p :: p in s.procs ==> id !in SuccessOf(s.procs[p])
  }

  lemma StepKeepsFailed(retention: int, s: State, a: Step, id: string)
    requires Inv(s) && Enabled(s, a) && IsFailed(s, id)
    ensures IsFailed(Apply(retention, s, a), id)
  {
    var s' := Apply(retention, s, a);
    StepEvolves(retention, s, a);
    StoppedStays(retention, s, a, id);
    forall q | q in s'.procs
      ensures id !in SuccessOf(s'.procs[q])
    {
      StepVerdict(retention, s, a, q);
    }
  }

  lemma StepKeepsFailedRecord(retention: int, s: State, a: Step, id: string)
    requires Inv(s) && Enabled(s, a) && IsFailed(s, id) && id in s.store
    ensures id in Apply(retention, s, a).store
  {
    if a.Call? && a.call.DropRecord? {
      assert s.procs[a.p].id in SuccessOf(s.procs[a.p]);
      assert s.procs[a.p].id != id;
    }
    if !WritesRecord(s, a, id) {
      OtherRecordsStay(retention, s, a, id);
    }
  }

  /** The record of a job that exited with another code than 0 is never deleted, whatever happens to
      its container. */
  lemma {:induction false} FailedJobsKeepTheirRecord(retention: int, states: seq<State>, steps: seq<Step>, i: nat, j: nat, id: string)
    requires IsRun(retention, states, steps) && i <= j < |states|
    requires ExitedWith(states[i], id, false) && id in states[i].store
    ensures IsFailed(states[j], id) && id in states[j].store
    decreases j
  {
    if i == j {
      RunKeepsInv(retention, states, steps, i);
      RunKeepsSuccessOk(retention, states, steps, i);
      assert ContainerOk(states[i].daemon, states[i].issued, id);
      forall p | p in states[i].procs
        ensures id !in SuccessOf(states[i].procs[p])
      {
        assert SuccessOk(states[i], states[i].procs[p]);
      }
    } else {
      FailedJobsKeepTheirRecord(retention, states, steps, i, j - 1, id);
      RunKeepsInv(retention, states, steps, j - 1);
      StepKeepsFailed(retention, states[j - 1], steps[j - 1], id);
      StepKeepsFailedRecord(retention, states[j - 1], steps[j - 1], id);
    }
  }

  // ---------------------------------------------------------------------------
  // Retention
  // ---------------------------------------------------------------------------

  /** The container is gone, or exited longer than the retention time ago. */
  predicate Overdue(retention: int, s: State, id: string) {
    id in s.daemon.containers ==>
      s.daemon.containers[id].status.Exited? && retention < s.now - s.daemon.containers[id].status.finishedAt
  }

  ghost predicate SweepsOverdue(retention: int, s: State) {
    forall p :: Sweeps(s, p) ==> Overdue(retention, s, s.procs[p].id)
  }

  /** A container that has exited stays as it is until it is removed. */
  lemma StoppedStays(retention: int, s: State, a: Step, id: string)
    requires Inv(s) && Enabled(s, a) && Stopped(s, id)
    ensures id in Apply(retention, s, a).daemon.containers ==>
              id in s.daemon.containers && Apply(retention, s, a).daemon.containers[id] == s.daemon.containers[id]
  {
    if a.Create? && a.create.StartContainer? {
      assert ProcOk(s, s.procs[a.p]);
    }
    if !TouchesContainer(s, a, id) {
      OtherContainersStay(retention, s, a, id);
    }
  }

  predicate Sweeps(s: State, q: nat) {
    q in s.procs && s.procs[q].Removing? && s.procs[q].caller.Sweep?
  }

  ghost predicate SweptBefore(s: State, s': State, q: nat) {
    Sweeps(s', q) ==> Sweeps(s, q) && s.procs[q].id == s'.procs[q].id
  }

  lemma JobStepsSweepNothing(s: State, p: nat, q: nat)
    ensures forall a :: CanCreate(s, p, a) ==> SweptBefore(s, DoCreate(s, p, a), q)
    ensures forall a :: CanWatch(s, p, a) ==> SweptBefore(s, DoWatch(s, p, a), q)
  {
  }

  lemma CallsSweepNothing(s: State, p: nat, q: nat)
    ensures forall a :: CanCall(s, p, a) ==> SweptBefore(s, DoCall(s, p, a), q)
    ensures forall a :: CanDelete(s, p, a) ==> SweptBefore(s, DoDelete(s, p, a), q)
  {
  }

  lemma SweepPicksOverdue(retention: int, s: State, p: nat, a: CleanStep, q: nat)
    requires CanClean(s, p, a) && (p in s.procs ==> ProcOk(s, s.procs[p]))
    ensures var s' := DoClean(retention, s, p, a);
            SweptBefore(s, s', q) || (Overdue(retention, s, s'.procs[q].id) && Stopped(s, s'.procs[q].id))
  {
    if a.SweepInspect? {
      assert s.procs[p].rest[0] in s.procs[p].rest;
    }
  }

  lemma SweeperPicksOverdue(retention: int, s: State, a: Step, q: nat)
    requires Inv(s) && Enabled(s, a)
    ensures var s' := Apply(retention, s, a);
            Sweeps(s', q) ==> SweptBefore(s, s', q) || (Overdue(retention, s, s'.procs[q].id) && Stopped(s, s'.procs[q].id))
  {
    if a.Clean? {
      SweepPicksOverdue(retention, s, a.p, a.clean, q);
    } else if !a.Tick? && !a.Exit? && !a.Restart? {
      JobStepsSweepNothing(s, a.p, q);
      CallsSweepNothing(s, a.p, q);
    }
  }

  lemma StepKeepsSweepsOverdue(retention: int, s: State, a: Step)
    requires Inv(s) && Enabled(s, a) && SweepsOverdue(retention, s)
    ensures SweepsOverdue(retention, Apply(retention, s, a))
  {
    var s' := Apply(retention, s, a);
    StepEvolves(retention, s, a);
    forall q | Sweeps(s', q)
      ensures Overdue(retention, s', s'.procs[q].id)
    {
      SweeperPicksOverdue(retention, s, a, q);
      if Sweeps(s, q) {
        assert ProcOk(s, s.procs[q]);
      }
      StoppedStays(retention, s, a, s'.procs[q].id);
    }
  }

  lemma {:induction false} RunKeepsSweepsOverdue(retention: int, states: seq<State>, steps: seq<Step>, n: nat)
    requires IsRun(retention, states, steps) && n < |states|
    ensures SweepsOverdue(retention, states[n])
  {
    if n > 0 {
      RunKeepsSweepsOverdue(retention, states, steps, n - 1);
      RunKeepsInv(retention, states, steps, n - 1);
      StepKeepsSweepsOverdue(retention, states[n - 1], steps[n - 1]);
    }
  }

  /** However sweeps and other removals interleave: a container that is there when a sweep
      removes it has exited, longer than the retention time ago. */
  lemma SweepsRemoveNoneTooEarly(retention: int, states: seq<State>, steps: seq<Step>, i: nat)
    requires IsRun(retention, states, steps) && i < |steps|
    requires steps[i].Delete? && steps[i].delete.Remove? && Sweeps(states[i], steps[i].p)
    ensures Overdue(retention, states[i], states[i].procs[steps[i].p].id)
  {
    RunKeepsSweepsOverdue(retention, states, steps, i);
  }

  // ---------------------------------------------------------------------------
  // Records
  // ---------------------------------------------------------------------------

  /** What one step may do to a record: nothing, create it for a job that never had one,
      delete it, or stamp it once, with a time that is not before its start. */
  ghost predicate RecordStep(s: State, s': State, id: string) {
    && (id in s.written ==> id in s'.written)
    && (id in s.store ==> id in s.written)
    && (id in s.written && id !in s.store ==> id !in s'.store)
    && (id in s.store && id in s'.store ==>
          || s'.store[id] == s.store[id]
          || (s.store[id].stopAt == 0 && s'.store[id].startAt == s.store[id].startAt
              && s'.store[id].stopAt != 0 && s'.store[id].startAt <= s'.store[id].stopAt))
  }

  lemma StepIsRecordStep(retention: int, s: State, a: Step, id: string)
    requires Inv(s) && Enabled(s, a)
    ensures RecordStep(s, Apply(retention, s, a), id)
  {
    assert id in s.store ==> RecordOk(s, id);
    if WritesRecord(s, a, id) {
      assert ProcOk(s, s.procs[a.p]);
    } else {
      OtherRecordsStay(retention, s, a, id);
    }
  }

  lemma RunIsRecordSteps(retention: int, states: seq<State>, steps: seq<Step>, id: string)
    requires IsRun(retention, states, steps)
    ensures forall k :: 0 <= k < |states| - 1 ==> RecordStep(states[k], states[k + 1], id)
  {
    forall k | 0 <= k < |states| - 1
      ensures RecordStep(states[k], states[k + 1], id)
    {
      RunKeepsInv(retention, states, steps, k);
      StepIsRecordStep(retention, states[k], steps[k], id);
    }
  }

  lemma {:induction false} DeletedAlong(states: seq<State>, i: nat, j: nat, id: string)
    requires i <= j < |states|
    requires forall k :: 0 <= k < |states| - 1 ==> RecordStep(states[k], states[k + 1], id)
    requires id in states[i].written && id !in states[i].store
    ensures id in states[j].written && id !in states[j].store
  {
    if i < j {
      DeletedAlong(states, i, j - 1, id);
      assert RecordStep(states[j - 1], states[j - 1 + 1], id);
    }
  }

  lemma {:induction false} StampedAlong(states: seq<State>, i: nat, j: nat, id: string)
    requires i <= j < |states|
    requires forall k :: 0 <= k < |states| - 1 ==> RecordStep(states[k], states[k + 1], id)
    requires id in states[i].store && id in states[j].store
    ensures states[j].store[id].startAt == states[i].store[id].startAt
    ensures states[i].store[id].stopAt != 0 ==> states[j].store[id] == states[i].store[id]
    decreases j - i
  {
    if i < j {
      assert RecordStep(states[i], states[i + 1], id);
      if id in states[i + 1].store {
        StampedAlong(states, i + 1, j, id);
      } else {
        DeletedAlong(states, i + 1, j, id);
      }
    }
  }

  /** A deleted record never comes back. */
  lemma DeletedRecordsStayDeleted(retention: int, states: seq<State>, steps: seq<Step>, i: nat, j: nat, k: nat, id: string)
    requires IsRun(retention, states, steps) && i <= j <= k < |states|
    requires id in states[i].store && id !in states[j].store
    ensures id !in states[k].store
  {
    RunIsRecordSteps(retention, states, steps, id);
    RunKeepsInv(retention, states, steps, i);
    assert RecordOk(states[i], id);
    RunEvolves(retention, states, steps, i, j);
    DeletedAlong(states, j, k, id);
  }

  /** `StopAt` goes from 0 to a value once and stays; `StartAt` never changes, and no stop
      precedes its start. */
  lemma StopAtIsSetOnce(retention: int, states: seq<State>, steps: seq<Step>, i: nat, j: nat, id: string)
    requires IsRun(retention, states, steps) && i <= j < |states|
    requires id in states[i].store && id in states[j].store
    ensures states[j].store[id].startAt == states[i].store[id].startAt
    ensures states[i].store[id].stopAt != 0 ==> states[j].store[id] == states[i].store[id]
    ensures states[j].store[id].stopAt != 0 ==> states[j].store[id].startAt <= states[j].store[id].stopAt
  {
    RunKeepsInv(retention, states, steps, j);
    assert RecordOk(states[j], id);
    RunIsRecordSteps(retention, states, steps, id);
    StampedAlong(states, i, j, id);
  }

  /** A callback for a successful job that returns without error leaves nothing of the job
      behind, at that moment and for good: no record, no container, no volume. */
  lemma SuccessfulCallbackCleansUp(retention: int, states: seq<State>, steps: seq<Step>, i: nat, j: nat, p: nat, id: string)
    requires IsRun(retention, states, steps) && i <= j < |states|
    requires p in states[i].procs && states[i].procs[p] == Returned(id, true, true)
    ensures id in states[i].issued && id !in states[j].store && id !in states[j].daemon.containers
    ensures states[i].issued[id] !in states[j].daemon.volumes
  {
    RunKeepsInv(retention, states, steps, i);
    assert ProcOk(states[i], states[i].procs[p]);
    assert Gone(states[i], id);
    RunEvolves(retention, states, steps, i, j);
    assert Gone(states[j], id);
    RunIsRecordSteps(retention, states, steps, id);
    DeletedAlong(states, i, j, id);
  }

  // ---------------------------------------------------------------------------
  // Jobs that never get a stop time
  // ---------------------------------------------------------------------------

  /** The step ends the last hope of a stop time for the job: the watcher fails to stop the
      container or to inspect it afterwards, the callback finds no record or cannot read or
      write it, or a restart takes the watcher or callback away. */
  predicate GivesUp(s: State, a: Step, id: string)
    requires Enabled(s, a)
  {
    match a
    case Watch(p, StopAfterTimeout(code, reply)) =>
      s.procs[p].id == id && !StopContainer(s.daemon, id, code, s.now, reply).1
    case Watch(p, InspectExit(fails)) => s.procs[p].id == id && (fails || id !in s.daemon.containers)
    case Call(p, Fetch(fails)) => s.procs[p].id == id && (fails || id !in s.store)
    case Call(p, StoreStamp(fault)) => s.procs[p].id == id && fault.WriteFails?
    case Restart => id in WatchedJobs(s)
    case _ => false
  }

  lemma MissedGrows(retention: int, s: State, a: Step, id: string)
    requires Enabled(s, a)
    ensures id in Apply(retention, s, a).missed <==> id in s.missed || GivesUp(s, a, id)
  {
  }

  /** `missed` is the history of these steps. */
  lemma {:induction false} MissedIff(retention: int, states: seq<State>, steps: seq<Step>, n: nat, id: string)
    requires IsRun(retention, states, steps) && n < |states|
    ensures id in states[n].missed <==> exists i {:trigger steps[i]} :: 0 <= i < n && GivesUp(states[i], steps[i], id)
  {
    if n > 0 {
      MissedIff(retention, states, steps, n - 1, id);
      MissedGrows(retention, states[n - 1], steps[n - 1], id);
    }
  }

  ghost predicate Watched(s: State, id: string) {
    exists p :: p in s.procs && BeforeStamp(s.procs[p]) && s.procs[p].id == id
  }

  /** A job that was given up was started, and nobody works on its record any more. */
  ghost predicate MissedOk(s: State, id: string) {
    Started(s, id) && forall p :: p in s.procs && id in WatcherOf(s.procs[p]) ==> s.procs[p].Returned?
  }

  /** The record tells who is still to write the stop time: while a watcher or callback is, it
      has none; once nobody is, it has none exactly if the job was given up. */
  ghost predicate StampOk(s: State, id: string)
    requires id in s.store
  {
    s.store[id].stopAt == 0 <==> id in s.missed || Watched(s, id)
  }

  /** A record that is about to be saved has its watcher, or is given up already. */
  ghost predicate SavingOk(s: State, proc: Proc) {
    proc.Saving? ==> proc.id in s.missed || Watched(s, proc.id)
  }

  ghost predicate AllSavingOk(s: State) {
    forall p :: p in s.procs ==> SavingOk(s, s.procs[p])
  }

  ghost predicate AllStampOk(s: State) {
    forall id :: id in s.store ==> StampOk(s, id)
  }

  ghost predicate AllMissedOk(s: State) {
    forall id :: id in s.missed ==> MissedOk(s, id)
  }

  ghost predicate Progress(s: State) {
    AllMissedOk(s) && AllStampOk(s) && AllSavingOk(s)
  }

  /** Two processes do not work on the same job's record. */
  lemma OnlyWatcher(s: State, p: nat, q: nat)
    requires OneOfEach(s) && p in s.procs && q in s.procs && p != q
    ensures forall id :: id in WatcherOf(s.procs[p]) ==> id !in WatcherOf(s.procs[q])
  {
  }

  lemma WatchedMovesOn(s: State, p: nat, a: WatchStep, id: string)
    requires CanWatch(s, p, a) && s.procs[p].id == id
    ensures var s' := DoWatch(s, p, a);
            s'.store == s.store && (id in s'.missed || (p in s'.procs && BeforeStamp(s'.procs[p]) && s'.procs[p].id == id))
  {
  }

  lemma CalledMovesOn(s: State, p: nat, a: CallbackStep, id: string)
    requires CanCall(s, p, a) && BeforeStamp(s.procs[p]) && s.procs[p].id == id && ProcOk(s, s.procs[p])
    requires id in s.store ==> s.store[id].stopAt == 0
    ensures var s' := DoCall(s, p, a);
            || id in s'.missed
            || (p in s'.procs && BeforeStamp(s'.procs[p]) && s'.procs[p].id == id)
            || (id in s'.store && s'.store[id].stopAt != 0)
  {
  }

  /** Someone who is still to write the stop time goes on, writes it, or gives up. */
  lemma WatchedGoesOn(retention: int, s: State, a: Step, id: string)
    requires Inv(s) && Enabled(s, a) && AllStampOk(s) && Watched(s, id)
    ensures var s' := Apply(retention, s, a);
            id in s'.missed || Watched(s', id) || (id in s'.store && s'.store[id].stopAt != 0)
  {
    var p :| p in s.procs && BeforeStamp(s.procs[p]) && s.procs[p].id == id;
    assert ProcOk(s, s.procs[p]);
    assert id in s.store ==> StampOk(s, id);
    if a.Restart? {
      assert id in WatchedJobs(s);
    } else if p in Actor(a) {
      ActorGoesOn(retention, s, a, id);
    } else {
      BystanderStays(retention, s, a, p);
    }
  }

  lemma ActorGoesOn(retention: int, s: State, a: Step, id: string)
    requires Enabled(s, a) && Actor(a) != {} && a.p in s.procs && BeforeStamp(s.procs[a.p]) && s.procs[a.p].id == id
    requires ProcOk(s, s.procs[a.p]) && (id in s.store ==> s.store[id].stopAt == 0)
    ensures var s' := Apply(retention, s, a);
            id in s'.missed || Watched(s', id) || (id in s'.store && s'.store[id].stopAt != 0)
  {
    if a.Watch? {
      WatchedMovesOn(s, a.p, a.watch, id);
    } else {
      CalledMovesOn(s, a.p, a.call, id);
    }
  }

  lemma StepKeepsMissedOk(retention: int, s: State, a: Step, id: string)
    requires Inv(s) && Enabled(s, a) && AllMissedOk(s) && id in Apply(retention, s, a).missed
    ensures MissedOk(Apply(retention, s, a), id)
  {
    var s' := Apply(retention, s, a);
    StepEvolves(retention, s, a);
    MissedGrows(retention, s, a, id);
    if id in s.missed {
      assert MissedOk(s, id);
      forall p | p in s'.procs && id in WatcherOf(s'.procs[p])
        ensures s'.procs[p].Returned?
      {
        WatchersStay(retention, s, a, p, id);
      }
    } else if !a.Restart? {
      assert ProcOk(s, s.procs[a.p]);
      forall p | p in s'.procs && id in WatcherOf(s'.procs[p])
        ensures s'.procs[p].Returned?
      {
        GivingUpLeavesNobody(retention, s, a, p, id);
      }
    } else {
      var p :| p in s.procs && BeforeStamp(s.procs[p]) && s.procs[p].id == id;
      assert ProcOk(s, s.procs[p]);
    }
  }

  /** Nobody takes up the work on a job that was started and has none but finished callbacks. */
  lemma WatchersStay(retention: int, s: State, a: Step, p: nat, id: string)
    requires Inv(s) && Enabled(s, a) && MissedOk(s, id)
    requires p in Apply(retention, s, a).procs && id in WatcherOf(Apply(retention, s, a).procs[p])
    ensures Apply(retention, s, a).procs[p].Returned?
  {
    if a.Create? && a.create.CreateContainer? {
      CreatorTakesNothingOn(s, a.p, a.create, p);
    } else if a.Create? && a.create.StartContainer? {
      StartTakesOn(s, a.p, a.create, p);
      assert ProcOk(s, s.procs[a.p]);
    } else {
      StepTakesNothingOn(retention, s, a, p);
    }
    assert p in s.procs && s.procs[p].Returned?;
    assert p !in Actor(a);
    BystanderStays(retention, s, a, p);
  }

  lemma CreatorTakesNothingOn(s: State, p: nat, a: CreateStep, q: nat)
    requires CanCreate(s, p, a) && a.CreateContainer?
    ensures q in DoCreate(s, p, a).procs && WatcherOf(DoCreate(s, p, a).procs[q]) != {} ==>
              q in s.procs && DoCreate(s, p, a).procs[q] == s.procs[q]
  {
  }

  lemma GivingUpLeavesNobody(retention: int, s: State, a: Step, p: nat, id: string)
    requires OneOfEach(s) && Enabled(s, a) && !a.Restart? && GivesUp(s, a, id)
    requires p in Apply(retention, s, a).procs && id in WatcherOf(Apply(retention, s, a).procs[p])
    ensures Apply(retention, s, a).procs[p].Returned?
  {
    assert id in WatcherOf(s.procs[a.p]);
    StepTakesNothingOn(retention, s, a, p);
    if p != a.p {
      OnlyWatcher(s, a.p, p);
    }
  }

  lemma StepKeepsSavingOk(retention: int, s: State, a: Step, q: nat)
    requires Inv(s) && Enabled(s, a) && Progress(s) && q in Apply(retention, s, a).procs
    ensures SavingOk(Apply(retention, s, a), Apply(retention, s, a).procs[q])
  {
    var s' := Apply(retention, s, a);
    if s'.procs[q].Saving? {
      var id := s'.procs[q].id;
      SaverIsOldOrNew(retention, s, a, q);
      if q in s.procs && s.procs[q] == s'.procs[q] {
        assert SavingOk(s, s.procs[q]);
        MissedGrows(retention, s, a, id);
        StepKeepsInv(retention, s, a);
        assert ProcOk(s', s'.procs[q]);
        assert id in s'.store ==> RecordOk(s', id);
        if id !in s.missed {
          WatchedGoesOn(retention, s, a, id);
        }
      } else {
        assert s'.procs[a.create.watcher] == Waiting(id);
      }
    }
  }

  lemma SaverIsOldOrNew(retention: int, s: State, a: Step, q: nat)
    requires Enabled(s, a) && q in Apply(retention, s, a).procs && Apply(retention, s, a).procs[q].Saving?
    ensures var s' := Apply(retention, s, a);
            || (q in s.procs && s.procs[q] == s'.procs[q])
            || (a.Create? && a.create.StartContainer? && q == a.p && a.create.watcher in s'.procs
                && s'.procs[a.create.watcher] == Waiting(s'.procs[q].id))
  {
    if a.Create? {
      SaverIsOldOrStarts(s, a.p, a.create, q);
    } else if !a.Restart? {
      OtherStepsMakeNoSaver(retention, s, a, q);
    }
  }

  lemma SaverIsOldOrStarts(s: State, p: nat, a: CreateStep, q: nat)
    requires CanCreate(s, p, a) && q in DoCreate(s, p, a).procs && DoCreate(s, p, a).procs[q].Saving?
    ensures var s' := DoCreate(s, p, a);
            || (q in s.procs && s.procs[q] == s'.procs[q])
            || (a.StartContainer? && q == p && a.watcher in s'.procs && s'.procs[a.watcher] == Waiting(s'.procs[q].id))
  {
  }

  lemma OtherStepsMakeNoSaver(retention: int, s: State, a: Step, q: nat)
    requires Enabled(s, a) && !a.Create? && !a.Restart?
    requires q in Apply(retention, s, a).procs && Apply(retention, s, a).procs[q].Saving?
    ensures q in s.procs && s.procs[q] == Apply(retention, s, a).procs[q]
  {
    if !a.Tick? && !a.Exit? {
      JobStepsMakeNoSaver(s, a.p, q);
      CleanupMakesNoSaver(retention, s, a.p, q);
    }
  }

  ghost predicate WasSaver(s: State, s': State, q: nat) {
    q in s'.procs && s'.procs[q].Saving? ==> q in s.procs && s.procs[q] == s'.procs[q]
  }

  lemma JobStepsMakeNoSaver(s: State, p: nat, q: nat)
    ensures forall a :: CanWatch(s, p, a) ==> WasSaver(s, DoWatch(s, p, a), q)
    ensures forall a :: CanCall(s, p, a) ==> WasSaver(s, DoCall(s, p, a), q)
  {
  }

  lemma CleanupMakesNoSaver(retention: int, s: State, p: nat, q: nat)
    ensures forall a :: CanDelete(s, p, a) ==> WasSaver(s, DoDelete(s, p, a), q)
    ensures forall a :: CanClean(s, p, a) ==> WasSaver(s, DoClean(retention, s, p, a), q)
  {
  }

  /** The step leaves the job's record alone. */
  lemma QuietKeepsStampOk(retention: int, s: State, a: Step, id: string)
    requires Inv(s) && Enabled(s, a) && Progress(s) && !WritesRecord(s, a, id)
    requires id in Apply(retention, s, a).store
    ensures StampOk(Apply(retention, s, a), id)
  {
    var s' := Apply(retention, s, a);
    OtherRecordsStay(retention, s, a, id);
    assert StampOk(s, id);
    MissedGrows(retention, s, a, id);
    if Watched(s, id) {
      WatchedGoesOn(retention, s, a, id);
    }
    if s'.store[id].stopAt != 0 {
      NobodyTakesOver(retention, s, a, id);
    }
  }

  /** Nobody starts watching a job whose record exists, or gives it up, but its watcher. */
  lemma NobodyTakesOver(retention: int, s: State, a: Step, id: string)
    requires Inv(s) && Enabled(s, a) && id in s.store && !Watched(s, id)
    ensures !Watched(Apply(retention, s, a), id) && !GivesUp(s, a, id)
  {
    var s' := Apply(retention, s, a);
    assert RecordOk(s, id);
    forall p | p in s'.procs && BeforeStamp(s'.procs[p])
      ensures s'.procs[p].id != id
    {
      WatcherIsOldOrNew(retention, s, a, p);
      if a.Create? && a.create.StartContainer? {
        assert ProcOk(s, s.procs[a.p]);
      }
    }
  }

  /** The process is not past the stamp now, and was not before either. */
  ghost predicate WatchesOn(s: State, s': State, q: nat) {
    q in s'.procs && BeforeStamp(s'.procs[q]) ==>
      q in s.procs && BeforeStamp(s.procs[q]) && s.procs[q].id == s'.procs[q].id
  }

  lemma JobStepsWatchOn(s: State, p: nat, q: nat)
    ensures forall a :: CanWatch(s, p, a) ==> WatchesOn(s, DoWatch(s, p, a), q)
    ensures forall a :: CanCall(s, p, a) ==> WatchesOn(s, DoCall(s, p, a), q)
  {
  }

  lemma CleanupWatchesOn(retention: int, s: State, p: nat, q: nat)
    ensures forall a :: CanDelete(s, p, a) ==> WatchesOn(s, DoDelete(s, p, a), q)
    ensures forall a :: CanClean(s, p, a) ==> WatchesOn(s, DoClean(retention, s, p, a), q)
  {
  }

  lemma CreateWatchesOn(s: State, p: nat, a: CreateStep, q: nat)
    requires CanCreate(s, p, a)
    ensures var s' := DoCreate(s, p, a);
            || WatchesOn(s, s', q)
            || (a.StartContainer? && q == a.watcher && s'.procs[q].id == s.procs[p].id)
  {
  }

  lemma WatcherIsOldOrNew(retention: int, s: State, a: Step, q: nat)
    requires Enabled(s, a) && q in Apply(retention, s, a).procs && BeforeStamp(Apply(retention, s, a).procs[q])
    ensures var s' := Apply(retention, s, a);
            || (q in s.procs && BeforeStamp(s.procs[q]) && s.procs[q].id == s'.procs[q].id)
            || (a.Create? && a.create.StartContainer? && q == a.create.watcher && s'.procs[q].id == s.procs[a.p].id)
  {
    if a.Create? {
      CreateWatchesOn(s, a.p, a.create, q);
    } else if !a.Tick? && !a.Exit? && !a.Restart? {
      JobStepsWatchOn(s, a.p, q);
      CleanupWatchesOn(retention, s, a.p, q);
    }
  }

  lemma WritingKeepsStampOk(retention: int, s: State, a: Step, id: string)
    requires Inv(s) && Enabled(s, a) && Progress(s) && WritesRecord(s, a, id)
    requires id in Apply(retention, s, a).store
    ensures StampOk(Apply(retention, s, a), id)
  {
    var s' := Apply(retention, s, a);
    assert ProcOk(s, s.procs[a.p]);
    MissedGrows(retention, s, a, id);
    if a.Create? {
      assert SavingOk(s, s.procs[a.p]);
      if id !in s.missed && id in s'.store {
        WatchedGoesOn(retention, s, a, id);
      }
    } else {
      StampingKeepsStampOk(retention, s, a, id);
    }
  }

  /** While a callback writes or drops the record, nobody else is at it. */
  lemma WriterIsAlone(retention: int, s: State, a: Step, id: string, q: nat)
    requires Inv(s) && Enabled(s, a) && WritesRecord(s, a, id) && a.Call?
    requires q in Apply(retention, s, a).procs && q != a.p
    ensures !(BeforeStamp(Apply(retention, s, a).procs[q]) && Apply(retention, s, a).procs[q].id == id)
  {
    assert id in WatcherOf(s.procs[a.p]);
    CallTakesNothingOn(s, a.p, a.call, q);
    if q in s.procs {
      OnlyWatcher(s, a.p, q);
    }
  }

  lemma CallTakesNothingOn(s: State, p: nat, a: CallbackStep, q: nat)
    requires CanCall(s, p, a) && q in DoCall(s, p, a).procs && q != p
    ensures q in s.procs && DoCall(s, p, a).procs[q] == s.procs[q]
  {
  }

  lemma StampingKeepsStampOk(retention: int, s: State, a: Step, id: string)
    requires Inv(s) && Enabled(s, a) && Progress(s) && WritesRecord(s, a, id) && a.Call?
    requires id in Apply(retention, s, a).store
    ensures StampOk(Apply(retention, s, a), id)
  {
    var s' := Apply(retention, s, a);
    forall q | q in s'.procs && q != a.p
      ensures !(BeforeStamp(s'.procs[q]) && s'.procs[q].id == id)
    {
      WriterIsAlone(retention, s, a, id, q);
    }
    WriterSettles(s, a.p, a.call, id);
  }

  /** Having written the record, the callback is past the stamp, and the job is not given up. */
  lemma WriterSettles(s: State, p: nat, a: CallbackStep, id: string)
    requires CanCall(s, p, a) && (a.StoreStamp? || a.DropRecord?) && s.procs[p].id == id
    requires ProcOk(s, s.procs[p]) && Progress(s) && OneOfEach(s)
    ensures var s' := DoCall(s, p, a);
            && p in s'.procs && !BeforeStamp(s'.procs[p])
            && (id in s'.store ==> (s'.store[id].stopAt == 0 <==> id in s'.missed))
  {
    assert id in WatcherOf(s.procs[p]) && !s.procs[p].Returned?;
    assert id in s.missed ==> MissedOk(s, id);
    if a.DropRecord? && id in s.store {
      assert StampOk(s, id);
      forall q | q in s.procs && q != p
        ensures !(BeforeStamp(s.procs[q]) && s.procs[q].id == id)
      {
        OnlyWatcher(s, p, q);
      }
    } else if id in s.store {
      assert StampOk(s, id);
    }
  }

  lemma StepKeepsProgress(retention: int, s: State, a: Step)
    requires Inv(s) && Enabled(s, a) && Progress(s)
    ensures Progress(Apply(retention, s, a))
  {
    var s' := Apply(retention, s, a);
    forall id | id in s'.missed
      ensures MissedOk(s', id)
    {
      StepKeepsMissedOk(retention, s, a, id);
    }
    forall id | id in s'.store
      ensures StampOk(s', id)
    {
      if WritesRecord(s, a, id) {
        WritingKeepsStampOk(retention, s, a, id);
      } else {
        QuietKeepsStampOk(retention, s, a, id);
      }
    }
    forall p | p in s'.procs
      ensures SavingOk(s', s'.procs[p])
    {
      StepKeepsSavingOk(retention, s, a, p);
    }
  }

  lemma {:induction false} RunKeepsProgress(retention: int, states: seq<State>, steps: seq<Step>, n: nat)
    requires IsRun(retention, states, steps) && n < |states|
    ensures Progress(states[n])
  {
    if n > 0 {
      RunKeepsProgress(retention, states, steps, n - 1);
      RunKeepsInv(retention, states, steps, n - 1);
      StepKeepsProgress(retention, states[n - 1], steps[n - 1]);
    }
  }

  /** In every run, whatever fails: a record has no stop time exactly while the job's watcher or
      callback is still to write it, or when one of the steps that give it up was taken. */
  lemma UnstampedIff(retention: int, states: seq<State>, steps: seq<Step>, n: nat, id: string)
    requires IsRun(retention, states, steps) && n < |states| && id in states[n].store
    ensures states[n].store[id].stopAt == 0
       <==> Watched(states[n], id) || exists i {:trigger steps[i]} :: 0 <= i < n && GivesUp(states[i], steps[i], id)
  {
    RunKeepsProgress(retention, states, steps, n);
    assert StampOk(states[n], id);
    MissedIff(retention, states, steps, n, id);
  }

  /** Once it is given up, a record without a stop time stays as it is for good, whatever
      happens; and every request to delete the job is turned away. */
  lemma UnstampedForever(retention: int, states: seq<State>, steps: seq<Step>, i: nat, j: nat, k: nat, id: string)
    requires IsRun(retention, states, steps) && i < j <= k < |states|
    requires GivesUp(states[i], steps[i], id) && id in states[j].store
    ensures id in states[k].store && states[k].store[id] == states[j].store[id] && states[k].store[id].stopAt == 0
    ensures forall q, fails :: q !in states[k].procs ==>
              Apply(retention, states[k], Clean(q, DeleteRequest(id, fails))) == states[k]
  {
    MissedIff(retention, states, steps, j, id);
    MissedIff(retention, states, steps, k, id);
    GivenUpRecordStays(retention, states, steps, j, k, id);
    RunKeepsProgress(retention, states, steps, k);
    assert StampOk(states[k], id);
  }

  lemma {:induction false} GivenUpRecordStays(retention: int, states: seq<State>, steps: seq<Step>, j: nat, k: nat, id: string)
    requires IsRun(retention, states, steps) && j <= k < |states|
    requires id in states[j].missed && id in states[j].store
    ensures id in states[k].missed && id in states[k].store && states[k].store[id] == states[j].store[id]
  {
    if j < k {
      GivenUpRecordStays(retention, states, steps, j, k - 1, id);
      RunKeepsInv(retention, states, steps, k - 1);
      RunKeepsProgress(retention, states, steps, k - 1);
      GivenUpIsSettled(retention, states[k - 1], steps[k - 1], id);
    }
  }

  lemma GivenUpIsSettled(retention: int, s: State, a: Step, id: string)
    requires Inv(s) && Progress(s) && Enabled(s, a) && id in s.missed && id in s.store
    ensures var s' := Apply(retention, s, a);
            id in s'.missed && id in s'.store && s'.store[id] == s.store[id]
  {
    MissedGrows(retention, s, a, id);
    GivenUpIsNotWritten(s, a, id);
    OtherRecordsStay(retention, s, a, id);
  }

  lemma GivenUpIsNotWritten(s: State, a: Step, id: string)
    requires Inv(s) && Progress(s) && Enabled(s, a) && id in s.missed && id in s.store
    ensures !WritesRecord(s, a, id)
  {
    assert MissedOk(s, id) && RecordOk(s, id);
    if (a.Create? && a.create.SaveNew?) || (a.Call? && (a.call.StoreStamp? || a.call.DropRecord?)) {
      var own := s.procs[a.p];
      assert ProcOk(s, own);
      assert own.Saving? || (own.id in WatcherOf(own) && !own.Returned?);
      assert own.id != id;
    }
  }

  /** Runs grow by one enabled step. */
  lemma RunExtends(retention: int, states: seq<State>, steps: seq<Step>, a: Step) returns (states': seq<State>, steps': seq<Step>)
    requires IsRun(retention, states, steps) && Enabled(states[|steps|], a)
    ensures IsRun(retention, states', steps')
    ensures states' == states + [Apply(retention, states[|steps|], a)] && steps' == steps + [a]
  {
    states', steps' := states + [Apply(retention, states[|steps|], a)], steps + [a];
  }

  /** A state with one job "j" on volume "v" at time 1. */
  function OneJob(status: Status, procs: map<nat, Proc>, missed: set<string>): State {
    State(Daemon(map["j" := Container(status, ["v"])], {"v"}), map[], 1, procs, map["j" := "v"], {}, missed, 0)
  }

  /** Nothing goes wrong in the step: no call fails and none loses its answer. */
  predicate IsFaultFree(a: Step) {
    match a
    case Create(_, ListRunning(fails)) => !fails
    case Create(_, AbortCreate) => false
    case Create(_, CreateContainer(_, _, reply)) => reply.Done?
    case Create(_, StartContainer(_, reply)) => reply.Done?
    case Create(_, SaveNew(fault)) => fault.NoFault?
    case Watch(_, StopAfterTimeout(_, reply)) => reply.Done?
    case Watch(_, InspectExit(fails)) => !fails
    case Call(_, Fetch(fails)) => !fails
    case Call(_, StoreStamp(fault)) => fault.NoFault?
    case Call(_, DropRecord(fault)) => fault.NoFault?
    case Restart => false
    case _ => true
  }

  lemma AdmitOneJob() returns (states: seq<State>, steps: seq<Step>)
    ensures IsRun(0, states, steps) && |steps| == 2 && forall a :: a in steps ==> IsFaultFree(a)
    ensures states[2] == State(Daemon(map[], {}), map[], 1, map[0 := Creating], map[], {}, {}, 0)
  {
    states, steps := [State(Daemon(map[], {}), map[], 1, map[], map[], {}, {}, 0)], [];
    states, steps := RunExtends(0, states, steps, Create(0, BeginCreate));
    states, steps := RunExtends(0, states, steps, Create(0, ListRunning(false)));
  }

  lemma StartOneJob() returns (states: seq<State>, steps: seq<Step>)
    ensures IsRun(0, states, steps) && |steps| == 4 && forall a :: a in steps ==> IsFaultFree(a)
    ensures states[4] == OneJob(Running, map[0 := Saving("j", 1), 1 := Waiting("j")], {})
  {
    states, steps := AdmitOneJob();
    states, steps := RunExtends(0, states, steps, Create(0, CreateStep.CreateContainer("j", "v", Done)));
    assert states[3] == OneJob(Created, map[0 := Starting("j")], {});
    states, steps := RunExtends(0, states, steps, Create(0, CreateStep.StartContainer(1, Done)));
  }

  /** It happens: a job that ends, successfully and with no fault anywhere, before the create
      handler gets to save its record, is recorded as running for good. */
  lemma CallbackBeforeSaveIsNeverStamped() returns (states: seq<State>, steps: seq<Step>)
    ensures IsRun(0, states, steps) && forall a :: a in steps ==> IsFaultFree(a)
    ensures states[|steps|].procs == map[1 := Returned("j", true, false)]
    ensures states[|steps|].store == map["j" := Record(1, 0)]
    ensures states[|steps|].daemon.containers == map["j" := Container(Exited(0, 1), ["v"])]
  {
    states, steps := StartOneJob();
    states, steps := RunExtends(0, states, steps, Exit("j", 0));
    assert states[5] == OneJob(Exited(0, 1), map[0 := Saving("j", 1), 1 := Waiting("j")], {});
    states, steps := RunExtends(0, states, steps, Watch(1, WaitReturns));
    assert states[6] == OneJob(Exited(0, 1), map[0 := Saving("j", 1), 1 := Fetching("j", true)], {});
    states, steps := RunExtends(0, states, steps, Call(1, Fetch(false)));
    assert states[7] == OneJob(Exited(0, 1), map[0 := Saving("j", 1), 1 := Returned("j", true, false)], {"j"});
    states, steps := RunExtends(0, states, steps, Create(0, SaveNew(Store.NoFault)));
  }

  /** A job that is saved and runs. */
  lemma SaveOneJob() returns (states: seq<State>, steps: seq<Step>)
    ensures IsRun(0, states, steps) && |steps| == 5
    ensures states[5] == OneJob(Running, map[1 := Waiting("j")], {}).(store := map["j" := Record(1, 0)], written := {"j"})
  {
    states, steps := StartOneJob();
    states, steps := RunExtends(0, states, steps, Create(0, SaveNew(Store.NoFault)));
    assert states[5].procs == map[1 := Waiting("j")];
  }

  /** The watcher that gives up is another way: the container is stopped at its time limit, but
      the answer is lost, and the watcher leaves. */
  lemma AbandonedJobIsNeverStamped() returns (states: seq<State>, steps: seq<Step>)
    ensures IsRun(0, states, steps)
    ensures states[|steps|].procs == map[]
    ensures states[|steps|].store == map["j" := Record(1, 0)]
    ensures states[|steps|].daemon.containers == map["j" := Container(Exited(0, 1), ["v"])]
  {
    states, steps := SaveOneJob();
    states, steps := RunExtends(0, states, steps, Watch(1, StopAfterTimeout(0, Lost)));
    assert states[6].procs == map[];
  }

  /** ... or the stop is reported and the inspection after it fails. */
  lemma UninspectedJobIsNeverStamped() returns (states: seq<State>, steps: seq<Step>)
    ensures IsRun(0, states, steps)
    ensures states[|steps|].procs == map[]
    ensures states[|steps|].store == map["j" := Record(1, 0)]
    ensures states[|steps|].daemon.containers == map["j" := Container(Exited(0, 1), ["v"])]
  {
    states, steps := SaveOneJob();
    states, steps := RunExtends(0, states, steps, Watch(1, StopAfterTimeout(0, Done)));
    assert states[6].procs == map[1 := Inspecting("j")];
    states, steps := RunExtends(0, states, steps, Watch(1, InspectExit(true)));
    assert states[7].procs == map[];
  }

  /** ... or the service is restarted while the job runs. */
  lemma RestartLeavesUnstamped() returns (states: seq<State>, steps: seq<Step>)
    ensures IsRun(0, states, steps)
    ensures states[|steps|].procs == map[]
    ensures states[|steps|].store == map["j" := Record(1, 0)]
    ensures states[|steps|].daemon.containers == map["j" := Container(Running, ["v"])]
  {
    states, steps := SaveOneJob();
    states, steps := RunExtends(0, states, steps, Restart);
  }
}
