/**
 The admission bound in the life of jobs: how many containers of the daemon run at once when
 creations, each listing first and starting much later, overlap with everything else.
 */
module JobAdmission {
  import opened Docker
  import opened JobLifecycle
  import JobRuns
  import A = Admission

  predicate IsCreator(proc: Proc) {
    proc.Listing? || proc.Creating? || proc.Starting? || proc.Saving?
  }

  /** The creations in flight. */
  function Creators(s: State): set<nat> {
    set p | p in s.procs && IsCreator(s.procs[p])
  }

  /** Those that were admitted and have not started their container. */
  function Admitted(s: State): set<nat> {
    set p | p in s.procs && (s.procs[p].Creating? || s.procs[p].Starting?)
  }

  /** The containers that run and those that are as good as running stay within the bound. */
  ghost predicate WithinBound(k: nat, s: State) {
    |RunningJobs(s.daemon)| + |Admitted(s)| <= s.limit + k - 1
  }

  /** Neither more containers run nor are more creations admitted. */
  ghost predicate NoMore(s: State, s': State) {
    RunningJobs(s'.daemon) <= RunningJobs(s.daemon) && Admitted(s') <= Admitted(s)
  }

  lemma JobStepsAddNothing(s: State, p: nat)
    ensures forall a :: CanWatch(s, p, a) ==> NoMore(s, DoWatch(s, p, a))
    ensures forall a :: CanCall(s, p, a) ==> NoMore(s, DoCall(s, p, a))
  {
  }

  lemma DeleteAddsNothing(s: State, p: nat, a: DeleteStep)
    requires CanDelete(s, p, a)
    ensures NoMore(s, DoDelete(s, p, a))
  {
  }

  lemma CleanAddsNothing(retention: int, s: State, p: nat, a: CleanStep)
    requires CanClean(s, p, a)
    ensures NoMore(s, DoClean(retention, s, p, a))
  {
  }

  lemma CreateAddsNothing(s: State, p: nat, a: CreateStep)
    requires Inv(s) && CanCreate(s, p, a) && !a.ListRunning? && !a.StartContainer?
    ensures NoMore(s, DoCreate(s, p, a))
  {
  }

  lemma OtherStepsAddNothing(retention: int, s: State, a: Step)
    requires Inv(s) && Enabled(s, a)
    requires a.Create? ==> !a.create.ListRunning? && !a.create.StartContainer?
    ensures NoMore(s, Apply(retention, s, a))
  {
    match a
    case Tick(_) =>
    case Exit(_, _) =>
    case Create(p, c) => CreateAddsNothing(s, p, c);
    case Watch(p, _) => JobStepsAddNothing(s, p);
    case Call(p, _) => JobStepsAddNothing(s, p);
    case Delete(p, d) => DeleteAddsNothing(s, p, d);
    case Clean(p, c) => CleanAddsNothing(retention, s, p, c);
    case Restart =>
  }

  /** Listing lets a creation in only below the maximum; and there are at most `k` of them. */
  lemma ListingKeepsBound(k: nat, s: State, p: nat, a: CreateStep)
    requires WithinBound(k, s) && 0 < s.limit && CanCreate(s, p, a) && a.ListRunning?
    requires |Creators(DoCreate(s, p, a))| <= k
    ensures WithinBound(k, DoCreate(s, p, a))
  {
    var s' := DoCreate(s, p, a);
    assert Admitted(s') <= Creators(s');
    A.SubsetIsNoLarger(Admitted(s'), Creators(s'));
    if p !in s'.procs {
      assert Admitted(s') == Admitted(s);
    }
  }

  /** A start makes of an admitted creation a running container. */
  lemma StartingKeepsBound(k: nat, s: State, p: nat, a: CreateStep)
    requires WithinBound(k, s) && CanCreate(s, p, a) && a.StartContainer?
    ensures WithinBound(k, DoCreate(s, p, a))
  {
    var s', id := DoCreate(s, p, a), s.procs[p].id;
    assert Admitted(s') == Admitted(s) - {p};
    assert RunningJobs(s'.daemon) <= RunningJobs(s.daemon) + {id};
    A.SubsetIsNoLarger(RunningJobs(s'.daemon), RunningJobs(s.daemon) + {id});
  }

  lemma LimitStays(retention: int, s: State, a: Step)
    requires Enabled(s, a)
    ensures Apply(retention, s, a).limit == s.limit
  {
  }

  lemma StepKeepsBound(retention: int, k: nat, s: State, a: Step)
    requires Inv(s) && WithinBound(k, s) && 0 < s.limit && Enabled(s, a)
    requires |Creators(Apply(retention, s, a))| <= k
    ensures WithinBound(k, Apply(retention, s, a))
  {
    LimitStays(retention, s, a);
    if a.Create? && a.create.ListRunning? {
      ListingKeepsBound(k, s, a.p, a.create);
    } else if a.Create? && a.create.StartContainer? {
      StartingKeepsBound(k, s, a.p, a.create);
    } else {
      var s' := Apply(retention, s, a);
      OtherStepsAddNothing(retention, s, a);
      A.SubsetIsNoLarger(RunningJobs(s'.daemon), RunningJobs(s.daemon));
      A.SubsetIsNoLarger(Admitted(s'), Admitted(s));
    }
  }

  /** With a maximum and at most `k` creations in flight, never more than max + k - 1 containers
      of the daemon run, whatever fails, is removed or restarted meanwhile. */
  lemma {:induction false} RunningContainersAreBounded(retention: int, k: nat, states: seq<State>, steps: seq<Step>, n: nat)
    requires IsRun(retention, states, steps) && n < |states| && 0 < states[0].limit
    requires forall i :: 0 <= i < |states| ==> |Creators(states[i])| <= k
    ensures states[n].limit == states[0].limit
    ensures WithinBound(k, states[n]) && |RunningJobs(states[n].daemon)| <= states[0].limit + k - 1
  {
    if n == 0 {
      assert RunningJobs(states[0].daemon) == {} && Admitted(states[0]) == {};
    } else {
      RunningContainersAreBounded(retention, k, states, steps, n - 1);
      JobRuns.RunKeepsInv(retention, states, steps, n - 1);
      LimitStays(retention, states[n - 1], steps[n - 1]);
      assert |Creators(states[n])| <= k;
      StepKeepsBound(retention, k, states[n - 1], steps[n - 1]);
    }
  }
}
