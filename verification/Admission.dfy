/**
 Admission of jobs.  A creator lists what is running, compares with the maximum, and only
 much later starts its own job; any number of creators, in any number of service instances
 on the same backend, do this at once.  The same protocol serves the container daemon (list
 and start) and the cluster (list and create).
 */
module Admission {

  /** Where a creator stands: about to list, admitted but with nothing running yet, or with
      its job running and the rest of its request still to do. */
  datatype Phase = Listing | Admitted | Started

  datatype State = State(active: set<nat>, creators: map<nat, Phase>)

  datatype Step =
    | Begin(p: nat)
    | List(p: nat)
    | Start(p: nat, job: nat)
    | Abandon(p: nat)
    | Exit(job: nat)

  predicate Enabled(s: State, a: Step) {
    match a
    case Begin(p) => p !in s.creators
    case List(p) => p in s.creators && s.creators[p].Listing?
    case Start(p, job) => p in s.creators && s.creators[p].Admitted? && job !in s.active
    // a creator may fail anywhere, and is done after it started its job
    case Abandon(p) => p in s.creators
    case Exit(job) => job in s.active
  }

  /** The check of the list against the maximum, where 0 stands for no maximum. */
  predicate Admits(max: int, devMode: bool, active: nat) {
    max <= 0 || active < max || devMode
  }

  function Apply(max: int, devMode: bool, s: State, a: Step): State
    requires Enabled(s, a)
  {
    match a
    case Begin(p) => s.(creators := s.creators[p := Listing])
    case List(p) =>
      if Admits(max, devMode, |s.active|) then s.(creators := s.creators[p := Admitted])
      else s.(creators := s.creators - {p})
    case Start(p, job) => State(s.active + {job}, s.creators[p := Started])
    case Abandon(p) => s.(creators := s.creators - {p})
    case Exit(job) => s.(active := s.active - {job})
  }

  ghost predicate IsRun(max: int, devMode: bool, states: seq<State>, steps: seq<Step>) {
    && |states| == |steps| + 1
    && states[0] == State({}, map[])
    && forall i {:trigger steps[i]} :: 0 <= i < |steps| ==> Enabled(states[i], steps[i]) && states[i + 1] == Apply(max, devMode, states[i], steps[i])
  }

  /** At most `k` creators are in flight at any time. */
  ghost predicate AtMostInFlight(states: seq<State>, k: nat) {
    forall i :: 0 <= i < |states| ==> |states[i].creators.Keys| <= k
  }

  /** The creators that were let in but run nothing yet. */
  function Waiting(s: State): set<nat> {
    set p | p in s.creators && s.creators[p].Admitted?
  }

  /** The jobs that run and those that are as good as running stay within the bound. */
  ghost predicate Inv(max: int, k: nat, s: State) {
    |s.active| + |Waiting(s)| <= max + k - 1
  }

  lemma StepKeepsInv(max: int, k: nat, s: State, a: Step)
    requires 0 < max && Inv(max, k, s) && Enabled(s, a)
    requires |Apply(max, false, s, a).creators.Keys| <= k
    ensures Inv(max, k, Apply(max, false, s, a))
  {
    var s' := Apply(max, false, s, a);
    match a
    case Begin(p) => assert Waiting(s') == Waiting(s);
    case List(p) =>
      assert Waiting(s') <= s'.creators.Keys;
      SubsetIsNoLarger(Waiting(s'), s'.creators.Keys);
      if !Admits(max, false, |s.active|) {
        assert Waiting(s') == Waiting(s);
      }
    case Start(p, job) => assert Waiting(s') == Waiting(s) - {p};
    case Abandon(p) => assert Waiting(s') == Waiting(s) - {p};
    case Exit(job) => assert Waiting(s') == Waiting(s);
  }

  lemma SubsetIsNoLarger<T>(a: set<T>, b: set<T>)
    requires a <= b
    ensures |a| <= |b|
  {
    assert b == a + (b - a);
  }

  /** With a maximum and at most `k` creators in flight, no reachable state has more than
      max + k - 1 jobs running. */
  lemma {:induction false} RunningJobsAreBounded(max: int, k: nat, states: seq<State>, steps: seq<Step>, n: nat)
    requires 0 < max && IsRun(max, false, states, steps) && AtMostInFlight(states, k) && n < |states|
    ensures Inv(max, k, states[n])
    ensures |states[n].active| <= max + k - 1
  {
    if n > 0 {
      RunningJobsAreBounded(max, k, states, steps, n - 1);
      assert |states[n].creators.Keys| <= k;
      StepKeepsInv(max, k, states[n - 1], steps[n - 1]);
    }
  }

  /** Created one at a time, jobs never exceed the maximum. */
  lemma SerialCreationKeepsMaximum(max: int, states: seq<State>, steps: seq<Step>, n: nat)
    requires 0 < max && IsRun(max, false, states, steps) && AtMostInFlight(states, 1) && n < |states|
    ensures |states[n].active| <= max
  {
    RunningJobsAreBounded(max, 1, states, steps, n);
  }

  // ---------------------------------------------------------------------------
  // The bound is reached
  // ---------------------------------------------------------------------------

  ghost predicate EndsIn(max: int, k: nat, states: seq<State>, steps: seq<Step>, s: State) {
    IsRun(max, false, states, steps) && AtMostInFlight(states, k) && states[|steps|] == s
  }

  /** Some run with at most `k` creators in flight gets to this state. */
  ghost predicate Reachable(max: int, k: nat, s: State) {
    exists states, steps :: EndsIn(max, k, states, steps, s)
  }

  lemma StartIsReachable(max: int, k: nat)
    ensures Reachable(max, k, State({}, map[]))
  {
    assert EndsIn(max, k, [State({}, map[])], [], State({}, map[]));
  }

  lemma ReachFurther(max: int, k: nat, s: State, a: Step, s': State)
    requires Reachable(max, k, s) && Enabled(s, a) && s' == Apply(max, false, s, a)
    requires |s'.creators.Keys| <= k
    ensures Reachable(max, k, s')
  {
    var states, steps :| EndsIn(max, k, states, steps, s);
    assert EndsIn(max, k, states + [s'], steps + [a], s');
  }

  lemma OneCreator(phase: Phase)
    ensures |State({}, map[0 := phase]).creators.Keys| == 1
  {
    assert State({}, map[0 := phase]).creators.Keys == {0};
  }

  /** `n` jobs run, numbered below `n`. */
  ghost predicate Numbered(active: set<nat>, n: nat) {
    |active| == n && forall job :: job in active ==> job < n
  }

  /** A single creator that finds room starts one more job. */
  lemma StartOneMore(max: int, k: nat, active: set<nat>, n: nat)
    requires 0 < k && n < max && Numbered(active, n) && Reachable(max, k, State(active, map[]))
    ensures Numbered(active + {n}, n + 1) && Reachable(max, k, State(active + {n}, map[]))
  {
    var s1 := State(active, map[0 := Listing]);
    var s2 := State(active, map[0 := Admitted]);
    var s3 := State(active + {n}, map[0 := Started]);
    OneCreator(Listing);
    ReachFurther(max, k, State(active, map[]), Begin(0), s1);
    OneCreator(Admitted);
    assert s1.creators[0 := Admitted] == s2.creators;
    ReachFurther(max, k, s1, List(0), s2);
    OneCreator(Started);
    assert s2.creators[0 := Started] == s3.creators;
    ReachFurther(max, k, s2, Start(0, n), s3);
    assert s3.creators - {0} == map[];
    ReachFurther(max, k, s3, Abandon(0), State(active + {n}, map[]));
  }

  /** One after the other, `n` creators that leave room each start a job. */
  lemma {:induction false} StartSerially(max: int, k: nat, n: nat) returns (active: set<nat>)
    requires 0 < k && n <= max
    ensures Numbered(active, n) && Reachable(max, k, State(active, map[]))
  {
    if n == 0 {
      active := {};
      StartIsReachable(max, k);
    } else {
      active := StartSerially(max, k, n - 1);
      StartOneMore(max, k, active, n - 1);
      active := active + {n - 1};
    }
  }

  /** Creators 0 to n are in flight; those from `started` on are admitted and wait. */
  ghost predicate IsCrowd(creators: map<nat, Phase>, n: nat, started: nat) {
    && |creators.Keys| == n
    && (forall p: nat :: p in creators <==> p < n)
    && (forall p: nat :: started <= p < n ==> creators[p] == Admitted)
  }

  lemma AdmitOneMore(max: int, k: nat, active: set<nat>, creators: map<nat, Phase>, n: nat) returns (creators': map<nat, Phase>)
    requires n < k && |active| < max && IsCrowd(creators, n, 0) && Reachable(max, k, State(active, creators))
    ensures IsCrowd(creators', n + 1, 0) && Reachable(max, k, State(active, creators'))
  {
    var listing := creators[n := Listing];
    assert listing.Keys == creators.Keys + {n};
    ReachFurther(max, k, State(active, creators), Begin(n), State(active, listing));
    creators' := listing[n := Admitted];
    assert creators'.Keys == listing.Keys;
    ReachFurther(max, k, State(active, listing), List(n), State(active, creators'));
  }

  /** With room for one more, `n` creators list before any of them starts. */
  lemma {:induction false} ListTogether(max: int, k: nat, n: nat) returns (active: set<nat>, creators: map<nat, Phase>)
    requires 0 < k && 0 < max && n <= k
    ensures Numbered(active, max - 1) && IsCrowd(creators, n, 0) && Reachable(max, k, State(active, creators))
  {
    if n == 0 {
      active := StartSerially(max, k, max - 1);
      creators := map[];
    } else {
      active, creators := ListTogether(max, k, n - 1);
      creators := AdmitOneMore(max, k, active, creators, n - 1);
    }
  }

  lemma StartOneOfCrowd(max: int, k: nat, active: set<nat>, creators: map<nat, Phase>, n: nat, job: nat)
      returns (active': set<nat>, creators': map<nat, Phase>)
    requires n < k && Numbered(active, job) && IsCrowd(creators, k, n) && Reachable(max, k, State(active, creators))
    ensures Numbered(active', job + 1) && IsCrowd(creators', k, n + 1) && Reachable(max, k, State(active', creators'))
  {
    active', creators' := active + {job}, creators[n := Started];
    assert creators'.Keys == creators.Keys;
    ReachFurther(max, k, State(active, creators), Start(n, job), State(active', creators'));
  }

  /** Then they all start. */
  lemma {:induction false} StartTogether(max: int, k: nat, n: nat) returns (active: set<nat>, creators: map<nat, Phase>)
    requires 0 < k && 0 < max && n <= k
    ensures Numbered(active, max - 1 + n) && IsCrowd(creators, k, n) && Reachable(max, k, State(active, creators))
  {
    if n == 0 {
      active, creators := ListTogether(max, k, k);
    } else {
      active, creators := StartTogether(max, k, n - 1);
      active, creators := StartOneOfCrowd(max, k, active, creators, n - 1, max - 2 + n);
    }
  }

  /** The bound cannot be improved: for every maximum and every number of creators some run
      gets to it. */
  lemma BoundIsReached(max: int, k: nat) returns (states: seq<State>, steps: seq<Step>)
    requires 0 < max && 0 < k
    ensures IsRun(max, false, states, steps) && AtMostInFlight(states, k)
    ensures |states[|steps|].active| == max + k - 1
  {
    var active, creators := StartTogether(max, k, k);
    states, steps :| EndsIn(max, k, states, steps, State(active, creators));
  }

  ghost predicate KeepsMaximum(max: int, k: nat) {
    forall states: seq<State>, steps, n: nat :: IsRun(max, false, states, steps) && AtMostInFlight(states, k) && n < |states| ==>
      |states[n].active| <= max
  }

  /** The maximum itself is kept in all runs exactly if no two creators are ever in flight. */
  lemma MaximumIsKeptIff(max: int, k: nat)
    requires 0 < max
    ensures KeepsMaximum(max, k) <==> k <= 1
  {
    if k <= 1 {
      forall states: seq<State>, steps, n: nat | IsRun(max, false, states, steps) && AtMostInFlight(states, k) && n < |states|
        ensures |states[n].active| <= max
      {
        RunningJobsAreBounded(max, k, states, steps, n);
      }
    } else {
      var states, steps := BoundIsReached(max, k);
      assert |states[|steps|].active| > max;
    }
  }

  // ---------------------------------------------------------------------------
  // What counts as running on the cluster
  // ---------------------------------------------------------------------------

  datatype JobStatus = JobStatus(failed: int, succeeded: int)

  predicate IsActive(status: JobStatus) {
    status.failed <= 0 && status.succeeded <= 0
  }

  function Actives(jobs: seq<JobStatus>): set<nat> {
    set i: nat | i < |jobs| && jobs[i].failed <= 0 && jobs[i].succeeded <= 0
  }

  /** The loop counts the jobs that neither failed nor succeeded. */
  method GetActiveJobs(jobs: seq<JobStatus>) returns (activeJobs: nat)
    ensures activeJobs == |Actives(jobs)|
  {
    activeJobs := 0;
    for i := 0 to |jobs|
      invariant activeJobs == |Actives(jobs[..i])|
    {
      ActivesGrow(jobs, i);
      if jobs[i].failed > 0 || jobs[i].succeeded > 0 {
        continue;
      }
      activeJobs := activeJobs + 1;
    }
    assert jobs[..|jobs|] == jobs;
  }

  lemma ActivesGrow(jobs: seq<JobStatus>, i: nat)
    requires i < |jobs|
    ensures Actives(jobs[..i + 1]) == Actives(jobs[..i]) + if IsActive(jobs[i]) then {i} else {}
  {
  }
}
