/**
 The life of jobs on the container daemon, with every backend call and every store call a
 step of its own, and any number of these in progress at once: job creations, the watcher
 and stop callback of each job, delete requests, and retention sweeps.  The service may be
 restarted at any time, which ends all of them.
 */
module JobLifecycle {
  import opened Docker
  import Store

  /** A job record; only its two times matter here. */
  datatype Record = Record(startAt: int, stopAt: int)

  /** Where a `DeleteJob` stands, and what its caller does afterwards. */
  datatype Phase = ToInspect | ToRemove(mounts: seq<string>) | ToRemoveVolume(mounts: seq<string>)

  datatype Caller = Callback | Request | Sweep(rest: seq<string>)

  datatype Proc =
    // the create handler
    | Listing
    | Creating
    | Starting(id: string)
    | Saving(id: string, startAt: int)
    // the watcher of one job
    | Waiting(id: string)
    | Inspecting(id: string)
    // its stop callback
    | Fetching(id: string, success: bool)
    | Stamping(id: string, success: bool, rec: Record)
    | Storing(id: string, success: bool, rec: Record)
    | Dropping(id: string)
    | Returned(id: string, success: bool, ok: bool)
    // `DeleteJob`, on behalf of the callback, of a request or of a sweep
    | Removing(id: string, phase: Phase, caller: Caller)
    // the retention sweep, with the containers it still has to look at
    | Sweeping(rest: seq<string>)

  /** `limit` is the maximum of running jobs, 0 where there is none (or only a warning, as in dev
      mode).  `issued` remembers the volume of every container ever created, `written` the jobs
      whose record was ever saved, and `missed` the jobs whose stop time nobody is going to
      write; these three decide nothing. */
  datatype State = State(
    daemon: Daemon,
    store: map<string, Record>,
    now: int,
    procs: map<nat, Proc>,
    issued: map<string, string>,
    written: set<string>,
    missed: set<string>,
    limit: int)

  /** The create handler: its request is valid when it begins.  Admitted by the list, it may
      still fail to update the image. */
  datatype CreateStep =
    | BeginCreate
    | ListRunning(fails: bool)
    | AbortCreate
    | CreateContainer(id: string, volume: string, reply: Reply)
    | StartContainer(watcher: nat, reply: Reply)
    | SaveNew(fault: Store.Fault)

  /** The watcher, up to the point where it runs the callback. */
  datatype WatchStep =
    | WaitReturns
    | StopAfterTimeout(code: int, reply: Reply)
    | InspectExit(fails: bool)

  datatype CallbackStep =
    | Fetch(fails: bool)
    | Stamp
    | StoreStamp(fault: Store.Fault)
    | DropRecord(fault: Store.Fault)

  /** `DeleteJob`, whoever runs it. */
  datatype DeleteStep =
    | Inspect(fails: bool)
    | Remove(reply: Reply)
    | DropVolume(reply: Reply)

  /** A delete request getting to `DeleteJob`, and the retention sweep around it. */
  datatype CleanStep =
    | DeleteRequest(id: string, fails: bool)
    | SweepList(listed: seq<string>)
    | SweepInspect(fails: bool)
    | SweepEnd

  datatype Step =
    | Tick(to: int)
    | Exit(id: string, code: int)
    | Create(p: nat, create: CreateStep)
    | Watch(p: nat, watch: WatchStep)
    | Call(p: nat, call: CallbackStep)
    | Delete(p: nat, delete: DeleteStep)
    | Clean(p: nat, clean: CleanStep)
    | Restart

  predicate CanCreate(s: State, p: nat, a: CreateStep) {
    match a
    case BeginCreate => p !in s.procs
    case ListRunning(_) => p in s.procs && s.procs[p].Listing?
    case AbortCreate => p in s.procs && s.procs[p].Creating?
    // the daemon's ids and the random volume names are new
    case CreateContainer(id, volume, _) =>
      && p in s.procs && s.procs[p].Creating?
      && id !in s.issued && volume !in s.issued.Values && volume !in s.daemon.volumes
    case StartContainer(w, _) => p in s.procs && s.procs[p].Starting? && w !in s.procs
    case SaveNew(_) => p in s.procs && s.procs[p].Saving?
  }

  predicate CanWatch(s: State, p: nat, a: WatchStep) {
    match a
    case WaitReturns =>
      && p in s.procs && s.procs[p].Waiting?
      && s.procs[p].id in s.daemon.containers && s.daemon.containers[s.procs[p].id].status.Exited?
    case StopAfterTimeout(_, _) => p in s.procs && s.procs[p].Waiting?
    case InspectExit(_) => p in s.procs && s.procs[p].Inspecting?
  }

  predicate CanCall(s: State, p: nat, a: CallbackStep) {
    match a
    case Fetch(_) => p in s.procs && s.procs[p].Fetching?
    case Stamp => p in s.procs && s.procs[p].Stamping?
    case StoreStamp(_) => p in s.procs && s.procs[p].Storing?
    case DropRecord(_) => p in s.procs && s.procs[p].Dropping?
  }

  predicate CanDelete(s: State, p: nat, a: DeleteStep) {
    match a
    case Inspect(_) => p in s.procs && s.procs[p].Removing? && s.procs[p].phase.ToInspect?
    case Remove(_) => p in s.procs && s.procs[p].Removing? && s.procs[p].phase.ToRemove?
    case DropVolume(_) =>
      p in s.procs && s.procs[p].Removing? && s.procs[p].phase.ToRemoveVolume? && s.procs[p].phase.mounts != []
  }

  predicate CanClean(s: State, p: nat, a: CleanStep) {
    match a
    case DeleteRequest(_, _) => p !in s.procs
    // the daemon lists exited containers, in any order
    case SweepList(listed) =>
      p !in s.procs && forall id :: id in listed ==> id in s.daemon.containers && s.daemon.containers[id].status.Exited?
    case SweepInspect(_) => p in s.procs && s.procs[p].Sweeping? && s.procs[p].rest != []
    case SweepEnd => p in s.procs && s.procs[p].Sweeping? && s.procs[p].rest == []
  }

  predicate Enabled(s: State, a: Step) {
    match a
    case Tick(to) => s.now <= to
    case Exit(id, _) => id in s.daemon.containers && s.daemon.containers[id].status.Running?
    case Create(p, c) => CanCreate(s, p, c)
    case Watch(p, w) => CanWatch(s, p, w)
    case Call(p, c) => CanCall(s, p, c)
    case Delete(p, d) => CanDelete(s, p, d)
    case Clean(p, c) => CanClean(s, p, c)
    case Restart => true
  }

  function Goto(s: State, p: nat, proc: Proc): State {
    s.(procs := s.procs[p := proc])
  }

  function Leave(s: State, p: nat): State {
    s.(procs := s.procs - {p})
  }

  /** The job's stop time will not be written. */
  function GiveUp(s: State, id: string): State {
    s.(missed := s.missed + {id})
  }

  /** The job's watcher, or its callback, has not settled the stop time yet. */
  predicate BeforeStamp(proc: Proc) {
    proc.Waiting? || proc.Inspecting? || proc.Fetching? || proc.Stamping? || proc.Storing?
  }

  /** The jobs that have such a process. */
  function WatchedJobs(s: State): set<string> {
    set p | p in s.procs && BeforeStamp(s.procs[p]) :: s.procs[p].id
  }

  predicate Admits(limit: int, running: nat) {
    !(0 < limit <= running)
  }

  /** The callback once the stop time is settled: remove a successful job, else return. */
  function AfterStamp(id: string, success: bool): Proc {
    if success then Removing(id, ToInspect, Callback) else Returned(id, success, true)
  }

  /** `DeleteJob` returns to its caller. */
  function AfterRemoval(s: State, p: nat, id: string, caller: Caller, ok: bool): State {
    match caller
    case Callback => Goto(s, p, if ok then Dropping(id) else Returned(id, true, false))
    case Request => Leave(s, p)
    case Sweep(rest) => Goto(s, p, Sweeping(rest))
  }

  function DoCreate(s: State, p: nat, a: CreateStep): State
    requires CanCreate(s, p, a)
  {
    match a
    case BeginCreate => Goto(s, p, Listing)
    case ListRunning(fails) =>
      if !fails && Admits(s.limit, |RunningJobs(s.daemon)|) then Goto(s, p, Creating) else Leave(s, p)
    case AbortCreate => Leave(s, p)
    case CreateContainer(id, volume, reply) =>
      var (daemon, ok) := Docker.CreateContainer(s.daemon, id, volume, reply);
      var s' := s.(daemon := daemon, issued := if reply.Refused? then s.issued else s.issued[id := volume]);
      if ok then Goto(s', p, Starting(id)) else Leave(s', p)
    case StartContainer(w, reply) =>
      var id := s.procs[p].id;
      var (daemon, ok) := Docker.StartContainer(s.daemon, id, reply);
      var s' := s.(daemon := daemon);
      if ok then Goto(Goto(s', p, Saving(id, s.now)), w, Waiting(id)) else Leave(s', p)
    case SaveNew(fault) =>
      var Saving(id, startAt) := s.procs[p];
      if fault.WriteFails? then Leave(s, p)
      else Leave(s, p).(store := s.store[id := Record(startAt, 0)], written := s.written + {id})
  }

  function DoWatch(s: State, p: nat, a: WatchStep): State
    requires CanWatch(s, p, a)
  {
    var id := s.procs[p].id;
    match a
    case WaitReturns => Goto(s, p, Fetching(id, ExitCode(s.daemon.containers[id].status) == 0))
    case StopAfterTimeout(code, reply) =>
      var (daemon, ok) := StopContainer(s.daemon, id, code, s.now, reply);
      var s' := s.(daemon := daemon);
      if ok then Goto(s', p, Inspecting(id)) else GiveUp(Leave(s', p), id)
    case InspectExit(fails) =>
      if fails || id !in s.daemon.containers then GiveUp(Leave(s, p), id)
      else Goto(s, p, Fetching(id, ExitCode(s.daemon.containers[id].status) == 0))
  }

  function DoCall(s: State, p: nat, a: CallbackStep): State
    requires CanCall(s, p, a)
  {
    match a
    case Fetch(fails) =>
      var Fetching(id, success) := s.procs[p];
      if fails || id !in s.store then GiveUp(Goto(s, p, Returned(id, success, false)), id)
      else Goto(s, p, Stamping(id, success, s.store[id]))
    case Stamp =>
      var Stamping(id, success, rec) := s.procs[p];
      if rec.stopAt == 0 then Goto(s, p, Storing(id, success, rec.(stopAt := s.now)))
      else Goto(s, p, AfterStamp(id, success))
    case StoreStamp(fault) =>
      var Storing(id, success, rec) := s.procs[p];
      var s' := if fault.WriteFails? then GiveUp(s, id) else s.(store := s.store[id := rec]);
      Goto(s', p, if fault.NoFault? then AfterStamp(id, success) else Returned(id, success, false))
    case DropRecord(fault) =>
      var id := s.procs[p].id;
      var s' := if fault.WriteFails? then s else s.(store := s.store - {id});
      Goto(s', p, Returned(id, true, fault.NoFault?))
  }

  function DoDelete(s: State, p: nat, a: DeleteStep): State
    requires CanDelete(s, p, a)
  {
    var Removing(id, phase, caller) := s.procs[p];
    match a
    case Inspect(fails) =>
      if fails || id !in s.daemon.containers then AfterRemoval(s, p, id, caller, false)
      else Goto(s, p, Removing(id, ToRemove(s.daemon.containers[id].mounts), caller))
    case Remove(reply) =>
      var (daemon, ok) := RemoveContainer(s.daemon, id, reply);
      var s' := s.(daemon := daemon);
      if ok && phase.mounts != [] then Goto(s', p, Removing(id, ToRemoveVolume(phase.mounts), caller))
      else AfterRemoval(s', p, id, caller, false)
    case DropVolume(reply) =>
      var (daemon, ok) := RemoveVolume(s.daemon, phase.mounts[0], reply);
      AfterRemoval(s.(daemon := daemon), p, id, caller, ok)
  }

  function DoClean(retention: int, s: State, p: nat, a: CleanStep): State
    requires CanClean(s, p, a)
  {
    match a
    case DeleteRequest(id, fails) =>
      if fails || id !in s.store || s.store[id].stopAt == 0 then s
      else Goto(s, p, Removing(id, ToInspect, Request))
    case SweepList(listed) => Goto(s, p, Sweeping(listed))
    case SweepInspect(fails) =>
      var id, rest := s.procs[p].rest[0], s.procs[p].rest[1..];
      if fails || id !in s.daemon.containers || s.now - FinishedAt(s.daemon.containers[id].status) <= retention
      then Goto(s, p, Sweeping(rest))
      else Goto(s, p, Removing(id, ToInspect, Sweep(rest)))
    case SweepEnd => Leave(s, p)
  }

  function DoExit(s: State, id: string, code: int): State
    requires id in s.daemon.containers
  {
    s.(daemon := s.daemon.(containers := s.daemon.containers[id := s.daemon.containers[id].(status := Exited(code, s.now))]))
  }

  /** Goroutines and requests are gone; records, containers and volumes stay. */
  function DoRestart(s: State): State {
    s.(procs := map[], missed := s.missed + WatchedJobs(s))
  }

  function Apply(retention: int, s: State, a: Step): State
    requires Enabled(s, a)
  {
    match a
    case Tick(to) => s.(now := to)
    case Exit(id, code) => DoExit(s, id, code)
    case Create(p, c) => DoCreate(s, p, c)
    case Watch(p, w) => DoWatch(s, p, w)
    case Call(p, c) => DoCall(s, p, c)
    case Delete(p, d) => DoDelete(s, p, d)
    case Clean(p, c) => DoClean(retention, s, p, c)
    case Restart => DoRestart(s)
  }

  ghost predicate Init(s: State) {
    && s.daemon == Daemon(map[], {}) && s.store == map[] && s.procs == map[]
    && s.issued == map[] && s.written == {} && s.missed == {} && 0 < s.now
  }

  ghost predicate IsRun(retention: int, states: seq<State>, steps: seq<Step>) {
    && |states| == |steps| + 1
    && Init(states[0])
    && forall i {:trigger steps[i]} :: 0 <= i < |steps| ==> Enabled(states[i], steps[i]) && states[i + 1] == Apply(retention, states[i], steps[i])
  }

  // ---------------------------------------------------------------------------
  // Invariant
  // ---------------------------------------------------------------------------

  /** The container was created and is not about to run for the first time. */
  ghost predicate Started(s: State, id: string) {
    id in s.issued && (id in s.daemon.containers ==> !s.daemon.containers[id].status.Created?)
  }

  /** The container is exited or gone. */
  ghost predicate Stopped(s: State, id: string) {
    id in s.issued && (id in s.daemon.containers ==> s.daemon.containers[id].status.Exited?)
  }

  ghost predicate Gone(s: State, id: string) {
    id in s.issued && id !in s.daemon.containers
  }

  ghost predicate FullyGone(s: State, id: string) {
    Gone(s, id) && s.issued[id] !in s.daemon.volumes
  }

  ghost predicate AllStopped(s: State, ids: seq<string>) {
    forall id :: id in ids ==> Stopped(s, id)
  }

  ghost predicate PhaseOk(s: State, id: string, phase: Phase)
    requires id in s.issued
  {
    match phase
    case ToInspect => true
    case ToRemove(mounts) => mounts == [s.issued[id]]
    case ToRemoveVolume(mounts) => mounts == [s.issued[id]] && Gone(s, id)
  }

  ghost predicate CallerOk(s: State, id: string, caller: Caller) {
    match caller
    case Callback => id in s.written
    case Request => true
    case Sweep(rest) => AllStopped(s, rest)
  }

  ghost predicate ProcOk(s: State, proc: Proc) {
    match proc
    case Listing => true
    case Creating => true
    case Starting(id) =>
      id in s.issued && id !in s.written && id in s.daemon.containers && s.daemon.containers[id].status.Created?
    case Saving(id, startAt) => Started(s, id) && id !in s.written && startAt <= s.now
    case Waiting(id) => Started(s, id)
    case Inspecting(id) => Stopped(s, id)
    case Fetching(id, _) => Stopped(s, id)
    case Stamping(id, _, rec) => Stopped(s, id) && id in s.written && id in s.store && s.store[id] == rec
    case Storing(id, _, rec) =>
      && Stopped(s, id) && id in s.written && id in s.store
      && s.store[id] == Record(rec.startAt, 0) && rec.startAt <= rec.stopAt <= s.now && rec.stopAt != 0
    case Dropping(id) => FullyGone(s, id) && id in s.written
    case Returned(id, success, ok) =>
      Stopped(s, id) && (success && ok ==> FullyGone(s, id) && id in s.written && id !in s.store)
    case Removing(id, phase, caller) => Stopped(s, id) && PhaseOk(s, id, phase) && CallerOk(s, id, caller)
    case Sweeping(rest) => AllStopped(s, rest)
  }

  /** The job this process is creating, and the job it is the watcher of. */
  function CreatorOf(proc: Proc): set<string> {
    match proc
    case Starting(id) => {id}
    case Saving(id, _) => {id}
    case _ => {}
  }

  function WatcherOf(proc: Proc): set<string> {
    match proc
    case Waiting(id) => {id}
    case Inspecting(id) => {id}
    case Fetching(id, _) => {id}
    case Stamping(id, _, _) => {id}
    case Storing(id, _, _) => {id}
    case Dropping(id) => {id}
    case Returned(id, _, _) => {id}
    case Removing(id, _, Callback) => {id}
    case _ => {}
  }

  ghost predicate OneOfEach(s: State) {
    forall p, q :: p in s.procs && q in s.procs && p != q ==>
      CreatorOf(s.procs[p]) !! CreatorOf(s.procs[q]) && WatcherOf(s.procs[p]) !! WatcherOf(s.procs[q])
  }

  ghost predicate ProcsOk(s: State) {
    forall p :: p in s.procs ==> ProcOk(s, s.procs[p])
  }

  /** A record with a stop time belongs to a container that is exited or gone. */
  ghost predicate RecordOk(s: State, id: string)
    requires id in s.store
  {
    && id in s.written
    && s.store[id].startAt <= s.now
    && (s.store[id].stopAt != 0 ==> Stopped(s, id) && s.store[id].startAt <= s.store[id].stopAt <= s.now)
  }

  ghost predicate StoreOk(s: State) {
    && (forall id :: id in s.store ==> RecordOk(s, id))
    && (forall id :: id in s.written ==> id in s.issued)
    && 0 < s.now
  }

  /** Every container mounts the volume it was created with, and the volume is there. */
  ghost predicate ContainerOk(d: Daemon, issued: map<string, string>, id: string)
    requires id in d.containers
  {
    id in issued && d.containers[id].mounts == [issued[id]] && issued[id] in d.volumes
  }

  ghost predicate DaemonOk(d: Daemon, issued: map<string, string>) {
    && (forall id :: id in d.containers ==> ContainerOk(d, issued, id))
    && (forall a, b :: a in issued && b in issued && a != b ==> issued[a] != issued[b])
  }

  ghost predicate Inv(s: State) {
    StateDaemonOk(s) && StoreOk(s) && ProcsOk(s) && OneOfEach(s)
  }

  /** What no step takes back: a stopped container stays stopped, a removed container or
      volume stays removed, identifiers and saved records are remembered. */
  ghost predicate Evolves(s: State, s': State) {
    && s.now <= s'.now
    && s.written <= s'.written
    && (forall id :: id in s.issued ==> id in s'.issued && s'.issued[id] == s.issued[id])
    && (forall id :: id in s.issued ==> (Started(s, id) ==> Started(s', id)) && (Stopped(s, id) ==> Stopped(s', id))
                                        && (Gone(s, id) ==> Gone(s', id)))
    && (forall id :: id in s.issued ==> s.issued[id] !in s.daemon.volumes ==> s.issued[id] !in s'.daemon.volumes)
  }

  // ---------------------------------------------------------------------------
  // Steps evolve
  // ---------------------------------------------------------------------------

  lemma StatusChangeEvolves(s: State, s': State, id: string, status: Status)
    requires id in s.daemon.containers && (Started(s, id) ==> !s.daemon.containers[id].status.Exited? && status.Exited?)
    requires s' == s.(daemon := s.daemon.(containers := s.daemon.containers[id := s.daemon.containers[id].(status := status)]), procs := s'.procs, missed := s'.missed)
    ensures Evolves(s, s')
  {
  }

  lemma QuietStepEvolves(s: State, s': State)
    requires s'.daemon == s.daemon && s'.issued == s.issued && s.now <= s'.now && s.written <= s'.written
    ensures Evolves(s, s')
  {
  }

  lemma RemovalEvolves(s: State, s': State)
    requires s'.issued == s.issued && s'.now == s.now && s'.written == s.written
    requires s'.daemon.volumes <= s.daemon.volumes
    requires forall id :: id in s'.daemon.containers ==> id in s.daemon.containers && s'.daemon.containers[id] == s.daemon.containers[id]
    ensures Evolves(s, s')
  {
  }

  lemma CreateEvolves(s: State, p: nat, a: CreateStep)
    requires CanCreate(s, p, a)
    requires a.StartContainer? ==> ProcOk(s, s.procs[p])
    ensures Evolves(s, DoCreate(s, p, a))
  {
    if a.StartContainer? && !a.reply.Refused? {
      StatusChangeEvolves(s, DoCreate(s, p, a), s.procs[p].id, Running);
    }
  }

  lemma WatchEvolves(s: State, p: nat, a: WatchStep)
    requires CanWatch(s, p, a)
    ensures Evolves(s, DoWatch(s, p, a))
  {
    var id := s.procs[p].id;
    if a.StopAfterTimeout? && !a.reply.Refused? && id in s.daemon.containers && s.daemon.containers[id].status.Running? {
      StatusChangeEvolves(s, DoWatch(s, p, a), id, Exited(a.code, s.now));
    } else {
      QuietStepEvolves(s, DoWatch(s, p, a));
    }
  }

  lemma DeleteEvolves(s: State, p: nat, a: DeleteStep)
    requires CanDelete(s, p, a)
    ensures Evolves(s, DoDelete(s, p, a))
  {
    RemovalEvolves(s, DoDelete(s, p, a));
  }

  lemma StepEvolves(retention: int, s: State, a: Step)
    requires ProcsOk(s) && Enabled(s, a)
    ensures Evolves(s, Apply(retention, s, a))
  {
    match a
    case Tick(_) => QuietStepEvolves(s, Apply(retention, s, a));
    case Exit(id, code) => StatusChangeEvolves(s, Apply(retention, s, a), id, Exited(code, s.now));
    case Create(p, c) => CreateEvolves(s, p, c);
    case Watch(p, w) => WatchEvolves(s, p, w);
    case Call(p, c) => QuietStepEvolves(s, DoCall(s, p, c));
    case Delete(p, d) => DeleteEvolves(s, p, d);
    case Clean(p, c) => QuietStepEvolves(s, DoClean(retention, s, p, c));
    case Restart => QuietStepEvolves(s, DoRestart(s));
  }

  // ---------------------------------------------------------------------------
  // Preservation: the daemon
  // ---------------------------------------------------------------------------

  lemma CreateKeepsDaemonOk(d: Daemon, issued: map<string, string>, id: string, volume: string, reply: Reply)
    requires DaemonOk(d, issued) && id !in issued && volume !in issued.Values && !reply.Refused?
    ensures DaemonOk(Docker.CreateContainer(d, id, volume, reply).0, issued[id := volume])
  {
  }

  lemma StatusChangeKeepsDaemonOk(d: Daemon, issued: map<string, string>, id: string, status: Status)
    requires DaemonOk(d, issued) && id in d.containers
    ensures DaemonOk(d.(containers := d.containers[id := d.containers[id].(status := status)]), issued)
  {
    assert ContainerOk(d, issued, id);
  }

  lemma RemovalKeepsDaemonOk(d: Daemon, issued: map<string, string>, id: string, reply: Reply)
    requires DaemonOk(d, issued)
    ensures DaemonOk(RemoveContainer(d, id, reply).0, issued)
    ensures id in issued && id !in d.containers ==> DaemonOk(RemoveVolume(d, issued[id], reply).0, issued)
  {
  }

  ghost predicate StateDaemonOk(s: State) {
    DaemonOk(s.daemon, s.issued)
  }

  lemma DoCreateKeepsDaemonOk(s: State, p: nat, a: CreateStep)
    requires StateDaemonOk(s) && CanCreate(s, p, a)
    ensures StateDaemonOk(DoCreate(s, p, a))
  {
    match a
    case CreateContainer(id, volume, reply) =>
      if !reply.Refused? { CreateKeepsDaemonOk(s.daemon, s.issued, id, volume, reply); }
    case StartContainer(_, _) =>
      if s.procs[p].id in s.daemon.containers { StatusChangeKeepsDaemonOk(s.daemon, s.issued, s.procs[p].id, Running); }
    case _ =>
  }

  lemma DoWatchKeepsDaemonOk(s: State, p: nat, a: WatchStep)
    requires StateDaemonOk(s) && CanWatch(s, p, a)
    ensures StateDaemonOk(DoWatch(s, p, a))
  {
    if a.StopAfterTimeout? && s.procs[p].id in s.daemon.containers {
      StatusChangeKeepsDaemonOk(s.daemon, s.issued, s.procs[p].id, Exited(a.code, s.now));
    }
  }

  lemma DoDeleteKeepsDaemonOk(s: State, p: nat, a: DeleteStep)
    requires StateDaemonOk(s) && CanDelete(s, p, a) && ProcOk(s, s.procs[p])
    ensures StateDaemonOk(DoDelete(s, p, a))
  {
    if !a.Inspect? {
      RemovalKeepsDaemonOk(s.daemon, s.issued, s.procs[p].id, a.reply);
    }
  }

  lemma StepKeepsDaemonOk(retention: int, s: State, a: Step)
    requires StateDaemonOk(s) && ProcsOk(s) && Enabled(s, a)
    ensures StateDaemonOk(Apply(retention, s, a))
  {
    match a
    case Tick(_) =>
    case Exit(id, code) => StatusChangeKeepsDaemonOk(s.daemon, s.issued, id, Exited(code, s.now));
    case Create(p, c) => DoCreateKeepsDaemonOk(s, p, c);
    case Watch(p, w) => DoWatchKeepsDaemonOk(s, p, w);
    case Call(p, c) => assert DoCall(s, p, c).daemon == s.daemon && DoCall(s, p, c).issued == s.issued;
    case Delete(p, d) => DoDeleteKeepsDaemonOk(s, p, d);
    case Clean(p, c) => assert DoClean(retention, s, p, c).daemon == s.daemon && DoClean(retention, s, p, c).issued == s.issued;
    case Restart =>
  }

  // ---------------------------------------------------------------------------
  // Preservation: the records
  // ---------------------------------------------------------------------------

  lemma RecordStaysOk(s: State, s': State, id: string)
    requires Evolves(s, s') && id in s.store && RecordOk(s, id)
    requires id in s'.store && s'.store[id] == s.store[id]
    ensures RecordOk(s', id)
  {
    assert s.store[id].stopAt != 0 ==> Stopped(s, id) && Stopped(s', id);
  }

  /** Apart from one record that is fine, the store holds what it held. */
  lemma StoreStaysOk(s: State, s': State, id: string)
    requires StoreOk(s) && Evolves(s, s')
    requires forall other :: other in s'.store && other != id ==> other in s.store && s'.store[other] == s.store[other]
    requires id in s'.store ==> RecordOk(s', id)
    requires s'.written <= s.written + {id} && (id in s'.written ==> id in s.issued)
    ensures StoreOk(s')
  {
    forall other | other in s'.store
      ensures RecordOk(s', other)
    {
      if other != id {
        assert RecordOk(s, other);
        RecordStaysOk(s, s', other);
      }
    }
    forall other | other in s'.written
      ensures other in s'.issued
    {
      assert other != id ==> other in s.written;
    }
  }

  lemma QuietStepKeepsStoreOk(s: State, s': State)
    requires StoreOk(s) && Evolves(s, s') && s'.store == s.store && s'.written == s.written
    ensures StoreOk(s')
  {
    forall id | id in s'.store
      ensures RecordOk(s', id)
    {
      assert RecordOk(s, id);
      RecordStaysOk(s, s', id);
    }
  }

  lemma SaveNewKeepsStoreOk(s: State, p: nat, a: CreateStep)
    requires StoreOk(s) && CanCreate(s, p, a) && a.SaveNew? && ProcOk(s, s.procs[p])
    ensures StoreOk(DoCreate(s, p, a))
  {
    var s' := DoCreate(s, p, a);
    QuietStepEvolves(s, s');
    if a.fault.WriteFails? {
      QuietStepKeepsStoreOk(s, s');
    } else {
      StoreStaysOk(s, s', s.procs[p].id);
    }
  }

  lemma DoCallKeepsStoreOk(s: State, p: nat, a: CallbackStep)
    requires StoreOk(s) && CanCall(s, p, a) && ProcOk(s, s.procs[p])
    ensures StoreOk(DoCall(s, p, a))
  {
    var s' := DoCall(s, p, a);
    QuietStepEvolves(s, s');
    if a.StoreStamp? && !a.fault.WriteFails? {
      var Storing(id, _, rec) := s.procs[p];
      assert Stopped(s, id) && RecordOk(s', id);
      StoreStaysOk(s, s', id);
    } else if a.DropRecord? && !a.fault.WriteFails? {
      StoreStaysOk(s, s', s.procs[p].id);
    } else {
      QuietStepKeepsStoreOk(s, s');
    }
  }

  lemma OtherStepsKeepRecords(retention: int, s: State, a: Step)
    requires Enabled(s, a) && !a.Call? && !(a.Create? && a.create.SaveNew?)
    ensures Apply(retention, s, a).store == s.store && Apply(retention, s, a).written == s.written
  {
  }

  lemma StepKeepsStoreOk(retention: int, s: State, a: Step)
    requires StoreOk(s) && ProcsOk(s) && Enabled(s, a)
    ensures StoreOk(Apply(retention, s, a))
  {
    StepEvolves(retention, s, a);
    if a.Call? {
      DoCallKeepsStoreOk(s, a.p, a.call);
    } else if a.Create? && a.create.SaveNew? {
      SaveNewKeepsStoreOk(s, a.p, a.create);
    } else {
      OtherStepsKeepRecords(retention, s, a);
      QuietStepKeepsStoreOk(s, Apply(retention, s, a));
    }
  }

  // ---------------------------------------------------------------------------
  // Preservation: the processes that do not act
  // ---------------------------------------------------------------------------

  /** The process a step belongs to, if any. */
  function Actor(a: Step): set<nat> {
    match a
    case Tick(_) => {}
    case Exit(_, _) => {}
    case Restart => {}
    case _ => {a.p}
  }

  ghost predicate SameRecord(s: State, s': State, id: string) {
    && (id in s.store <==> id in s'.store)
    && (id in s.store ==> s'.store[id] == s.store[id])
    && (id in s.written <==> id in s'.written)
  }

  ghost predicate SameContainer(s: State, s': State, id: string) {
    && (id in s.daemon.containers <==> id in s'.daemon.containers)
    && (id in s.daemon.containers ==> s'.daemon.containers[id] == s.daemon.containers[id])
  }

  /** The job whose record a process relies on. */
  function RecordOf(proc: Proc): set<string> {
    match proc
    case Starting(id) => {id}
    case Saving(id, _) => {id}
    case Stamping(id, _, _) => {id}
    case Storing(id, _, _) => {id}
    case Returned(id, true, true) => {id}
    case _ => {}
  }

  /** What a bystander needs beyond `Evolves`: nobody wrote the record it relies on, nor
      touched the container it is about to start. */
  ghost predicate LeftAlone(s: State, s': State, proc: Proc) {
    && (forall id :: id in RecordOf(proc) ==> SameRecord(s, s', id))
    && (proc.Starting? ==> SameContainer(s, s', proc.id))
  }

  lemma AllStoppedStays(s: State, s': State, ids: seq<string>)
    requires Evolves(s, s') && AllStopped(s, ids)
    ensures AllStopped(s', ids)
  {
    forall id | id in ids
      ensures Stopped(s', id)
    {
      assert Stopped(s, id);
    }
  }

  lemma CallerStaysOk(s: State, s': State, id: string, caller: Caller)
    requires Evolves(s, s') && CallerOk(s, id, caller)
    ensures CallerOk(s', id, caller)
  {
    if caller.Sweep? {
      AllStoppedStays(s, s', caller.rest);
    }
  }

  lemma ProcSurvives(s: State, s': State, proc: Proc)
    requires ProcOk(s, proc) && Evolves(s, s') && LeftAlone(s, s', proc)
    ensures ProcOk(s', proc)
  {
    match proc
    case Listing =>
    case Creating =>
    case Starting(id) => assert id in RecordOf(proc) && SameRecord(s, s', id);
    case Saving(id, _) => assert id in RecordOf(proc) && SameRecord(s, s', id);
    case Stamping(id, _, _) => assert id in RecordOf(proc) && SameRecord(s, s', id);
    case Storing(id, _, _) => assert id in RecordOf(proc) && SameRecord(s, s', id);
    case Returned(id, success, ok) => assert success && ok ==> id in RecordOf(proc) && SameRecord(s, s', id);
    case Removing(id, phase, caller) => CallerStaysOk(s, s', id, caller);
    case Sweeping(rest) => AllStoppedStays(s, s', rest);
    case _ =>
  }

  /** The step writes this job's record. */
  predicate WritesRecord(s: State, a: Step, id: string)
    requires Enabled(s, a)
  {
    || (a.Create? && a.create.SaveNew? && s.procs[a.p].id == id)
    || (a.Call? && (a.call.StoreStamp? || a.call.DropRecord?) && s.procs[a.p].id == id)
  }

  lemma OtherRecordsStay(retention: int, s: State, a: Step, id: string)
    requires Enabled(s, a) && !WritesRecord(s, a, id)
    ensures SameRecord(s, Apply(retention, s, a), id)
  {
  }

  /** The step touches this job's container. */
  predicate TouchesContainer(s: State, a: Step, id: string)
    requires Enabled(s, a)
  {
    || (a.Exit? && a.id == id)
    || (a.Create? && a.create.CreateContainer? && a.create.id == id)
    || (a.Create? && a.create.StartContainer? && s.procs[a.p].id == id)
    || (a.Watch? && a.watch.StopAfterTimeout? && s.procs[a.p].id == id)
    || (a.Delete? && a.delete.Remove? && s.procs[a.p].id == id)
  }

  lemma OtherContainersStay(retention: int, s: State, a: Step, id: string)
    requires Enabled(s, a) && !TouchesContainer(s, a, id)
    ensures SameContainer(s, Apply(retention, s, a), id)
  {
  }

  lemma RecordIsLeftAlone(s: State, a: Step, q: nat, id: string)
    requires ProcsOk(s) && OneOfEach(s) && Enabled(s, a)
    requires q in s.procs && q !in Actor(a) && id in RecordOf(s.procs[q])
    ensures !WritesRecord(s, a, id)
  {
    var proc := s.procs[q];
    assert ProcOk(s, proc);
    if (a.Create? && a.create.SaveNew?) || (a.Call? && (a.call.StoreStamp? || a.call.DropRecord?)) {
      var own := s.procs[a.p];
      assert ProcOk(s, own);
      assert CreatorOf(own) !! CreatorOf(proc) && WatcherOf(own) !! WatcherOf(proc);
      assert own.id in CreatorOf(own) + WatcherOf(own) && id in CreatorOf(proc) + WatcherOf(proc);
      assert own.id != id;
    }
  }

  lemma StartingIsLeftAlone(s: State, a: Step, q: nat)
    requires ProcsOk(s) && OneOfEach(s) && Enabled(s, a)
    requires q in s.procs && q !in Actor(a) && s.procs[q].Starting?
    ensures !TouchesContainer(s, a, s.procs[q].id)
  {
    assert ProcOk(s, s.procs[q]);
    assert s.procs[q].id in CreatorOf(s.procs[q]);
    if (a.Create? && a.create.StartContainer?) || (a.Watch? && a.watch.StopAfterTimeout?) || (a.Delete? && a.delete.Remove?) {
      assert ProcOk(s, s.procs[a.p]);
      assert CreatorOf(s.procs[a.p]) !! CreatorOf(s.procs[q]);
      assert s.procs[a.p].id != s.procs[q].id;
    }
  }

  lemma BystanderIsLeftAlone(retention: int, s: State, a: Step, q: nat)
    requires ProcsOk(s) && OneOfEach(s) && Enabled(s, a)
    requires q in s.procs && q !in Actor(a)
    ensures LeftAlone(s, Apply(retention, s, a), s.procs[q])
  {
    var s', proc := Apply(retention, s, a), s.procs[q];
    forall id | id in RecordOf(proc)
      ensures SameRecord(s, s', id)
    {
      RecordIsLeftAlone(s, a, q, id);
      OtherRecordsStay(retention, s, a, id);
    }
    if proc.Starting? {
      StartingIsLeftAlone(s, a, q);
      OtherContainersStay(retention, s, a, proc.id);
    }
  }

  /** Whoever does not act stays where it is. */
  ghost predicate OthersStay(s: State, s': State, p: nat) {
    forall q :: q in s.procs && q != p ==> q in s'.procs && s'.procs[q] == s.procs[q]
  }

  lemma JobStepsMoveOnlyTheActor(s: State, p: nat)
    ensures forall a :: CanCreate(s, p, a) ==> OthersStay(s, DoCreate(s, p, a), p)
    ensures forall a :: CanWatch(s, p, a) ==> OthersStay(s, DoWatch(s, p, a), p)
  {
  }

  lemma CleanupMovesOnlyTheActor(retention: int, s: State, p: nat)
    ensures forall a :: CanCall(s, p, a) ==> OthersStay(s, DoCall(s, p, a), p)
    ensures forall a :: CanDelete(s, p, a) ==> OthersStay(s, DoDelete(s, p, a), p)
    ensures forall a :: CanClean(s, p, a) ==> OthersStay(s, DoClean(retention, s, p, a), p)
  {
  }

  lemma BystanderStays(retention: int, s: State, a: Step, q: nat)
    requires Enabled(s, a) && !a.Restart? && q in s.procs && q !in Actor(a)
    ensures q in Apply(retention, s, a).procs && Apply(retention, s, a).procs[q] == s.procs[q]
  {
    if !a.Tick? && !a.Exit? && !a.Restart? {
      JobStepsMoveOnlyTheActor(s, a.p);
      CleanupMovesOnlyTheActor(retention, s, a.p);
    }
  }

  // ---------------------------------------------------------------------------
  // Preservation: the process that acts
  // ---------------------------------------------------------------------------

  /** The processes a step leaves behind for itself: the actor's next place, and the watcher
      that a successful start sets going. */
  ghost predicate NewcomersOk(s: State, s': State, p: nat) {
    forall q :: q in s'.procs && (q == p || q !in s.procs) ==> ProcOk(s', s'.procs[q])
  }

  lemma CreatorIsOk(s: State, p: nat, a: CreateStep)
    requires StoreOk(s) && CanCreate(s, p, a) && (p in s.procs ==> ProcOk(s, s.procs[p]))
    ensures NewcomersOk(s, DoCreate(s, p, a), p)
  {
  }

  lemma WatcherIsOk(s: State, p: nat, a: WatchStep)
    requires StateDaemonOk(s) && CanWatch(s, p, a) && ProcOk(s, s.procs[p])
    ensures NewcomersOk(s, DoWatch(s, p, a), p)
  {
  }

  lemma CallbackIsOk(s: State, p: nat, a: CallbackStep)
    requires StoreOk(s) && CanCall(s, p, a) && ProcOk(s, s.procs[p])
    ensures NewcomersOk(s, DoCall(s, p, a), p)
  {
    if s.procs[p].id in s.store {
      assert RecordOk(s, s.procs[p].id);
    }
  }

  lemma InspectorIsOk(s: State, p: nat, a: DeleteStep)
    requires StateDaemonOk(s) && CanDelete(s, p, a) && a.Inspect? && ProcOk(s, s.procs[p])
    ensures NewcomersOk(s, DoDelete(s, p, a), p)
  {
    var Removing(id, phase, caller) := s.procs[p];
    DeleteEvolves(s, p, a);
    CallerStaysOk(s, DoDelete(s, p, a), id, caller);
    if id in s.daemon.containers {
      assert ContainerOk(s.daemon, s.issued, id);
    }
  }

  lemma DeleterIsOk(s: State, p: nat, a: DeleteStep)
    requires StateDaemonOk(s) && CanDelete(s, p, a) && ProcOk(s, s.procs[p])
    ensures NewcomersOk(s, DoDelete(s, p, a), p)
  {
    if a.Inspect? {
      InspectorIsOk(s, p, a);
    } else {
      var Removing(id, phase, caller) := s.procs[p];
      DeleteEvolves(s, p, a);
      CallerStaysOk(s, DoDelete(s, p, a), id, caller);
    }
  }

  lemma RequesterIsOk(retention: int, s: State, p: nat, a: CleanStep)
    requires StoreOk(s) && CanClean(s, p, a) && a.DeleteRequest? && (p in s.procs ==> ProcOk(s, s.procs[p]))
    ensures NewcomersOk(s, DoClean(retention, s, p, a), p)
  {
    if a.id in s.store {
      assert RecordOk(s, a.id);
    }
  }

  lemma ListingIsOk(retention: int, s: State, p: nat, a: CleanStep)
    requires StateDaemonOk(s) && CanClean(s, p, a) && a.SweepList?
    ensures NewcomersOk(s, DoClean(retention, s, p, a), p)
  {
    var s' := DoClean(retention, s, p, a);
    forall id | id in a.listed
      ensures Stopped(s', id)
    {
      assert ContainerOk(s.daemon, s.issued, id);
    }
  }

  lemma SweeperIsOk(retention: int, s: State, p: nat, a: CleanStep)
    requires CanClean(s, p, a) && a.SweepInspect? && ProcOk(s, s.procs[p])
    ensures NewcomersOk(s, DoClean(retention, s, p, a), p)
  {
    var s', rest := DoClean(retention, s, p, a), s.procs[p].rest;
    assert Stopped(s, rest[0]);
    forall id | id in rest[1..]
      ensures Stopped(s', id)
    {
      assert id in rest && Stopped(s, id);
    }
    assert AllStopped(s', rest[1..]);
  }

  lemma CleanerIsOk(retention: int, s: State, p: nat, a: CleanStep)
    requires StateDaemonOk(s) && StoreOk(s) && CanClean(s, p, a) && (p in s.procs ==> ProcOk(s, s.procs[p]))
    ensures NewcomersOk(s, DoClean(retention, s, p, a), p)
  {
    match a
    case DeleteRequest(_, _) => RequesterIsOk(retention, s, p, a);
    case SweepList(_) => ListingIsOk(retention, s, p, a);
    case SweepInspect(_) => SweeperIsOk(retention, s, p, a);
    case SweepEnd =>
  }

  lemma StepKeepsProcsOk(retention: int, s: State, a: Step)
    requires Inv(s) && Enabled(s, a)
    ensures ProcsOk(Apply(retention, s, a))
  {
    var s' := Apply(retention, s, a);
    StepEvolves(retention, s, a);
    match a {
      case Tick(_) =>
      case Exit(_, _) =>
      case Create(p, c) => CreatorIsOk(s, p, c);
      case Watch(p, w) => WatcherIsOk(s, p, w);
      case Call(p, c) => CallbackIsOk(s, p, c);
      case Delete(p, d) => DeleterIsOk(s, p, d);
      case Clean(p, c) => CleanerIsOk(retention, s, p, c);
      case Restart =>
    }
    forall q | q in s'.procs
      ensures ProcOk(s', s'.procs[q])
    {
      if q in s.procs && q !in Actor(a) {
        BystanderStays(retention, s, a, q);
        BystanderIsLeftAlone(retention, s, a, q);
        ProcSurvives(s, s', s.procs[q]);
      }
    }
  }

  // ---------------------------------------------------------------------------
  // Preservation: one creator and one watcher per job
  // ---------------------------------------------------------------------------

  /** The process takes on no job that it did not have. */
  ghost predicate TakesNothingOn(s: State, s': State, q: nat) {
    q in s'.procs ==>
      if q in s.procs then CreatorOf(s'.procs[q]) <= CreatorOf(s.procs[q]) && WatcherOf(s'.procs[q]) <= WatcherOf(s.procs[q])
      else CreatorOf(s'.procs[q]) == {} && WatcherOf(s'.procs[q]) == {}
  }

  /** Except when a container is created or started, nobody takes on a job. */
  lemma JobStepsTakeNothingOn(s: State, p: nat, q: nat)
    ensures forall a :: CanCreate(s, p, a) && !a.CreateContainer? && !a.StartContainer? ==> TakesNothingOn(s, DoCreate(s, p, a), q)
    ensures forall a :: CanWatch(s, p, a) ==> TakesNothingOn(s, DoWatch(s, p, a), q)
  {
  }

  lemma CallbackTakesNothingOn(s: State, p: nat, q: nat)
    ensures forall a :: CanCall(s, p, a) ==> TakesNothingOn(s, DoCall(s, p, a), q)
  {
  }

  lemma DeleteTakesNothingOn(s: State, p: nat, q: nat)
    ensures forall a :: CanDelete(s, p, a) ==> TakesNothingOn(s, DoDelete(s, p, a), q)
  {
  }

  lemma CleanupTakesNothingOn(retention: int, s: State, p: nat, q: nat)
    ensures forall a :: CanClean(s, p, a) ==> TakesNothingOn(s, DoClean(retention, s, p, a), q)
  {
  }

  lemma StepTakesNothingOn(retention: int, s: State, a: Step, q: nat)
    requires Enabled(s, a)
    requires a.Create? ==> !a.create.CreateContainer? && !a.create.StartContainer?
    ensures TakesNothingOn(s, Apply(retention, s, a), q)
  {
    if !a.Tick? && !a.Exit? && !a.Restart? {
      JobStepsTakeNothingOn(s, a.p, q);
      CallbackTakesNothingOn(s, a.p, q);
      DeleteTakesNothingOn(s, a.p, q);
      CleanupTakesNothingOn(retention, s, a.p, q);
    }
  }

  /** Jobs that are being created or watched were issued; a watched one was started. */
  lemma JobsAreKnown(s: State, q: nat)
    requires ProcsOk(s) && q in s.procs
    ensures forall id :: id in CreatorOf(s.procs[q]) ==> id in s.issued
    ensures forall id :: id in WatcherOf(s.procs[q]) ==> Started(s, id)
  {
    assert ProcOk(s, s.procs[q]);
  }

  lemma CreateKeepsOneOfEach(s: State, p: nat, a: CreateStep)
    requires ProcsOk(s) && OneOfEach(s) && CanCreate(s, p, a) && a.CreateContainer?
    ensures OneOfEach(DoCreate(s, p, a))
  {
    forall q | q in s.procs
      ensures a.id !in CreatorOf(s.procs[q])
    {
      JobsAreKnown(s, q);
    }
  }

  /** A start takes its job on for the new watcher only. */
  lemma StartTakesOn(s: State, p: nat, a: CreateStep, q: nat)
    requires CanCreate(s, p, a) && a.StartContainer?
    ensures q != a.watcher ==> TakesNothingOn(s, DoCreate(s, p, a), q)
    ensures var s' := DoCreate(s, p, a);
            q == a.watcher && q in s'.procs ==> s'.procs[q] == Waiting(s.procs[p].id)
  {
  }

  lemma StartKeepsOneOfEach(s: State, p: nat, a: CreateStep)
    requires ProcsOk(s) && OneOfEach(s) && CanCreate(s, p, a) && a.StartContainer?
    ensures OneOfEach(DoCreate(s, p, a))
  {
    var s', id := DoCreate(s, p, a), s.procs[p].id;
    forall q | q in s.procs
      ensures id !in WatcherOf(s.procs[q])
    {
      JobsAreKnown(s, q);
      assert ProcOk(s, s.procs[p]);
    }
    forall q, r | q in s'.procs && r in s'.procs && q != r
      ensures CreatorOf(s'.procs[q]) !! CreatorOf(s'.procs[r]) && WatcherOf(s'.procs[q]) !! WatcherOf(s'.procs[r])
    {
      StartTakesOn(s, p, a, q);
      StartTakesOn(s, p, a, r);
    }
  }

  lemma StepKeepsOneOfEach(retention: int, s: State, a: Step)
    requires ProcsOk(s) && OneOfEach(s) && Enabled(s, a)
    ensures OneOfEach(Apply(retention, s, a))
  {
    if a.Create? && a.create.CreateContainer? {
      CreateKeepsOneOfEach(s, a.p, a.create);
    } else if a.Create? && a.create.StartContainer? {
      StartKeepsOneOfEach(s, a.p, a.create);
    } else {
      var s' := Apply(retention, s, a);
      forall p, q | p in s'.procs && q in s'.procs && p != q
        ensures CreatorOf(s'.procs[p]) !! CreatorOf(s'.procs[q]) && WatcherOf(s'.procs[p]) !! WatcherOf(s'.procs[q])
      {
        StepTakesNothingOn(retention, s, a, p);
        StepTakesNothingOn(retention, s, a, q);
      }
    }
  }

  lemma StepKeepsInv(retention: int, s: State, a: Step)
    requires Inv(s) && Enabled(s, a)
    ensures Inv(Apply(retention, s, a)) && Evolves(s, Apply(retention, s, a))
  {
    StepEvolves(retention, s, a);
    StepKeepsDaemonOk(retention, s, a);
    StepKeepsStoreOk(retention, s, a);
    StepKeepsProcsOk(retention, s, a);
    StepKeepsOneOfEach(retention, s, a);
  }
}
