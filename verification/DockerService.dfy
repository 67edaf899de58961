/**
 The job service on the container daemon, and the job handlers on top of it, as they run when
 nothing interrupts them.  The interleavings are the business of `JobLifecycle`.
 */
module DockerService {
  import opened Wrappers
  import opened Docker
  import L = JobLifecycle

  datatype DeleteReplies = DeleteReplies(inspectFails: bool, remove: Reply, volume: Reply)

  /** The daemon's answers during one step of a sweep; a container's finish time may be
      missing or not parse. */
  datatype SweepReplies = SweepReplies(inspectFails: bool, unreadable: bool, delete: DeleteReplies)

  datatype CreateReplies = CreateReplies(listFails: bool, updateFails: bool, id: string, volume: string, create: Reply, start: Reply)

  function Listed(d: Daemon): set<string> {
    set id | id in d.containers && d.containers[id].status.Exited?
  }

  function DeleteJobSpec(d: Daemon, id: string, replies: DeleteReplies): (r: (Daemon, bool)) {
    if replies.inspectFails || id !in d.containers then (d, false)
    else
      var mounts := d.containers[id].mounts;
      var (d1, removed) := RemoveContainer(d, id, replies.remove);
      if !removed || mounts == [] then (d1, false)
      else RemoveVolume(d1, mounts[0], replies.volume)
  }

  /** `DeleteJob` reports success exactly when the daemon did all it was asked; then the
      container and its volume are gone and nothing else is touched. */
  lemma DeleteJobRemovesBoth(d: Daemon, id: string, replies: DeleteReplies)
    ensures var (d', ok) := DeleteJobSpec(d, id, replies);
            && (ok <==> !replies.inspectFails && id in d.containers && replies.remove.Done?
                        && d.containers[id].mounts != [] && d.containers[id].mounts[0] in d.volumes && replies.volume.Done?)
            && (ok ==> d' == Daemon(d.containers - {id}, d.volumes - {d.containers[id].mounts[0]}))
            && (forall other :: other in d.containers && other != id ==>
                  other in d'.containers && d'.containers[other] == d.containers[other])
  {
  }

  /** Process `p` runs its `DeleteJob` to the end, with nothing in between. */
  function DeleteSteps(s: L.State, p: nat, r: DeleteReplies): L.State
    requires p in s.procs && s.procs[p].Removing? && s.procs[p].phase.ToInspect?
  {
    var s1 := L.DoDelete(s, p, L.Inspect(r.inspectFails));
    if r.inspectFails || s.procs[p].id !in s.daemon.containers then s1
    else
      var s2 := L.DoDelete(s1, p, L.Remove(r.remove));
      if p in s2.procs && s2.procs[p].Removing? && s2.procs[p].phase.ToRemoveVolume? then L.DoDelete(s2, p, L.DropVolume(r.volume)) else s2
  }

  /** What the process did in between does not show in where it ends. */
  lemma LastMoveCounts(s: L.State, p: nat, proc: L.Proc, id: string, caller: L.Caller, ok: bool)
    ensures L.AfterRemoval(L.Goto(s, p, proc), p, id, caller, ok) == L.AfterRemoval(s, p, id, caller, ok)
  {
    var next := match caller
      case Callback => if ok then L.Dropping(id) else L.Returned(id, true, false)
      case Request => proc
      case Sweep(rest) => L.Sweeping(rest);
    assert s.procs[p := proc][p := next] == s.procs[p := next];
    assert s.procs[p := proc] - {p} == s.procs - {p};
  }

  lemma InspectedIsRemoved(s: L.State, p: nat, proc: L.Proc, r: DeleteReplies, d: Daemon, ok: bool)
    requires proc.Removing? && proc.phase.ToRemove?
    requires var (removed, gone) := RemoveContainer(s.daemon, proc.id, r.remove);
             (d, ok) == if !gone || proc.phase.mounts == [] then (removed, false) else RemoveVolume(removed, proc.phase.mounts[0], r.volume)
    ensures var s1 := L.Goto(s, p, proc);
            var s2 := L.DoDelete(s1, p, L.Remove(r.remove));
            (if p in s2.procs && s2.procs[p].Removing? && s2.procs[p].phase.ToRemoveVolume? then L.DoDelete(s2, p, L.DropVolume(r.volume)) else s2)
            == L.AfterRemoval(s.(daemon := d), p, proc.id, proc.caller, ok)
  {
    var s1, id, caller, mounts := L.Goto(s, p, proc), proc.id, proc.caller, proc.phase.mounts;
    var (removed, gone) := RemoveContainer(s.daemon, id, r.remove);
    var t := s.(daemon := removed);
    LastMoveCounts(t, p, proc, id, caller, false);
    if gone && mounts != [] {
      var s2 := L.DoDelete(s1, p, L.Remove(r.remove));
      var next := L.Removing(id, L.ToRemoveVolume(mounts), caller);
      assert s2 == L.Goto(t, p, next) by { assert s.procs[p := proc][p := next] == s.procs[p := next]; }
      LastMoveCounts(s.(daemon := d), p, next, id, caller, ok);
    }
  }

  /** Whoever calls it and whatever fails, these steps do what `DeleteJob` does, and its answer is
      the one the caller goes on with. */
  lemma DeleteJobIsItsSteps(s: L.State, p: nat, r: DeleteReplies)
    requires p in s.procs && s.procs[p].Removing? && s.procs[p].phase.ToInspect?
    ensures var id, caller := s.procs[p].id, s.procs[p].caller;
            var (daemon, ok) := DeleteJobSpec(s.daemon, id, r);
            DeleteSteps(s, p, r) == L.AfterRemoval(s.(daemon := daemon), p, id, caller, ok)
  {
    var id, caller := s.procs[p].id, s.procs[p].caller;
    var (daemon, ok) := DeleteJobSpec(s.daemon, id, r);
    if !r.inspectFails && id in s.daemon.containers {
      InspectedIsRemoved(s, p, L.Removing(id, L.ToRemove(s.daemon.containers[id].mounts), caller), r, daemon, ok);
    }
  }

  /** The container has been over for longer than the retention time. */
  predicate Due(d: Daemon, id: string, now: int, retention: int) {
    id in d.containers && d.containers[id].status.Exited? && retention < now - d.containers[id].status.finishedAt
  }

  /** The calls that remove the container, and its volume, go through. */
  predicate Removes(r: SweepReplies) {
    !r.inspectFails && !r.unreadable && !r.delete.inspectFails && !r.delete.remove.Refused?
  }

  predicate RemovesVolume(r: SweepReplies) {
    Removes(r) && r.delete.remove.Done? && !r.delete.volume.Refused?
  }

  /** What is left of the containers after sweeping `ids`, and the volumes that go with it. */
  ghost function SweptContainers(d: Daemon, ids: seq<string>, now: int, retention: int, replies: string -> SweepReplies)
    : map<string, Container>
  {
    map id | id in d.containers && !(id in ids && Due(d, id, now, retention) && Removes(replies(id))) :: d.containers[id]
  }

  ghost predicate VolumeSwept(d: Daemon, ids: seq<string>, now: int, retention: int, replies: string -> SweepReplies, volume: string) {
    exists id :: id in ids && Due(d, id, now, retention) && RemovesVolume(replies(id))
                 && d.containers[id].mounts != [] && d.containers[id].mounts[0] == volume
  }

  ghost predicate VolumeIsDue(d: Daemon, volume: string, now: int, retention: int, replies: string -> SweepReplies) {
    exists id :: Due(d, id, now, retention) && RemovesVolume(replies(id))
                 && d.containers[id].mounts != [] && d.containers[id].mounts[0] == volume
  }

  ghost function SweptVolumes(d: Daemon, ids: seq<string>, now: int, retention: int, replies: string -> SweepReplies): set<string> {
    set v | v in d.volumes && !VolumeSwept(d, ids, now, retention, replies, v)
  }

  ghost predicate Distinct(ids: seq<string>) {
    forall i, j :: 0 <= i < j < |ids| ==> ids[i] != ids[j]
  }

  /** `valid` is the outcome of the configuration's check (see `JobConfig`). */
  function CreateJobSpec(d: Daemon, max: int, devMode: bool, valid: bool, r: CreateReplies): (res: (Daemon, Option<string>)) {
    if !valid || r.listFails then (d, None)
    else if 0 < max <= |RunningJobs(d)| && !devMode then (d, None)
    else if r.updateFails then (d, None)
    else
      var (d1, created) := CreateContainer(d, r.id, r.volume, r.create);
      if !created then (d1, None)
      else
        var (d2, started) := StartContainer(d1, r.id, r.start);
        (d2, if started then Some(r.id) else None)
  }

  /** With an obliging daemon and a valid config, a job is created exactly when fewer than
      the maximum are running (or there is no maximum, or in dev mode); one more runs then,
      and nothing else changes. */
  lemma CreateJobAdmits(d: Daemon, max: int, devMode: bool, r: CreateReplies)
    requires !r.listFails && !r.updateFails && r.create.Done? && r.start.Done? && r.id !in d.containers
    ensures var (d', id) := CreateJobSpec(d, max, devMode, true, r);
            && (id.Some? <==> max <= 0 || |RunningJobs(d)| < max || devMode)
            && (if id.Some? then d' == Daemon(d.containers[r.id := Container(Status.Running, [r.volume])], d.volumes + {r.volume})
                                 && |RunningJobs(d')| == |RunningJobs(d)| + 1
                else d' == d)
  {
    var (d', id) := CreateJobSpec(d, max, devMode, true, r);
    if id.Some? {
      assert RunningJobs(d') == RunningJobs(d) + {r.id};
    }
  }

  /** A job is created exactly if its configuration is valid, fewer than the maximum of containers run
      (or there is no maximum, or only a warning, as in dev mode), and every call goes through.  What
      a request leaves on the daemon is the container with its volume, from the creation on. */
  lemma CreateJobAnswers(d: Daemon, max: int, devMode: bool, valid: bool, r: CreateReplies)
    requires r.id !in d.containers
    ensures var (d', id) := CreateJobSpec(d, max, devMode, valid, r);
            var running := set c | c in d.containers && d.containers[c].status.Running?;
            var admitted := valid && !r.listFails && (max <= 0 || |running| < max || devMode) && !r.updateFails;
            var made := admitted && !r.create.Refused?;
            var started := made && r.create.Done? && !r.start.Refused?;
            && id == (if started && r.start.Done? then Some(r.id) else None)
            && d' == if made then Daemon(d.containers[r.id := Container(if started then Running else Created, [r.volume])], d.volumes + {r.volume})
                     else d
  {
    assert RunningJobs(d) == set c | c in d.containers && d.containers[c].status.Running?;
  }

  class JobService {
    const maxConcurrentJobs: int
    const retention: int
    var daemon: Daemon

    constructor (maxConcurrentJobs: int, retention: int, daemon: Daemon)
      ensures this.maxConcurrentJobs == maxConcurrentJobs && this.retention == retention && this.daemon == daemon
    {
      this.maxConcurrentJobs := maxConcurrentJobs;
      this.retention := retention;
      this.daemon := daemon;
    }

    method CreateJob(valid: bool, devMode: bool, r: CreateReplies) returns (id: Option<string>)
      modifies this`daemon
      ensures (daemon, id) == CreateJobSpec(old(daemon), maxConcurrentJobs, devMode, valid, r)
    {
      if !valid || r.listFails {
        return None;
      }
      if 0 < maxConcurrentJobs && maxConcurrentJobs <= |RunningJobs(daemon)| {
        if !devMode {
          return None;
        }
      }
      if r.updateFails {
        return None;
      }
      var (created, ok) := CreateContainer(daemon, r.id, r.volume, r.create);
      daemon := created;
      if !ok {
        return None;
      }
      var (started, running) := StartContainer(daemon, r.id, r.start);
      daemon := started;
      return if running then Some(r.id) else None;
    }

    method DeleteJob(id: string, replies: DeleteReplies) returns (ok: bool)
      modifies this`daemon
      ensures (daemon, ok) == DeleteJobSpec(old(daemon), id, replies)
    {
      if replies.inspectFails || id !in daemon.containers {
        return false;
      }
      var mounts := daemon.containers[id].mounts;
      var (removed, gone) := RemoveContainer(daemon, id, replies.remove);
      daemon := removed;
      if !gone {
        return false;
      }
      if |mounts| == 0 {
        return false;
      }
      var (dropped, done) := RemoveVolume(daemon, mounts[0], replies.volume);
      daemon := dropped;
      return done;
    }

    /** The daemon's list of exited containers, in some order. */
    method ListExited() returns (ids: seq<string>)
      ensures Distinct(ids) && (forall id :: id in ids <==> id in Listed(daemon))
    {
      ids := [];
      var rest := Listed(daemon);
      while rest != {}
        invariant rest <= Listed(daemon) && Distinct(ids)
        invariant forall id :: id in ids <==> id in Listed(daemon) && id !in rest
        decreases rest
      {
        var id :| id in rest;
        ids := ids + [id];
        rest := rest - {id};
      }
    }

    /** One tick of the retention job.  Whatever goes wrong with some containers, every exited
        one that is past the retention time and whose calls go through is removed, and no
        other container is. */
    method Sweep(now: int, listFails: bool, replies: string -> SweepReplies)
      modifies this`daemon
      ensures listFails ==> daemon == old(daemon)
      ensures !listFails ==> forall id :: id in old(daemon).containers ==>
                (id !in daemon.containers <==> Due(old(daemon), id, now, retention) && Removes(replies(id)))
      ensures forall id :: id in daemon.containers ==>
                id in old(daemon).containers && daemon.containers[id] == old(daemon).containers[id]
      ensures !listFails ==> forall v :: v in old(daemon).volumes && v !in daemon.volumes <==>
                v in old(daemon).volumes && VolumeIsDue(old(daemon), v, now, retention, replies)
    {
      if listFails {
        return;
      }
      var ids := ListExited();
      if |ids| == 0 {
        assert forall id :: Due(daemon, id, now, retention) ==> id in ids;
        return;
      }
      ghost var d := daemon;
      for i := 0 to |ids|
        invariant daemon == Daemon(SweptContainers(d, ids[..i], now, retention, replies),
                                   SweptVolumes(d, ids[..i], now, retention, replies))
      {
        var id := ids[i];
        ghost var before := daemon;
        StillThere(d, ids, i, now, retention, replies);
        SweepOne(id, now, replies(id));
        SweptGrows(d, ids, i, now, retention, replies);
      }
      assert ids[..|ids|] == ids;
      assert forall id :: Due(d, id, now, retention) ==> id in ids;
    }

    /** The body of the sweep's loop. */
    method SweepOne(id: string, now: int, r: SweepReplies)
      modifies this`daemon
      ensures daemon == SweepOneSpec(old(daemon), id, now, retention, r)
    {
      if r.inspectFails || id !in daemon.containers {
        return;
      }
      if r.unreadable {
        return;
      }
      if retention < now - FinishedAt(daemon.containers[id].status) {
        var ok := DeleteJob(id, r.delete);
      }
    }
  }

  function SweepOneSpec(d: Daemon, id: string, now: int, retention: int, r: SweepReplies): Daemon {
    if r.inspectFails || r.unreadable || id !in d.containers || now - FinishedAt(d.containers[id].status) <= retention then d
    else DeleteJobSpec(d, id, r.delete).0
  }

  lemma StillThere(d: Daemon, ids: seq<string>, i: nat, now: int, retention: int, replies: string -> SweepReplies)
    requires i < |ids| && Distinct(ids) && (forall id :: id in ids <==> id in Listed(d))
    ensures ids[i] !in ids[..i] && ids[i] in d.containers && d.containers[ids[i]].status.Exited?
    ensures ids[i] in SweptContainers(d, ids[..i], now, retention, replies)
  {
    assert ids[i] in Listed(d);
  }

  /** Sweeping one more container. */
  lemma SweptGrows(d: Daemon, ids: seq<string>, i: nat, now: int, retention: int, replies: string -> SweepReplies)
    requires i < |ids| && ids[i] !in ids[..i] && ids[i] in d.containers && d.containers[ids[i]].status.Exited?
    ensures SweepOneSpec(Daemon(SweptContainers(d, ids[..i], now, retention, replies), SweptVolumes(d, ids[..i], now, retention, replies)),
                         ids[i], now, retention, replies(ids[i]))
         == Daemon(SweptContainers(d, ids[..i + 1], now, retention, replies), SweptVolumes(d, ids[..i + 1], now, retention, replies))
  {
    var was := Daemon(SweptContainers(d, ids[..i], now, retention, replies), SweptVolumes(d, ids[..i], now, retention, replies));
    var is' := SweepOneSpec(was, ids[i], now, retention, replies(ids[i]));
    assert forall id :: id in ids[..i + 1] <==> id in ids[..i] || id == ids[i];
    assert is'.containers == SweptContainers(d, ids[..i + 1], now, retention, replies);
    forall v
      ensures v in is'.volumes <==> v in SweptVolumes(d, ids[..i + 1], now, retention, replies)
    {
      assert VolumeSwept(d, ids[..i + 1], now, retention, replies, v)
        <==> VolumeSwept(d, ids[..i], now, retention, replies, v)
             || (Due(d, ids[i], now, retention) && RemovesVolume(replies(ids[i]))
                 && d.containers[ids[i]].mounts != [] && d.containers[ids[i]].mounts[0] == v);
    }
  }
}
