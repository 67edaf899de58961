/**
 The interleaved life of jobs agrees with the handlers: when nothing comes between the steps of
 one create request or one callback, they do to records, containers and volumes what the handler
 does, fault for fault.
 */
module LifecycleAgrees {
  import opened Wrappers
  import opened JobTypes
  import opened JobStore
  import opened Docker
  import opened DockerService
  import opened JobsApi
  import L = JobLifecycle
  import Store

  /** The machine's records are the times of the stored jobs. */
  ghost predicate SameRecords(db: map<string, Value>, store: map<string, L.Record>) {
    forall id :: RecordAgrees(db, store, id)
  }

  ghost predicate RecordAgrees(db: map<string, Value>, store: map<string, L.Record>, id: string) {
    var found := GetJobSpec(db, id, false);
    && (id in store <==> found.Success?)
    && (id in store ==> store[id] == L.Record(found.value.startAt, found.value.stopAt))
  }

  lemma SavingAgrees(db: map<string, Value>, store: map<string, L.Record>, job: Job, fault: Store.Fault)
    requires SameRecords(db, store)
    ensures SameRecords(SaveJobSpec(db, job, fault).0,
                        if fault.WriteFails? then store else store[job.id := L.Record(job.startAt, job.stopAt)])
    ensures SaveJobSpec(db, job, fault).1.Pass? <==> fault.NoFault?
  {
    var db', store' := SaveJobSpec(db, job, fault).0, if fault.WriteFails? then store else store[job.id := L.Record(job.startAt, job.stopAt)];
    forall id
      ensures RecordAgrees(db', store', id)
    {
      JobKeysAreInjective(job.id, id);
      assert RecordAgrees(db, store, id);
    }
  }

  lemma DroppingAgrees(db: map<string, Value>, store: map<string, L.Record>, jobId: string, fault: Store.Fault)
    requires SameRecords(db, store)
    ensures SameRecords(DropJobSpec(db, jobId, fault).0, if fault.WriteFails? then store else store - {jobId})
    ensures DropJobSpec(db, jobId, fault).1.Pass? <==> fault.NoFault?
  {
    var db', store' := DropJobSpec(db, jobId, fault).0, if fault.WriteFails? then store else store - {jobId};
    forall id
      ensures RecordAgrees(db', store', id)
    {
      JobKeysAreInjective(jobId, id);
      assert RecordAgrees(db, store, id);
    }
  }

  /** Process `p` runs the callback up to the point where the stop time is settled. */
  function Stamped(s: L.State, p: nat, f: CallbackFaults): (t: L.State)
    requires p in s.procs && s.procs[p].Fetching?
    ensures p in t.procs
    ensures t.procs[p].Removing? ==> t.procs[p].phase.ToInspect? && t.procs[p].caller.Callback?
  {
    var s1 := L.DoCall(s, p, L.Fetch(f.readFails));
    if !s1.procs[p].Stamping? then s1
    else
      var s2 := L.DoCall(s1, p, L.Stamp);
      if s2.procs[p].Storing? then L.DoCall(s2, p, L.StoreStamp(f.save)) else s2
  }

  /** ... and with `DeleteJob` to its end. */
  function Completed(s: L.State, p: nat, f: CallbackFaults): (t: L.State)
    requires p in s.procs && s.procs[p].Fetching?
    ensures p in t.procs
  {
    var t := Stamped(s, p, f);
    if !t.procs[p].Removing? then t
    else
      DeleteJobIsItsSteps(t, p, f.delete);
      var u := DeleteSteps(t, p, f.delete);
      if u.procs[p].Dropping? then L.DoCall(u, p, L.DropRecord(f.drop)) else u
  }

  lemma StampingAgrees(w: World, s: L.State, p: nat, f: CallbackFaults)
    requires SameRecords(w.db, s.store) && RecordsAreKeyed(w.db)
    requires p in s.procs && s.procs[p].Fetching?
    ensures var id, success := s.procs[p].id, s.procs[p].success;
            var t, found := Stamped(s, p, f), GetJobSpec(w.db, id, f.readFails);
            && t.daemon == s.daemon
            && if found.Failure? then t.store == s.store && t.procs[p] == L.Returned(id, success, false)
               else
                 var (db, saved) := StampSpec(w.db, found.value, s.now, f.save);
                 && SameRecords(db, t.store)
                 && t.procs[p] == if saved.Fail? then L.Returned(id, success, false) else L.AfterStamp(id, success)
  {
    var id := s.procs[p].id;
    assert RecordAgrees(w.db, s.store, id);
    var found := GetJobSpec(w.db, id, false);
    if found.Success? {
      SavingAgrees(w.db, s.store, found.value.(stopAt := s.now), f.save);
    }
  }

  /** The stop callback and its steps agree: the same answer, the same records, containers and
      volumes, whichever calls fail. */
  lemma CallbackIsItsSteps(w: World, s: L.State, p: nat, f: CallbackFaults)
    requires SameRecords(w.db, s.store) && w.daemon == s.daemon && RecordsAreKeyed(w.db)
    requires p in s.procs && s.procs[p].Fetching?
    ensures var id, success := s.procs[p].id, s.procs[p].success;
            var t, (w', ok) := Completed(s, p, f), CallbackSpec(w, id, success, s.now, f);
            SameRecords(w'.db, t.store) && t.daemon == w'.daemon && t.procs[p] == L.Returned(id, success, ok)
  {
    var id, t := s.procs[p].id, Stamped(s, p, f);
    StampingAgrees(w, s, p, f);
    var found := GetJobSpec(w.db, id, f.readFails);
    if t.procs[p].Removing? {
      var db := StampSpec(w.db, found.value, s.now, f.save).0;
      assert found.value.id == id by { assert GetJobSpec(w.db, id, false) == found; }
      DeleteJobIsItsSteps(t, p, f.delete);
      DroppingAgrees(db, t.store, id, f.drop);
    }
  }

  /** A delete request by process `p`, run to its end. */
  function Requested(s: L.State, p: nat, id: string, readFails: bool, r: DeleteReplies): L.State
    requires p !in s.procs
  {
    var s1 := L.DoClean(0, s, p, L.DeleteRequest(id, readFails));
    if p in s1.procs then DeleteSteps(s1, p, r) else s1
  }

  /** A delete request and its steps agree: records, containers and volumes end up the same, and nobody
      is left over. */
  lemma DeleteRequestIsItsSteps(w: World, s: L.State, p: nat, id: string, readFails: bool, r: DeleteReplies)
    requires SameRecords(w.db, s.store) && w.daemon == s.daemon && id != "" && p !in s.procs
    ensures var (w', _) := HandleDeleteJobSpec(w, id, readFails, r);
            var t := Requested(s, p, id, readFails, r);
            t.daemon == w'.daemon && SameRecords(w'.db, t.store) && t.procs == s.procs
  {
    assert RecordAgrees(w.db, s.store, id);
    var s1 := L.DoClean(0, s, p, L.DeleteRequest(id, readFails));
    if p in s1.procs {
      DeleteJobIsItsSteps(s1, p, r);
      assert s1.procs - {p} == s.procs;
    }
  }

  /** One turn of a sweep by process `p`, run to its end. */
  function SweptOne(retention: int, s: L.State, p: nat, r: SweepReplies): L.State
    requires p in s.procs && s.procs[p].Sweeping? && s.procs[p].rest != []
  {
    var s1 := L.DoClean(retention, s, p, L.SweepInspect(r.inspectFails || r.unreadable));
    if s1.procs[p].Removing? then DeleteSteps(s1, p, r.delete) else s1
  }

  /** A turn of the sweep and its steps agree, and the sweep goes on with the rest of its list. */
  lemma SweepIsItsSteps(retention: int, s: L.State, p: nat, r: SweepReplies)
    requires p in s.procs && s.procs[p].Sweeping? && s.procs[p].rest != []
    ensures var id, rest := s.procs[p].rest[0], s.procs[p].rest[1..];
            SweptOne(retention, s, p, r)
            == s.(daemon := SweepOneSpec(s.daemon, id, s.now, retention, r), procs := s.procs[p := L.Sweeping(rest)])
  {
    var rest := s.procs[p].rest[1..];
    var s1 := L.DoClean(retention, s, p, L.SweepInspect(r.inspectFails || r.unreadable));
    if s1.procs[p].Removing? {
      DeleteJobIsItsSteps(s1, p, r.delete);
      assert s1.procs[p := L.Sweeping(rest)] == s.procs[p := L.Sweeping(rest)];
    }
  }

  /** Process `p`, which has a container to start, finishes its create request. */
  function Finished(s: L.State, p: nat, watcher: nat, start: Reply, fault: Store.Fault): (t: L.State)
    requires p in s.procs && s.procs[p].Starting? && watcher !in s.procs
  {
    var s1 := L.DoCreate(s, p, L.CreateStep.StartContainer(watcher, start));
    if p !in s1.procs then s1 else L.DoCreate(s1, p, L.SaveNew(fault))
  }

  lemma FinishingAgrees(s: L.State, p: nat, watcher: nat, start: Reply, fault: Store.Fault)
    requires p in s.procs && s.procs[p].Starting? && watcher !in s.procs
    ensures var id, t := s.procs[p].id, Finished(s, p, watcher, start, fault);
            var (daemon, ok) := StartContainer(s.daemon, id, start);
            && t.daemon == daemon
            && t.store == (if ok && !fault.WriteFails? then s.store[id := L.Record(s.now, 0)] else s.store)
            && t.procs == if ok then (s.procs - {p})[watcher := L.Waiting(id)] else s.procs - {p}
  {
    var s1 := L.DoCreate(s, p, L.CreateStep.StartContainer(watcher, start));
    if p in s1.procs {
      assert s1.procs - {p} == (s.procs - {p})[watcher := L.Waiting(s.procs[p].id)];
    }
  }

  /** Process `p`, which was admitted and has its image, goes on to the end. */
  function Launched(s: L.State, p: nat, watcher: nat, r: CreateReplies, fault: Store.Fault): (t: L.State)
    requires p in s.procs && s.procs[p].Creating? && watcher !in s.procs
    requires r.id !in s.issued && r.volume !in s.issued.Values && r.volume !in s.daemon.volumes
  {
    var s1 := L.DoCreate(s, p, L.CreateStep.CreateContainer(r.id, r.volume, r.create));
    if p !in s1.procs then s1 else Finished(s1, p, watcher, r.start, fault)
  }

  lemma LaunchingAgrees(db: map<string, Value>, s: L.State, p: nat, watcher: nat, cfg: Config, r: CreateReplies, fault: Store.Fault)
    requires SameRecords(db, s.store)
    requires p in s.procs && s.procs[p].Creating? && watcher !in s.procs
    requires r.id !in s.issued && r.volume !in s.issued.Values && r.volume !in s.daemon.volumes
    ensures var t := Launched(s, p, watcher, r, fault);
            var (d, created) := CreateContainer(s.daemon, r.id, r.volume, r.create);
            var (daemon, ok) := if created then StartContainer(d, r.id, r.start) else (d, false);
            && t.daemon == daemon
            && SameRecords(if ok then SaveJobSpec(db, Job(cfg, r.id, s.now, 0), fault).0 else db, t.store)
            && t.procs == if ok then (s.procs - {p})[watcher := L.Waiting(r.id)] else s.procs - {p}
  {
    var s1 := L.DoCreate(s, p, L.CreateStep.CreateContainer(r.id, r.volume, r.create));
    if p in s1.procs {
      assert s1.procs - {p} == s.procs - {p};
      SavingAgrees(db, s.store, Job(cfg, r.id, s.now, 0), fault);
      FinishingAgrees(s1, p, watcher, r.start, fault);
    }
  }

  /** The steps of a create request with a valid configuration. */
  function Created(s: L.State, p: nat, watcher: nat, r: CreateReplies, fault: Store.Fault): (t: L.State)
    requires p !in s.procs && watcher !in s.procs && watcher != p
    requires r.id !in s.issued && r.volume !in s.issued.Values && r.volume !in s.daemon.volumes
  {
    var s1 := L.DoCreate(s, p, L.BeginCreate);
    var s2 := L.DoCreate(s1, p, L.ListRunning(r.listFails));
    if p !in s2.procs then s2
    else if r.updateFails then L.DoCreate(s2, p, L.AbortCreate)
    else Launched(s2, p, watcher, r, fault)
  }

  /** A create request and its steps agree, admitted or not and whichever calls fail; what is left
      over is the watcher, exactly if the daemon reported the container's start. */
  lemma CreateIsItsSteps(db: map<string, Value>, s: L.State, p: nat, watcher: nat, cfg: Config, max: int, devMode: bool,
                         r: CreateReplies, fault: Store.Fault)
    requires SameRecords(db, s.store) && s.limit == if devMode then 0 else max
    requires p !in s.procs && watcher !in s.procs && watcher != p
    requires r.id !in s.issued && r.volume !in s.issued.Values && r.volume !in s.daemon.volumes
    ensures var t, (daemon, id) := Created(s, p, watcher, r, fault), CreateJobSpec(s.daemon, max, devMode, true, r);
            && t.daemon == daemon
            && SameRecords(if id.None? then db else SaveJobSpec(db, Job(cfg, id.value, s.now, 0), fault).0, t.store)
            && t.procs == if id.None? then s.procs else s.procs[watcher := L.Waiting(r.id)]
  {
    var s1 := L.DoCreate(s, p, L.BeginCreate);
    var s2 := L.DoCreate(s1, p, L.ListRunning(r.listFails));
    assert s2.procs - {p} == s.procs;
    if p in s2.procs && !r.updateFails {
      LaunchingAgrees(db, s2, p, watcher, cfg, r, fault);
    }
  }
}
