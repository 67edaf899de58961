/** The create and delete handlers and the stop callback, each run from start to end. */
module JobsApi {
  import opened Wrappers
  import opened JobTypes
  import opened JobStore
  import opened Docker
  import opened DockerService
  import JobConfig
  import AuthHandlers
  import Store

  const STATUS_OK: int := 200
  const STATUS_BAD_REQUEST: int := 400
  const STATUS_NOT_FOUND: int := 404
  const STATUS_INTERNAL_ERROR: int := 500

  /** What the handlers work on. */
  datatype World = World(db: map<string, Value>, daemon: Daemon)

  datatype CallbackFaults = CallbackFaults(readFails: bool, save: Store.Fault, delete: DeleteReplies, drop: Store.Fault)

  function StampSpec(db: map<string, Value>, job: Job, now: int, fault: Store.Fault): (r: (map<string, Value>, Outcome<Store.Error>)) {
    if job.stopAt == 0 then SaveJobSpec(db, job.(stopAt := now), fault) else (db, Pass)
  }

  function CallbackSpec(w: World, jobId: string, success: bool, now: int, f: CallbackFaults): (r: (World, bool)) {
    var found := GetJobSpec(w.db, jobId, f.readFails);
    if found.Failure? then (w, false)
    else
      var (db, saved) := StampSpec(w.db, found.value, now, f.save);
      var w1 := w.(db := db);
      if saved.Fail? then (w1, false)
      else if !success then (w1, true)
      else
        var (daemon, deleted) := DeleteJobSpec(w1.daemon, found.value.id, f.delete);
        var w2 := w1.(daemon := daemon);
        if !deleted then (w2, false)
        else
          var (db', dropped) := DropJobSpec(w2.db, found.value.id, f.drop);
          (w2.(db := db'), dropped.Pass?)
  }

  /** Records are stored under the id they carry. */
  ghost predicate RecordsAreKeyed(db: map<string, Value>) {
    forall jobId :: GetJobSpec(db, jobId, false).Success? ==> GetJobSpec(db, jobId, false).value.id == jobId
  }

  lemma SavingKeepsRecordsKeyed(db: map<string, Value>, job: Job, fault: Store.Fault)
    requires RecordsAreKeyed(db)
    ensures RecordsAreKeyed(SaveJobSpec(db, job, fault).0)
  {
    var db' := SaveJobSpec(db, job, fault).0;
    forall jobId | GetJobSpec(db', jobId, false).Success?
      ensures GetJobSpec(db', jobId, false).value.id == jobId
    {
      JobKeysAreInjective(job.id, jobId);
      if jobId != job.id {
        assert GetJobSpec(db', jobId, false) == GetJobSpec(db, jobId, false);
      }
    }
  }

  /** A callback that returns without error has done its whole duty: a successful job leaves
      no record, container or volume, any other job's record has its stop time, which is the
      earlier one if there was one already. */
  lemma CallbackDuty(w: World, jobId: string, success: bool, now: int, f: CallbackFaults)
    requires RecordsAreKeyed(w.db) && now != 0
    requires CallbackSpec(w, jobId, success, now, f).1
    ensures var w' := CallbackSpec(w, jobId, success, now, f).0;
            var job := GetJobSpec(w.db, jobId, false);
            && job.Success?
            && (if success then
                  && GetJobSpec(w'.db, jobId, false) == Failure(Store.NotFound)
                  && jobId in w.daemon.containers && w.daemon.containers[jobId].mounts != []
                  && w'.daemon == Daemon(w.daemon.containers - {jobId}, w.daemon.volumes - {w.daemon.containers[jobId].mounts[0]})
                else
                  && w'.daemon == w.daemon
                  && GetJobSpec(w'.db, jobId, false)
                     == Success(job.value.(stopAt := if job.value.stopAt == 0 then now else job.value.stopAt)))
  {
    assert GetJobSpec(w.db, jobId, false).value.id == jobId;
    JobKeysAreInjective(jobId, jobId);
  }

  function HandleDeleteJobSpec(w: World, jobId: string, readFails: bool, replies: DeleteReplies): (r: (World, int)) {
    if jobId == "" then (w, STATUS_BAD_REQUEST)
    else
      var found := GetJobSpec(w.db, jobId, readFails);
      if found.Failure? then (w, STATUS_NOT_FOUND)
      else if found.value.stopAt == 0 then (w, STATUS_BAD_REQUEST)
      else
        var (daemon, ok) := DeleteJobSpec(w.daemon, jobId, replies);
        (w.(daemon := daemon), if ok then STATUS_OK else STATUS_INTERNAL_ERROR)
  }

  /** A delete request never touches the records, and touches a container only if the job's
      record has a stop time.  Since the record stays, a second request for the same job gets
      past the guard again and fails at the daemon. */
  lemma DeleteRequestGuard(w: World, jobId: string, readFails: bool, replies: DeleteReplies, again: DeleteReplies)
    ensures var (w', status) := HandleDeleteJobSpec(w, jobId, readFails, replies);
            && w'.db == w.db
            && (w'.daemon != w.daemon ==>
                  GetJobSpec(w.db, jobId, false).Success? && GetJobSpec(w.db, jobId, false).value.stopAt != 0)
            && (status == STATUS_OK ==> HandleDeleteJobSpec(w', jobId, false, again) == (w', STATUS_INTERNAL_ERROR))
  {
  }

  /** The job's record can be read: it is stored under "job_" and the id. */
  predicate HasRecord(db: map<string, Value>, jobId: string, readFails: bool) {
    !readFails && "job_" + jobId in db && db["job_" + jobId].JobText?
  }

  function RecordOf(db: map<string, Value>, jobId: string): Job
    requires HasRecord(db, jobId, false)
  {
    db["job_" + jobId].job
  }

  /** The daemon does all that a deletion asks of it. */
  predicate Obliges(d: Daemon, id: string, replies: DeleteReplies) {
    && !replies.inspectFails && id in d.containers && replies.remove.Done?
    && d.containers[id].mounts != [] && d.containers[id].mounts[0] in d.volumes && replies.volume.Done?
  }

  /** A delete request is answered 404 exactly without a readable record, 400 for an empty id and for a
      job without stop time, 200 when the daemon inspects the container, removes it and drops its first
      mount, and 500 when one of these fails.  With a 200 container and volume are gone, and nothing else;
      with a 400 or 404 everything is as it was. */
  lemma DeleteRequestAnswers(w: World, jobId: string, readFails: bool, replies: DeleteReplies)
    ensures var (w', status) := HandleDeleteJobSpec(w, jobId, readFails, replies);
            var found := HasRecord(w.db, jobId, readFails);
            var stopped := found && RecordOf(w.db, jobId).stopAt != 0;
            && (status == 404 <==> jobId != "" && !found)
            && (status == 400 <==> jobId == "" || (found && !stopped))
            && (status == 200 <==> jobId != "" && stopped && Obliges(w.daemon, jobId, replies))
            && (status == 500 <==> jobId != "" && stopped && !Obliges(w.daemon, jobId, replies))
            && w'.db == w.db
            && (status == 200 ==>
                  w'.daemon == Daemon(w.daemon.containers - {jobId}, w.daemon.volumes - {w.daemon.containers[jobId].mounts[0]}))
            && (status == 404 || status == 400 ==> w' == w)
  {
    DeleteJobRemovesBoth(w.daemon, jobId, replies);
  }

  /** A callback returns nil exactly if the record can be read, gets its stop time stored where it has
      none, and after a success the daemon obliges and the record is deleted; without success, or with
      the stop time not stored, it leaves the daemon alone. */
  lemma CallbackAnswers(w: World, jobId: string, success: bool, now: int, f: CallbackFaults)
    requires RecordsAreKeyed(w.db)
    ensures var (w', ok) := CallbackSpec(w, jobId, success, now, f);
            var found := HasRecord(w.db, jobId, f.readFails);
            var stamped := found && (RecordOf(w.db, jobId).stopAt == 0 ==> f.save.NoFault?);
            && (ok <==> stamped && (success ==> Obliges(w.daemon, jobId, f.delete) && f.drop.NoFault?))
            && (!stamped || !success ==> w'.daemon == w.daemon)
            && (!success && found ==>
                  && HasRecord(w'.db, jobId, false)
                  && RecordOf(w'.db, jobId).stopAt
                     == if RecordOf(w.db, jobId).stopAt == 0 && !f.save.WriteFails? then now else RecordOf(w.db, jobId).stopAt)
            && (stamped && success && Obliges(w.daemon, jobId, f.delete) ==>
                  && w'.daemon == Daemon(w.daemon.containers - {jobId}, w.daemon.volumes - {w.daemon.containers[jobId].mounts[0]})
                  && (HasRecord(w'.db, jobId, false) <==> f.drop.WriteFails?))
  {
    if HasRecord(w.db, jobId, f.readFails) {
      assert GetJobSpec(w.db, jobId, false).value.id == jobId;
    }
    DeleteJobRemovesBoth(w.daemon, jobId, f.delete);
  }

  class Api {
    const jobs: JobStore
    const backend: JobService

    ghost function Now(): World
      reads jobs.store, backend
    {
      World(jobs.store.db, backend.daemon)
    }

    constructor (jobs: JobStore, backend: JobService)
      ensures this.jobs == jobs && this.backend == backend
    {
      this.jobs := jobs;
      this.backend := backend;
    }

    /** `auth` is the outcome of the authentication, `body` the decoded request, `now` the clock when the container has started.  What the
        watcher does from there on is not part of the call. */
    method HandleCreateJob(auth: AuthHandlers.AuthResult, body: Option<Config>, registry: string, devMode: bool, testMode: bool,
                           replies: CreateReplies, now: int, fault: Store.Fault) returns (status: int)
      modifies jobs.store, backend`daemon
      ensures auth.Failure? ==> status == auth.error && Now() == old(Now())
      ensures auth.Success? && (body.None? || JobConfig.IsValid(body.value, registry, devMode || testMode).Fail?) ==>
                status == STATUS_BAD_REQUEST && Now() == old(Now())
      ensures auth.Success? && body.Some? && JobConfig.IsValid(body.value, registry, devMode || testMode).Pass? ==>
                var (daemon, id) := CreateJobSpec(old(backend.daemon), backend.maxConcurrentJobs, devMode, true, replies);
                && backend.daemon == daemon
                && if id.None? then status == STATUS_INTERNAL_ERROR && jobs.store.db == old(jobs.store.db)
                   else var (db, saved) := SaveJobSpec(old(jobs.store.db), Job(body.value, id.value, now, 0), fault);
                        jobs.store.db == db && status == (if saved.Pass? then STATUS_OK else STATUS_INTERNAL_ERROR)
    {
      if auth.Failure? {
        return auth.error;
      }
      if body.None? {
        return STATUS_BAD_REQUEST;
      }
      var cfg := body.value;
      var valid := JobConfig.IsValid(cfg, registry, devMode || testMode).Pass?;
      if !valid {
        return STATUS_BAD_REQUEST;
      }
      var id := backend.CreateJob(valid, devMode, replies);
      if id.None? {
        return STATUS_INTERNAL_ERROR;
      }
      var saved := jobs.SaveJob(Job(cfg, id.value, now, 0), fault);
      return if saved.Pass? then STATUS_OK else STATUS_INTERNAL_ERROR;
    }

    method StopCallback(jobId: string, success: bool, now: int, f: CallbackFaults) returns (ok: bool)
      modifies jobs.store, backend`daemon
      ensures (Now(), ok) == CallbackSpec(old(Now()), jobId, success, now, f)
    {
      var found := jobs.GetJob(jobId, f.readFails);
      if found.Failure? {
        return false;
      }
      var job := found.value;
      if job.stopAt == 0 {
        job := job.(stopAt := now);
        var saved := jobs.SaveJob(job, f.save);
        if saved.Fail? {
          return false;
        }
      }
      if success {
        var deleted := backend.DeleteJob(job.id, f.delete);
        if !deleted {
          return false;
        }
        var dropped := jobs.DeleteJob(job.id, f.drop);
        if dropped.Fail? {
          return false;
        }
      }
      return true;
    }

    method HandleDeleteJob(auth: AuthHandlers.AuthResult, jobId: string, readFails: bool, replies: DeleteReplies) returns (status: int)
      modifies backend`daemon
      ensures auth.Failure? ==> status == auth.error && Now() == old(Now())
      ensures auth.Success? ==> (Now(), status) == HandleDeleteJobSpec(old(Now()), jobId, readFails, replies)
    {
      if auth.Failure? {
        return auth.error;
      }
      if jobId == "" {
        return STATUS_BAD_REQUEST;
      }
      var found := jobs.GetJob(jobId, readFails);
      if found.Failure? {
        return STATUS_NOT_FOUND;
      }
      if found.value.stopAt == 0 {
        return STATUS_BAD_REQUEST;
      }
      var ok := backend.DeleteJob(jobId, replies);
      return if ok then STATUS_OK else STATUS_INTERNAL_ERROR;
    }
  }
}
