/** A job as the service records it, and the two kinds of value the store holds. */
module JobTypes {

  datatype Config = Config(jobType: string, maxDurationSec: int, runner: string)

  datatype Job = Job(config: Config, id: string, startAt: int, stopAt: int)

  /** Stored strings are either the salted hash of a client's key or a serialised job. */
  datatype Value = KeyHash(key: string, salt: nat) | JobText(job: Job)
}

/** The key/value store.  Each operation is one locked step. */
module Store {
  import opened Wrappers

  datatype Error = NotFound | EmptyKey | Conflict | IoFailed

  /** How the database misbehaves during one update: not at all, before anything is written,
      or in the `Sync` that follows the write. */
  datatype Fault = NoFault | WriteFails | SyncFails

  function Written<V>(db: map<string, V>, updated: map<string, V>, fault: Fault): (r: (map<string, V>, Outcome<Error>)) {
    match fault
    case NoFault => (updated, Pass)
    case WriteFails => (db, Fail(IoFailed))
    case SyncFails => (updated, Fail(IoFailed))
  }

  function SetSpec<V>(db: map<string, V>, key: string, value: V, fault: Fault): (r: (map<string, V>, Outcome<Error>)) {
    if key == "" then (db, Fail(EmptyKey))
    else Written(db, db[key := value], fault)
  }

  /** `Put` inserts only where nothing is stored yet. */
  function PutSpec<V>(db: map<string, V>, key: string, value: V, fault: Fault): (r: (map<string, V>, Outcome<Error>)) {
    if key == "" then (db, Fail(EmptyKey))
    else if key in db then (db, Fail(Conflict))
    else Written(db, db[key := value], fault)
  }

  function GetSpec<V>(db: map<string, V>, key: string, readFails: bool): (r: Result<V, Error>) {
    if key == "" then Failure(EmptyKey)
    else if readFails then Failure(IoFailed)
    else if key !in db then Failure(NotFound)
    else Success(db[key])
  }

  /** Deleting a key that is not there succeeds. */
  function DeleteSpec<V>(db: map<string, V>, key: string, fault: Fault): (r: (map<string, V>, Outcome<Error>)) {
    if key == "" then (db, Fail(EmptyKey))
    else Written(db, db - {key}, fault)
  }

  /** Whatever an update answers, only its own key can have changed; and a failed `Sync`
      leaves the very database a success leaves. */
  lemma UpdatesAreLocal<V>(db: map<string, V>, key: string, value: V, fault: Fault, other: string)
    requires other != key
    ensures forall r :: r in {SetSpec(db, key, value, fault).0, PutSpec(db, key, value, fault).0, DeleteSpec(db, key, fault).0}
              ==> (other in r <==> other in db) && (other in db ==> r[other] == db[other])
    ensures PutSpec(db, key, value, SyncFails).0 == PutSpec(db, key, value, NoFault).0
    ensures DeleteSpec(db, key, SyncFails).0 == DeleteSpec(db, key, NoFault).0
    // a value that is there survives every `Put`
    ensures key in db ==> PutSpec(db, key, value, fault).0 == db
  {
  }

  /** What a later read gives, and what the update answers: a value is there after `Set` unless
      it was not written, after `Put` the first one stays, after `Delete` there is none. */
  lemma ReadAfterUpdate<V>(db: map<string, V>, key: string, value: V, fault: Fault)
    requires key != ""
    ensures var (set', answer) := SetSpec(db, key, value, fault);
            && GetSpec(set', key, false) == (if fault.WriteFails? then GetSpec(db, key, false) else Success(value))
            && (answer == Pass <==> fault.NoFault?)
    ensures var (put, answer) := PutSpec(db, key, value, fault);
            && GetSpec(put, key, false)
               == (if key in db then Success(db[key]) else if fault.WriteFails? then Failure(NotFound) else Success(value))
            && (answer == Pass <==> key !in db && fault.NoFault?)
            && (answer == Fail(Conflict) <==> key in db)
    ensures var (rest, answer) := DeleteSpec(db, key, fault);
            && GetSpec(rest, key, false) == (if fault.WriteFails? then GetSpec(db, key, false) else Failure(NotFound))
            && (answer == Pass <==> fault.NoFault?)
    ensures GetSpec(db, key, true) == Failure(IoFailed)
  {
  }

  /** The empty key is refused throughout. */
  lemma EmptyKeyIsRefused<V>(db: map<string, V>, value: V, fault: Fault, readFails: bool)
    ensures SetSpec(db, "", value, fault) == PutSpec(db, "", value, fault) == DeleteSpec(db, "", fault) == (db, Fail(EmptyKey))
    ensures GetSpec(db, "", readFails) == Failure(EmptyKey)
  {
  }

  class BitcaskStore<V> {
    var db: map<string, V>

    constructor ()
      ensures db == map[]
    {
      db := map[];
    }

    method Set(key: string, value: V, fault: Fault) returns (r: Outcome<Error>)
      modifies this
      ensures (db, r) == SetSpec(old(db), key, value, fault)
    {
      if key == "" {
        return Fail(EmptyKey);
      }
      if fault == WriteFails {
        return Fail(IoFailed);
      }
      db := db[key := value];
      if fault == SyncFails {
        return Fail(IoFailed);
      }
      return Pass;
    }

    method Put(key: string, value: V, fault: Fault) returns (r: Outcome<Error>)
      modifies this
      ensures (db, r) == PutSpec(old(db), key, value, fault)
    {
      if key == "" {
        return Fail(EmptyKey);
      }
      if key in db {
        return Fail(Conflict);
      }
      if fault == WriteFails {
        return Fail(IoFailed);
      }
      db := db[key := value];
      if fault == SyncFails {
        return Fail(IoFailed);
      }
      return Pass;
    }

    method Get(key: string, readFails: bool) returns (r: Result<V, Error>)
      ensures r == GetSpec(db, key, readFails)
    {
      if key == "" {
        return Failure(EmptyKey);
      }
      if readFails {
        return Failure(IoFailed);
      }
      if key !in db {
        return Failure(NotFound);
      }
      return Success(db[key]);
    }

    method Delete(key: string, fault: Fault) returns (r: Outcome<Error>)
      modifies this
      ensures (db, r) == DeleteSpec(old(db), key, fault)
    {
      if key == "" {
        return Fail(EmptyKey);
      }
      if fault == WriteFails {
        return Fail(IoFailed);
      }
      db := db - {key};
      if fault == SyncFails {
        return Fail(IoFailed);
      }
      return Pass;
    }
  }
}

/** Job records, kept in the same store as the clients' hashes under a key prefix. */
module JobStore {
  import opened Wrappers
  import opened JobTypes
  import Store

  const JOB_KEY_PREFIX: string := "job_"

  function JobKey(jobId: string): (key: string)
    ensures key != ""
  {
    JOB_KEY_PREFIX + jobId
  }

  predicate IsJobKey(key: string) {
    JOB_KEY_PREFIX <= key
  }

  /** Distinct jobs have distinct keys, and the prefix is what tells a job key. */
  lemma JobKeysAreInjective(a: string, b: string)
    ensures JobKey(a) == JobKey(b) ==> a == b
    ensures IsJobKey(JobKey(a))
  {
    assert JobKey(a)[4..] == a && JobKey(b)[4..] == b;
  }

  lemma JobKeysAreAll(key: string)
    ensures IsJobKey(key) <==> exists jobId :: key == JobKey(jobId)
  {
    if IsJobKey(key) {
      assert key == JobKey(key[4..]);
    }
  }

  function SaveJobSpec(db: map<string, Value>, job: Job, fault: Store.Fault): (r: (map<string, Value>, Outcome<Store.Error>)) {
    Store.SetSpec(db, JobKey(job.id), JobText(job), fault)
  }

  /** A value that is not a serialised job fails to parse. */
  function GetJobSpec(db: map<string, Value>, jobId: string, readFails: bool): (r: Result<Job, Store.Error>) {
    var value: Result<Value, Store.Error> := Store.GetSpec(db, JobKey(jobId), readFails);
    if value.Failure? then Failure(value.error)
    else if value.value.JobText? then Success(value.value.job)
    else Failure(Store.IoFailed)
  }

  /** A job is read exactly when the store can be read and holds a job under "job_" and its id. */
  lemma JobIsReadIff(db: map<string, Value>, jobId: string, readFails: bool, job: Job)
    ensures GetJobSpec(db, jobId, readFails) == Success(job)
       <==> !readFails && "job_" + jobId in db && db["job_" + jobId] == JobText(job)
    ensures GetJobSpec(db, jobId, readFails) == Failure(Store.NotFound) <==> !readFails && "job_" + jobId !in db
  {
  }

  function DropJobSpec(db: map<string, Value>, jobId: string, fault: Store.Fault): (r: (map<string, Value>, Outcome<Store.Error>)) {
    Store.DeleteSpec(db, JobKey(jobId), fault)
  }

  /** What is saved is what is read back, until it is deleted, whatever else is saved or
      deleted in between under other identifiers. */
  lemma SavedJobIsReadBack(db: map<string, Value>, job: Job, other: Job, fault: Store.Fault)
    requires other.id != job.id
    ensures var saved := SaveJobSpec(db, job, Store.NoFault).0;
            GetJobSpec(saved, job.id, false) == Success(job)
            && GetJobSpec(SaveJobSpec(saved, other, fault).0, job.id, false) == Success(job)
            && GetJobSpec(DropJobSpec(saved, other.id, fault).0, job.id, false) == Success(job)
            && GetJobSpec(DropJobSpec(saved, job.id, Store.NoFault).0, job.id, false) == Failure(Store.NotFound)
  {
    JobKeysAreInjective(other.id, job.id);
  }

  class JobStore {
    const store: Store.BitcaskStore<Value>

    constructor (store: Store.BitcaskStore<Value>)
      ensures this.store == store
    {
      this.store := store;
    }

    method SaveJob(job: Job, fault: Store.Fault) returns (r: Outcome<Store.Error>)
      modifies store
      ensures (store.db, r) == SaveJobSpec(old(store.db), job, fault)
    {
      r := store.Set(JobKey(job.id), JobText(job), fault);
    }

    method GetJob(jobId: string, readFails: bool) returns (r: Result<Job, Store.Error>)
      ensures r == GetJobSpec(store.db, jobId, readFails)
    {
      var value := store.Get(JobKey(jobId), readFails);
      if value.Failure? {
        return Failure(value.error);
      }
      if !value.value.JobText? {
        return Failure(Store.IoFailed);
      }
      return Success(value.value.job);
    }

    method DeleteJob(jobId: string, fault: Store.Fault) returns (r: Outcome<Store.Error>)
      modifies store
      ensures (store.db, r) == DropJobSpec(old(store.db), jobId, fault)
    {
      r := store.Delete(JobKey(jobId), fault);
    }
  }
}
