# calls-offloader, verified

A Dafny model of the calls-offloader job service. It follows the service's own division: HTTP handlers,
one watcher goroutine per job, a retention goroutine and the auth calls all work on three shared states,
a key/value store, a table of sessions and a container backend.

| file | what it models |
|---|---|
| `SessionCache.dfy`, `SessionInterleaving.dfy` | the token-indexed session cache, its locked sections under any interleaving, and its refinement to a table indexed by client that forgets sessions the moment they expire |
| `Store.dfy` | the store, one locked step per operation, with writes that fail and writes that fail to sync; the job records under their prefix |
| `Auth.dfy`, `AuthHistory.dfy`, `AuthHandlers.dfy`, `RegistrationInterleaving.dfy` | registration, login and unregistration as calls, over whole histories, behind the HTTP handlers, and split into their store and cache accesses |
| `Docker.dfy`, `DockerService.dfy`, `JobsApi.dfy` | the container daemon as a map of containers and a set of volumes, the job service on it with the retention sweep, the create and delete handlers and the stop callback |
| `JobConfig.dfy` | the check of a job's configuration |
| `JobLifecycle.dfy`, `JobRuns.dfy`, `LifecycleAgrees.dfy` | every backend and store call of creations, watchers, callbacks, delete requests and sweeps as a step of one machine; what all its runs keep; and that the steps of one request or callback, taken in a row, do what the handlers do |
| `Admission.dfy`, `JobAdmission.dfy`, `InitFanOut.dfy`, `Shutdown.dfy` | the limit on running jobs, as a protocol of its own and in the life of jobs, the `Init` fan-out over a buffered channel, the shutdown handshake |
| `Decimal.dfy`, `RunnerGrammar.dfy` | decimal text, the two runner patterns and the minimum-version check |
| `Bits.dfy`, `Token.dfy`, `Id.dfy` | bit strings, base64 tokens cut to length, base32 identifiers without padding (RFC 4648) |
| `Retention.dfy` | the retention time from text to 64-bit nanoseconds to 32-bit seconds, and the configuration checks on the way |
| `KubernetesWatcher.dfy` | the watcher's loop over the events of a cluster job |
| `Wrappers.dfy` | result types and 64-bit wrap-around |

Conventions. Concurrent parts are state machines: `Enabled` says when a step can be taken, `Apply` what it
does, and a run is a sequence of states joined by enabled steps. What the outside world does (a fault of the
store, an answer of the daemon, the clock, random bytes) is a parameter of the step or call. Methods that
change state are tied to a function of the old state (`...Spec`), and the properties are proved about those
functions. A fresh token, container id or volume name is an assumption where it is needed, and stated there.

Where the code does not do what one would expect of it, the exact condition is proved, with a run or an
input that shows the failure:

- Not every job that ends gets its `StopAt`. In every run a record lacks it exactly while the job's watcher or
  callback is still to write it, or when one of these steps was taken: the watcher cannot stop the container or
  inspect it afterwards, the callback finds no record or cannot read or write it, or a restart takes the watcher
  or callback away (`JobRuns.UnstampedIff`). Such a record stays as it is, and every delete request for the job
  is refused (`JobRuns.UnstampedForever`). There are runs for four of the causes, one of them without any fault:
  a job that ends before the create handler has saved its record.
- A session belongs to an unregistered client exactly when its login was overtaken by a removal, or a removal
  after it was followed by no eviction, and the client has not been registered since
  (`RegistrationInterleaving.OrphanIff`).
- When a token is handed out twice, a `Get` takes a live session exactly when its token was put again between its
  read and its eviction and that session is still there and unexpired (`SessionInterleaving.EvictsLiveSessionIff`,
  `SessionInterleaving.ReusedTokenLosesLiveSession`).
- A client whose name is the key of a job loses its registration when that job is saved
  (`AuthHandlers.SavingKeepsRegistrationIff`).
- The product of days is not checked for overflow: 106752 days up to 213503 come out negative and are refused,
  213504 days are accepted as 25 minutes (`Retention.DaysAreExactIff`, `Retention.SecondOverflowPasses`).
- A dot in the registry matches any character (`RunnerGrammar.DotsMatchOtherHosts`), and a version number
  beyond 64 bits is refused although it is large enough (`RunnerGrammar.UnfitVersionIsRefusedIff`).
- The maximum number of jobs is exceeded by up to k - 1 when k creations overlap, and that bound is reached; the
  maximum is kept exactly if no two overlap (`JobAdmission.RunningContainersAreBounded`,
  `Admission.BoundIsReached`, `Admission.MaximumIsKeptIff`).
- A second `Shutdown` panics (`Shutdown.PanicsIffShutDownTwice`).
- The comment on `NewID` (service/random/id.go:17-19) speaks of upper-case characters and of two padding
  characters; the alphabet is lower-case and the padding has six. The model follows the code.

## Model

| member | source | states |
|---|---|---|
| `SessionCache.StopAtFirstIsEnoughIff` | service/auth/session_cache.go:89-96 | stopping at the first match removes all sessions of the client, whatever the map's order, exactly when the client has at most one session |
| `SessionCache.PutKeepsOnePerClient` | service/auth/session_cache.go:58-81 | `Put` keeps one session per client, and a successful one leaves the client its new token only |
| `SessionCache.GetAnswers` | service/auth/session_cache.go:42-56 | a session is returned exactly up to its expiration date, unchanged; an expired one is dropped and an unknown token changes nothing |
| `SessionCache.PutAnswers` | service/auth/session_cache.go:58-81 | a token is put exactly for a non-empty client and token nobody has; the client's other sessions go, all others stay |
| `SessionCache.SessionCache.LifetimeIsMinutesIff` | service/auth/session_cache.go:76-79 | the lifetime is the configured minutes, exactly up to 153722867 of them |
| `SessionCache.SessionCache.NewSessionCache` | service/auth/session_cache.go:35-40 | a cache is made exactly for a positive lifetime, and starts empty |
| `SessionCache.SessionCache.Evict` | service/auth/session_cache.go:50-52 | the write-locked section of `Get` drops the token, whoever holds it by then |
| `SessionCache.SessionCache.Get` | service/auth/session_cache.go:42-56 | uninterrupted: unknown tokens and expired sessions are refused, the latter are dropped, others are returned untouched |
| `SessionCache.SessionCache.Put` | service/auth/session_cache.go:58-81 | the three refusals in order; otherwise the client's old session is replaced, with the expiry of the wrapped 64-bit product |
| `SessionCache.SessionCache.DeleteFirst` | service/auth/session_cache.go:89-96 | the loop over the map removes one session of the client, any if there are several, and none if there is none |
| `SessionCache.SessionCache.DeleteLocked` | service/auth/session_cache.go:89-96 | on a map with one session per client exactly the other clients' sessions remain |
| `SessionCache.SessionCache.Delete` | service/auth/session_cache.go:83-87 | no session of the client is left and all others stay |
| `SessionInterleaving.StepKeepsInv` | service/auth/session_cache.go:42-96 | every locked section keeps one session per client and the truth of the copies pending `Get`s hold |
| `SessionInterleaving.RunKeepsInv` | service/auth/session_cache.go:42-96 | so does every run with fresh tokens |
| `SessionInterleaving.StepRefines` | service/auth/session_cache.go:42-96 | each section of the cache is a step of the eagerly expiring client table |
| `SessionInterleaving.CacheRefinesTable` | service/auth/session_cache.go:42-96 | in every run the table, run on the same steps, holds exactly the cache's unexpired sessions |
| `SessionInterleaving.TableAnswersAsCache` | service/auth/session_cache.go:42-56 | the table's answer on a token is what the map would answer at that moment |
| `SessionInterleaving.CopyIsKept` | service/auth/session_cache.go:43-49 | between its read and its clock check a `Get` keeps the copy it took, whatever the others do |
| `SessionInterleaving.GetLinearizes` | service/auth/session_cache.go:42-56 | every `Get` has a moment between its read and its check at which the table gives the very answer it returns |
| `SessionInterleaving.EvictionIsInvisible` | service/auth/session_cache.go:49-54 | the delayed second phase only removes sessions that are expired; the table does not change |
| `SessionInterleaving.ReusedTokenLosesLiveSession` | service/auth/session_cache.go:49-54 | without fresh tokens it can remove a live session: a run that does |
| `SessionInterleaving.EvictionEndsAGet` | service/auth/session_cache.go:42-54 | every eviction ends a `Get` that read its token's session before |
| `SessionInterleaving.OldOrPut` | service/auth/session_cache.go:58-81 | a session in the map was there at any earlier moment, unchanged, or was put since and not dropped |
| `SessionInterleaving.EvictsLiveSessionIff` | service/auth/session_cache.go:42-81 | with tokens of any kind, a `Get` takes a live session exactly when its token was put again between its read and its eviction, was not dropped since and has time left |
| `SessionInterleaving.GetIsItsSteps` | service/auth/session_cache.go:42-56 | the sections of a `Get` that nothing comes between do what `Get` does |
| `Store.UpdatesAreLocal` | service/store/bitcask.go:33-107 | no operation on one key reads or writes another, with any fault |
| `Store.ReadAfterUpdate` | service/store/bitcask.go:33-107 | what a read gives after each update with each fault, and what the update answers |
| `Store.EmptyKeyIsRefused` | service/store/bitcask.go:36-38 | no operation accepts the empty key |
| `Store.BitcaskStore.Set` | service/store/bitcask.go:33-50 | empty key, failed write and failed sync; the write is there even if the sync fails |
| `Store.BitcaskStore.Put` | service/store/bitcask.go:52-73 | insert if absent: a conflict leaves the old value, a failed sync leaves the new one |
| `Store.BitcaskStore.Get` | service/store/bitcask.go:75-88 | the value, or empty key, not found, failure |
| `Store.BitcaskStore.Delete` | service/store/bitcask.go:90-107 | the key is gone unless the write failed, also when the sync fails |
| `JobStore.JobKeysAreInjective` | service/job_store.go:13-24 | different jobs have different keys |
| `JobStore.JobKeysAreAll` | service/job_store.go:13-24 | the keys with the prefix are exactly the keys of jobs |
| `JobStore.JobIsReadIff` | service/job_store.go:26-38 | a job is read exactly when the store can be read and holds a job under "job_" and its id |
| `JobStore.SavedJobIsReadBack` | service/job_store.go:15-38 | a saved job is read back as it was, and no other job's record changes |
| `Auth.RegisteredKeyAuthenticates` | service/auth/service.go:35-69 | without faults registering succeeds exactly for a new non-empty id and a key of 32 to 72 bytes; then that key authenticates, and among keys without zero bytes no other does, but the continuations of a key of 72 bytes |
| `Auth.MaterialIff` | service/auth/crypto.go:31-52 | the hash tells keys without zero bytes apart, except for what follows the 72nd byte |
| `Auth.RegisterAnswers` | service/auth/service.go:46-69 | who is registered, with what answer, and what is stored, with any fault; an existing id is answered as already registered |
| `Auth.UnregisterAnswers` | service/auth/service.go:71-85 | when an unregister succeeds, and which registration and sessions are gone, with any fault |
| `Auth.LoginAnswers` | service/auth/service.go:87-99 | when a login hands out its token, and which sessions there are then |
| `Auth.AuthService.Authenticate` | service/auth/service.go:35-44 | exactly the stored key authenticates, and only if the store can be read |
| `Auth.AuthService.Register` | service/auth/service.go:46-69 | the checks in their order, the hash, the conflict-checked put |
| `Auth.AuthService.Unregister` | service/auth/service.go:71-85 | the registration goes, and the session if the delete reported no error |
| `Auth.AuthService.Login` | service/auth/service.go:87-99 | an authenticated client gets the new token cached in place of its old one |
| `AuthHistory.SessionsAreRegistered` | service/auth/service.go:46-99 | over whole calls every session belongs to a registered client and no client has two |
| `AuthHistory.SessionHasStandingLogin` | service/auth/service.go:71-99 | every session comes from the client's latest successful login, with no unregister since |
| `AuthHistory.StandingLoginHasSession` | service/auth/service.go:71-99 | and every such login still has its session until it expires |
| `AuthHistory.BearerCharacterisation` | service/auth.go:78-94 | a bearer token is accepted as a client exactly when it is from the client's latest successful login, unexpired, with no unregister since |
| `AuthHistory.LoginSucceedsIff` | service/auth/service.go:87-99 | with a fresh token a login succeeds exactly for a stored client and its key |
| `AuthHistory.RegistrationCharacterisation` | service/auth/service.go:46-85 | a client is stored with a hash exactly when a registration put it there (or it was there from the start) and no unregister followed |
| `AuthHandlers.AuthKeepsRegistrations` | service/auth.go:20-94 | authenticating a request, auto-registration included, never changes an existing registration |
| `AuthHandlers.AuthNeedsAuthority` | service/auth.go:39-94 | on the unregister path nobody gets through as a client without its key or live token, nor as admin without the secret |
| `AuthHandlers.AuthenticationIff` | service/auth.go:20-94 | on every path a request is the admin's exactly with the enabled secret, a client's exactly with the stored key of that client or a live session of it, and else 401 |
| `AuthHandlers.AuthenticationEffect` | service/auth.go:20-94 | authentication stores nothing but the registration the request brings along, and drops nothing but the expired session it was asked about |
| `AuthHandlers.RegistrationAnswers` | service/auth.go:103-139 | 201 exactly for a new client with an acceptable key, from anybody with self-registration and else only with permission; 401 exactly without it; what is stored |
| `AuthHandlers.UnregisterAnswersWith` | service/auth.go:141-197 | the exact condition of each status of an unregister request, and what is removed |
| `AuthHandlers.LoginRequestAnswers` | service/auth.go:199-226 | 200 exactly for the stored client of the request with its key and a new token, which is then its session |
| `AuthHandlers.OnlyPermittedAddition` | service/auth.go:39-139 | one request adds a registration only where it may |
| `AuthHandlers.RegistrationNeedsPermission` | service/auth.go:39-139 | over whole runs with any faults, a registration that appears was added with self-registration on, or by a request with the admin's secret, a stored client's key or a live session |
| `AuthHandlers.JobOpKeepsOtherKeys` | service/job_store.go:15-45 | a job operation touches its own job's key only |
| `AuthHandlers.OnlyAuthorisedRemoval` | service/auth.go:141-197 | one request takes a registration away only if it is an unregister of that client by that client or an admin, with the feature enabled |
| `AuthHandlers.RemovalNeedsAuthority` | service/auth.go:39-197 | over whole runs with any faults, a registration that disappears or changes does so at such a request |
| `AuthHandlers.ClientRequestsKeepJobs` | service/auth.go:103-226 | requests about clients leave job records alone as long as the names stay clear of the prefix |
| `AuthHandlers.JobKeyClientIsOverwritten` | service/job_store.go:15-24 | a client named like a job's key loses its registration when the job is saved |
| `AuthHandlers.SavingKeepsRegistrationIff` | service/job_store.go:15-24 | and that is exactly when: saving keeps every other registration |
| `AuthHandlers.Handlers.BasicAuthHandler` | service/auth.go:39-76 | admin, empty id, auto-registration, authentication, in this order and with these answers |
| `AuthHandlers.Handlers.BearerAuthHandler` | service/auth.go:78-94 | the client of a live session, else unauthorized |
| `AuthHandlers.Handlers.Register` | service/auth.go:103-139 | status codes and effect of a registration request |
| `AuthHandlers.Handlers.Unregister` | service/auth.go:141-197 | status codes and effect of an unregister request |
| `AuthHandlers.Handlers.Login` | service/auth.go:199-226 | status codes and effect of a login request |
| `RegistrationInterleaving.RegisterIsItsSteps` | service/auth/service.go:46-69 | the get, hash and put of a `Register` that nothing comes between do what `Register` does, with the same answer |
| `RegistrationInterleaving.UnregisterIsItsSteps` | service/auth/service.go:71-85 | so do the steps of an `Unregister` |
| `RegistrationInterleaving.LoginIsItsSteps` | service/auth/service.go:87-99 | and those of a `Login`, with the same answer, also when the random source fails |
| `RegistrationInterleaving.HashIsStable` | service/auth/service.go:46-69 | with `Register` split into get, hash and put, a stored hash is never overwritten between two removals |
| `RegistrationInterleaving.AtMostOneSucceeds` | service/auth/service.go:46-69 | two registrations of one id succeed only if the id was removed in between |
| `RegistrationInterleaving.SomeoneRegisters` | service/auth/service.go:46-69 | an id that is stored was stored by one of the puts so far |
| `RegistrationInterleaving.FailedSyncStillRegisters` | service/store/bitcask.go:52-73 | a put that writes and fails to sync reports an error but takes the id, until it is removed |
| `RegistrationInterleaving.CachingWasChecked` | service/auth/service.go:87-99 | a login that is about to cache has found its client registered |
| `RegistrationInterleaving.SessionWasCached` | service/auth/service.go:87-99 | every session was cached by a login that checked the client before |
| `RegistrationInterleaving.StaysRemoved` | service/auth/service.go:46-85 | a removed client stays out of the store while nobody stores it |
| `RegistrationInterleaving.OrphanIff` | service/auth/service.go:46-99 | a session belongs to an unregistered client exactly when the client was removed between the login's check and its caching, or later with no eviction following, and was not registered again |
| `RegistrationInterleaving.UnregisterInsideLoginLeavesOrphan` | service/auth/service.go:71-99 | the first cause occurs, with no fault: a run |
| `RegistrationInterleaving.FailedSyncLeavesOrphan` | service/auth/service.go:71-85 | the second occurs, with no two calls overlapping: a run |
| `DockerService.DeleteJobRemovesBoth` | service/docker/service.go:439-461 | `DeleteJob` succeeds exactly when the daemon did all it was asked; then container and volume are gone and nothing else |
| `DockerService.DeleteJobIsItsSteps` | service/docker/service.go:439-461 | the three steps of the interleaved model, taken in a row, are `DeleteJob`: whoever calls it and whatever fails, the same containers and volumes and the same answer to the caller |
| `DockerService.CreateJobAdmits` | service/docker/service.go:241-344 | with an obliging daemon a job is created exactly below the maximum, without one, or in dev mode; one more job runs then |
| `DockerService.CreateJobAnswers` | service/docker/service.go:241-344 | with any faults, when a job is created and what a request leaves on the daemon |
| `DockerService.JobService.CreateJob` | service/docker/service.go:241-344 | checks, listing, admission, image, creation and start in order, with what each failure leaves behind |
| `DockerService.JobService.DeleteJob` | service/docker/service.go:439-461 | inspect, remove the container, remove its first mount's volume |
| `DockerService.JobService.ListExited` | service/docker/service.go:119-139 | all exited containers, each once |
| `DockerService.JobService.Sweep` | service/docker/service.go:119-174 | the sweep removes exactly the exited containers past the retention time whose calls go through, and exactly their volumes |
| `JobsApi.SavingKeepsRecordsKeyed` | service/job_store.go:15-24 | records stay stored under the id they carry |
| `JobsApi.CallbackDuty` | service/jobs_api.go:45-72 | a callback that returns nil has done its duty: a successful job leaves nothing, another one has its first stop time |
| `JobsApi.CallbackAnswers` | service/jobs_api.go:45-72 | the callback returns nil exactly if the record can be read and stamped and, after a success, container, volume and record are removed; what it leaves otherwise |
| `JobsApi.DeleteRequestGuard` | service/jobs_api.go:153-194 | a delete request changes no record and no container of a job without stop time; repeated, it fails at the daemon |
| `JobsApi.DeleteRequestAnswers` | service/jobs_api.go:165-194 | the exact condition of each status of a delete request, and the containers, volumes and records after it |
| `JobsApi.Api.HandleCreateJob` | service/jobs_api.go:24-85 | status, record and container after a create request: refused, undecodable, invalid, not created, not saved, or saved (the callback it passes on is `StopCallback`) |
| `JobsApi.Api.StopCallback` | service/jobs_api.go:45-72 | the callback's steps with each error return |
| `JobsApi.Api.HandleDeleteJob` | service/jobs_api.go:157-194 | status and effect of a delete request; the record stays |
| `JobLifecycle.StepEvolves` | service/docker/service.go:241-461 | no step of any process revives a container or volume, or forgets a job |
| `JobLifecycle.StepKeepsDaemonOk` | service/docker/service.go:310-344 | every existing container keeps its own volume, at every step |
| `JobLifecycle.StepKeepsStoreOk` | service/jobs_api.go:45-83 | a record with a stop time belongs to a container that is exited or gone, at every step |
| `JobLifecycle.StepKeepsProcsOk` | service/jobs_api.go:45-83 | every process in flight stays right about the job it works on, whoever acts |
| `JobLifecycle.StepKeepsOneOfEach` | service/docker/service.go:346-397 | a job has at most one creator and one watcher |
| `JobLifecycle.StepKeepsInv` | service/docker/service.go:241-461 | the strengthened invariant is kept by every step of creations, watchers, callbacks, requests and sweeps |
| `JobRuns.RunKeepsInv` | service/docker/service.go:241-461 | it holds throughout every run |
| `JobRuns.NeverRemovesRunning` | service/docker/service.go:439-461 | no run removes a running container: callback, request and sweep only ever name one that is exited or gone |
| `JobRuns.ContainersHaveTheirVolume` | service/docker/service.go:310-336 | a container that exists has its volume, however many deletions are in progress |
| `JobRuns.RemovedVolumesAreOrphans` | service/docker/service.go:448-458 | a removed volume belonged to one container, which is gone for good, and no other mounts it |
| `JobRuns.OnlyDropVolumeDropsVolumes` | service/docker/service.go:456-458 | only the last step of a deletion removes a volume, the one it read from the container |
| `JobRuns.StepIsRecordStep` | service/jobs_api.go:48-68 | a step leaves a record alone, creates it for a job that never had one, deletes it, or stamps it once |
| `JobRuns.DeletedRecordsStayDeleted` | service/jobs_api.go:45-83 | a deleted record never comes back |
| `JobRuns.StopAtIsSetOnce` | service/jobs_api.go:53-58 | `StopAt` goes from 0 to one value and stays, not before `StartAt`, which never changes |
| `JobRuns.WatcherReports` | service/docker/service.go:363-392 | a watcher that learns of the exit calls back with whether the exit code is 0, also after it had to stop the container |
| `JobRuns.VerdictIsExitCode` | service/docker/service.go:363-392 | whichever step brings a callback about, it is told success exactly if the container exited with code 0 |
| `JobRuns.CallbacksRemoveOnlySuccesses` | service/jobs_api.go:60-65 | over whole runs, no callback removes a container that exited with another code than 0 |
| `JobRuns.FailedJobsKeepTheirRecord` | service/jobs_api.go:60-69 | and the record of such a job is never deleted, whatever happens to its container |
| `JobRuns.StepKeepsProgress` | service/docker/service.go:349-395 | with every step a job's stop time is written, still to be written by exactly its watcher or callback, or given up |
| `JobRuns.MissedIff` | service/docker/service.go:367-388 | the jobs given up are exactly those for which one of these steps was taken |
| `JobRuns.SuccessfulCallbackCleansUp` | service/jobs_api.go:60-71 | after a callback of a successful job that returned nil there is no record, container or volume of it, for good |
| `JobRuns.UnstampedIff` | service/jobs_api.go:45-83 | in every run, whatever fails, a record lacks its stop time exactly while its watcher or callback is still to write it or after one of the steps that give it up |
| `JobRuns.UnstampedForever` | service/jobs_api.go:180-184 | a record that was given up stays without stop time for good, and every delete request for it is turned away |
| `JobRuns.CallbackBeforeSaveIsNeverStamped` | service/jobs_api.go:45-83 | it happens without any fault: a run |
| `JobRuns.AbandonedJobIsNeverStamped` | service/docker/service.go:367-372 | it happens when the watcher's stop goes unanswered: a run |
| `JobRuns.UninspectedJobIsNeverStamped` | service/docker/service.go:374-385 | and when the inspection after it fails: a run |
| `JobRuns.RestartLeavesUnstamped` | service/docker/service.go:349-395 | and when the service is restarted while the job runs: a run |
| `JobRuns.SweepsRemoveNoneTooEarly` | service/docker/service.go:141-173 | over whole runs, what a sweep removes has exited longer than the retention time ago, or is gone |
| `LifecycleAgrees.CallbackIsItsSteps` | service/jobs_api.go:45-72 | the callback's steps in the machine, taken in a row, give the handler's answer, records, containers and volumes, whichever calls fail |
| `LifecycleAgrees.CreateIsItsSteps` | service/jobs_api.go:45-83 | so do the steps of a create request, admitted or not; what is left over is the watcher, exactly if the container's start was reported |
| `LifecycleAgrees.DeleteRequestIsItsSteps` | service/jobs_api.go:165-194 | so do the steps of a delete request |
| `LifecycleAgrees.SweepIsItsSteps` | service/docker/service.go:141-173 | and those of one turn of the sweep, which goes on with the rest of its list |
| `LifecycleAgrees.StampingAgrees` | service/jobs_api.go:48-58 | the callback's fetch, stamp and store agree with the handler's |
| `Admission.StepKeepsInv` | service/docker/service.go:259-276 | running jobs and admitted creators together stay within max + k - 1 |
| `Admission.RunningJobsAreBounded` | service/docker/service.go:259-342 | with at most k creators in flight, on any number of instances, never more than max + k - 1 jobs run |
| `Admission.SerialCreationKeepsMaximum` | service/docker/service.go:259-342 | created one at a time, never more than max |
| `Admission.BoundIsReached` | service/kubernetes/service.go:142-152 | for every max and k some run gets to max + k - 1 |
| `Admission.MaximumIsKeptIff` | service/docker/service.go:259-276 | the maximum itself is kept in all runs exactly if no two creations are ever in flight |
| `JobAdmission.StepKeepsBound` | service/docker/service.go:259-344 | in the life of jobs, running containers and admitted creations stay within max + k - 1 with every step |
| `JobAdmission.RunningContainersAreBounded` | service/docker/service.go:259-344 | so never more than max + k - 1 containers of the daemon run, whatever fails, is removed or restarted meanwhile |
| `Admission.GetActiveJobs` | service/kubernetes/utils.go:94-103 | the loop counts the jobs that neither failed nor succeeded |
| `InitFanOut.WorkersNeverBlock` | service/docker/service.go:188-203 | no worker ever blocks on its send, also after an early return |
| `InitFanOut.InitReportsFailures` | service/docker/service.go:188-203 | `Init` returns nil exactly when every update succeeded, and otherwise the error of one of them |
| `InitFanOut.RunsAreShort` | service/docker/service.go:188-203 | every run ends: at most two steps a runner and one more |
| `InitFanOut.NothingGetsStuck` | service/docker/service.go:188-203 | when nothing can move any more, all workers have sent and `Init` has returned |
| `InitFanOut.Init` | service/docker/service.go:196-202 | the receiving loop returns the first error in the order of arrival, or nil |
| `Shutdown.DoneIsClosedOnce` | service/docker/service.go:93-110 | `retentionJobDoneCh` is closed at most once on both branches, and exactly when no retention goroutine runs |
| `Shutdown.ShutdownWaitsForRetention` | service/docker/service.go:179-186 | after `Shutdown` returns the retention goroutine is over, for good |
| `Shutdown.PanicsIffShutDownTwice` | service/docker/service.go:182-182 | the process panics exactly when `Shutdown` is called twice |
| `Shutdown.ShutdownCanFinish` | service/docker/service.go:112-117 | a waiting `Shutdown` always has a way to return |
| `RunnerGrammar.ParseIffPrinted` | public/job/job.go:106-111 | a text matches the pattern, with these parts, exactly when it is the printed form of a runner: printing and parsing are inverse both ways |
| `RunnerGrammar.PrintedRunnerParses` | public/job/job.go:106-111 | every printed runner is parsed back to itself |
| `RunnerGrammar.GrammarsAreDisjoint` | public/job/job.go:113-123 | no text is both a recorder and a transcriber |
| `RunnerGrammar.CompareIsLexicographic` | public/job/utils.go:23-25 | versions are compared lexicographically (section 11 of Semantic Versioning 2.0.0) |
| `RunnerGrammar.CheckMinVersionIff` | public/job/utils.go:12-28 | the check passes exactly for a version within the library's range that is at least the minimum |
| `RunnerGrammar.AcceptsExactlySupported` | public/job/job.go:93-126 | outside dev and test mode exactly the recorders from 0.6.0 and transcribers from 0.1.0 are accepted |
| `RunnerGrammar.EmptyIsRefused` | public/job/job.go:93-104 | anything passes in dev or test mode; an empty runner or registry is an error of its own otherwise |
| `RunnerGrammar.DevSuffixIsIgnored` | public/job/job.go:106-123 | the -dev suffix makes no difference to the check |
| `RunnerGrammar.UnfitVersionIsRefusedIff` | public/job/utils.go:12-28 | a recorder or transcriber is refused for an unreadable version exactly if one of its numbers is beyond 64 bits |
| `RunnerGrammar.DotsMatchOtherHosts` | public/job/job.go:106-111 | the registry goes unquoted into the pattern: without a dot it matches itself only, with one also other hosts |
| `RunnerGrammar.ServiceConfigIsValid` | public/job/job.go:76-91 | the loop accepts exactly nonempty lists of valid runners |
| `JobConfig.IsValidIff` | public/job/job.go:128-152 | outside dev and test mode exactly the jobs of a known type with a positive duration and a supported runner are accepted |
| `JobConfig.FirstFaultIsReported` | public/job/job.go:128-146 | which of several faults is reported |
| `JobConfig.TypeNeedNotFitRunner` | public/job/job.go:128-152 | the type is not held against the runner: either type passes with any supported runner |
| `RunnerGrammar.ParseDevsIff` | service/docker/utils.go:13-13 | the repeated suffix of the image pattern parses exactly as printed |
| `RunnerGrammar.ImageSplitIsAtLastColon` | service/docker/utils.go:13-13 | in spite of the greedy group the split is unique: at the last colon |
| `RunnerGrammar.ImageNameIff` | service/docker/utils.go:31-37 | a name is returned exactly when the pattern cuts the text at it, and then it is the only one |
| `RunnerGrammar.RunnerHasImageName` | service/docker/utils.go:31-37 | a runner of the default registry has its own name as image name |
| `RunnerGrammar.GrammarsAgree` | service/docker/utils.go:31-37 | every accepted runner of the default registry has an image name, that of the pattern that accepted it |
| `Base64.SextetsAreGroups` | service/auth/crypto.go:28-28 | the encoder's shifts and masks cut the input's bits into sixes, zeros at the end (section 4 of RFC 4648) |
| `Base64.LettersAreThoseOfTheTable` | service/auth/crypto.go:28-28 | the letters are those of the URL alphabet in their order (table 2 of RFC 4648) |
| `Token.SliceIsInRange` | service/auth/crypto.go:22-28 | 1 + 4L/3 bytes always encode to at least L characters, all from whole groups of bits |
| `Token.NewRandomString` | service/auth/crypto.go:19-29 | an error or a short read gives no string, otherwise the first L characters |
| `Token.NewRandomToken` | service/auth/crypto.go:14-16 | a token is 32 letters, made exactly when all 43 random bytes were read |
| `Token.LoginWithNewToken` | service/auth/service.go:87-99 | with the client's key such a token is cached and handed out exactly when it is not in use |
| `Token.ShowsItsFirstBits` | service/auth/crypto.go:19-29 | the characters are the first 6L bits of the buffer |
| `Token.EveryStringIsDrawn` | service/auth/crypto.go:19-29 | every string of L letters comes from some buffer, for each filling of the bits that do not show |
| `Token.BufferIsDetermined` | service/auth/crypto.go:19-29 | a buffer is nothing but its string and those bits: the two maps are inverse |
| `Token.EveryStringIsEquallyLikely` | service/auth/crypto.go:17-29 | each string is drawn from exactly 2^(8n - 6L) buffers: 6 bits of entropy a character |
| `Base32.PlaceOfLetter` | service/random/id.go:13-15 | the 32 letters of the alphabet are distinct, and none is the padding |
| `Base32.QuintetsAreGroups` | service/random/id.go:20-25 | the encoder's shifts and masks cut the input's bits into fives (section 6 of RFC 4648) |
| `Base32.PaddedToBlocks` | service/random/id.go:20-26 | the padding fills the text up to whole blocks of eight characters, and no further |
| `Base32.DecodeOfStripped` | service/random/id.go:20-28 | for input of any length the text without padding is decoded to the input |
| `Base32.StrippedIsInjective` | service/random/id.go:20-28 | so dropping the padding loses nothing |
| `Id.Encoder.Write` | service/random/id.go:22-25 | the stream encoder holds back an incomplete block and loses no byte |
| `Id.Encoder.Close` | service/random/id.go:26-26 | closing completes the encoding of all that was written, however it was split |
| `Id.NewID` | service/random/id.go:20-29 | the first 26 characters of the padded encoding; a panic when there are fewer |
| `Id.PanicsIffUuidIsShort` | service/random/id.go:23-27 | truncation panics exactly when there are fewer than 16 bytes |
| `Id.TruncationDropsPadding` | service/random/id.go:27-27 | for 16 bytes it drops the six padding characters and nothing else |
| `Id.IdIsReversible` | service/random/id.go:17-29 | an identifier is 26 letters of the alphabet, from which the UUID is read back |
| `Id.DifferentUuidsDifferentIds` | service/random/id.go:17-29 | different UUIDs have different identifiers |
| `Id.IdsAre` | service/random/id.go:17-29 | the identifiers are exactly the 26-letter texts whose last letter has its two low bits clear |
| `Retention.DaysAreExactIff` | service/config.go:114-120 | n days are read exactly if and only if n is at most 106751 |
| `Retention.OtherUnitsAreExactOrRefused` | service/config.go:122-128 | hours and minutes are read exactly or refused |
| `Retention.BadFormatIff` | service/config.go:107-111 | a text is refused for its format exactly if it is not digits and one of the letters m, h and d |
| `Retention.UnitsAgreeIff` | service/config.go:106-129 | a time given in days, hours and minutes is read alike exactly up to 106751 days |
| `Retention.MoreDaysLast` | service/config.go:106-129 | within that range more days are a longer time |
| `Retention.ExactTimesAreAccepted` | service/config.go:140-146 | every time that is read exactly passes the service's and the backends' checks |
| `Retention.FirstOverflowIsCaught` | service/config.go:140-142 | up to 213503 days the check lets pass exactly the times that were read exactly |
| `Retention.SecondOverflowPasses` | service/config.go:114-120 | 213504 days pass all checks as 25 minutes |
| `Retention.NewJobService` | service/jobs_service.go:26-47 | exactly valid configurations are accepted, and the backend's copy, overwritten after its own check, is valid too |
| `Retention.JobsConfigIsValidIff` | service/config.go:131-158 | a configuration is valid exactly for a known API, a positive limit and a retention time of 0 or at least a minute |
| `Retention.TTLIsExactIff` | service/kubernetes/service.go:201-204 | the 32-bit TTL of n days is 86400n seconds if and only if n is between 1 and 24855 |
| `KubernetesWatcher.VerdictIsTheFirst` | service/kubernetes/service.go:316-339 | the outcome is that of the first decisive event |
| `KubernetesWatcher.ReportCharacterisation` | service/kubernetes/service.go:315-343 | success, failure or nothing exactly by the fields of the first event that shows a failure, a success or a deletion, or by its absence |
| `KubernetesWatcher.CutShort` | service/kubernetes/service.go:316-339 | a watch that closes early gives the outcome of the whole one, or none yet |
| `KubernetesWatcher.SuccessIsFinal` | service/kubernetes/service.go:328-332 | a reported success stands, and the job no longer counts as running |
| `KubernetesWatcher.ClosingReportsFailure` | service/kubernetes/service.go:316-343 | a watch that closes over a running job reports failure, whatever becomes of the job |
| `KubernetesWatcher.Run` | service/kubernetes/service.go:299-346 | the loop calls back at most once: with success, with false or not at all exactly by the fields of the first decisive event |

## Left out

- HTTP routing, request decoding, audit data, logging, TLS, profiling and the client library: plumbing around the modelled handlers.
- Reading a job or its logs over HTTP (`handleGetJob`, `handleJobGetLogs`): they change nothing.
- bcrypt: a hash is a salt and the 72 bytes the cipher takes in of a key (the key and a zero byte, over and over), one-to-one on these; collisions of the cipher itself are not modelled.
- Store.BitcaskStore.Put: does not model the store library's limits on the size of keys and values; a key or value that is too large is one of the writes that fail.
- JSON: a stored job is the job itself.
- The container daemon: it may refuse any call and may do what it is asked and report an error. It removes a container in any state when asked to; that nobody asks for a running one is what is proved.
- The cut of container ids to 12 characters: cut ids are assumed to be distinct, as are volume names.
- Randomness: random bytes are an arbitrary input; that two tokens, ids or volume names differ is assumed where it is used.
- Real time: the clock is a number that does not go back, and a timeout is a step that may be taken at any time. Record times, container finish times and session expiry are on one such clock each.
- Go's `select`: when several cases are ready either may be taken; fairness is not modelled.
- Token.NewRandomString: does not model an overflow of `length * 4`, because the one caller asks for 32 characters.
- Retention.TTLIsExactIff: does not compute the conversion outside 32 bits or of a fraction of a second, because Go leaves the first to the implementation and the second depends on rounding; any result is allowed there.
- RunnerGrammar.AcceptsExactlySupported: requires a registry without pattern characters other than the dot, because the pattern would then no longer be the one written down.
- RunnerGrammar.DevSuffixIsIgnored: the same requirement, for the same reason.
- RunnerGrammar.UnfitVersionIsRefusedIff: the same requirement, for the same reason.
- JobConfig.IsValidIff: the same requirement, for the same reason.
- JobConfig.TypeNeedNotFitRunner: the same requirement, for the same reason.
- Pre-release and build parts of versions: the patterns never capture them.
- Creation of cluster jobs (init containers, tolerations, security context, resources) and their deletion by name: one request each, with no state of the service's own.
- Image pulling, dev-mode rewriting of runners and site URLs, the environment of a job, the seccomp profile, configuration files and environment variables: external effects or constants.
- Field checks of the service's configuration other than those on the job limit, the retention time and the session lifetime.
