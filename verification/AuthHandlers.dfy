/**
 The HTTP side of authentication: which requests are let in, and which of them can take a
 client's registration away.  Job records live in the same store under their own prefix.
 */
module AuthHandlers {
  import opened Wrappers
  import opened JobTypes
  import opened JobStore
  import opened Auth
  import Store
  import Cache = SessionCache

  datatype SecurityConfig = SecurityConfig(enableAdmin: bool, adminSecretKey: string, allowSelfRegistration: bool)

  /** The authorization header: none that can be used, user and password, or a bearer token. */
  datatype Credentials = NoCredentials | Basic(user: string, password: string) | Bearer(token: string)

  datatype Registration = Registration(clientId: string, authKey: string)

  /** What a job handler, or a job's stop callback, does to the job records. */
  datatype JobOp = SaveJob(job: Job) | DropJob(jobId: string) | LookAtJob

  /** A body is `None` when it does not decode.  `Background` is the stop callback, which
      runs outside any request. */
  datatype Request =
    | RegisterClient(credentials: Credentials, registration: Option<Registration>)
    | UnregisterClient(credentials: Credentials, target: Option<string>)
    | LoginClient(login: Option<Registration>, token: Option<string>)
    | JobRequest(credentials: Credentials, op: JobOp)
    | Background(op: JobOp)

  /** Everything the environment decides about one request. */
  datatype Env = Env(now: int, salt: nat, registerReadFails: bool, putFault: Store.Fault,
                     readFails: bool, updateFault: Store.Fault)

  const STATUS_OK: int := 200
  const STATUS_CREATED: int := 201
  const STATUS_BAD_REQUEST: int := 400
  const STATUS_UNAUTHORIZED: int := 401
  const STATUS_FORBIDDEN: int := 403

  /** The authenticated client, "" for the admin, or the status to answer with. */
  type AuthResult = Result<string, int>

  function BasicAuth(cfg: SecurityConfig, s: State, creds: Credentials, unregistering: bool, env: Env): (r: (State, AuthResult)) {
    if !creds.Basic? then (s, Failure(STATUS_UNAUTHORIZED))
    else if cfg.enableAdmin && creds.password == cfg.adminSecretKey then (s, Success(""))
    else if creds.user == "" then (s, Failure(STATUS_UNAUTHORIZED))
    else
      var (db, registered) :=
        if cfg.allowSelfRegistration && !unregistering
        then RegisterSpec(s.db, creds.user, creds.password, env.salt, env.registerReadFails, env.putFault)
        else (s.db, AlreadyRegistered);
      var s' := s.(db := db);
      if !registered.Registered? && !registered.AlreadyRegistered? then (s', Failure(STATUS_UNAUTHORIZED))
      else if !AuthenticateSpec(db, creds.user, creds.password, env.readFails) then (s', Failure(STATUS_UNAUTHORIZED))
      else (s', Success(creds.user))
  }

  function BearerAuth(s: State, token: string, env: Env): (r: (State, AuthResult)) {
    var (sessions, answer) := Cache.GetSpec(s.sessions, token, env.now);
    var s' := s.(sessions := sessions);
    if answer.Failure? || answer.value.clientId == "" then (s', Failure(STATUS_UNAUTHORIZED))
    else (s', Success(answer.value.clientId))
  }

  function AuthHandler(cfg: SecurityConfig, s: State, creds: Credentials, unregistering: bool, env: Env): (r: (State, AuthResult)) {
    if creds.Bearer? then BearerAuth(s, creds.token, env) else BasicAuth(cfg, s, creds, unregistering, env)
  }

  function ServeRegister(cfg: SecurityConfig, s: State, creds: Credentials, body: Option<Registration>, env: Env): (r: (State, int)) {
    var (s1, authed) := if cfg.allowSelfRegistration then (s, Success("")) else AuthHandler(cfg, s, creds, false, env);
    if authed.Failure? then (s1, authed.error)
    else if body.None? then (s1, STATUS_BAD_REQUEST)
    else
      var (db, answer) := RegisterSpec(s1.db, body.value.clientId, body.value.authKey, env.salt, env.registerReadFails, env.putFault);
      (s1.(db := db), if answer.Registered? then STATUS_CREATED else STATUS_BAD_REQUEST)
  }

  function ServeUnregister(cfg: SecurityConfig, s: State, creds: Credentials, target: Option<string>, env: Env): (r: (State, int)) {
    if !cfg.enableAdmin && !cfg.allowSelfRegistration then (s, STATUS_FORBIDDEN)
    else
      var (s1, authed) := AuthHandler(cfg, s, creds, true, env);
      if authed.Failure? then (s1, authed.error)
      else if target.None? || target.value == "" then (s1, STATUS_BAD_REQUEST)
      else if authed.value != "" && authed.value != target.value then (s1, STATUS_FORBIDDEN)
      else
        var (s2, ok) := UnregisterSpec(s1, target.value, env.readFails, env.updateFault);
        (s2, if ok then STATUS_OK else STATUS_BAD_REQUEST)
  }

  function ServeLogin(lifetime: int, s: State, body: Option<Registration>, token: Option<string>, env: Env): (r: (State, int)) {
    if body.None? then (s, STATUS_BAD_REQUEST)
    else
      var (s1, answer) := LoginSpec(s, body.value.clientId, body.value.authKey, token, env.now + lifetime, env.readFails);
      (s1, if answer.Some? then STATUS_OK else STATUS_BAD_REQUEST)
  }

  function ApplyJobOp(s: State, op: JobOp, fault: Store.Fault): State {
    match op
    case SaveJob(job) => s.(db := SaveJobSpec(s.db, job, fault).0)
    case DropJob(jobId) => s.(db := DropJobSpec(s.db, jobId, fault).0)
    case LookAtJob => s
  }

  function Serve(cfg: SecurityConfig, lifetime: int, s: State, req: Request, env: Env): State {
    match req
    case RegisterClient(creds, body) => ServeRegister(cfg, s, creds, body, env).0
    case UnregisterClient(creds, target) => ServeUnregister(cfg, s, creds, target, env).0
    case LoginClient(body, token) => ServeLogin(lifetime, s, body, token, env).0
    case JobRequest(creds, op) =>
      var (s1, authed) := AuthHandler(cfg, s, creds, false, env);
      if authed.Failure? then s1 else ApplyJobOp(s1, op, env.updateFault)
    case Background(op) => ApplyJobOp(s, op, env.updateFault)
  }

  // ---------------------------------------------------------------------------
  // Who is let in
  // ---------------------------------------------------------------------------

  predicate IsAdmin(cfg: SecurityConfig, creds: Credentials) {
    creds.Basic? && cfg.enableAdmin && creds.password == cfg.adminSecretKey
  }

  /** A registration with these credentials is attempted on the way. */
  predicate RegistersItself(cfg: SecurityConfig, creds: Credentials, unregistering: bool) {
    creds.Basic? && !IsAdmin(cfg, creds) && creds.user != "" && cfg.allowSelfRegistration && !unregistering
  }

  /** The client is stored with this key, before the request or by it; where the request attempts a
      registration, the attempt must not fail for another reason than the client being stored. */
  predicate ProvesKey(cfg: SecurityConfig, s: State, creds: Credentials, unregistering: bool, env: Env)
    requires creds.Basic?
  {
    && creds.user != "" && !env.readFails
    && (RegistersItself(cfg, creds, unregistering) ==> 32 <= |creds.password| && !env.registerReadFails)
    && if creds.user in s.db then HashMatches(s.db[creds.user], creds.password)
       else RegistersItself(cfg, creds, unregistering) && |creds.password| <= 72 && env.putFault.NoFault?
  }

  /** A request is the admin's exactly with the enabled secret; it is a client's exactly when the
      client proves its key, or the bearer token is a live session of it; and it is turned away
      as unauthorized in every other case. */
  lemma AuthenticationIff(cfg: SecurityConfig, s: State, creds: Credentials, unregistering: bool, env: Env, client: string)
    requires client != ""
    ensures var answer := AuthHandler(cfg, s, creds, unregistering, env).1;
            && (answer == Success("") <==> IsAdmin(cfg, creds))
            && (answer == Success(client) <==>
                  || (creds.Basic? && creds.user == client && !IsAdmin(cfg, creds) && ProvesKey(cfg, s, creds, unregistering, env))
                  || (creds.Bearer? && creds.token in s.sessions && s.sessions[creds.token].clientId == client
                      && env.now <= s.sessions[creds.token].expiresAt))
            && (answer.Failure? ==> answer.error == 401)
  {
    if creds.Basic? {
      RegisterAnswers(s.db, creds.user, creds.password, env.salt, env.registerReadFails, env.putFault);
    }
  }

  /** What the authentication leaves behind: a registration the request brought along itself, and
      without the session it found expired. */
  lemma AuthenticationEffect(cfg: SecurityConfig, s: State, creds: Credentials, unregistering: bool, env: Env)
    ensures var s' := AuthHandler(cfg, s, creds, unregistering, env).0;
            && s'.db == (if RegistersItself(cfg, creds, unregistering) && 32 <= |creds.password| <= 72 && !env.registerReadFails
                            && creds.user !in s.db && !env.putFault.WriteFails?
                         then s.db[creds.user := KeyHash(creds.password, env.salt)] else s.db)
            && s'.sessions == (if creds.Bearer? && creds.token in s.sessions && s.sessions[creds.token].expiresAt < env.now
                               then s.sessions - {creds.token} else s.sessions)
  {
    if creds.Basic? {
      RegisterAnswers(s.db, creds.user, creds.password, env.salt, env.registerReadFails, env.putFault);
    }
  }

  /** The request comes with the admin's secret, with a stored client's key, or with a live session. */
  predicate IsPermitted(cfg: SecurityConfig, s: State, creds: Credentials, env: Env) {
    match creds
    case NoCredentials => false
    case Basic(user, password) =>
      || (cfg.enableAdmin && password == cfg.adminSecretKey)
      || (user != "" && !env.readFails && user in s.db && HashMatches(s.db[user], password))
    case Bearer(token) =>
      token in s.sessions && s.sessions[token].clientId != "" && env.now <= s.sessions[token].expiresAt
  }

  lemma WithoutSelfRegistration(cfg: SecurityConfig, s: State, creds: Credentials, unregistering: bool, env: Env)
    requires !cfg.allowSelfRegistration || unregistering
    ensures AuthHandler(cfg, s, creds, unregistering, env).1.Success? <==> IsPermitted(cfg, s, creds, env)
    ensures AuthHandler(cfg, s, creds, unregistering, env).0.db == s.db
  {
  }

  /** A registration request is answered 201 exactly for a new client with an acceptable key, from
      anybody where self-registration is on and otherwise only with permission; this is 401
      otherwise, and 400 is for everything else.  The store gets the registration with a 201, or
      when only the sync after the write failed. */
  lemma RegistrationAnswers(cfg: SecurityConfig, s: State, creds: Credentials, body: Option<Registration>, env: Env)
    ensures var (s', status) := ServeRegister(cfg, s, creds, body, env);
            var allowed := cfg.allowSelfRegistration || IsPermitted(cfg, s, creds, env);
            var fits := body.Some? && body.value.clientId != "" && 32 <= |body.value.authKey| <= 72
                        && !env.registerReadFails && body.value.clientId !in s.db;
            && (status == 201 <==> allowed && fits && env.putFault.NoFault?)
            && (status == 401 <==> !allowed)
            && (status == 400 <==> allowed && !(fits && env.putFault.NoFault?))
            && s'.db == if allowed && fits && !env.putFault.WriteFails?
                        then s.db[body.value.clientId := KeyHash(body.value.authKey, env.salt)] else s.db
  {
    if !cfg.allowSelfRegistration {
      WithoutSelfRegistration(cfg, s, creds, false, env);
      AuthenticationEffect(cfg, s, creds, false, env);
      AuthenticationIff(cfg, s, creds, false, env, "c");
    }
    if body.Some? {
      RegisterAnswers(s.db, body.value.clientId, body.value.authKey, env.salt, env.registerReadFails, env.putFault);
    }
  }

  /** An unregister request is answered by what is missing: 403 where neither the admin nor
      self-registration is enabled or somebody else is named, 401 without permission, 400 for an
      empty name or a failing removal, and else 200. */
  lemma UnregisterAnswersWith(cfg: SecurityConfig, s: State, creds: Credentials, target: Option<string>, env: Env)
    ensures var (s', status) := ServeUnregister(cfg, s, creds, target, env);
            var enabled := cfg.enableAdmin || cfg.allowSelfRegistration;
            var permitted := IsPermitted(cfg, s, creds, env);
            var named := target.Some? && target.value != "";
            var entitled := named && (IsAdmin(cfg, creds) || HasAuthority(cfg, s, creds, target.value, env.now));
            var removable := named && !env.readFails && target.value in s.db;
            && (status == 401 <==> enabled && !permitted)
            && (status == 403 <==> !enabled || (permitted && named && !entitled))
            && (status == 200 <==> enabled && permitted && entitled && removable && env.updateFault.NoFault?)
            && (status == 400 <==> enabled && permitted && (named ==> entitled && !(removable && env.updateFault.NoFault?)))
            && s'.db == if enabled && permitted && entitled && removable && !env.updateFault.WriteFails?
                        then s.db - {target.value} else s.db
  {
    WithoutSelfRegistration(cfg, s, creds, true, env);
    var (s1, authed) := AuthHandler(cfg, s, creds, true, env);
    if authed.Success? && authed.value != "" {
      AuthenticationIff(cfg, s, creds, true, env, authed.value);
    } else {
      AuthenticationIff(cfg, s, creds, true, env, "c");
    }
    if target.Some? {
      UnregisterAnswers(s1, target.value, env.readFails, env.updateFault, "");
    }
  }

  /** A login request is answered 200 exactly for a stored client with its key and a new token, and
      then the token is a session of that client until the lifetime is over. */
  lemma LoginRequestAnswers(lifetime: int, s: State, body: Option<Registration>, token: Option<string>, env: Env)
    ensures var (s', status) := ServeLogin(lifetime, s, body, token, env);
            && (status == 200 <==>
                  && body.Some? && body.value.clientId != "" && !env.readFails && body.value.clientId in s.db
                  && HashMatches(s.db[body.value.clientId], body.value.authKey)
                  && token.Some? && token.value != "" && token.value !in s.sessions)
            && (status != 200 ==> status == 400 && s' == s)
            && (status == 200 ==>
                  s'.db == s.db && token.value in s'.sessions
                  && s'.sessions[token.value] == Cache.Session(body.value.clientId, env.now + lifetime))
  {
    if body.Some? {
      LoginAnswers(s, body.value.clientId, body.value.authKey, token, env.now + lifetime, env.readFails, "");
    }
  }

  /** The request brings a registration of `id` along that it may add. */
  predicate IsPermittedAddition(cfg: SecurityConfig, s: State, req: Request, env: Env, id: string) {
    match req
    case RegisterClient(creds, body) =>
      body.Some? && body.value.clientId == id && (cfg.allowSelfRegistration || IsPermitted(cfg, s, creds, env))
    case JobRequest(creds, _) => cfg.allowSelfRegistration && creds.Basic? && creds.user == id
    case _ => false
  }

  /** One request adds a registration only where it may. */
  lemma OnlyPermittedAddition(cfg: SecurityConfig, lifetime: int, s: State, req: Request, env: Env, id: string)
    requires id !in s.db && !IsJobKey(id)
    ensures id in Serve(cfg, lifetime, s, req, env).db ==> IsPermittedAddition(cfg, s, req, env, id)
  {
    match req {
      case RegisterClient(creds, body) => RegistrationAnswers(cfg, s, creds, body, env);
      case UnregisterClient(creds, target) => UnregisterAnswersWith(cfg, s, creds, target, env);
      case LoginClient(body, token) => LoginRequestAnswers(lifetime, s, body, token, env);
      case JobRequest(creds, op) =>
        AuthenticationEffect(cfg, s, creds, false, env);
        JobOpKeepsOtherKeys(AuthHandler(cfg, s, creds, false, env).0, op, env.updateFault, id);
      case Background(op) =>
        JobOpKeepsOtherKeys(s, op, env.updateFault, id);
    }
  }

  // ---------------------------------------------------------------------------
  // Who may remove a registration
  // ---------------------------------------------------------------------------

  predicate IsRegistration(db: map<string, Value>, id: string) {
    id in db && db[id].KeyHash?
  }

  /** The credentials prove the admin's secret, the client's own key, or a live session of
      the client. */
  predicate HasAuthority(cfg: SecurityConfig, s: State, creds: Credentials, id: string, now: int) {
    match creds
    case NoCredentials => false
    case Basic(user, password) =>
      || (cfg.enableAdmin && password == cfg.adminSecretKey)
      || (user == id && id in s.db && HashMatches(s.db[id], password))
    case Bearer(token) =>
      token in s.sessions && s.sessions[token].clientId == id && !Cache.IsExpired(s.sessions[token], now)
  }

  /** The request removes the registration of `id` and is entitled to. */
  predicate IsAuthorisedRemoval(cfg: SecurityConfig, s: State, req: Request, id: string, now: int) {
    req.UnregisterClient? && req.target == Some(id) && HasAuthority(cfg, s, req.credentials, id, now)
  }

  /** One request keeps a registration as it is, unless it is an authorised unregister of
      that very client. */
  lemma OnlyAuthorisedRemoval(cfg: SecurityConfig, lifetime: int, s: State, req: Request, env: Env, id: string)
    requires IsRegistration(s.db, id) && !IsJobKey(id)
    ensures var s' := Serve(cfg, lifetime, s, req, env);
            || (id in s'.db && s'.db[id] == s.db[id])
            || (IsAuthorisedRemoval(cfg, s, req, id, env.now) && id !in s'.db)
  {
    match req {
      case RegisterClient(creds, body) => AuthKeepsRegistrations(cfg, s, creds, false, env, id);
      case UnregisterClient(creds, target) =>
        AuthKeepsRegistrations(cfg, s, creds, true, env, id);
        AuthNeedsAuthority(cfg, s, creds, true, env);
      case LoginClient(body, token) =>
      case JobRequest(creds, op) =>
        AuthKeepsRegistrations(cfg, s, creds, false, env, id);
        JobOpKeepsOtherKeys(AuthHandler(cfg, s, creds, false, env).0, op, env.updateFault, id);
      case Background(op) =>
        JobOpKeepsOtherKeys(s, op, env.updateFault, id);
    }
  }

  lemma AuthKeepsRegistrations(cfg: SecurityConfig, s: State, creds: Credentials, unregistering: bool, env: Env, id: string)
    requires id in s.db
    ensures var s' := AuthHandler(cfg, s, creds, unregistering, env).0;
            id in s'.db && s'.db[id] == s.db[id]
  {
  }

  /** Nobody gets past the unregister path's authentication without authority over the
      client it is taken for, nor as admin without the secret. */
  lemma AuthNeedsAuthority(cfg: SecurityConfig, s: State, creds: Credentials, unregistering: bool, env: Env)
    requires unregistering
    ensures var authed := AuthHandler(cfg, s, creds, unregistering, env).1;
            authed.Success? ==>
              if authed.value == "" then creds.Basic? && cfg.enableAdmin && creds.password == cfg.adminSecretKey
              else HasAuthority(cfg, s, creds, authed.value, env.now)
  {
  }

  /** A job operation touches the key of its own job and nothing else. */
  lemma JobOpKeepsOtherKeys(s: State, op: JobOp, fault: Store.Fault, key: string)
    requires match op case SaveJob(job) => key != JobKey(job.id) case DropJob(jobId) => key != JobKey(jobId) case LookAtJob => true
    ensures var s' := ApplyJobOp(s, op, fault);
            s'.sessions == s.sessions && (key in s'.db <==> key in s.db) && (key in s.db ==> s'.db[key] == s.db[key])
  {
  }

  /** The names a request uses for clients. */
  function ClientNames(s: State, req: Request): set<string> {
    match req
    case RegisterClient(creds, body) =>
      (if creds.Basic? then {creds.user} else {}) + (if body.Some? then {body.value.clientId} else {})
    case UnregisterClient(creds, target) => if target.Some? then {target.value} else {}
    case LoginClient(_, _) => {}
    case JobRequest(creds, _) => if creds.Basic? then {creds.user} else {}
    case Background(_) => {}
  }

  lemma OtherKeysStay(cfg: SecurityConfig, lifetime: int, s: State, req: Request, env: Env, key: string)
    requires !req.JobRequest? && !req.Background? && key !in ClientNames(s, req)
    ensures var s' := Serve(cfg, lifetime, s, req, env);
            (key in s'.db <==> key in s.db) && (key in s.db ==> s'.db[key] == s.db[key])
  {
  }

  /** As long as clients stay clear of the prefix, requests about clients leave every job
      record alone. */
  lemma ClientRequestsKeepJobs(cfg: SecurityConfig, lifetime: int, s: State, req: Request, env: Env, jobId: string)
    requires !req.JobRequest? && !req.Background?
    requires forall name :: name in ClientNames(s, req) ==> !IsJobKey(name)
    ensures GetJobSpec(Serve(cfg, lifetime, s, req, env).db, jobId, false) == GetJobSpec(s.db, jobId, false)
  {
    JobKeysAreInjective(jobId, jobId);
    assert JobKey(jobId) !in ClientNames(s, req);
    OtherKeysStay(cfg, lifetime, s, req, env, JobKey(jobId));
  }

  /** Staying clear of the prefix matters: a client whose name is some job's key loses its
      registration when that job is saved, with nobody having unregistered it. */
  lemma JobKeyClientIsOverwritten(s: State, job: Job)
    requires IsRegistration(s.db, JobKey(job.id))
    ensures !IsRegistration(ApplyJobOp(s, SaveJob(job), Store.NoFault).db, JobKey(job.id))
  {
  }

  /** Saving a job keeps a registration exactly when the client's name is not the job's key. */
  lemma SavingKeepsRegistrationIff(s: State, job: Job, id: string)
    requires IsRegistration(s.db, id)
    ensures (var s' := ApplyJobOp(s, SaveJob(job), Store.NoFault); id in s'.db && s'.db[id] == s.db[id])
       <==> id != JobKey(job.id)
  {
  }

  ghost predicate IsRun(cfg: SecurityConfig, lifetime: int, states: seq<State>, reqs: seq<Request>, envs: seq<Env>) {
    && |states| == |reqs| + 1 && |envs| == |reqs|
    && forall i {:trigger reqs[i]} :: 0 <= i < |reqs| ==> states[i + 1] == Serve(cfg, lifetime, states[i], reqs[i], envs[i])
  }

  lemma RemovedHere(cfg: SecurityConfig, lifetime: int, states: seq<State>, reqs: seq<Request>, envs: seq<Env>, k: nat, id: string)
    requires IsRun(cfg, lifetime, states, reqs, envs) && k < |reqs|
    requires IsRegistration(states[k].db, id) && !IsJobKey(id)
    requires id !in states[k + 1].db || states[k + 1].db[id] != states[k].db[id]
    ensures IsAuthorisedRemoval(cfg, states[k], reqs[k], id, envs[k].now) && id !in states[k + 1].db
  {
    assert states[k + 1] == Serve(cfg, lifetime, states[k], reqs[k], envs[k]);
    OnlyAuthorisedRemoval(cfg, lifetime, states[k], reqs[k], envs[k], id);
  }

  /** Over any run of requests and callbacks, with any store faults: if a registration that
      stood at `i` is gone or different at `j`, some request in between was an unregister of
      that client with the authority to do it, and up to that request the registration stood. */
  lemma {:induction false} RemovalNeedsAuthority(cfg: SecurityConfig, lifetime: int, states: seq<State>, reqs: seq<Request>, envs: seq<Env>,
                                                 i: nat, j: nat, id: string) returns (k: nat)
    requires IsRun(cfg, lifetime, states, reqs, envs) && i <= j < |states|
    requires IsRegistration(states[i].db, id) && !IsJobKey(id)
    requires id !in states[j].db || states[j].db[id] != states[i].db[id]
    ensures i <= k < j
    ensures IsAuthorisedRemoval(cfg, states[k], reqs[k], id, envs[k].now)
    ensures id in states[k].db && states[k].db[id] == states[i].db[id] && id !in states[k + 1].db
  {
    if id in states[j - 1].db && states[j - 1].db[id] == states[i].db[id] {
      k := j - 1;
      RemovedHere(cfg, lifetime, states, reqs, envs, k, id);
    } else {
      k := RemovalNeedsAuthority(cfg, lifetime, states, reqs, envs, i, j - 1, id);
    }
  }

  /** Over any run, with any store faults: a client that was not stored at `i` and is at `j` was
      added by some request in between that was allowed to. */
  lemma {:induction false} RegistrationNeedsPermission(cfg: SecurityConfig, lifetime: int, states: seq<State>, reqs: seq<Request>,
                                                       envs: seq<Env>, i: nat, j: nat, id: string) returns (k: nat)
    requires IsRun(cfg, lifetime, states, reqs, envs) && i <= j < |states|
    requires id !in states[i].db && id in states[j].db && !IsJobKey(id)
    ensures i <= k < j
    ensures id !in states[k].db && id in states[k + 1].db
    ensures IsPermittedAddition(cfg, states[k], reqs[k], envs[k], id)
  {
    if id !in states[j - 1].db {
      k := j - 1;
      assert states[k + 1] == Serve(cfg, lifetime, states[k], reqs[k], envs[k]);
      OnlyPermittedAddition(cfg, lifetime, states[k], reqs[k], envs[k], id);
    } else {
      k := RegistrationNeedsPermission(cfg, lifetime, states, reqs, envs, i, j - 1, id);
    }
  }

  /** The handlers as they run, over the auth service's store and session cache. */
  class Handlers {
    const cfg: SecurityConfig
    const auth: AuthService

    ghost predicate Valid()
      reads auth.sessionCache
    {
      auth.Valid()
    }

    constructor (cfg: SecurityConfig, auth: AuthService)
      requires auth.Valid()
      ensures this.cfg == cfg && this.auth == auth && Valid()
    {
      this.cfg := cfg;
      this.auth := auth;
    }

    method BasicAuthHandler(creds: Credentials, unregistering: bool, env: Env) returns (r: AuthResult)
      requires Valid() && !creds.Bearer?
      modifies auth.store, auth.sessionCache`sessionMap
      ensures Valid()
      ensures (auth.Now(), r) == BasicAuth(cfg, old(auth.Now()), creds, unregistering, env)
    {
      if !creds.Basic? {
        return Failure(STATUS_UNAUTHORIZED);
      }
      if cfg.enableAdmin && creds.password == cfg.adminSecretKey {
        return Success("");
      }
      if creds.user == "" {
        return Failure(STATUS_UNAUTHORIZED);
      }
      if cfg.allowSelfRegistration && !unregistering {
        var registered := auth.Register(creds.user, creds.password, env.salt, env.registerReadFails, env.putFault);
        if registered != Registered && registered != AlreadyRegistered {
          return Failure(STATUS_UNAUTHORIZED);
        }
      }
      var ok := auth.Authenticate(creds.user, creds.password, env.readFails);
      return if ok then Success(creds.user) else Failure(STATUS_UNAUTHORIZED);
    }

    method BearerAuthHandler(token: string, env: Env) returns (r: AuthResult)
      requires Valid()
      modifies auth.sessionCache`sessionMap
      ensures Valid()
      ensures (auth.Now(), r) == BearerAuth(old(auth.Now()), token, env)
    {
      var session := auth.sessionCache.Get(token, env.now);
      if session.Failure? || session.value.clientId == "" {
        return Failure(STATUS_UNAUTHORIZED);
      }
      return Success(session.value.clientId);
    }

    method Authorize(creds: Credentials, unregistering: bool, env: Env) returns (r: AuthResult)
      requires Valid()
      modifies auth.store, auth.sessionCache`sessionMap
      ensures Valid()
      ensures (auth.Now(), r) == AuthHandler(cfg, old(auth.Now()), creds, unregistering, env)
    {
      if creds.Bearer? {
        r := BearerAuthHandler(creds.token, env);
      } else {
        r := BasicAuthHandler(creds, unregistering, env);
      }
    }

    method Register(creds: Credentials, body: Option<Registration>, env: Env) returns (status: int)
      requires Valid()
      modifies auth.store, auth.sessionCache`sessionMap
      ensures Valid()
      ensures (auth.Now(), status) == ServeRegister(cfg, old(auth.Now()), creds, body, env)
    {
      if !cfg.allowSelfRegistration {
        var authed := Authorize(creds, false, env);
        if authed.Failure? {
          return authed.error;
        }
      }
      if body.None? {
        return STATUS_BAD_REQUEST;
      }
      var answer := auth.Register(body.value.clientId, body.value.authKey, env.salt, env.registerReadFails, env.putFault);
      return if answer == Registered then STATUS_CREATED else STATUS_BAD_REQUEST;
    }

    method Unregister(creds: Credentials, target: Option<string>, env: Env) returns (status: int)
      requires Valid()
      modifies auth.store, auth.sessionCache`sessionMap
      ensures Valid()
      ensures (auth.Now(), status) == ServeUnregister(cfg, old(auth.Now()), creds, target, env)
      // a registration is only taken away with authority over that very client
      ensures forall id :: IsRegistration(old(auth.store.db), id) && id !in auth.store.db ==>
                target == Some(id) && HasAuthority(cfg, old(auth.Now()), creds, id, env.now)
    {
      ghost var before := auth.Now();
      if !cfg.enableAdmin && !cfg.allowSelfRegistration {
        return STATUS_FORBIDDEN;
      }
      AuthNeedsAuthority(cfg, before, creds, true, env);
      var authed := Authorize(creds, true, env);
      if authed.Failure? {
        return authed.error;
      }
      if target.None? || target.value == "" {
        return STATUS_BAD_REQUEST;
      }
      if authed.value != "" && authed.value != target.value {
        return STATUS_FORBIDDEN;
      }
      var ok := auth.Unregister(target.value, env.readFails, env.updateFault);
      return if ok then STATUS_OK else STATUS_BAD_REQUEST;
    }

    method Login(body: Option<Registration>, token: Option<string>, env: Env) returns (status: int)
      requires Valid()
      modifies auth.sessionCache`sessionMap
      ensures Valid()
      ensures (auth.Now(), status)
           == ServeLogin(auth.sessionCache.Lifetime(), old(auth.Now()), body, token, env)
    {
      if body.None? {
        return STATUS_BAD_REQUEST;
      }
      var answer := auth.Login(body.value.clientId, body.value.authKey, token, env.now, env.readFails);
      return if answer.Some? then STATUS_OK else STATUS_BAD_REQUEST;
    }
  }
}
