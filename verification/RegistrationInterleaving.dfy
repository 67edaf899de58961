/**
 Interleavings of `Register`, `Login` and `Unregister`.  None of them is atomic: `Register`
 looks the id up, hashes the key for a long time and then puts; `Login` checks the key and
 then caches a session; `Unregister` looks up, deletes and then drops the session.  Every
 store access and every cache access is one step, and any store access may fail.
 */
module RegistrationInterleaving {
  import opened Wrappers
  import opened JobTypes
  import opened Auth
  import Store
  import Cache = SessionCache

  /** Where a call stands between two of its steps. */
  datatype Call =
    | Hashing(id: string, key: string)
    | Putting(id: string, hash: Value)
    | Deleting(id: string)
    | Evicting(id: string)
    | Caching(id: string)

  datatype State = State(db: map<string, Value>, sessions: Cache.Sessions, calls: map<nat, Call>)

  datatype Step =
    | RegisterGet(p: nat, id: string, key: string, readFails: bool)
    | RegisterHash(p: nat, salt: nat)
    | RegisterPut(p: nat, fault: Store.Fault)
    | UnregisterGet(p: nat, id: string, readFails: bool)
    | UnregisterDelete(p: nat, fault: Store.Fault)
    | UnregisterEvict(p: nat)
    | LoginCheck(p: nat, id: string, key: string, readFails: bool)
    | LoginCache(p: nat, token: string, expiresAt: int)
    | LoginNoToken(p: nat)
    | GetEvicts(token: string)

  predicate Enabled(s: State, a: Step) {
    match a
    case RegisterGet(p, _, _, _) => p !in s.calls
    case RegisterHash(p, _) => p in s.calls && s.calls[p].Hashing?
    case RegisterPut(p, _) => p in s.calls && s.calls[p].Putting?
    case UnregisterGet(p, _, _) => p !in s.calls
    case UnregisterDelete(p, _) => p in s.calls && s.calls[p].Deleting?
    case UnregisterEvict(p) => p in s.calls && s.calls[p].Evicting?
    case LoginCheck(p, _, _, _) => p !in s.calls
    case LoginCache(p, _, _) => p in s.calls && s.calls[p].Caching?
    // the random source fails
    case LoginNoToken(p) => p in s.calls && s.calls[p].Caching?
    case GetEvicts(_) => true
  }

  function Goto(s: State, p: nat, call: Call): State {
    s.(calls := s.calls[p := call])
  }

  function Return(s: State, p: nat): State {
    s.(calls := s.calls - {p})
  }

  function Apply(s: State, a: Step): State
    requires Enabled(s, a)
  {
    match a
    case RegisterGet(p, id, key, readFails) =>
      var found: Result<Value, Store.Error> := Store.GetSpec(s.db, id, readFails);
      if |key| < MIN_KEY_LEN || found.Success? || found.error != Store.NotFound then s
      else Goto(s, p, Hashing(id, key))
    case RegisterHash(p, salt) =>
      var hash := HashKey(s.calls[p].key, salt);
      if hash.None? then Return(s, p) else Goto(s, p, Putting(s.calls[p].id, hash.value))
    case RegisterPut(p, fault) =>
      Return(s, p).(db := Store.PutSpec(s.db, s.calls[p].id, s.calls[p].hash, fault).0)
    case UnregisterGet(p, id, readFails) =>
      var found: Result<Value, Store.Error> := Store.GetSpec(s.db, id, readFails);
      if found.Failure? then s else Goto(s, p, Deleting(id))
    case UnregisterDelete(p, fault) =>
      var id := s.calls[p].id;
      var (db, answer) := Store.DeleteSpec(s.db, id, fault);
      var s' := s.(db := db);
      if answer.Fail? then Return(s', p) else Goto(s', p, Evicting(id))
    case UnregisterEvict(p) =>
      Return(s, p).(sessions := Cache.WithoutClient(s.sessions, s.calls[p].id))
    case LoginCheck(p, id, key, readFails) =>
      if AuthenticateSpec(s.db, id, key, readFails) then Goto(s, p, Caching(id)) else s
    case LoginCache(p, token, expiresAt) =>
      Return(s, p).(sessions := Cache.PutSpec(s.sessions, s.calls[p].id, token, expiresAt).0)
    case LoginNoToken(p) => Return(s, p)
    case GetEvicts(token) => s.(sessions := s.sessions - {token})
  }

  ghost predicate IsRun(states: seq<State>, steps: seq<Step>) {
    && |states| == |steps| + 1
    && states[0].sessions == map[] && states[0].calls == map[]
    && forall i {:trigger steps[i]} :: 0 <= i < |steps| ==> Enabled(states[i], steps[i]) && states[i + 1] == Apply(states[i], steps[i])
  }

  /** The step writes a hash for `id`, whatever the store answers to it. */
  predicate Stores(s: State, a: Step, id: string) {
    && a.RegisterPut? && Enabled(s, a) && s.calls[a.p].id == id
    && id !in s.db && id != "" && a.fault != Store.WriteFails
  }

  /** The `Register` call that ends with this step reports success. */
  predicate Succeeds(s: State, a: Step, id: string) {
    && a.RegisterPut? && Enabled(s, a) && s.calls[a.p].id == id
    && Store.PutSpec(s.db, id, s.calls[a.p].hash, a.fault).1.Pass?
  }

  /** The step takes `id` out of the store, whatever the store answers to it. */
  predicate Removes(s: State, a: Step, id: string) {
    && a.UnregisterDelete? && Enabled(s, a) && s.calls[a.p].id == id
    && id in s.db && id != "" && a.fault != Store.WriteFails
  }

  // ---------------------------------------------------------------------------
  // Uninterrupted calls
  // ---------------------------------------------------------------------------

  /** The steps of a `Register` that nothing comes between do what `Register` does. */
  lemma RegisterIsItsSteps(s: State, p: nat, id: string, key: string, salt: nat, readFails: bool, fault: Store.Fault)
    requires p !in s.calls
    ensures var (db, answer) := RegisterSpec(s.db, id, key, salt, readFails, fault);
            var s1 := Apply(s, RegisterGet(p, id, key, readFails));
            if p !in s1.calls then s1 == s && db == s.db && answer != Registered
            else
              var s2 := Apply(s1, RegisterHash(p, salt));
              if p !in s2.calls then s2 == s && db == s.db && answer == RegisterFailed
              else
                && Apply(s2, RegisterPut(p, fault)) == s.(db := db)
                && (Succeeds(s2, RegisterPut(p, fault), id) <==> answer == Registered)
  {
    var s1 := Apply(s, RegisterGet(p, id, key, readFails));
    if p in s1.calls {
      var s2 := Apply(s1, RegisterHash(p, salt));
      assert s1.calls - {p} == s.calls;
      if p in s2.calls {
        assert s2.calls - {p} == s.calls;
      }
    }
  }

  lemma UnregisterIsItsSteps(s: State, p: nat, id: string, readFails: bool, fault: Store.Fault)
    requires p !in s.calls
    ensures var (after, ok) := UnregisterSpec(Auth.State(s.db, s.sessions), id, readFails, fault);
            var s1 := Apply(s, UnregisterGet(p, id, readFails));
            if p !in s1.calls then s1 == s && after == Auth.State(s.db, s.sessions) && !ok
            else
              var s2 := Apply(s1, UnregisterDelete(p, fault));
              if p !in s2.calls then s2 == s.(db := after.db) && after.sessions == s.sessions && !ok
              else Apply(s2, UnregisterEvict(p)) == State.State(after.db, after.sessions, s.calls) && ok
  {
    var s1 := Apply(s, UnregisterGet(p, id, readFails));
    if p in s1.calls {
      var s2 := Apply(s1, UnregisterDelete(p, fault));
      assert s1.calls - {p} == s.calls;
      if p in s2.calls {
        assert s2.calls - {p} == s.calls;
      }
    }
  }

  /** The last step of a login that has checked its key. */
  function LoginEnd(p: nat, token: Option<string>, expiresAt: int): Step {
    if token.Some? then LoginCache(p, token.value, expiresAt) else LoginNoToken(p)
  }

  lemma LoginIsItsSteps(s: State, p: nat, id: string, key: string, token: Option<string>, expiresAt: int, readFails: bool)
    requires p !in s.calls
    ensures var (after, answer) := LoginSpec(Auth.State(s.db, s.sessions), id, key, token, expiresAt, readFails);
            var s1 := Apply(s, LoginCheck(p, id, key, readFails));
            if p !in s1.calls then s1 == s && after == Auth.State(s.db, s.sessions) && answer == None
            else
              && Apply(s1, LoginEnd(p, token, expiresAt)) == State.State(after.db, after.sessions, s.calls)
              && answer == if token.Some? && Cache.PutSpec(s1.sessions, s1.calls[p].id, token.value, expiresAt).1.Pass? then token else None
  {
    var s1 := Apply(s, LoginCheck(p, id, key, readFails));
    if p in s1.calls {
      assert s1.calls - {p} == s.calls;
    }
  }

  // ---------------------------------------------------------------------------
  // Registration
  // ---------------------------------------------------------------------------

  /** Between two removals a stored hash is never overwritten. */
  lemma {:induction false} HashIsStable(states: seq<State>, steps: seq<Step>, i: nat, j: nat, id: string)
    requires IsRun(states, steps) && i <= j < |states|
    requires id in states[i].db
    requires forall k {:trigger steps[k]} :: i <= k < j ==> !Removes(states[k], steps[k], id)
    ensures id in states[j].db && states[j].db[id] == states[i].db[id]
  {
    if i < j {
      HashIsStable(states, steps, i, j - 1, id);
      assert !Removes(states[j - 1], steps[j - 1], id);
      assert states[j] == Apply(states[j - 1], steps[j - 1]);
    }
  }

  /** The last step that took the client out of the store. */
  lemma {:induction false} LastRemoval(states: seq<State>, steps: seq<Step>, i: nat, n: nat, client: string) returns (k: nat)
    requires IsRun(states, steps) && i <= n < |states|
    requires client in states[i].db && client !in states[n].db
    ensures i <= k < n && Removes(states[k], steps[k], client)
    ensures forall m :: k < m <= n ==> client !in states[m].db
  {
    assert states[n] == Apply(states[n - 1], steps[n - 1]);
    if client in states[n - 1].db {
      k := n - 1;
    } else {
      k := LastRemoval(states, steps, i, n - 1, client);
    }
  }

  /** However many callers register an id at once: two of them succeed only if the id was
      removed in between. */
  lemma AtMostOneSucceeds(states: seq<State>, steps: seq<Step>, i: nat, j: nat, id: string) returns (k: nat)
    requires IsRun(states, steps) && i < j < |steps|
    requires Succeeds(states[i], steps[i], id) && Succeeds(states[j], steps[j], id)
    ensures i < k < j && Removes(states[k], steps[k], id)
  {
    assert id in Apply(states[i], steps[i]).db;
    k := LastRemoval(states, steps, i + 1, j, id);
  }

  /** An id that is stored, or is being stored, was stored by one of the puts so far. */
  lemma {:induction false} SomeoneRegisters(states: seq<State>, steps: seq<Step>, j: nat, id: string) returns (i: nat)
    requires IsRun(states, steps) && j < |steps|
    requires id !in states[0].db && id != ""
    requires id in states[j].db || Stores(states[j], steps[j], id)
    ensures i <= j && Stores(states[i], steps[i], id)
  {
    if id !in states[j].db {
      i := j;
    } else {
      assert states[j] == Apply(states[j - 1], steps[j - 1]);
      i := SomeoneRegisters(states, steps, j - 1, id);
    }
  }

  /** A put that writes and then fails to sync answers with an error, but the id is taken all
      the same: until it is removed, the hash stays, no `Register` succeeds, and a lookup by
      `Register` finds it. */
  lemma FailedSyncStillRegisters(states: seq<State>, steps: seq<Step>, i: nat, j: nat, id: string)
    requires IsRun(states, steps) && i < j < |steps|
    requires Stores(states[i], steps[i], id) && steps[i].fault == Store.SyncFails
    requires forall k :: i < k < j ==> !Removes(states[k], steps[k], id)
    ensures !Succeeds(states[i], steps[i], id)
    ensures id in states[j].db && states[j].db[id] == states[i].calls[steps[i].p].hash
    ensures !Succeeds(states[j], steps[j], id)
    ensures forall key, salt :: RegisterSpec(states[j].db, id, key, salt, false, Store.NoFault).1 != Registered
  {
    assert states[i + 1] == Apply(states[i], steps[i]);
    HashIsStable(states, steps, i + 1, j, id);
  }

  // ---------------------------------------------------------------------------
  // Sessions of unregistered clients
  // ---------------------------------------------------------------------------

  ghost predicate IsOrphan(s: State, token: string) {
    token in s.sessions && s.sessions[token].clientId !in s.db
  }

  /** The login by caller `p` checked the client at `i` and cached `token` at `j`, and the
      session has been there ever since. */
  ghost predicate CachedAt(states: seq<State>, steps: seq<Step>, i: nat, j: nat, n: nat, token: string, client: string)
    requires |states| == |steps| + 1 && n <= |steps|
  {
    && i < j < n
    && steps[i].LoginCheck? && steps[i].id == client && client in states[i].db
    && steps[j].LoginCache? && steps[j].token == token && steps[j].p == steps[i].p
    && forall m :: j < m <= n ==> token in states[m].sessions && states[m].sessions[token].clientId == client
  }

  /** A login about to cache got there by a check that found the client registered. */
  lemma {:induction false} CachingWasChecked(states: seq<State>, steps: seq<Step>, n: nat, p: nat) returns (i: nat)
    requires IsRun(states, steps) && n < |states|
    requires p in states[n].calls && states[n].calls[p].Caching?
    ensures i < n && steps[i].LoginCheck? && steps[i].p == p
    ensures steps[i].id == states[n].calls[p].id && steps[i].id in states[i].db
  {
    assert states[n] == Apply(states[n - 1], steps[n - 1]);
    if steps[n - 1].LoginCheck? && steps[n - 1].p == p {
      i := n - 1;
    } else {
      i := CachingWasChecked(states, steps, n - 1, p);
    }
  }

  lemma {:induction false} SessionWasCached(states: seq<State>, steps: seq<Step>, n: nat, token: string) returns (i: nat, j: nat)
    requires IsRun(states, steps) && n < |states|
    requires token in states[n].sessions
    ensures CachedAt(states, steps, i, j, n, token, states[n].sessions[token].clientId)
  {
    assert states[n] == Apply(states[n - 1], steps[n - 1]);
    if token in states[n - 1].sessions {
      i, j := SessionWasCached(states, steps, n - 1, token);
    } else {
      j := n - 1;
      i := CachingWasChecked(states, steps, n - 1, steps[j].p);
    }
  }

  /** The step drops the sessions of `client` at the end of an `Unregister`. */
  predicate Evicts(s: State, a: Step, client: string) {
    a.UnregisterEvict? && Enabled(s, a) && s.calls[a.p].id == client
  }

  /** Nobody stores the client after step `k`. */
  ghost predicate NotStoredAfter(states: seq<State>, steps: seq<Step>, k: nat, n: nat, client: string)
    requires |states| == |steps| + 1 && n <= |steps|
  {
    forall m :: k < m < n ==> !Stores(states[m], steps[m], client)
  }

  ghost predicate NotEvictedAfter(states: seq<State>, steps: seq<Step>, k: nat, n: nat, client: string)
    requires |states| == |steps| + 1 && n <= |steps|
  {
    forall m :: k < m < n ==> !Evicts(states[m], steps[m], client)
  }

  /** The login checked the client at `i` and cached `token` at `j`; the client was removed at `k`
      and not registered again; and either the removal came between check and caching, or no
      eviction has followed it. */
  ghost predicate OrphanedAt(states: seq<State>, steps: seq<Step>, i: nat, j: nat, k: nat, n: nat, token: string, client: string)
    requires |states| == |steps| + 1 && n <= |steps|
  {
    && CachedAt(states, steps, i, j, n, token, client)
    && i < k < n && Removes(states[k], steps[k], client)
    && NotStoredAfter(states, steps, k, n, client)
    && (k < j || NotEvictedAfter(states, steps, k, n, client))
  }

  lemma {:induction false} StaysRemoved(states: seq<State>, steps: seq<Step>, k: nat, n: nat, client: string)
    requires IsRun(states, steps) && k < n < |states|
    requires Removes(states[k], steps[k], client) && NotStoredAfter(states, steps, k, n, client)
    ensures client !in states[n].db
    decreases n
  {
    assert states[n] == Apply(states[n - 1], steps[n - 1]);
    if k < n - 1 {
      StaysRemoved(states, steps, k, n - 1, client);
      assert !Stores(states[n - 1], steps[n - 1], client);
    }
  }

  lemma OrphanHasACause(states: seq<State>, steps: seq<Step>, n: nat, token: string, client: string)
      returns (i: nat, j: nat, k: nat)
    requires IsRun(states, steps) && n < |states| && IsOrphan(states[n], token)
    requires client == states[n].sessions[token].clientId
    ensures OrphanedAt(states, steps, i, j, k, n, token, client)
  {
    i, j := SessionWasCached(states, steps, n, token);
    k := LastRemoval(states, steps, i, n, client);
    forall m | k < m < n
      ensures !Stores(states[m], steps[m], client)
    {
      assert states[m + 1] == Apply(states[m], steps[m]);
      assert client !in states[m + 1].db;
    }
    if j <= k {
      forall m | k < m < n
        ensures !Evicts(states[m], steps[m], client)
      {
        assert states[m + 1] == Apply(states[m], steps[m]);
        assert token in states[m + 1].sessions;
      }
    }
  }

  /** Over every run, a session belongs to an unregistered client exactly when its login was
      overtaken by a removal, or a removal after it was followed by no eviction, and the client
      has not been registered again. */
  lemma OrphanIff(states: seq<State>, steps: seq<Step>, n: nat, token: string)
    requires IsRun(states, steps) && n < |states|
    ensures IsOrphan(states[n], token)
       <==> exists i: nat, j: nat, k: nat, client :: OrphanedAt(states, steps, i, j, k, n, token, client)
  {
    if IsOrphan(states[n], token) {
      var client := states[n].sessions[token].clientId;
      var i, j, k := OrphanHasACause(states, steps, n, token, client);
    }
    forall i: nat, j: nat, k: nat, client | OrphanedAt(states, steps, i, j, k, n, token, client)
      ensures IsOrphan(states[n], token)
    {
      StaysRemoved(states, steps, k, n, client);
    }
  }

  /** Runs grow by one enabled step. */
  lemma RunExtends(states: seq<State>, steps: seq<Step>, a: Step) returns (states': seq<State>, steps': seq<Step>)
    requires IsRun(states, steps) && Enabled(states[|steps|], a)
    ensures IsRun(states', steps')
    ensures states' == states + [Apply(states[|steps|], a)] && steps' == steps + [a]
  {
    states', steps' := states + [Apply(states[|steps|], a)], steps + [a];
  }

  /** A client registers and then logs in as far as the check of its key. */
  lemma RegisterAndCheck(key: string) returns (states: seq<State>, steps: seq<Step>)
    requires MIN_KEY_LEN <= |key| <= MAX_KEY_LEN
    ensures IsRun(states, steps) && |steps| == 4
    ensures states[4] == State.State(map["c" := KeyHash(key, 1)], map[], map[1 := Caching("c")])
    ensures forall i :: 0 <= i < 4 ==> |states[i].calls| <= 1
    ensures forall i :: 0 <= i < 4 ==> !steps[i].UnregisterDelete?
  {
    states, steps := [State.State(map[], map[], map[])], [];
    states, steps := RunExtends(states, steps, RegisterGet(0, "c", key, false));
    assert states[1].calls == map[0 := Hashing("c", key)];
    states, steps := RunExtends(states, steps, RegisterHash(0, 1));
    assert states[2].calls == map[0 := Putting("c", KeyHash(key, 1))];
    states, steps := RunExtends(states, steps, RegisterPut(0, Store.NoFault));
    assert states[3] == State.State(map["c" := KeyHash(key, 1)], map[], map[]);
    states, steps := RunExtends(states, steps, LoginCheck(1, "c", key, false));
    assert states[4].calls == map[1 := Caching("c")];
  }

  /** An `Unregister` that runs to its end inside a `Login`. */
  lemma UnregisterInsideLogin(key: string) returns (states: seq<State>, steps: seq<Step>)
    requires MIN_KEY_LEN <= |key| <= MAX_KEY_LEN
    ensures IsRun(states, steps) && |steps| == 7
    ensures states[7] == State.State(map[], map[], map[1 := Caching("c")])
    ensures forall i :: 0 <= i < |steps| && steps[i].UnregisterDelete? ==> steps[i].fault == Store.NoFault
  {
    states, steps := RegisterAndCheck(key);
    states, steps := RunExtends(states, steps, UnregisterGet(2, "c", false));
    states, steps := RunExtends(states, steps, UnregisterDelete(2, Store.NoFault));
    assert states[6] == State.State(map[], map[], map[1 := Caching("c"), 2 := Evicting("c")]);
    states, steps := RunExtends(states, steps, UnregisterEvict(2));
  }

  /** Both causes occur.  First: an `Unregister` that runs to its end inside a `Login`. */
  lemma UnregisterInsideLoginLeavesOrphan(key: string) returns (states: seq<State>, steps: seq<Step>)
    requires MIN_KEY_LEN <= |key| <= MAX_KEY_LEN
    ensures IsRun(states, steps) && states[|steps|].calls == map[]
    ensures IsOrphan(states[|steps|], "t")
    ensures forall i :: 0 <= i < |steps| && steps[i].UnregisterDelete? ==> steps[i].fault == Store.NoFault
  {
    states, steps := UnregisterInsideLogin(key);
    states, steps := RunExtends(states, steps, LoginCache(1, "t", 9));
    assert states[8] == State.State(map[], map["t" := Cache.Session("c", 9)], map[]);
  }

  /** A client registers and logs in, one call after the other. */
  lemma RegisterAndLogin(key: string) returns (states: seq<State>, steps: seq<Step>)
    requires MIN_KEY_LEN <= |key| <= MAX_KEY_LEN
    ensures IsRun(states, steps) && |steps| == 5
    ensures states[5] == State.State(map["c" := KeyHash(key, 1)], map["t" := Cache.Session("c", 9)], map[])
    ensures forall i :: 0 <= i < |states| ==> |states[i].calls| <= 1
  {
    states, steps := RegisterAndCheck(key);
    states, steps := RunExtends(states, steps, LoginCache(1, "t", 9));
  }

  /** Second: a delete that writes and then fails to sync ends `Unregister` before it drops
      the session. */
  lemma FailedSyncLeavesOrphan(key: string) returns (states: seq<State>, steps: seq<Step>)
    requires MIN_KEY_LEN <= |key| <= MAX_KEY_LEN
    ensures IsRun(states, steps) && states[|steps|].calls == map[]
    ensures IsOrphan(states[|steps|], "t")
    // calls are not interleaved in this run: at most one is in progress at any time
    ensures forall i :: 0 <= i < |states| ==> |states[i].calls| <= 1
  {
    states, steps := RegisterAndLogin(key);
    states, steps := RunExtends(states, steps, UnregisterGet(0, "c", false));
    assert states[6].calls == map[0 := Deleting("c")];
    states, steps := RunExtends(states, steps, UnregisterDelete(0, Store.SyncFails));
    assert states[7] == State.State(map[], map["t" := Cache.Session("c", 9)], map[]);
  }
}
