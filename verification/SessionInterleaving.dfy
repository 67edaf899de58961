/**
 All interleavings of the locked sections of the session cache.  `Get` is two of them:
 it copies the session under the read lock, consults the clock with no lock held, and
 takes the write lock only to drop a session that it found expired.  The machine is shown
 to refine a table indexed by client that forgets sessions the moment they expire.
 */
module SessionInterleaving {
  import opened Wrappers
  import opened SessionCache

  /** A `Get` in progress: the session it copied, before and after it found it expired. */
  datatype Pending =
    | Copied(token: string, session: Session)
    | Doomed(token: string, session: Session)

  /** `used` remembers every token ever stored; it decides nothing. */
  datatype State = State(sessions: Sessions, now: int, used: set<string>, pending: map<nat, Pending>)

  datatype Step =
    | Tick(to: int)
    | GetRead(caller: nat, token: string)
    | GetCheck(caller: nat)
    | GetEvict(caller: nat)
    | Put(clientId: string, newToken: string)
    | Delete(clientId: string)

  predicate Enabled(s: State, a: Step) {
    match a
    case Tick(to) => s.now <= to
    case GetRead(p, _) => p !in s.pending
    case GetCheck(p) => p in s.pending && s.pending[p].Copied?
    case GetEvict(p) => p in s.pending && s.pending[p].Doomed?
    case Put(_, _) => true
    case Delete(_) => true
  }

  function Apply(lifetime: int, s: State, a: Step): State
    requires Enabled(s, a)
  {
    match a
    case Tick(to) => s.(now := to)
    case GetRead(p, token) =>
      if token in s.sessions then s.(pending := s.pending[p := Copied(token, s.sessions[token])]) else s
    case GetCheck(p) =>
      var get := s.pending[p];
      if IsExpired(get.session, s.now)
      then s.(pending := s.pending[p := Doomed(get.token, get.session)])
      else s.(pending := s.pending - {p})
    case GetEvict(p) =>
      s.(sessions := s.sessions - {s.pending[p].token}, pending := s.pending - {p})
    case Put(clientId, token) =>
      var (sessions, answer) := PutSpec(s.sessions, clientId, token, s.now + lifetime);
      s.(sessions := sessions, used := if answer.Pass? then s.used + {token} else s.used)
    case Delete(clientId) => s.(sessions := WithoutClient(s.sessions, clientId))
  }

  predicate Init(s: State) {
    s.sessions == map[] && s.used == {} && s.pending == map[]
  }

  ghost predicate IsRun(lifetime: int, states: seq<State>, steps: seq<Step>) {
    && |states| == |steps| + 1
    && Init(states[0])
    && forall i {:trigger steps[i]} :: 0 <= i < |steps| ==> Enabled(states[i], steps[i]) && states[i + 1] == Apply(lifetime, states[i], steps[i])
  }

  /** No `Put` of the run brings back a token that was stored before. */
  ghost predicate FreshTokens(states: seq<State>, steps: seq<Step>)
    requires |states| == |steps| + 1
  {
    forall i :: 0 <= i < |steps| && steps[i].Put? ==> steps[i].newToken !in states[i].used
  }

  // ---------------------------------------------------------------------------
  // The table the cache is meant to be
  // ---------------------------------------------------------------------------

  datatype Entry = Entry(token: string, expiresAt: int)

  type Table = map<string, Entry>

  function Live(table: Table, now: int): Table {
    map c | c in table && now <= table[c].expiresAt :: table[c]
  }

  /** One step of the table: entries disappear by themselves when the clock passes them, and
      asking is never an update. */
  function TableApply(lifetime: int, table: Table, now: int, a: Step): Table {
    match a
    case Tick(to) => Live(table, to)
    case GetRead(_, _) => table
    case GetCheck(_) => table
    case GetEvict(_) => table
    case Put(clientId, token) =>
      if clientId == "" || token == "" then table
      else Live(table[clientId := Entry(token, now + lifetime)], now)
    case Delete(clientId) => table - {clientId}
  }

  /** The table's answer to "whose token is this?" */
  ghost predicate TableAnswers(table: Table, token: string, answer: Option<Session>) {
    match answer
    case Some(session) =>
      session.clientId in table && table[session.clientId] == Entry(token, session.expiresAt)
    case None =>
      forall c :: c in table ==> table[c].token != token
  }

  /** The table holds exactly the unexpired sessions of the cache. */
  ghost predicate Represents(s: State, table: Table) {
    && (forall c :: c in table ==>
          && table[c].token in s.sessions
          && s.sessions[table[c].token] == Session(c, table[c].expiresAt)
          && s.now <= table[c].expiresAt)
    && (forall t :: t in s.sessions && !IsExpired(s.sessions[t], s.now) ==>
          && s.sessions[t].clientId in table
          && table[s.sessions[t].clientId] == Entry(t, s.sessions[t].expiresAt))
  }

  /** The history of the table under the same steps, from the empty table. */
  ghost function TableAfter(lifetime: int, states: seq<State>, steps: seq<Step>, n: nat): Table
    requires n <= |steps| && |states| == |steps| + 1
  {
    if n == 0 then map[]
    else TableApply(lifetime, TableAfter(lifetime, states, steps, n - 1), states[n - 1].now, steps[n - 1])
  }

  // ---------------------------------------------------------------------------
  // Invariant
  // ---------------------------------------------------------------------------

  /** A pending `Get` holds a copy that is still right about its token, unless the token is
      gone; and one that is about to evict copied a session that is already expired. */
  ghost predicate PendingOk(s: State, get: Pending) {
    && get.token in s.used
    && (get.token in s.sessions ==> s.sessions[get.token] == get.session)
    && (get.Doomed? ==> IsExpired(get.session, s.now))
  }

  ghost predicate Inv(s: State) {
    && OnePerClient(s.sessions)
    && s.sessions.Keys <= s.used
    && forall p :: p in s.pending ==> PendingOk(s, s.pending[p])
  }

  lemma StepKeepsInv(lifetime: int, s: State, a: Step)
    requires Inv(s) && Enabled(s, a)
    requires a.Put? ==> a.newToken !in s.used
    ensures Inv(Apply(lifetime, s, a))
  {
  }

  lemma {:induction false} RunKeepsInv(lifetime: int, states: seq<State>, steps: seq<Step>, n: nat)
    requires IsRun(lifetime, states, steps) && FreshTokens(states, steps)
    requires n < |states|
    ensures Inv(states[n])
  {
    if n > 0 {
      RunKeepsInv(lifetime, states, steps, n - 1);
      StepKeepsInv(lifetime, states[n - 1], steps[n - 1]);
    }
  }

  // ---------------------------------------------------------------------------
  // Refinement
  // ---------------------------------------------------------------------------

  lemma PutRefines(lifetime: int, s: State, a: Step, table: Table)
    requires OnePerClient(s.sessions) && Represents(s, table)
    requires a.Put? && a.newToken !in s.sessions
    ensures Represents(Apply(lifetime, s, a), TableApply(lifetime, table, s.now, a))
  {
    var s', clientId, token := Apply(lifetime, s, a), a.clientId, a.newToken;
    if clientId != "" && token != "" {
      assert s'.sessions == WithoutClient(s.sessions, clientId)[token := Session(clientId, s.now + lifetime)];
    }
  }

  lemma EvictRefines(lifetime: int, s: State, a: Step, table: Table)
    requires Represents(s, table) && Enabled(s, a)
    requires a.GetEvict? && PendingOk(s, s.pending[a.caller])
    ensures Represents(Apply(lifetime, s, a), TableApply(lifetime, table, s.now, a))
  {
  }

  lemma StepRefines(lifetime: int, s: State, a: Step, table: Table)
    requires Inv(s) && Enabled(s, a) && Represents(s, table)
    requires a.Put? ==> a.newToken !in s.used
    ensures Represents(Apply(lifetime, s, a), TableApply(lifetime, table, s.now, a))
  {
    match a
    case GetEvict(p) => EvictRefines(lifetime, s, a, table);
    case Put(_, _) => PutRefines(lifetime, s, a, table);
    case _ =>
  }

  /** The cache refines the table: run the table on the same steps, and at every moment it
      holds exactly the cache's unexpired sessions. */
  lemma {:induction false} CacheRefinesTable(lifetime: int, states: seq<State>, steps: seq<Step>, n: nat)
    requires IsRun(lifetime, states, steps) && FreshTokens(states, steps)
    requires n <= |steps|
    ensures Inv(states[n]) && Represents(states[n], TableAfter(lifetime, states, steps, n))
  {
    RunKeepsInv(lifetime, states, steps, n);
    if n > 0 {
      CacheRefinesTable(lifetime, states, steps, n - 1);
      StepRefines(lifetime, states[n - 1], steps[n - 1], TableAfter(lifetime, states, steps, n - 1));
    }
  }

  /** What the table answers is what the map, read at that moment, would answer. */
  lemma TableAnswersAsCache(s: State, table: Table, token: string)
    requires Inv(s) && Represents(s, table)
    ensures token in s.sessions && !IsExpired(s.sessions[token], s.now) ==>
              TableAnswers(table, token, Some(s.sessions[token]))
    ensures !(token in s.sessions && !IsExpired(s.sessions[token], s.now)) ==>
              TableAnswers(table, token, None)
  {
  }

  /** The step takes part in a `Get` of caller `p`. */
  predicate IsGetOf(a: Step, p: nat) {
    match a
    case GetRead(q, _) => q == p
    case GetCheck(q) => q == p
    case GetEvict(q) => q == p
    case _ => false
  }

  /** Between the read at `i` and the check at `j` the caller keeps the copy it took. */
  lemma {:induction false} CopyIsKept(lifetime: int, states: seq<State>, steps: seq<Step>, i: nat, j: nat)
    requires IsRun(lifetime, states, steps)
    requires i < j < |states|
    requires steps[i].GetRead? && steps[i].token in states[i].sessions
    requires forall k :: i < k < j ==> !IsGetOf(steps[k], steps[i].caller)
    ensures steps[i].caller in states[j].pending
    ensures states[j].pending[steps[i].caller] == Copied(steps[i].token, states[i].sessions[steps[i].token])
  {
    if j > i + 1 {
      CopyIsKept(lifetime, states, steps, i, j - 1);
      assert !IsGetOf(steps[j - 1], steps[i].caller);
    }
    assert states[j] == Apply(lifetime, states[j - 1], steps[j - 1]);
  }

  lemma {:induction false} ClockIsMonotone(lifetime: int, states: seq<State>, steps: seq<Step>, i: nat, j: nat)
    requires IsRun(lifetime, states, steps) && i <= j < |states|
    ensures states[i].now <= states[j].now
  {
    if i < j {
      ClockIsMonotone(lifetime, states, steps, i, j - 1);
      assert states[j] == Apply(lifetime, states[j - 1], steps[j - 1]);
    }
  }

  /** The answer a `Get` that read at `i` settles on: at once if the token is unknown,
      otherwise at its clock check `j`. */
  ghost function Answer(states: seq<State>, steps: seq<Step>, i: nat, j: nat): Option<Session>
    requires i <= j < |states| && i < |steps| && steps[i].GetRead?
  {
    if steps[i].token !in states[i].sessions then None
    else if IsExpired(states[i].sessions[steps[i].token], states[j].now) then None
    else Some(states[i].sessions[steps[i].token])
  }

  /** Each `Get` has a moment between its read and its check at which the eagerly expiring
      table gives the very answer the `Get` returns: the read when the answer is a session
      or "unknown token", the check when the answer is "expired". */
  lemma GetLinearizes(lifetime: int, states: seq<State>, steps: seq<Step>, i: nat, j: nat)
    requires IsRun(lifetime, states, steps) && FreshTokens(states, steps)
    requires i < |steps| && steps[i].GetRead?
    requires if steps[i].token !in states[i].sessions then j == i
             else i < j < |steps| && steps[j] == GetCheck(steps[i].caller)
                  && forall k :: i < k < j ==> !IsGetOf(steps[k], steps[i].caller)
    ensures var k := if i == j || Answer(states, steps, i, j).Some? then i else j;
            TableAnswers(TableAfter(lifetime, states, steps, k), steps[i].token, Answer(states, steps, i, j))
    // ... and what the caller does next is what that answer says
    ensures i < j ==> (Answer(states, steps, i, j).None? <==>
                       steps[i].caller in states[j + 1].pending && states[j + 1].pending[steps[i].caller].Doomed?)
  {
    var token := steps[i].token;
    CacheRefinesTable(lifetime, states, steps, i);
    CacheRefinesTable(lifetime, states, steps, j);
    TableAnswersAsCache(states[i], TableAfter(lifetime, states, steps, i), token);
    TableAnswersAsCache(states[j], TableAfter(lifetime, states, steps, j), token);
    if i < j {
      CopyIsKept(lifetime, states, steps, i, j);
      ClockIsMonotone(lifetime, states, steps, i, j);
      assert states[j + 1] == Apply(lifetime, states[j], steps[j]);
      assert PendingOk(states[j], states[j].pending[steps[i].caller]);
    }
  }

  /** The delayed second phase of `Get` only ever removes a session that is already expired,
      so no client can notice it: the table stays as it was. */
  lemma EvictionIsInvisible(lifetime: int, states: seq<State>, steps: seq<Step>, i: nat)
    requires IsRun(lifetime, states, steps) && FreshTokens(states, steps)
    requires i < |steps| && steps[i].GetEvict?
    ensures forall t :: t in states[i].sessions && t !in states[i + 1].sessions ==>
              IsExpired(states[i].sessions[t], states[i].now)
    ensures forall t :: t in states[i].sessions && t in states[i + 1].sessions ==>
              states[i + 1].sessions[t] == states[i].sessions[t]
    ensures TableAfter(lifetime, states, steps, i + 1) == TableAfter(lifetime, states, steps, i)
    ensures Represents(states[i + 1], TableAfter(lifetime, states, steps, i))
  {
    CacheRefinesTable(lifetime, states, steps, i);
    CacheRefinesTable(lifetime, states, steps, i + 1);
    assert PendingOk(states[i], states[i].pending[steps[i].caller]);
  }

  // ---------------------------------------------------------------------------
  // Without fresh tokens
  // ---------------------------------------------------------------------------

  /** The `Put` stores a session under the token. */
  predicate PutsToken(s: State, a: Step, token: string) {
    a.Put? && a.newToken == token && PutSpec(s.sessions, a.clientId, token, 0).1.Pass?
  }

  /** The step takes a session of the client with this token out of the map. */
  predicate Drops(s: State, a: Step, token: string, client: string)
    requires Enabled(s, a)
  {
    match a
    case GetEvict(p) => s.pending[p].token == token
    case Put(clientId, t) => clientId == client && t != token && PutSpec(s.sessions, clientId, t, 0).1.Pass?
    case Delete(clientId) => clientId == client
    case _ => false
  }

  /** Put at `k`, the token's session is not dropped before `n`. */
  ghost predicate KeptSince(states: seq<State>, steps: seq<Step>, k: nat, n: nat, token: string)
    requires |states| == |steps| + 1 && k < n <= |steps|
    requires forall i {:trigger steps[i]} :: 0 <= i < |steps| ==> Enabled(states[i], steps[i])
  {
    && PutsToken(states[k], steps[k], token)
    && forall m {:trigger steps[m]} :: k < m < n ==> !Drops(states[m], steps[m], token, steps[k].clientId)
  }

  lemma PutStores(lifetime: int, s: State, a: Step, token: string)
    requires Enabled(s, a)
    ensures PutsToken(s, a, token) ==> token in Apply(lifetime, s, a).sessions
                                       && Apply(lifetime, s, a).sessions[token] == Session(a.clientId, s.now + lifetime)
    ensures token in Apply(lifetime, s, a).sessions && !PutsToken(s, a, token) ==>
              token in s.sessions && Apply(lifetime, s, a).sessions[token] == s.sessions[token]
              && !Drops(s, a, token, s.sessions[token].clientId)
    ensures token in s.sessions && !Drops(s, a, token, s.sessions[token].clientId) ==>
              token in Apply(lifetime, s, a).sessions && Apply(lifetime, s, a).sessions[token] == s.sessions[token]
  {
  }

  lemma {:induction false} KeptIsThere(lifetime: int, states: seq<State>, steps: seq<Step>, k: nat, n: nat, token: string)
    requires IsRun(lifetime, states, steps) && k < n <= |steps| && KeptSince(states, steps, k, n, token)
    ensures token in states[n].sessions
    ensures states[n].sessions[token] == Session(steps[k].clientId, states[k].now + lifetime)
    decreases n
  {
    PutStores(lifetime, states[n - 1], steps[n - 1], token);
    assert states[n] == Apply(lifetime, states[n - 1], steps[n - 1]);
    if k < n - 1 {
      KeptIsThere(lifetime, states, steps, k, n - 1, token);
      assert !Drops(states[n - 1], steps[n - 1], token, steps[k].clientId);
    }
  }

  /** A session in the map was there at `r` already, or was put since. */
  lemma {:induction false} OldOrPut(lifetime: int, states: seq<State>, steps: seq<Step>, r: nat, n: nat, token: string)
    requires IsRun(lifetime, states, steps) && r <= n <= |steps| && token in states[n].sessions
    ensures || (token in states[r].sessions && states[n].sessions[token] == states[r].sessions[token])
            || exists k: nat :: r <= k < n && KeptSince(states, steps, k, n, token)
    decreases n
  {
    if r < n {
      var s, a := states[n - 1], steps[n - 1];
      PutStores(lifetime, s, a, token);
      assert states[n] == Apply(lifetime, s, a);
      if PutsToken(s, a, token) {
        assert KeptSince(states, steps, n - 1, n, token);
      } else {
        var m := n - 1;
        OldOrPut(lifetime, states, steps, r, m, token);
        if k: nat :| r <= k < m && KeptSince(states, steps, k, m, token) {
          KeptIsThere(lifetime, states, steps, k, m, token);
          assert KeptSince(states, steps, k, n, token);
        }
      }
    }
  }

  /** Until its eviction, the `Get` that read at `r` works on the copy it took, and it only goes on to
      evict if that is expired. */
  lemma {:induction false} DoomedCopyIsExpired(lifetime: int, states: seq<State>, steps: seq<Step>, r: nat, n: nat)
    requires IsRun(lifetime, states, steps) && r < n <= |steps|
    requires steps[r].GetRead? && steps[r].token in states[r].sessions
    requires forall k :: r < k < n && IsGetOf(steps[k], steps[r].caller) ==> steps[k].GetCheck?
    ensures steps[r].caller in states[n].pending ==>
              var get := states[n].pending[steps[r].caller];
              && get.token == steps[r].token && get.session == states[r].sessions[steps[r].token]
              && (get.Doomed? ==> IsExpired(get.session, states[n].now))
    decreases n
  {
    assert states[n] == Apply(lifetime, states[n - 1], steps[n - 1]);
    if r < n - 1 {
      DoomedCopyIsExpired(lifetime, states, steps, r, n - 1);
      assert IsGetOf(steps[n - 1], steps[r].caller) ==> steps[n - 1].GetCheck?;
    }
  }

  /** One whole expired `Get`: the read at `r`, the eviction at `i`, and in between its clock check. */
  ghost predicate IsEvictingGet(states: seq<State>, steps: seq<Step>, r: nat, i: nat)
    requires |states| == |steps| + 1
  {
    && r < i < |steps|
    && steps[r].GetRead? && steps[r].token in states[r].sessions
    && steps[i] == GetEvict(steps[r].caller)
    && forall k :: r < k < i && IsGetOf(steps[k], steps[r].caller) ==> steps[k].GetCheck?
  }

  /** The step takes a session out of the map that has not expired. */
  ghost predicate LosesLiveSession(states: seq<State>, i: nat, token: string)
    requires i + 1 < |states|
  {
    token in states[i].sessions && !IsExpired(states[i].sessions[token], states[i].now) && token !in states[i + 1].sessions
  }

  /** The token was put at `k`, the session was not dropped before `i`, and its time is not over. */
  ghost predicate PutAgain(lifetime: int, states: seq<State>, steps: seq<Step>, k: nat, i: nat, token: string)
    requires |states| == |steps| + 1 && k < i <= |steps|
    requires forall m {:trigger steps[m]} :: 0 <= m < |steps| ==> Enabled(states[m], steps[m])
  {
    KeptSince(states, steps, k, i, token) && states[i].now <= states[k].now + lifetime
  }

  lemma LiveSessionWasPut(lifetime: int, states: seq<State>, steps: seq<Step>, r: nat, i: nat) returns (k: nat)
    requires IsRun(lifetime, states, steps) && IsEvictingGet(states, steps, r, i)
    requires LosesLiveSession(states, i, steps[r].token)
    ensures r < k < i && PutAgain(lifetime, states, steps, k, i, steps[r].token)
  {
    var token := steps[r].token;
    DoomedCopyIsExpired(lifetime, states, steps, r, i);
    assert Enabled(states[i], steps[i]);
    OldOrPut(lifetime, states, steps, r, i, token);
    k :| r <= k < i && KeptSince(states, steps, k, i, token);
    KeptIsThere(lifetime, states, steps, k, i, token);
  }

  lemma PutSessionIsLost(lifetime: int, states: seq<State>, steps: seq<Step>, r: nat, i: nat, k: nat)
    requires IsRun(lifetime, states, steps) && IsEvictingGet(states, steps, r, i)
    requires r < k < i && PutAgain(lifetime, states, steps, k, i, steps[r].token)
    ensures LosesLiveSession(states, i, steps[r].token)
  {
    DoomedCopyIsExpired(lifetime, states, steps, r, i);
    KeptIsThere(lifetime, states, steps, k, i, steps[r].token);
    assert Enabled(states[i], steps[i]) && states[i + 1] == Apply(lifetime, states[i], steps[i]);
  }

  /** With tokens of any kind: a `Get` takes a session that has not expired exactly when its token was
      put again between its read and its eviction, and that session was not dropped since and its
      time is not over. */
  lemma EvictsLiveSessionIff(lifetime: int, states: seq<State>, steps: seq<Step>, r: nat, i: nat)
    requires IsRun(lifetime, states, steps) && IsEvictingGet(states, steps, r, i)
    ensures LosesLiveSession(states, i, steps[r].token)
       <==> exists k: nat :: r < k < i && PutAgain(lifetime, states, steps, k, i, steps[r].token)
  {
    if LosesLiveSession(states, i, steps[r].token) {
      var k := LiveSessionWasPut(lifetime, states, steps, r, i);
    }
    forall k: nat | r < k < i && PutAgain(lifetime, states, steps, k, i, steps[r].token)
      ensures LosesLiveSession(states, i, steps[r].token)
    {
      PutSessionIsLost(lifetime, states, steps, r, i, k);
    }
  }

  /** Every eviction of a run ends such a `Get`. */
  lemma {:induction false} EvictionEndsAGet(lifetime: int, states: seq<State>, steps: seq<Step>, p: nat, n: nat) returns (r: nat)
    requires IsRun(lifetime, states, steps) && n < |states| && p in states[n].pending
    ensures r < n && steps[r].GetRead? && steps[r].caller == p && steps[r].token in states[r].sessions
    ensures forall k :: r < k < n && IsGetOf(steps[k], p) ==> steps[k].GetCheck?
  {
    assert states[n] == Apply(lifetime, states[n - 1], steps[n - 1]);
    if p in states[n - 1].pending {
      r := EvictionEndsAGet(lifetime, states, steps, p, n - 1);
    } else {
      r := n - 1;
    }
  }

  /** The sections of a `Get` that nothing comes between do what `Get` does. */
  lemma GetIsItsSteps(lifetime: int, s: State, p: nat, token: string)
    requires p !in s.pending
    ensures var (sessions, answer) := GetSpec(s.sessions, token, s.now);
            var s1 := Apply(lifetime, s, GetRead(p, token));
            if p !in s1.pending then s1 == s && sessions == s.sessions && answer == Failure(InvalidToken)
            else
              var s2 := Apply(lifetime, s1, GetCheck(p));
              if p !in s2.pending then s2 == s && sessions == s.sessions && answer == Success(s.sessions[token])
              else Apply(lifetime, s2, GetEvict(p)) == s.(sessions := sessions) && answer == Failure(SessionExpired)
  {
    var s1 := Apply(lifetime, s, GetRead(p, token));
    if p in s1.pending {
      var s2 := Apply(lifetime, s1, GetCheck(p));
      assert s1.pending - {p} == s.pending;
      if p in s2.pending {
        assert s2.pending - {p} == s.pending;
      }
    }
  }

  /** Runs grow by one enabled step. */
  lemma RunExtends(lifetime: int, states: seq<State>, steps: seq<Step>, a: Step) returns (states': seq<State>, steps': seq<Step>)
    requires IsRun(lifetime, states, steps) && Enabled(states[|steps|], a)
    ensures IsRun(lifetime, states', steps')
    ensures states' == states + [Apply(lifetime, states[|steps|], a)] && steps' == steps + [a]
  {
    states', steps' := states + [Apply(lifetime, states[|steps|], a)], steps + [a];
  }

  /** A `Get` finds the session of a token expired; before it evicts it, another client logs
      in and is given the same token. */
  lemma TokenIsReused() returns (states: seq<State>, steps: seq<Step>)
    ensures IsRun(10, states, steps) && |steps| == 6
    ensures states[6] == State(map["t" := Session("b", 21)], 11, {"t"}, map[0 := Doomed("t", Session("a", 10))])
    ensures steps[5] == Put("b", "t") && "t" in states[5].used
  {
    var a := Session("a", 10);
    states, steps := [State(map[], 0, {}, map[])], [];
    states, steps := RunExtends(10, states, steps, Put("a", "t"));
    assert states[1] == State(map["t" := a], 0, {"t"}, map[]);
    states, steps := RunExtends(10, states, steps, GetRead(0, "t"));
    states, steps := RunExtends(10, states, steps, Tick(11));
    assert states[3] == State(map["t" := a], 11, {"t"}, map[0 := Copied("t", a)]);
    states, steps := RunExtends(10, states, steps, GetCheck(0));
    states, steps := RunExtends(10, states, steps, Delete("a"));
    assert states[5] == State(map[], 11, {"t"}, map[0 := Doomed("t", a)]);
    states, steps := RunExtends(10, states, steps, Put("b", "t"));
  }

  /** The assumption on tokens is needed: if a token is handed out again while an old `Get`
      for it is about to evict, a session that has not expired is lost. */
  lemma ReusedTokenLosesLiveSession() returns (states: seq<State>, steps: seq<Step>)
    ensures IsRun(10, states, steps) && !FreshTokens(states, steps)
    ensures |steps| > 0 && steps[|steps| - 1].GetEvict?
    ensures "t" in states[|steps| - 1].sessions && !IsExpired(states[|steps| - 1].sessions["t"], states[|steps| - 1].now)
    ensures "t" !in states[|steps|].sessions
  {
    states, steps := TokenIsReused();
    states, steps := RunExtends(10, states, steps, GetEvict(0));
    assert steps[5].Put? && steps[5].newToken in states[5].used;
  }
}
