/**
 Runs of whole authentication calls on a store without faults: who a bearer token is
 accepted for, and which key a client is registered with, read off the history of calls.
 */
module AuthHistory {
  import opened Wrappers
  import opened JobTypes
  import opened Auth
  import Store
  import Cache = SessionCache

  datatype Call =
    | Register(id: string, key: string, salt: nat)
    | Unregister(id: string)
    | Login(id: string, key: string, token: string)
    | Authenticate(id: string, key: string)
    | UseBearer(token: string)
    | Tick(to: int)

  datatype Moment = Moment(state: State, now: int)

  function Apply(lifetime: int, m: Moment, call: Call): Moment {
    match call
    case Register(id, key, salt) =>
      m.(state := m.state.(db := RegisterSpec(m.state.db, id, key, salt, false, Store.NoFault).0))
    case Unregister(id) => m.(state := UnregisterSpec(m.state, id, false, Store.NoFault).0)
    case Login(id, key, token) =>
      m.(state := LoginSpec(m.state, id, key, Some(token), m.now + lifetime, false).0)
    case Authenticate(_, _) => m
    case UseBearer(token) =>
      m.(state := m.state.(sessions := Cache.GetSpec(m.state.sessions, token, m.now).0))
    case Tick(to) => if m.now <= to then m.(now := to) else m
  }

  /** The service starts with whatever the store kept (never under the empty key) and with
      no session. */
  ghost predicate IsRun(lifetime: int, run: seq<Moment>, calls: seq<Call>) {
    && |run| == |calls| + 1
    && run[0].state.sessions == map[] && "" !in run[0].state.db
    && forall i {:trigger calls[i]} :: 0 <= i < |calls| ==> run[i + 1] == Apply(lifetime, run[i], calls[i])
  }

  /** The random source never repeats a token. */
  ghost predicate FreshTokens(calls: seq<Call>) {
    forall i, j :: 0 <= i < j < |calls| && calls[i].Login? && calls[j].Login? ==> calls[i].token != calls[j].token
  }

  /** Every session belongs to a registered client, and no client has two. */
  ghost predicate Inv(m: Moment) {
    && Cache.OnePerClient(m.state.sessions)
    && "" !in m.state.db
    && forall t :: t in m.state.sessions ==> m.state.sessions[t].clientId in m.state.db
  }

  lemma {:induction false} SessionsAreRegistered(lifetime: int, run: seq<Moment>, calls: seq<Call>, n: nat)
    requires IsRun(lifetime, run, calls) && n < |run|
    ensures Inv(run[n])
  {
    if n > 0 {
      SessionsAreRegistered(lifetime, run, calls, n - 1);
      assert run[n] == Apply(lifetime, run[n - 1], calls[n - 1]);
    }
  }

  /** The login is answered with its token. */
  predicate LoginSucceeds(lifetime: int, m: Moment, call: Call) {
    call.Login? && LoginSpec(m.state, call.id, call.key, Some(call.token), m.now + lifetime, false).1.Some?
  }

  predicate RegisterSucceeds(m: Moment, call: Call) {
    call.Register? && RegisterSpec(m.state.db, call.id, call.key, call.salt, false, Store.NoFault).1.Registered?
  }

  /** Who a bearer token authenticates, if anybody. */
  function BearerClient(m: Moment, token: string): (client: Option<string>) {
    match Cache.GetSpec(m.state.sessions, token, m.now).1
    case Success(session) => if session.clientId == "" then None else Some(session.clientId)
    case Failure(_) => None
  }

  /** The call takes away whatever session `client` has: an unregister, whatever it answers,
      or a successful login. */
  predicate Displaces(lifetime: int, m: Moment, call: Call, client: string) {
    || call == Unregister(client)
    || (call.Login? && call.id == client && LoginSucceeds(lifetime, m, call))
  }

  /** Call `i` is the client's latest successful login among the first `n` calls, it handed
      out `token`, and no unregister of the client followed. */
  ghost predicate IsStandingLogin(lifetime: int, run: seq<Moment>, calls: seq<Call>, i: nat, n: nat, client: string, token: string)
    requires |run| == |calls| + 1 && n <= |calls|
  {
    && i < n
    && calls[i].Login? && calls[i].id == client && calls[i].token == token
    && LoginSucceeds(lifetime, run[i], calls[i])
    && forall j :: i < j < n ==> !Displaces(lifetime, run[j], calls[j], client)
  }

  predicate HandsOut(lifetime: int, m: Moment, call: Call, token: string) {
    call.Login? && call.token == token && LoginSucceeds(lifetime, m, call)
  }

  /** A session in the map was there before the call, which did not displace it, or is the
      call's own. */
  lemma SessionIsOldOrNew(lifetime: int, m: Moment, call: Call, token: string)
    requires Inv(m) && token in Apply(lifetime, m, call).state.sessions
    ensures var session := Apply(lifetime, m, call).state.sessions[token];
            if HandsOut(lifetime, m, call, token)
            then session == Cache.Session(call.id, m.now + lifetime) && call.id != ""
            else token in m.state.sessions && session == m.state.sessions[token] && !Displaces(lifetime, m, call, session.clientId)
  {
  }

  lemma {:induction false} SessionHasStandingLogin(lifetime: int, run: seq<Moment>, calls: seq<Call>, n: nat, token: string)
      returns (i: nat)
    requires IsRun(lifetime, run, calls) && FreshTokens(calls) && n < |run|
    requires token in run[n].state.sessions
    ensures IsStandingLogin(lifetime, run, calls, i, n, run[n].state.sessions[token].clientId, token)
    ensures run[n].state.sessions[token].expiresAt == run[i].now + lifetime
    ensures run[n].state.sessions[token].clientId != ""
  {
    assert n > 0;
    var before, call := run[n - 1], calls[n - 1];
    SessionsAreRegistered(lifetime, run, calls, n - 1);
    SessionIsOldOrNew(lifetime, before, call, token);
    if HandsOut(lifetime, before, call, token) {
      i := n - 1;
    } else {
      i := SessionHasStandingLogin(lifetime, run, calls, n - 1, token);
    }
  }

  lemma {:induction false} StandingLoginHasSession(lifetime: int, run: seq<Moment>, calls: seq<Call>, i: nat, n: nat, client: string, token: string)
    requires IsRun(lifetime, run, calls) && FreshTokens(calls) && n < |run|
    requires IsStandingLogin(lifetime, run, calls, i, n, client, token)
    requires run[n].now <= run[i].now + lifetime
    ensures token in run[n].state.sessions
    ensures run[n].state.sessions[token] == Cache.Session(client, run[i].now + lifetime)
    ensures client != ""
  {
    var before, call := run[n - 1], calls[n - 1];
    assert run[n] == Apply(lifetime, before, call);
    if i < n - 1 {
      StandingLoginHasSession(lifetime, run, calls, i, n - 1, client, token);
      assert !Displaces(lifetime, before, call, client);
      if call.Login? {
        assert call.token != token;
      }
    }
  }

  /** A bearer token is accepted as `client` exactly when it was handed out by the client's
      latest successful login, has not expired, and no unregister of the client came after. */
  lemma BearerCharacterisation(lifetime: int, run: seq<Moment>, calls: seq<Call>, n: nat, client: string, token: string)
    requires IsRun(lifetime, run, calls) && FreshTokens(calls) && n < |run|
    ensures BearerClient(run[n], token) == Some(client)
       <==> exists i: nat :: IsStandingLogin(lifetime, run, calls, i, n, client, token) && run[n].now <= run[i].now + lifetime
  {
    if BearerClient(run[n], token) == Some(client) {
      var i := SessionHasStandingLogin(lifetime, run, calls, n, token);
      assert IsStandingLogin(lifetime, run, calls, i, n, client, token);
    }
    if exists i: nat :: IsStandingLogin(lifetime, run, calls, i, n, client, token) && run[n].now <= run[i].now + lifetime {
      var i: nat :| IsStandingLogin(lifetime, run, calls, i, n, client, token) && run[n].now <= run[i].now + lifetime;
      StandingLoginHasSession(lifetime, run, calls, i, n, client, token);
    }
  }

  /** A login with a fresh token succeeds exactly for a registered client and its own key. */
  lemma LoginSucceedsIff(lifetime: int, run: seq<Moment>, calls: seq<Call>, n: nat)
    requires IsRun(lifetime, run, calls) && FreshTokens(calls)
    requires n < |calls| && calls[n].Login? && calls[n].token != ""
    ensures LoginSucceeds(lifetime, run[n], calls[n])
       <==> calls[n].key != "" && calls[n].id in run[n].state.db && HashMatches(run[n].state.db[calls[n].id], calls[n].key)
  {
    SessionsAreRegistered(lifetime, run, calls, n);
    if calls[n].token in run[n].state.sessions {
      var i := SessionHasStandingLogin(lifetime, run, calls, n, calls[n].token);
      assert false;
    }
  }

  /** Call `r` registered the client with this hash and no unregister of it followed. */
  ghost predicate IsStandingRegistration(run: seq<Moment>, calls: seq<Call>, r: nat, n: nat, client: string, hash: Value)
    requires |run| == |calls| + 1 && n <= |calls|
  {
    && r < n
    && RegisterSucceeds(run[r], calls[r])
    && calls[r].id == client && hash == KeyHash(calls[r].key, calls[r].salt)
    && forall j :: r < j < n ==> calls[j] != Unregister(client)
  }

  ghost predicate KeptFromStart(run: seq<Moment>, calls: seq<Call>, n: nat, client: string, hash: Value)
    requires |run| == |calls| + 1 && n <= |calls|
  {
    && client in run[0].state.db && run[0].state.db[client] == hash
    && forall j :: 0 <= j < n ==> calls[j] != Unregister(client)
  }

  /** A client is stored with a hash exactly when it came with the store or a successful
      registration put it there, and no unregister of the client came after. */
  lemma {:induction false} RegistrationCharacterisation(lifetime: int, run: seq<Moment>, calls: seq<Call>, n: nat, client: string, hash: Value)
    requires IsRun(lifetime, run, calls) && n < |run|
    ensures client in run[n].state.db && run[n].state.db[client] == hash
       <==> KeptFromStart(run, calls, n, client, hash)
            || exists r: nat :: IsStandingRegistration(run, calls, r, n, client, hash)
  {
    SessionsAreRegistered(lifetime, run, calls, n);
    if n > 0 {
      SessionsAreRegistered(lifetime, run, calls, n - 1);
      RegistrationCharacterisation(lifetime, run, calls, n - 1, client, hash);
      var before, call := run[n - 1], calls[n - 1];
      assert run[n] == Apply(lifetime, before, call);
      if call != Unregister(client) {
        StandingRegistrationExtends(run, calls, n, client, hash);
        if client in before.state.db && before.state.db[client] == hash {
          // it stays
          if !KeptFromStart(run, calls, n, client, hash) {
            var r: nat :| IsStandingRegistration(run, calls, r, n - 1, client, hash);
            assert IsStandingRegistration(run, calls, r, n, client, hash);
          }
        } else if client in run[n].state.db && run[n].state.db[client] == hash {
          assert IsStandingRegistration(run, calls, n - 1, n, client, hash);
        }
      }
    }
  }

  /** A call that is not an unregister of the client keeps every standing registration, and
      a new one can only be that call's own. */
  lemma StandingRegistrationExtends(run: seq<Moment>, calls: seq<Call>, n: nat, client: string, hash: Value)
    requires |run| == |calls| + 1 && 0 < n <= |calls|
    requires calls[n - 1] != Unregister(client)
    ensures KeptFromStart(run, calls, n, client, hash) <==> KeptFromStart(run, calls, n - 1, client, hash)
    ensures forall r: nat :: r < n - 1 ==>
              (IsStandingRegistration(run, calls, r, n, client, hash) <==> IsStandingRegistration(run, calls, r, n - 1, client, hash))
  {
  }
}
