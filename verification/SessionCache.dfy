/**
 The bearer-token session cache.  Sessions are indexed by token, the rule they
 obey is about clients: a client has at most one session.  Expired sessions stay
 in the map until somebody asks for them.
 */
module SessionCache {
  import opened Wrappers
  import opened MachineInts

  datatype Session = Session(clientId: string, expiresAt: int)

  type Sessions = map<string, Session>

  datatype Error = InvalidToken | SessionExpired | InvalidClientId | EmptyToken | TokenInUse

  const NANOS_PER_MINUTE: int := 60_000_000_000

  /** The rule the map has to obey: no client holds two tokens. */
  ghost predicate OnePerClient(m: Sessions) {
    forall t, u :: t in m && u in m && m[t].clientId == m[u].clientId ==> t == u
  }

  /** The clock is past the session's expiration date. */
  predicate IsExpired(session: Session, now: int) {
    session.expiresAt < now
  }

  /** Every session of `clientId` is gone, all others are untouched. */
  function WithoutClient(m: Sessions, clientId: string): (r: Sessions) {
    map t | t in m && m[t].clientId != clientId :: m[t]
  }

  /** What one pass of the deleting loop may do: it stops at the first session of the
      client it meets, and the order of the pass is not fixed. */
  ghost predicate StoppedAtFirst(m: Sessions, clientId: string, r: Sessions) {
    if exists t :: t in m && m[t].clientId == clientId
    then exists t :: t in m && m[t].clientId == clientId && r == m - {t}
    else r == m
  }

  /** Stopping at the first match removes all sessions of the client, whatever the order
      of the pass, exactly when the client has no second session. */
  lemma StopAtFirstIsEnoughIff(m: Sessions, clientId: string)
    ensures (forall r :: StoppedAtFirst(m, clientId, r) ==> r == WithoutClient(m, clientId))
       <==> (forall t, u :: t in m && u in m && m[t].clientId == m[u].clientId == clientId ==> t == u)
  {
    if exists t, u :: t in m && u in m && m[t].clientId == m[u].clientId == clientId && t != u {
      var t, u :| t in m && u in m && m[t].clientId == m[u].clientId == clientId && t != u;
      assert StoppedAtFirst(m, clientId, m - {t});
      assert u in m - {t} && u !in WithoutClient(m, clientId);
    } else {
      forall r | StoppedAtFirst(m, clientId, r)
        ensures r == WithoutClient(m, clientId)
      {
        if exists t :: t in m && m[t].clientId == clientId {
          var t :| t in m && m[t].clientId == clientId && r == m - {t};
          assert forall u :: u in m && u != t ==> m[u].clientId != clientId;
        }
      }
    }
  }

  /** The map and the answer after `Put`. */
  function PutSpec(m: Sessions, clientId: string, token: string, expiresAt: int): (r: (Sessions, Outcome<Error>)) {
    if clientId == "" then (m, Fail(InvalidClientId))
    else if token == "" then (m, Fail(EmptyToken))
    else if token in m then (m, Fail(TokenInUse))
    else (WithoutClient(m, clientId)[token := Session(clientId, expiresAt)], Pass)
  }

  /** The map and the answer after a `Get` that nothing interrupts. */
  function GetSpec(m: Sessions, token: string, now: int): (r: (Sessions, Result<Session, Error>)) {
    if token !in m then (m, Failure(InvalidToken))
    else if IsExpired(m[token], now) then (m - {token}, Failure(SessionExpired))
    else (m, Success(m[token]))
  }

  /** The rule survives every operation, and a successful `Put` leaves the client with the
      new token and with no other. */
  lemma PutKeepsOnePerClient(m: Sessions, clientId: string, token: string, expiresAt: int)
    requires OnePerClient(m)
    ensures OnePerClient(PutSpec(m, clientId, token, expiresAt).0)
    ensures PutSpec(m, clientId, token, expiresAt).1.Pass? ==>
              forall t :: t in PutSpec(m, clientId, token, expiresAt).0 ==>
                (PutSpec(m, clientId, token, expiresAt).0[t].clientId == clientId <==> t == token)
  {
  }

  /** A session is returned exactly up to its expiration date; an expired one is dropped. */
  lemma GetAnswers(m: Sessions, token: string, now: int)
    ensures var (m', answer) := GetSpec(m, token, now);
            && (answer.Success? <==> token in m && now <= m[token].expiresAt)
            && (answer.Success? ==> answer.value == m[token] && m' == m)
            && (answer == Failure(SessionExpired) <==> token in m && m[token].expiresAt < now)
            && (answer == Failure(SessionExpired) ==> m' == m - {token})
            && (answer == Failure(InvalidToken) <==> token !in m)
            && (answer == Failure(InvalidToken) ==> m' == m)
  {
  }

  /** A token is put exactly when client and token are not empty and nobody has the token; then the
      client's sessions are replaced by the new one, and nothing else changes in any case. */
  lemma PutAnswers(m: Sessions, clientId: string, token: string, expiresAt: int, other: string)
    ensures var (m', answer) := PutSpec(m, clientId, token, expiresAt);
            && (answer.Pass? <==> clientId != "" && token != "" && token !in m)
            && (answer.Fail? ==> m' == m)
            && (answer.Pass? ==> token in m' && m'[token] == Session(clientId, expiresAt))
            && (answer.Pass? && other != token ==>
                  (other in m' <==> other in m && m[other].clientId != clientId) && (other in m' ==> m'[other] == m[other]))
  {
  }

  class SessionCache {
    const expirationMinutes: int
    var sessionMap: Sessions

    ghost predicate Valid()
      reads this
    {
      0 < expirationMinutes && OnePerClient(sessionMap)
    }

    /** The lifetime given to new sessions; the product is a 64-bit one. */
    function Lifetime(): int {
      Wrap64(expirationMinutes * NANOS_PER_MINUTE)
    }

    /** The lifetime is the configured minutes in nanoseconds, exactly as long as these fit into 64 bits. */
    lemma LifetimeIsMinutesIff()
      requires Valid()
      ensures Lifetime() == expirationMinutes * 60 * 1_000_000_000 <==> expirationMinutes <= 153_722_867
    {
      WrapIsExactIffInRange(expirationMinutes * NANOS_PER_MINUTE);
    }

    constructor (expirationMinutes: int)
      requires 0 < expirationMinutes
      ensures Valid() && sessionMap == map[]
      ensures this.expirationMinutes == expirationMinutes
    {
      this.expirationMinutes := expirationMinutes;
      sessionMap := map[];
    }

    /** The source's constructor function: a non-positive lifetime is refused. */
    static method NewSessionCache(expirationMinutes: int) returns (cache: SessionCache?)
      ensures cache == null <==> expirationMinutes <= 0
      ensures cache != null ==>
                fresh(cache) && cache.Valid() && cache.sessionMap == map[]
                && cache.expirationMinutes == expirationMinutes
    {
      if expirationMinutes <= 0 {
        return null;
      }
      cache := new SessionCache(expirationMinutes);
    }

    /** First half of `Get`, under the read lock: copy the session out. */
    method Read(token: string) returns (session: Option<Session>)
      ensures session == if token in sessionMap then Some(sessionMap[token]) else None
    {
      session := if token in sessionMap then Some(sessionMap[token]) else None;
    }

    /** Second half of `Get`, under the write lock: drop the token that was found expired. */
    method Evict(token: string)
      requires Valid()
      modifies this`sessionMap
      ensures Valid() && sessionMap == old(sessionMap) - {token}
    {
      sessionMap := sessionMap - {token};
    }

    method Get(token: string, now: int) returns (r: Result<Session, Error>)
      requires Valid()
      modifies this`sessionMap
      ensures Valid()
      ensures (sessionMap, r) == GetSpec(old(sessionMap), token, now)
    {
      var session := Read(token);
      if session.None? {
        return Failure(InvalidToken);
      }
      if IsExpired(session.value, now) {
        Evict(token);
        return Failure(SessionExpired);
      }
      return Success(session.value);
    }

    method Put(clientId: string, token: string, now: int) returns (r: Outcome<Error>)
      requires Valid()
      modifies this`sessionMap
      ensures Valid()
      ensures (sessionMap, r) == PutSpec(old(sessionMap), clientId, token, now + Lifetime())
    {
      if |clientId| == 0 {
        return Fail(InvalidClientId);
      }
      if |token| == 0 {
        return Fail(EmptyToken);
      }
      if token in sessionMap {
        return Fail(TokenInUse);
      }
      DeleteLocked(clientId);
      sessionMap := sessionMap[token := Session(clientId, now + Lifetime())];
      return Pass;
    }

    method Delete(clientId: string)
      requires Valid()
      modifies this`sessionMap
      ensures Valid() && sessionMap == WithoutClient(old(sessionMap), clientId)
    {
      DeleteLocked(clientId);
    }

    /** The loop over the map, in any order, up to the first session of the client. */
    method DeleteFirst(clientId: string)
      modifies this`sessionMap
      ensures StoppedAtFirst(old(sessionMap), clientId, sessionMap)
    {
      var unvisited := sessionMap.Keys;
      while unvisited != {}
        invariant unvisited <= sessionMap.Keys
        invariant sessionMap == old(sessionMap)
        invariant forall t :: t in sessionMap && t !in unvisited ==> sessionMap[t].clientId != clientId
        decreases unvisited
      {
        var token :| token in unvisited;
        if sessionMap[token].clientId == clientId {
          sessionMap := sessionMap - {token};
          return;
        }
        unvisited := unvisited - {token};
      }
    }

    /** `DeleteFirst` on a map that obeys the rule: the client's sessions are all gone. */
    method DeleteLocked(clientId: string)
      requires Valid()
      modifies this`sessionMap
      ensures Valid() && sessionMap == WithoutClient(old(sessionMap), clientId)
    {
      StopAtFirstIsEnoughIff(sessionMap, clientId);
      DeleteFirst(clientId);
    }
  }
}
