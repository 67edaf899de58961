/** Registration, authentication and login of clients, over the store and the session cache. */
module Auth {
  import opened Wrappers
  import opened JobTypes
  import Store
  import Cache = SessionCache

  const MIN_KEY_LEN: nat := 32
  /** The hash refuses longer keys. */
  const MAX_KEY_LEN: nat := 72

  datatype RegisterResult = Registered | KeyTooShort | AlreadyRegistered | RegisterFailed

  /** The state the calls work on: the stored values and the cached sessions. */
  datatype State = State(db: map<string, Value>, sessions: Cache.Sessions)

  function HashKey(key: string, salt: nat): (r: Option<Value>) {
    if key == "" || MAX_KEY_LEN < |key| then None else Some(KeyHash(key, salt))
  }

  const ZERO_BYTE: char := '\0'

  /** What the hash takes in of a key: 72 bytes of the key and a zero byte, over and over.  It
      is one-to-one on these. */
  function Material(key: string): (m: string)
    ensures |m| == MAX_KEY_LEN
  {
    seq(MAX_KEY_LEN, i requires 0 <= i < MAX_KEY_LEN => (key + [ZERO_BYTE])[i % (|key| + 1)])
  }

  predicate HashMatches(hash: Value, key: string) {
    key != "" && hash.KeyHash? && Material(hash.key) == Material(key)
  }

  lemma MaterialAt(key: string, i: nat)
    requires i < MAX_KEY_LEN && i <= |key|
    ensures Material(key)[i] == if i < |key| then key[i] else ZERO_BYTE
  {
    assert i % (|key| + 1) == i;
  }

  /** Keys without zero bytes are told apart, but for what follows the 72nd byte. */
  lemma MaterialIff(key: string, other: string)
    requires |key| <= MAX_KEY_LEN && ZERO_BYTE !in key && ZERO_BYTE !in other
    ensures Material(key) == Material(other) <==> other == key || (|key| == MAX_KEY_LEN && key <= other)
  {
    var n := if |key| < |other| then |key| else |other|;
    if Material(key) == Material(other) {
      if n < MAX_KEY_LEN {
        MaterialAt(key, n);
        MaterialAt(other, n);
      }
      forall i: nat | i < n && i < MAX_KEY_LEN
        ensures key[i] == other[i]
      {
        MaterialAt(key, i);
        MaterialAt(other, i);
      }
    }
    if |key| == MAX_KEY_LEN && key <= other {
      forall i: nat | i < MAX_KEY_LEN
        ensures Material(key)[i] == Material(other)[i]
      {
        MaterialAt(key, i);
        MaterialAt(other, i);
      }
    }
  }

  function AuthenticateSpec(db: map<string, Value>, id: string, key: string, readFails: bool): (ok: bool) {
    var hash: Result<Value, Store.Error> := Store.GetSpec(db, id, readFails);
    hash.Success? && HashMatches(hash.value, key)
  }

  function RegisterSpec(db: map<string, Value>, id: string, key: string, salt: nat, readFails: bool, fault: Store.Fault)
    : (r: (map<string, Value>, RegisterResult))
  {
    var found: Result<Value, Store.Error> := Store.GetSpec(db, id, readFails);
    var hash := HashKey(key, salt);
    if |key| < MIN_KEY_LEN then (db, KeyTooShort)
    else if found.Success? then (db, AlreadyRegistered)
    else if found.error != Store.NotFound then (db, RegisterFailed)
    else if hash.None? then (db, RegisterFailed)
    else
      var (db', answer) := Store.PutSpec(db, id, hash.value, fault);
      (db', if answer.Pass? then Registered else if answer.error == Store.Conflict then AlreadyRegistered else RegisterFailed)
  }

  function UnregisterSpec(s: State, id: string, readFails: bool, fault: Store.Fault): (r: (State, bool)) {
    var found: Result<Value, Store.Error> := Store.GetSpec(s.db, id, readFails);
    if found.Failure? then (s, false)
    else
      var (db, answer) := Store.DeleteSpec(s.db, id, fault);
      if answer.Fail? then (s.(db := db), false)
      else (State(db, Cache.WithoutClient(s.sessions, id)), true)
  }

  /** `token` is what the random source produced, if anything. */
  function LoginSpec(s: State, id: string, key: string, token: Option<string>, expiresAt: int, readFails: bool)
    : (r: (State, Option<string>))
  {
    if !AuthenticateSpec(s.db, id, key, readFails) || token.None? then (s, None)
    else
      var (sessions, answer) := Cache.PutSpec(s.sessions, id, token.value, expiresAt);
      (s.(sessions := sessions), if answer.Pass? then token else None)
  }

  /** Without faults, registering succeeds exactly for a new non-empty id with a key of an
      acceptable length.  Then the id is authenticated by that key, by no other key as long as
      neither has zero bytes, and beyond that only by what continues a key of full length. */
  lemma RegisteredKeyAuthenticates(db: map<string, Value>, id: string, key: string, salt: nat, other: string)
    ensures var (db', answer) := RegisterSpec(db, id, key, salt, false, Store.NoFault);
            && (answer.Registered? <==> id != "" && id !in db && MIN_KEY_LEN <= |key| <= MAX_KEY_LEN)
            && (answer.Registered? ==> AuthenticateSpec(db', id, key, false))
            && (answer.Registered? && ZERO_BYTE !in key && ZERO_BYTE !in other ==>
                  (AuthenticateSpec(db', id, other, false) <==> other == key || (|key| == MAX_KEY_LEN && key <= other)))
            && (!answer.Registered? ==> db' == db)
  {
    if |key| <= MAX_KEY_LEN && ZERO_BYTE !in key && ZERO_BYTE !in other {
      MaterialIff(key, other);
    }
  }

  /** Who is registered, with what answer, and what is stored, with any fault. */
  lemma RegisterAnswers(db: map<string, Value>, id: string, key: string, salt: nat, readFails: bool, fault: Store.Fault)
    ensures var (db', answer) := RegisterSpec(db, id, key, salt, readFails, fault);
            && (answer.KeyTooShort? <==> |key| < 32)
            && (answer.AlreadyRegistered? <==> 32 <= |key| && id != "" && !readFails && id in db)
            && (answer.Registered? <==> 32 <= |key| <= 72 && id != "" && !readFails && id !in db && fault.NoFault?)
            && db' == if 32 <= |key| <= 72 && id != "" && !readFails && id !in db && !fault.WriteFails?
                      then db[id := KeyHash(key, salt)] else db
  {
  }

  /** A client is unregistered exactly when it is stored and the delete reports no error; only then
      are its sessions dropped, while the registration is gone unless the write failed. */
  lemma UnregisterAnswers(s: State, id: string, readFails: bool, fault: Store.Fault, token: string)
    ensures var (s', ok) := UnregisterSpec(s, id, readFails, fault);
            && (ok <==> id != "" && !readFails && id in s.db && fault.NoFault?)
            && s'.db == (if id != "" && !readFails && id in s.db && !fault.WriteFails? then s.db - {id} else s.db)
            && (token in s'.sessions <==> token in s.sessions && (ok ==> s.sessions[token].clientId != id))
            && (token in s'.sessions ==> s'.sessions[token] == s.sessions[token])
  {
  }

  /** A login hands out the new token exactly to a stored client with its key, if there is a token
      and nobody has it; then it is the client's only session. */
  lemma LoginAnswers(s: State, id: string, key: string, token: Option<string>, expiresAt: int, readFails: bool, other: string)
    ensures var (s', answer) := LoginSpec(s, id, key, token, expiresAt, readFails);
            && (answer.Some? <==> && id != "" && !readFails && id in s.db && HashMatches(s.db[id], key)
                                  && token.Some? && token.value != "" && token.value !in s.sessions)
            && (answer.None? ==> s' == s)
            && (answer.Some? ==>
                  && answer == token && s'.db == s.db
                  && token.value in s'.sessions && s'.sessions[token.value] == Cache.Session(id, expiresAt)
                  && (other != token.value ==>
                        && (other in s'.sessions <==> other in s.sessions && s.sessions[other].clientId != id)
                        && (other in s'.sessions ==> s'.sessions[other] == s.sessions[other])))
  {
  }

  class AuthService {
    const store: Store.BitcaskStore<Value>
    const sessionCache: Cache.SessionCache

    ghost predicate Valid()
      reads sessionCache
    {
      sessionCache.Valid()
    }

    ghost function Now(): State
      reads store, sessionCache
    {
      State(store.db, sessionCache.sessionMap)
    }

    constructor (store: Store.BitcaskStore<Value>, sessionCache: Cache.SessionCache)
      requires sessionCache.Valid()
      ensures this.store == store && this.sessionCache == sessionCache && Valid()
    {
      this.store := store;
      this.sessionCache := sessionCache;
    }

    method Authenticate(id: string, authToken: string, readFails: bool) returns (ok: bool)
      ensures ok == AuthenticateSpec(store.db, id, authToken, readFails)
    {
      var hash := store.Get(id, readFails);
      if hash.Failure? {
        return false;
      }
      return HashMatches(hash.value, authToken);
    }

    method Register(id: string, key: string, salt: nat, readFails: bool, fault: Store.Fault) returns (r: RegisterResult)
      modifies store
      ensures (store.db, r) == RegisterSpec(old(store.db), id, key, salt, readFails, fault)
    {
      if |key| < MIN_KEY_LEN {
        return KeyTooShort;
      }
      var found := store.Get(id, readFails);
      if found.Success? {
        return AlreadyRegistered;
      } else if found.error != Store.NotFound {
        return RegisterFailed;
      }
      var hash := HashKey(key, salt);
      if hash.None? {
        return RegisterFailed;
      }
      var answer := store.Put(id, hash.value, fault);
      match answer {
        case Pass => return Registered;
        case Fail(e) => return if e == Store.Conflict then AlreadyRegistered else RegisterFailed;
      }
    }

    method Unregister(id: string, readFails: bool, fault: Store.Fault) returns (ok: bool)
      requires Valid()
      modifies store, sessionCache`sessionMap
      ensures Valid()
      ensures (Now(), ok) == UnregisterSpec(old(Now()), id, readFails, fault)
    {
      var found := store.Get(id, readFails);
      if found.Failure? {
        return false;
      }
      var answer := store.Delete(id, fault);
      if answer.Fail? {
        return false;
      }
      sessionCache.Delete(id);
      return true;
    }

    method Login(id: string, key: string, token: Option<string>, now: int, readFails: bool) returns (r: Option<string>)
      requires Valid()
      modifies sessionCache`sessionMap
      ensures Valid()
      ensures (Now(), r) == LoginSpec(old(Now()), id, key, token, now + sessionCache.Lifetime(), readFails)
    {
      var ok := Authenticate(id, key, readFails);
      if !ok || token.None? {
        return None;
      }
      var answer := sessionCache.Put(id, token.value, now);
      return if answer.Pass? then token else None;
    }
  }
}
