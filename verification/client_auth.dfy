/**
 * `ClientAuth` (`api/src/auth.ts`): the credential cache and the check that
 * fills it. A check is two steps, up to the question to db-proxy and from its
 * answer on.
 */
module ClientAuth {
  import opened Options

  /** A client id and secret; the secret's hash stands for it in a cache key, and no two secrets share one. */
  datatype Credential = Credential(clientId: string, secret: string)

  datatype AuthenticatedClient = AuthenticatedClient(
    description: Option<string>, callbackUrl: Option<string>, callbackToken: Option<string>, boundOrigin: Option<string>)

  datatype CacheEntry = CacheEntry(clientId: string, client: AuthenticatedClient, expiresAt: int)

  /** What comes of asking db-proxy: no answer, a refusal, one that says nothing, a client, or one it should not store. */
  datatype Answer = Unreachable | NotFound | NoVerdict | Found(client: AuthenticatedClient) | Unusable

  /** `Broken` is an exception; the others are what `validate` returns. */
  datatype Verdict = Admitted(client: AuthenticatedClient) | InvalidCredentials | AuthUnavailable | Broken

  datatype Lookup = Known(verdict: Verdict) | Ask(generation: nat)

  datatype Auth = Auth(cache: map<Credential, CacheEntry>, keysByClient: map<string, set<Credential>>, generations: map<string, nat>)

  function Generation(generations: map<string, nat>, clientId: string): nat {
    if clientId in generations then generations[clientId] else 0
  }

  function Bumped(generations: map<string, nat>, clientId: string): map<string, nat> {
    generations[clientId := Generation(generations, clientId) + 1]
  }

  function Held(keysByClient: map<string, set<Credential>>, clientId: string): set<Credential> {
    if clientId in keysByClient then keysByClient[clientId] else {}
  }

  /** `cache` and `keysByClient` index the same entries, and no client is listed without one. */
  ghost predicate Agree(a: Auth) {
    && (forall key :: key in a.cache <==> key in Held(a.keysByClient, key.clientId))
    && (forall c, key :: key in Held(a.keysByClient, c) ==> key.clientId == c)
    && (forall c :: c in a.keysByClient ==> a.keysByClient[c] != {})
    && (forall key :: key in a.cache ==> a.cache[key].clientId == key.clientId)
  }

  function Without(cache: map<Credential, CacheEntry>, gone: set<Credential>): (rest: map<Credential, CacheEntry>)
    ensures rest.Keys == cache.Keys - gone && forall key :: key in rest ==> rest[key] == cache[key]
  {
    map key | key in cache && key !in gone :: cache[key]
  }

  function Forgotten(a: Auth, key: Credential): Auth {
    var keys := Held(a.keysByClient, key.clientId) - {key};
    Auth(Without(a.cache, {key}), if keys == {} then a.keysByClient - {key.clientId} else a.keysByClient[key.clientId := keys],
         a.generations)
  }

  function Expired(cache: map<Credential, CacheEntry>, keys: set<Credential>, now: int): set<Credential> {
    set key | key in keys && (key !in cache || cache[key].expiresAt <= now)
  }

  /** A success is cached, and the client's expired entries go. */
  function Remembered(a: Auth, key: Credential, client: AuthenticatedClient, now: int, ttlMs: int): Auth {
    var c := key.clientId;
    var expired := Expired(a.cache, Held(a.keysByClient, c), now);
    Auth(Without(a.cache, expired)[key := CacheEntry(c, client, now + ttlMs)],
         a.keysByClient[c := Held(a.keysByClient, c) - expired + {key}], a.generations)
  }

  function Invalidated(a: Auth, clientId: string): Auth {
    Auth(Without(a.cache, Held(a.keysByClient, clientId)), a.keysByClient - {clientId}, Bumped(a.generations, clientId))
  }

  function Looked(a: Auth, key: Credential, now: int): (Auth, Lookup) {
    if key.clientId == "" || key.secret == "" then (a, Known(InvalidCredentials))
    else if key in a.cache && a.cache[key].expiresAt > now then (a, Known(Admitted(a.cache[key].client)))
    else (if key in a.cache then Forgotten(a, key) else a, Ask(Generation(a.generations, key.clientId)))
  }

  function Judged(answer: Answer): Verdict {
    match answer
    case Found(client) => Admitted(client)
    case NotFound => InvalidCredentials
    case Unusable => Broken
    case _ => AuthUnavailable
  }

  function Replied(a: Auth, key: Credential, generation: nat, answer: Answer, now: int, ttlMs: int): Auth {
    if answer.Found? && Generation(a.generations, key.clientId) == generation
    then Remembered(a, key, answer.client, now, ttlMs) else a
  }

  // ----- what each step does to the cache, key by key --------------------------------------------------------

  lemma ForgottenAgrees(a: Auth, key: Credential)
    requires Agree(a)
    ensures Agree(Forgotten(a, key)) && Forgotten(a, key).cache == a.cache - {key}
  {
    HeldForgotten(a, key);
    assert forall k :: k in Forgotten(a, key).cache <==> k in a.cache && k != key;
    assert forall k :: k in Forgotten(a, key).cache ==> Forgotten(a, key).cache[k] == a.cache[k];
    hide Forgotten, Held;
  }

  lemma HeldForgotten(a: Auth, key: Credential)
    requires Agree(a)
    ensures forall c :: Held(Forgotten(a, key).keysByClient, c) == Held(a.keysByClient, c) - {key}
    ensures forall c :: c in Forgotten(a, key).keysByClient ==> Forgotten(a, key).keysByClient[c] != {}
  {
    forall c ensures Held(Forgotten(a, key).keysByClient, c) == Held(a.keysByClient, c) - {key} {
      assert key in Held(a.keysByClient, c) ==> c == key.clientId;
    }
  }

  lemma HeldRemembered(a: Auth, key: Credential, client: AuthenticatedClient, now: int, ttlMs: int)
    requires Agree(a)
    ensures var a', expired := Remembered(a, key, client, now, ttlMs), Expired(a.cache, Held(a.keysByClient, key.clientId), now);
      && (forall c :: Held(a'.keysByClient, c) == Held(a.keysByClient, c) - expired + (if c == key.clientId then {key} else {}))
      && (forall c :: c in a'.keysByClient ==> a'.keysByClient[c] != {})
      && (forall k :: k in a'.cache <==> k == key || (k in a.cache && k !in expired))
      && (forall k :: k in a'.cache && k != key ==> a'.cache[k] == a.cache[k])
  {
    var a', expired := Remembered(a, key, client, now, ttlMs), Expired(a.cache, Held(a.keysByClient, key.clientId), now);
    forall c | c != key.clientId ensures Held(a'.keysByClient, c) == Held(a.keysByClient, c) - expired {
      forall k | k in Held(a.keysByClient, c) ensures k !in expired {
        assert k.clientId == c;
      }
    }
    assert key in a'.keysByClient[key.clientId];
  }

  lemma RememberedAgrees(a: Auth, key: Credential, client: AuthenticatedClient, now: int, ttlMs: int)
    requires Agree(a)
    ensures Agree(Remembered(a, key, client, now, ttlMs))
  {
    var a' := Remembered(a, key, client, now, ttlMs);
    HeldRemembered(a, key, client, now, ttlMs);
    assert a'.cache[key].clientId == key.clientId;
    hide Remembered, Held, Expired;
    forall k ensures k in a'.cache <==> k in Held(a'.keysByClient, k.clientId) {
      assert k in a.cache <==> k in Held(a.keysByClient, k.clientId);
    }
  }

  lemma InvalidatedAgrees(a: Auth, clientId: string)
    requires Agree(a)
    ensures Agree(Invalidated(a, clientId))
    ensures forall key :: key in Invalidated(a, clientId).cache <==> key in a.cache && key.clientId != clientId
  {
    var a' := Invalidated(a, clientId);
    forall c ensures Held(a'.keysByClient, c) == if c == clientId then {} else Held(a.keysByClient, c) {
    }
    hide Held;
    forall k ensures k in a'.cache <==> k in a.cache && k.clientId != clientId {
      assert k in Held(a.keysByClient, clientId) ==> k.clientId == clientId;
    }
  }

  /**
   * What `remember` leaves: the new success for `ttlMs`, nothing expired of
   * this client, and every other entry as it was.
   */
  lemma RememberedKeepsTheRest(a: Auth, key: Credential, client: AuthenticatedClient, now: int, ttlMs: int)
    requires Agree(a) && ttlMs > 0
    ensures var cache := Remembered(a, key, client, now, ttlMs).cache;
      && key in cache && cache[key] == CacheEntry(key.clientId, client, now + ttlMs)
      && (forall k :: k in cache && k.clientId == key.clientId ==> cache[k].expiresAt > now)
      && (forall k :: k in a.cache && k != key && (k.clientId != key.clientId || a.cache[k].expiresAt > now)
            ==> k in cache && cache[k] == a.cache[k])
      && (forall k :: k in cache && k != key ==> k in a.cache && cache[k] == a.cache[k])
  {
    forall k | k in a.cache && k.clientId != key.clientId
      ensures k !in Held(a.keysByClient, key.clientId)
    {
    }
  }

  // ----- the object ---------------------------------------------------------------------------------------

  class CredentialChecks {
    const ttlMs: int
    var cache: map<Credential, CacheEntry>
    var keysByClient: map<string, set<Credential>>
    var generations: map<string, nat>

    function Now(): Auth
      reads this
    {
      Auth(cache, keysByClient, generations)
    }

    ghost predicate Valid()
      reads this
    {
      ttlMs > 0 && Agree(Now())
    }

    constructor (ttlMs: int)
      requires ttlMs > 0
      ensures Valid() && Now() == Auth(map[], map[], map[]) && this.ttlMs == ttlMs
    {
      this.ttlMs := ttlMs;
      cache, keysByClient, generations := map[], map[], map[];
    }

    /** `validate` up to its question: a cached answer, or the generation the question is asked under. */
    method BeginValidate(key: Credential, now: int) returns (looked: Lookup)
      requires Valid()
      modifies this
      ensures Valid() && (Now(), looked) == Looked(old(Now()), key, now)
    {
      if key.clientId == "" || key.secret == "" {
        return Known(InvalidCredentials);
      }
      if key in cache {
        if cache[key].expiresAt > now {
          return Known(Admitted(cache[key].client));
        }
        ForgottenAgrees(Now(), key);
        Forget(key);
      }
      looked := Ask(Generation(generations, key.clientId));
    }

    /** `validate` from db-proxy's answer on. */
    method EndValidate(key: Credential, generation: nat, answer: Answer, now: int) returns (verdict: Verdict)
      requires Valid()
      modifies this
      ensures Valid() && verdict == Judged(answer) && Now() == Replied(old(Now()), key, generation, answer, now, ttlMs)
    {
      match answer
      case Unreachable => verdict := AuthUnavailable;
      case NotFound => verdict := InvalidCredentials;
      case NoVerdict => verdict := AuthUnavailable;
      case Unusable => verdict := Broken;
      case Found(client) =>
        if Generation(generations, key.clientId) == generation {
          RememberedAgrees(Now(), key, client, now, ttlMs);
          Remember(key, client, now);
        }
        verdict := Admitted(client);
    }

    method InvalidateCache(clientId: string)
      requires Valid()
      modifies this
      ensures Valid() && Now() == Invalidated(old(Now()), clientId)
    {
      InvalidatedAgrees(Now(), clientId);
      hide Agree;
      generations := generations[clientId := Generation(generations, clientId) + 1];
      if clientId !in keysByClient {
        assert Held(keysByClient, clientId) == {} && keysByClient - {clientId} == keysByClient;
        assert Without(cache, {}) == cache;
        return;
      }
      DropKeys(keysByClient[clientId]);
      keysByClient := keysByClient - {clientId};
    }

    method DropKeys(listed: set<Credential>)
      modifies this`cache
      ensures cache == Without(old(cache), listed)
    {
      var keys := listed;
      while keys != {}
        invariant keys <= listed && cache == Without(old(cache), listed - keys)
        modifies this`cache
      {
        var key :| key in keys;
        cache := cache - {key};
        keys := keys - {key};
      }
    }

    method Remember(key: Credential, client: AuthenticatedClient, now: int)
      modifies this`cache, this`keysByClient
      ensures Now() == Remembered(old(Now()), key, client, now, ttlMs)
    {
      var c := key.clientId;
      if c !in keysByClient {
        keysByClient := keysByClient[c := {}];
      }
      ghost var was, held := cache, keysByClient[c];
      var keys := keysByClient[c];
      assert Expired(was, held - keys, now) == {};
      while keys != {}
        invariant keys <= held && c in keysByClient
        invariant keysByClient[c] == held - Expired(was, held - keys, now)
        invariant keysByClient == old(keysByClient)[c := keysByClient[c]]
        invariant cache == Without(was, Expired(was, held - keys, now))
        modifies this`cache, this`keysByClient
      {
        var next :| next in keys;
        assert next in cache <==> next in was;
        assert Expired(was, held - (keys - {next}), now)
            == Expired(was, held - keys, now) + (if next !in was || was[next].expiresAt <= now then {next} else {});
        assert next !in Expired(was, held - keys, now);
        if next !in cache || cache[next].expiresAt <= now {
          cache := cache - {next};
          keysByClient := keysByClient[c := keysByClient[c] - {next}];
        }
        keys := keys - {next};
      }
      cache := cache[key := CacheEntry(c, client, now + ttlMs)];
      keysByClient := keysByClient[c := keysByClient[c] + {key}];
    }

    method Forget(key: Credential)
      modifies this`cache, this`keysByClient
      ensures Now() == Forgotten(old(Now()), key)
    {
      assert Without(cache, {key}) == cache - {key};
      assert Held(keysByClient, key.clientId) == {} ==> keysByClient - {key.clientId} == keysByClient || key.clientId in keysByClient;
      cache := cache - {key};
      if key.clientId !in keysByClient {
        return;
      }
      keysByClient := keysByClient[key.clientId := keysByClient[key.clientId] - {key}];
      if keysByClient[key.clientId] == {} {
        keysByClient := keysByClient - {key.clientId};
      }
    }
  }
}
