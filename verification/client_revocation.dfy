/**
 * `ApiGateway.authenticate` (`api/src/gateway.ts`) racing `ClientRevoker.revoke`
 * and db-proxy's own deletes, as a state machine. A call is three steps apart:
 * it starts, db-proxy answers its question (reading its rows at some moment in
 * between), and it goes on to register a lease.
 */
module ClientRevocation {
  import opened Options
  import opened ClientAuth
  import opened ClientSessions

  /**
   * One `authenticate` call. `asked` says it had to ask db-proxy; `answer` is
   * what db-proxy answered, read before it arrives; `repliedAt` is when it arrived.
   */
  datatype Call = Call(
    key: Credential, connection: Connection, seen: nat, asked: bool, asking: nat,
    answer: Option<Answer>, verdict: Option<Verdict>, repliedAt: int, finished: bool, lease: Option<nat>)

  /** `clients` are db-proxy's rows, `ids` every client id it has given out, `gone` the ids revoked after their row was deleted. */
  datatype State = State(
    ttlMs: int, now: int, clients: map<Credential, AuthenticatedClient>, ids: set<string>,
    auth: Auth, sessions: Sessions, calls: seq<Call>, gone: set<string>)

  datatype Action =
    | Create(key: Credential, client: AuthenticatedClient)
    | Delete(clientId: string)
    | Revoke(clientId: string)
    | Start(key: Credential, connection: Connection)
    | DbReads(call: nat, answer: Answer)
    | DbReplies(call: nat)
    | Finish(call: nat)
    | Dispose(lease: nat)
    | End(connection: Connection)
    | CloseDeferred
    | Tick(ms: nat)

  predicate Stored(clients: map<Credential, AuthenticatedClient>, clientId: string) {
    exists key :: key in clients && key.clientId == clientId
  }

  /** db-proxy answers from its rows, or not at all; no more is known of an answer that is not a verdict. */
  predicate Truthful(clients: map<Credential, AuthenticatedClient>, key: Credential, answer: Answer) {
    match answer
    case Found(client) => key in clients && clients[key] == client
    case NotFound => key !in clients
    case _ => true
  }

  predicate Enabled(s: State, a: Action) {
    match a
    case Create(key, _) => key.clientId !in s.ids
    case DbReads(i, answer) =>
      i < |s.calls| && s.calls[i].asked && s.calls[i].answer.None? && Truthful(s.clients, s.calls[i].key, answer)
    case DbReplies(i) => i < |s.calls| && s.calls[i].answer.Some? && s.calls[i].verdict.None?
    case Finish(i) => i < |s.calls| && s.calls[i].verdict.Some? && !s.calls[i].finished
    case Dispose(l) => l < |s.sessions.leases|
    case CloseDeferred => s.sessions.deferred != []
    case _ => true
  }

  function Started(s: State, key: Credential, connection: Connection): State {
    var seen := Generation(s.sessions.generations, key.clientId);
    var (auth, looked) := Looked(s.auth, key, s.now);
    var call := match looked
      case Known(verdict) => Call(key, connection, seen, false, 0, None, Some(verdict), s.now, false, None)
      case Ask(generation) => Call(key, connection, seen, true, generation, None, None, 0, false, None);
    s.(auth := auth, calls := s.calls + [call])
  }

  /** The origin a paired client must come from, when it is bound to one. */
  predicate FromItsOrigin(client: AuthenticatedClient, connection: Connection) {
    client.boundOrigin.None? || connection.origin == client.boundOrigin
  }

  /** The rest of `authenticate`, once its verdict is in: only an admitted client from its own origin registers. */
  function Concluded(s: Sessions, key: Credential, seen: nat, connection: Connection, verdict: Verdict): (Sessions, Option<nat>) {
    if verdict.Admitted? && FromItsOrigin(verdict.client, connection) then Registered(s, key.clientId, seen, connection)
    else (s, None)
  }

  function Finished(s: State, i: nat): State
    requires i < |s.calls| && s.calls[i].verdict.Some?
  {
    var call := s.calls[i];
    var (sessions, lease) := Concluded(s.sessions, call.key, call.seen, call.connection, call.verdict.value);
    s.(sessions := sessions, calls := s.calls[i := call.(finished := true, lease := lease)])
  }

  function Step(s: State, a: Action): State
    requires Enabled(s, a)
  {
    match a
    case Create(key, client) => s.(clients := s.clients[key := client], ids := s.ids + {key.clientId})
    case Delete(c) => s.(clients := map key | key in s.clients && key.clientId != c :: s.clients[key])
    case Revoke(c) =>
      s.(auth := Invalidated(s.auth, c), sessions := Revoked(s.sessions, c),
         gone := if c in s.ids && !Stored(s.clients, c) then s.gone + {c} else s.gone)
    case Start(key, connection) => Started(s, key, connection)
    case DbReads(i, answer) => s.(calls := s.calls[i := s.calls[i].(answer := Some(answer))])
    case DbReplies(i) =>
      var call := s.calls[i];
      s.(auth := Replied(s.auth, call.key, call.asking, call.answer.value, s.now, s.ttlMs),
         calls := s.calls[i := call.(verdict := Some(Judged(call.answer.value)), repliedAt := s.now)])
    case Finish(i) => Finished(s, i)
    case Dispose(l) => s.(sessions := ClientSessions.Released(s.sessions, l))
    case End(connection) => s.(sessions := ClientSessions.Ended(s.sessions, connection))
    case CloseDeferred => s.(sessions := Closed(s.sessions))
    case Tick(ms) => s.(now := s.now + ms)
  }

  ghost predicate Initial(s: State) {
    && s.ttlMs > 0 && s.clients == map[] && s.ids == {} && s.auth == Auth(map[], map[], map[])
    && s.sessions == Sessions(map[], map[], map[], [], {}, [], []) && s.calls == [] && s.gone == {}
  }

  ghost predicate IsRun(states: seq<State>, actions: seq<Action>) {
    && |states| == |actions| + 1 && Initial(states[0])
    && forall i :: 0 <= i < |actions| ==> Enabled(states[i], actions[i]) && states[i + 1] == Step(states[i], actions[i])
  }

  // ----- what every reachable state satisfies ---------------------------------------------------------------

  function SessionGeneration(s: State, c: string): nat { Generation(s.sessions.generations, c) }

  function AuthGeneration(s: State, c: string): nat { Generation(s.auth.generations, c) }

  /** A cached success is what db-proxy answered a question about exactly that credential, asked since the last invalidation. */
  predicate Vouches(s: State, key: Credential, entry: CacheEntry, i: nat) {
    && i < |s.calls| && s.calls[i].key == key && s.calls[i].asked && s.calls[i].answer == Some(Found(entry.client))
    && s.calls[i].verdict.Some? && s.calls[i].repliedAt + s.ttlMs == entry.expiresAt
    && s.calls[i].asking == AuthGeneration(s, key.clientId)
  }

  ghost predicate CacheVouched(s: State) {
    forall key :: key in s.auth.cache ==> exists i :: Vouches(s, key, s.auth.cache[key], i)
  }

  ghost predicate CallsInOrder(s: State) {
    forall i :: 0 <= i < |s.calls| ==>
      && s.calls[i].seen <= SessionGeneration(s, s.calls[i].key.clientId)
      && (s.calls[i].asked ==> s.calls[i].asking <= AuthGeneration(s, s.calls[i].key.clientId))
      && (s.calls[i].answer.Some? ==> s.calls[i].asked) && (!s.calls[i].finished ==> s.calls[i].lease.None?)
      && (s.calls[i].asked && s.calls[i].verdict.Some? ==>
            s.calls[i].answer.Some? && s.calls[i].verdict.value == Judged(s.calls[i].answer.value))
  }

  predicate FoundFor(call: Call) {
    call.answer.Some? && call.answer.value.Found?
  }

  /** A call for a client that is gone cannot come to anything: it began before, or it was not admitted. */
  predicate Hopeless(s: State, call: Call) {
    && (call.seen < SessionGeneration(s, call.key.clientId)
        || (!FoundFor(call) && (call.verdict.Some? ==> !call.verdict.value.Admitted?)))
    && (call.asked && FoundFor(call) ==> call.asking < AuthGeneration(s, call.key.clientId))
  }

  ghost predicate GoneClientsShutOut(s: State) {
    && (forall c :: c in s.gone ==> c in s.ids)
    && (forall key :: key in s.clients ==> key.clientId in s.ids && key.clientId !in s.gone)
    && (forall key :: key in s.auth.cache ==> key.clientId !in s.gone)
    && (forall i :: 0 <= i < |s.calls| && s.calls[i].key.clientId in s.gone ==> Hopeless(s, s.calls[i]))
    && (forall l :: 0 <= l < |s.sessions.leases| && s.sessions.leases[l].client in s.gone ==>
          s.sessions.leases[l].seen < SessionGeneration(s, s.sessions.leases[l].client))
  }

  ghost predicate Inv(s: State) {
    && s.ttlMs > 0 && Agree(s.auth) && ClientSessions.Inv(s.sessions)
    && CacheVouched(s) && CallsInOrder(s) && GoneClientsShutOut(s)
  }

  lemma InitialSatisfiesInv(s: State)
    requires Initial(s)
    ensures Inv(s)
  {
  }

  // ----- one lemma per part of the invariant ---------------------------------------------------------------

  lemma StepKeepsSessions(s: State, a: Action)
    requires Inv(s) && Enabled(s, a)
    ensures ClientSessions.Inv(Step(s, a).sessions)
  {
    hide ClientSessions.Inv, Agree, CacheVouched, CallsInOrder, GoneClientsShutOut;
    match a
    case Revoke(c) => RevokedKeeps(s.sessions, c);
    case Finish(i) =>
      var call := s.calls[i];
      RegisteredKeeps(s.sessions, call.key.clientId, call.seen, call.connection);
    case Dispose(l) => ReleasedKeeps(s.sessions, l);
    case End(connection) => EndedKeeps(s.sessions, connection);
    case CloseDeferred => ClosesWhatNoLeaseHolds(s.sessions);
    case _ =>
  }

  lemma LookedAgrees(a: Auth, key: Credential, now: int)
    requires Agree(a)
    ensures Agree(Looked(a, key, now).0) && Looked(a, key, now).0.generations == a.generations
    ensures forall k :: k in Looked(a, key, now).0.cache ==> k in a.cache && Looked(a, key, now).0.cache[k] == a.cache[k]
    ensures Looked(a, key, now).1.Known? && Looked(a, key, now).1.verdict.Admitted? ==> key in a.cache
  {
    if key in a.cache {
      ForgottenAgrees(a, key);
    }
    hide Agree;
  }

  lemma RepliedAgrees(a: Auth, key: Credential, generation: nat, answer: Answer, now: int, ttlMs: int)
    requires Agree(a) && ttlMs > 0
    ensures var a' := Replied(a, key, generation, answer, now, ttlMs);
      && Agree(a') && a'.generations == a.generations
      && forall k :: k in a'.cache ==>
           || (k in a.cache && a'.cache[k] == a.cache[k])
           || (k == key && answer.Found? && a'.cache[k] == CacheEntry(key.clientId, answer.client, now + ttlMs)
               && generation == Generation(a.generations, key.clientId))
  {
    if answer.Found? && Generation(a.generations, key.clientId) == generation {
      RememberedAgrees(a, key, answer.client, now, ttlMs);
      RememberedKeepsTheRest(a, key, answer.client, now, ttlMs);
    }
    hide Agree;
  }

  lemma StepKeepsCache(s: State, a: Action)
    requires Inv(s) && Enabled(s, a)
    ensures Agree(Step(s, a).auth)
  {
    hide ClientSessions.Inv, Agree, CacheVouched, CallsInOrder, GoneClientsShutOut;
    match a
    case Start(key, _) => LookedAgrees(s.auth, key, s.now);
    case DbReplies(i) =>
      RepliedAgrees(s.auth, s.calls[i].key, s.calls[i].asking, s.calls[i].answer.value, s.now, s.ttlMs);
    case Revoke(c) => InvalidatedAgrees(s.auth, c);
    case _ =>
  }

  /** The calls keep their order, and what a call has become known as. */
  predicate Grows(s: State, s': State) {
    && |s.calls| <= |s'.calls|
    && forall i :: 0 <= i < |s.calls| ==>
         && s'.calls[i].key == s.calls[i].key && s'.calls[i].asked == s.calls[i].asked && s'.calls[i].asking == s.calls[i].asking
         && s'.calls[i].seen == s.calls[i].seen
         && (s.calls[i].answer.Some? ==> s'.calls[i].answer == s.calls[i].answer)
         && (s.calls[i].verdict.Some? ==> s'.calls[i].verdict == s.calls[i].verdict && s'.calls[i].repliedAt == s.calls[i].repliedAt)
  }

  lemma StepGrows(s: State, a: Action)
    requires Enabled(s, a)
    ensures Grows(s, Step(s, a)) && Step(s, a).ttlMs == s.ttlMs && s.gone <= Step(s, a).gone
  {
  }

  lemma StepRaisesGenerations(s: State, a: Action, c: string)
    requires Enabled(s, a)
    ensures SessionGeneration(Step(s, a), c) == SessionGeneration(s, c) + (if a == Revoke(c) then 1 else 0)
    ensures AuthGeneration(Step(s, a), c) == AuthGeneration(s, c) + (if a == Revoke(c) then 1 else 0)
  {
  }

  lemma VouchKept(s: State, a: Action, key: Credential)
    requires CacheVouched(s) && Enabled(s, a) && key in s.auth.cache && a != Revoke(key.clientId)
    ensures exists i :: Vouches(Step(s, a), key, s.auth.cache[key], i)
  {
    var i :| Vouches(s, key, s.auth.cache[key], i);
    StepGrows(s, a);
    StepRaisesGenerations(s, a, key.clientId);
    hide Step;
    assert Vouches(Step(s, a), key, s.auth.cache[key], i);
  }

  lemma StepKeepsVouched(s: State, a: Action)
    requires Inv(s) && Enabled(s, a)
    ensures CacheVouched(Step(s, a))
  {
    var s' := Step(s, a);
    CacheComesFrom(s, a);
    hide Agree, ClientSessions.Inv, CallsInOrder, GoneClientsShutOut, Step, Enabled;
    forall key | key in s'.auth.cache ensures exists i :: Vouches(s', key, s'.auth.cache[key], i) {
      if key in s.auth.cache && s'.auth.cache[key] == s.auth.cache[key] && a != Revoke(key.clientId) {
        VouchKept(s, a, key);
      } else {
        assert Vouches(s', key, s'.auth.cache[key], a.call);
      }
    }
  }

  /** A cache entry after a step was there before, or the step's reply made it. */
  lemma CacheComesFrom(s: State, a: Action)
    requires Inv(s) && Enabled(s, a)
    ensures forall key :: key in Step(s, a).auth.cache ==>
      || (key in s.auth.cache && Step(s, a).auth.cache[key] == s.auth.cache[key] && a != Revoke(key.clientId))
      || (a.DbReplies? && FoundFor(s.calls[a.call]) && s.calls[a.call].asked && s.calls[a.call].key == key
          && s.calls[a.call].asking == AuthGeneration(s, key.clientId)
          && Vouches(Step(s, a), key, Step(s, a).auth.cache[key], a.call))
  {
    if a.DbReplies? {
      assert CallsInOrder(s);
      hide ClientSessions.Inv, CacheVouched, GoneClientsShutOut, Vouches, Step, Agree;
      ReplyMakesEntry(s, a.call);
    } else {
      hide ClientSessions.Inv, CacheVouched, CallsInOrder, GoneClientsShutOut, Vouches;
      match a
      case Start(key, _) => LookedAgrees(s.auth, key, s.now);
      case Revoke(c) => InvalidatedAgrees(s.auth, c);
      case _ =>
    }
  }

  lemma ReplyMakesEntry(s: State, i: nat)
    requires Agree(s.auth) && s.ttlMs > 0 && Enabled(s, DbReplies(i)) && s.calls[i].asked
    ensures var s' := Step(s, DbReplies(i));
      forall key :: key in s'.auth.cache ==>
        || (key in s.auth.cache && s'.auth.cache[key] == s.auth.cache[key])
        || (FoundFor(s.calls[i]) && s.calls[i].asked && s.calls[i].key == key && s.calls[i].asking == AuthGeneration(s, key.clientId)
            && Vouches(s', key, s'.auth.cache[key], i))
  {
    var call, s' := s.calls[i], Step(s, DbReplies(i));
    RepliedAgrees(s.auth, call.key, call.asking, call.answer.value, s.now, s.ttlMs);
    if FoundFor(call) && call.asking == AuthGeneration(s, call.key.clientId) {
      ReplyVouches(s, i);
    }
    assert s'.auth == Replied(s.auth, call.key, call.asking, call.answer.value, s.now, s.ttlMs);
    hide Agree, Replied, Step, Judged, Enabled, Generation, Vouches;
  }

  lemma ReplyVouches(s: State, i: nat)
    requires Enabled(s, DbReplies(i)) && s.calls[i].asked && FoundFor(s.calls[i])
    requires s.calls[i].asking == AuthGeneration(s, s.calls[i].key.clientId)
    ensures var call := s.calls[i];
      Vouches(Step(s, DbReplies(i)), call.key,
              CacheEntry(call.key.clientId, call.answer.value.client, s.now + s.ttlMs), i)
  {
  }

  /** Generations rise at most, and only revoking raises them. */
  lemma GenerationsRise(s: State, a: Action)
    requires Enabled(s, a)
    ensures forall c :: SessionGeneration(Step(s, a), c) >= SessionGeneration(s, c)
    ensures forall c :: AuthGeneration(Step(s, a), c) >= AuthGeneration(s, c)
  {
    forall c
      ensures SessionGeneration(Step(s, a), c) >= SessionGeneration(s, c) && AuthGeneration(Step(s, a), c) >= AuthGeneration(s, c)
    {
      StepRaisesGenerations(s, a, c);
    }
  }

  /** One call's part of `CallsInOrder`. */
  predicate InOrderAt(s: State, call: Call) {
    && call.seen <= SessionGeneration(s, call.key.clientId) && (call.asked ==> call.asking <= AuthGeneration(s, call.key.clientId))
    && (call.answer.Some? ==> call.asked) && (!call.finished ==> call.lease.None?)
    && (call.asked && call.verdict.Some? ==> call.answer.Some? && call.verdict.value == Judged(call.answer.value))
  }

  lemma StartedInOrder(s: State, key: Credential, connection: Connection)
    ensures var s' := Started(s, key, connection);
      |s'.calls| == |s.calls| + 1 && s'.calls[..|s.calls|] == s.calls && InOrderAt(s', s'.calls[|s.calls|])
  {
    if key in s.auth.cache {
      assert ClientAuth.Forgotten(s.auth, key).generations == s.auth.generations;
    }
  }

  lemma StepKeepsOrder(s: State, a: Action)
    requires CallsInOrder(s) && Enabled(s, a)
    ensures CallsInOrder(Step(s, a))
  {
    var s' := Step(s, a);
    GenerationsRise(s, a);
    if a.Start? {
      StartedInOrder(s, a.key, a.connection);
    }
    forall i | 0 <= i < |s'.calls| ensures InOrderAt(s', s'.calls[i]) {
      if i < |s.calls| {
        CallAfter(s, a, i);
        assert InOrderAt(s, s.calls[i]);
      }
    }
    hide Step, SessionGeneration, AuthGeneration;
  }

  /** How one step can change one call that has started. */
  lemma CallAfter(s: State, a: Action, i: nat)
    requires Enabled(s, a) && i < |s.calls|
    ensures i < |Step(s, a).calls|
    ensures var call, call' := s.calls[i], Step(s, a).calls[i];
      if a.DbReads? && a.call == i then call' == call.(answer := Some(a.answer)) && call.asked && Truthful(s.clients, call.key, a.answer)
      else if a == DbReplies(i) then call.answer.Some? && call' == call.(verdict := Some(Judged(call.answer.value)), repliedAt := s.now)
      else if a == Finish(i) then call.verdict.Some? && call'.(finished := call.finished, lease := call.lease) == call && call'.finished
      else call' == call
  {
  }

  // ----- a client that is gone -------------------------------------------------------------------------------

  lemma RegisteredAdds(s: Sessions, client: string, seen: nat, connection: Connection)
    ensures var (s', l) := Registered(s, client, seen, connection);
      && s'.generations == s.generations && (l.None? ==> s' == s)
      && (l.Some? ==> seen == Generation(s.generations, client)
                      && s'.leases == s.leases + [Lease(client, seen, connection, false, false)])
  {
  }

  /** A call of a client that is gone finishes with no lease. */
  lemma GoneFinishesRefused(s: State, i: nat)
    requires Inv(s) && Enabled(s, Finish(i)) && s.calls[i].key.clientId in s.gone
    ensures Step(s, Finish(i)).sessions == s.sessions
    ensures Step(s, Finish(i)).calls[i].finished && Step(s, Finish(i)).calls[i].lease.None?
  {
    assert Hopeless(s, s.calls[i]) && CallsInOrder(s);
  }

  lemma StepKeepsGoneCalls(s: State, a: Action)
    requires Inv(s) && Enabled(s, a)
    ensures var s' := Step(s, a);
      forall i :: 0 <= i < |s'.calls| && s'.calls[i].key.clientId in s'.gone ==> Hopeless(s', s'.calls[i])
  {
    var s' := Step(s, a);
    hide ClientSessions.Inv, Agree, CacheVouched;
    forall i | 0 <= i < |s'.calls| && s'.calls[i].key.clientId in s'.gone ensures Hopeless(s', s'.calls[i]) {
      var c := s'.calls[i].key.clientId;
      StepRaisesGenerations(s, a, c);
      if a.Start? && i == |s.calls| {
        StartedIsHopeless(s, a);
      } else if a == Revoke(c) {
        assert s'.calls == s.calls && s.calls[i].seen <= SessionGeneration(s, c);
      } else {
        assert c in s.gone && Hopeless(s, s.calls[i]);
        assert s.calls[i].key !in s.clients;
        CallAfter(s, a, i);
        hide Step;
      }
    }
  }

  lemma StartedIsHopeless(s: State, a: Action)
    requires Inv(s) && a.Start? && a.key.clientId in s.gone
    ensures var s' := Step(s, a); |s'.calls| == |s.calls| + 1 && Hopeless(s', s'.calls[|s.calls|])
  {
    LookedAgrees(s.auth, a.key, s.now);
    assert a.key !in s.auth.cache;
    hide ClientSessions.Inv, Agree, CacheVouched, CallsInOrder;
  }

  lemma StepKeepsGoneRows(s: State, a: Action)
    requires Inv(s) && Enabled(s, a)
    ensures var s' := Step(s, a);
      && (forall c :: c in s'.gone ==> c in s'.ids)
      && (forall key :: key in s'.clients ==> key.clientId in s'.ids && key.clientId !in s'.gone)
  {
    var s' := Step(s, a);
    assert GoneClientsShutOut(s);
    hide Inv;
    forall key | key in s'.clients ensures key.clientId in s'.ids && key.clientId !in s'.gone {
      assert (a.Create? && key == a.key) || key in s.clients;
    }
  }

  lemma StepKeepsGoneUncached(s: State, a: Action)
    requires Inv(s) && Enabled(s, a)
    ensures forall key :: key in Step(s, a).auth.cache ==> key.clientId !in Step(s, a).gone
  {
    CacheComesFrom(s, a);
    GoneWasAskedBefore(s);
    GoneComesFrom(s, a);
    assert forall key :: key in s.auth.cache ==> key.clientId !in s.gone;
    hide Inv, Step, Vouches, Enabled, FoundFor;
  }

  lemma GoneWasAskedBefore(s: State)
    requires GoneClientsShutOut(s)
    ensures forall i :: 0 <= i < |s.calls| && s.calls[i].key.clientId in s.gone && FoundFor(s.calls[i]) && s.calls[i].asked ==>
      s.calls[i].asking < AuthGeneration(s, s.calls[i].key.clientId)
  {
    assert forall i :: 0 <= i < |s.calls| && s.calls[i].key.clientId in s.gone ==> Hopeless(s, s.calls[i]);
  }

  lemma GoneComesFrom(s: State, a: Action)
    requires Enabled(s, a)
    ensures forall c :: c in Step(s, a).gone ==> c in s.gone || a == Revoke(c)
  {
  }

  lemma StepKeepsGoneLeases(s: State, a: Action)
    requires Inv(s) && Enabled(s, a)
    ensures var s' := Step(s, a);
      && |s.sessions.leases| <= |s'.sessions.leases|
      && forall l :: 0 <= l < |s'.sessions.leases| && s'.sessions.leases[l].client in s'.gone ==>
           s'.sessions.leases[l].seen < SessionGeneration(s', s'.sessions.leases[l].client)
  {
    var s' := Step(s, a);
    LeasesAfter(s, a);
    forall l | 0 <= l < |s'.sessions.leases| && s'.sessions.leases[l].client in s'.gone
      ensures s'.sessions.leases[l].seen < SessionGeneration(s', s'.sessions.leases[l].client)
    {
      var c := s'.sessions.leases[l].client;
      StepRaisesGenerations(s, a, c);
      if l < |s.sessions.leases| {
        assert s.sessions.leases[l].seen <= SessionGeneration(s, c);
      }
    }
  }

  /** Steps change only flags of leases there are, and a finishing call of a client that is not gone may add one. */
  lemma LeasesAfter(s: State, a: Action)
    requires Inv(s) && Enabled(s, a)
    ensures var leases, leases' := s.sessions.leases, Step(s, a).sessions.leases;
      && |leases| <= |leases'| <= |leases| + 1
      && (forall l :: 0 <= l < |leases| ==> leases'[l].client == leases[l].client && leases'[l].seen == leases[l].seen)
      && (|leases'| > |leases| ==> a.Finish? && leases'[|leases|].client == s.calls[a.call].key.clientId
                                   && leases'[|leases|].client !in s.gone)
  {
    if a.Finish? {
      var call := s.calls[a.call];
      RegisteredAdds(s.sessions, call.key.clientId, call.seen, call.connection);
      if call.key.clientId in s.gone {
        GoneFinishesRefused(s, a.call);
      }
    }
    hide ClientSessions.Inv, Agree, CacheVouched, CallsInOrder, GoneClientsShutOut, Registered;
  }

  lemma StepKeepsInv(s: State, a: Action)
    requires Inv(s) && Enabled(s, a)
    ensures Inv(Step(s, a))
  {
    StepKeepsSessions(s, a);
    StepKeepsCache(s, a);
    StepKeepsVouched(s, a);
    StepKeepsOrder(s, a);
    StepKeepsGoneCalls(s, a);
    StepKeepsGoneRows(s, a);
    StepKeepsGoneUncached(s, a);
    StepKeepsGoneLeases(s, a);
    StepGrows(s, a);
    hide Step, ClientSessions.Inv, Agree, CacheVouched, CallsInOrder;
  }

  // ----- whole runs ---------------------------------------------------------------------------------------

  lemma {:induction false} EveryStateSatisfiesInv(states: seq<State>, actions: seq<Action>, n: nat)
    requires IsRun(states, actions) && n < |states|
    ensures Inv(states[n])
  {
    if n == 0 {
      InitialSatisfiesInv(states[0]);
    } else {
      hide Inv, Step, Enabled;
      EveryStateSatisfiesInv(states, actions, n - 1);
      assert states[n - 1 + 1] == Step(states[n - 1], actions[n - 1]);
      StepKeepsInv(states[n - 1], actions[n - 1]);
    }
  }

  lemma {:induction false} GoneStaysGone(states: seq<State>, actions: seq<Action>, m: nat, n: nat)
    requires IsRun(states, actions) && m <= n < |states|
    ensures states[m].gone <= states[n].gone
  {
    if m < n {
      hide Step, Enabled;
      GoneStaysGone(states, actions, m, n - 1);
      assert states[n - 1 + 1] == Step(states[n - 1], actions[n - 1]);
      StepGrows(states[n - 1], actions[n - 1]);
    }
  }

  /**
   * Once db-proxy has deleted a client and `revoke` has run, at every later
   * moment none of its leases admits a call, its credentials are cached
   * nowhere, and no call that finishes from then on gets a session for it.
   */
  lemma RevokedClientStaysOut(states: seq<State>, actions: seq<Action>, m: nat, n: nat, c: string)
    requires IsRun(states, actions) && 0 < m <= n < |states|
    requires actions[m - 1] == Revoke(c) && c in states[m - 1].ids && !Stored(states[m - 1].clients, c)
    ensures forall l :: 0 <= l < |states[n].sessions.leases| && states[n].sessions.leases[l].client == c ==>
              !Admits(states[n].sessions, l)
    ensures forall key :: key in states[n].auth.cache ==> key.clientId != c
    ensures n < |actions| && actions[n].Finish? && states[n].calls[actions[n].call].key.clientId == c
            ==> states[n + 1].sessions == states[n].sessions && states[n + 1].calls[actions[n].call].lease.None?
  {
    assert states[m - 1 + 1] == Step(states[m - 1], actions[m - 1]);
    assert c in states[m].gone;
    GoneStaysGone(states, actions, m, n);
    EveryStateSatisfiesInv(states, actions, n);
    GoneIsOut(states[n], c);
    if n < |actions| && actions[n].Finish? && states[n].calls[actions[n].call].key.clientId == c {
      GoneFinishesRefused(states[n], actions[n].call);
    }
  }

  lemma GoneIsOut(s: State, c: string)
    requires Inv(s) && c in s.gone
    ensures forall l :: 0 <= l < |s.sessions.leases| && s.sessions.leases[l].client == c ==> !Admits(s.sessions, l)
    ensures forall key :: key in s.auth.cache ==> key.clientId != c
  {
  }

  /** A session is registered only on a connection that has not ended. */
  predicate Prompt(s: State, a: Action)
    requires Enabled(s, a)
  {
    a.Finish? ==> s.calls[a.call].connection !in s.sessions.ended
  }

  lemma StepKeepsSameLeases(s: State, a: Action)
    requires Inv(s) && Enabled(s, a) && Prompt(s, a) && SameLeases(s.sessions)
    ensures SameLeases(Step(s, a).sessions)
  {
    if a.Finish? {
      var call := s.calls[a.call];
      OnlyALateRegistrationParts(s.sessions, call.key.clientId, call.seen, call.connection);
    } else {
      var l := if a.Dispose? then a.lease else 0;
      OtherStepsKeepSameLeases(s.sessions, l, if a.Revoke? then a.clientId else "",
                               if a.End? then a.connection else Connection(0, false, None));
    }
    hide Inv, SameLeases;
  }

  /** While no session is registered on a connection that has ended, the two indexes hold the same leases. */
  lemma {:induction false} IndexesNeverPart(states: seq<State>, actions: seq<Action>, n: nat)
    requires IsRun(states, actions) && n < |states|
    requires forall i :: 0 <= i < n ==> Prompt(states[i], actions[i])
    ensures SameLeases(states[n].sessions)
  {
    if n > 0 {
      hide Inv, SameLeases, Prompt, Step, Enabled;
      IndexesNeverPart(states, actions, n - 1);
      EveryStateSatisfiesInv(states, actions, n - 1);
      assert states[n - 1 + 1] == Step(states[n - 1], actions[n - 1]);
      StepKeepsSameLeases(states[n - 1], actions[n - 1]);
    }
  }

  // ----- the cache refines asking db-proxy --------------------------------------------------------------------

  /** db-proxy held these credentials, for this client, at a moment when the client's generation had reached `generation`. */
  ghost predicate HeldSince(states: seq<State>, n: nat, key: Credential, client: AuthenticatedClient, generation: nat)
    requires n < |states|
  {
    exists m :: 0 <= m <= n && HeldAt(states[m], key, client, generation)
  }

  predicate HeldAt(s: State, key: Credential, client: AuthenticatedClient, generation: nat) {
    key in s.clients && s.clients[key] == client && generation <= AuthGeneration(s, key.clientId)
  }

  lemma {:induction false} AnswersWereTrue(states: seq<State>, actions: seq<Action>, n: nat, i: nat)
    requires IsRun(states, actions) && n < |states| && i < |states[n].calls| && FoundFor(states[n].calls[i])
    ensures HeldSince(states, n, states[n].calls[i].key, states[n].calls[i].answer.value.client, states[n].calls[i].asking)
  {
    if n > 0 {
      var s, a := states[n - 1], actions[n - 1];
      assert states[n - 1 + 1] == Step(s, a);
      if i < |s.calls| {
        CallAfter(s, a, i);
        hide Step, Enabled;
        if FoundFor(s.calls[i]) {
          AnswersWereTrue(states, actions, n - 1, i);
          StillHeld(states, n, s.calls[i].key, s.calls[i].answer.value.client, s.calls[i].asking);
        } else {
          EveryStateSatisfiesInv(states, actions, n - 1);
          assert CallsInOrder(s);
          hide Inv;
          assert HeldAt(s, s.calls[i].key, a.answer.client, s.calls[i].asking);
        }
      } else {
        StartsUnanswered(s, a);
      }
    }
  }

  lemma StartsUnanswered(s: State, a: Action)
    requires Enabled(s, a)
    ensures forall i :: |s.calls| <= i < |Step(s, a).calls| ==> Step(s, a).calls[i].answer.None?
  {
  }

  lemma StillHeld(states: seq<State>, n: nat, key: Credential, client: AuthenticatedClient, generation: nat)
    requires 0 < n < |states| && HeldSince(states, n - 1, key, client, generation)
    ensures HeldSince(states, n, key, client, generation)
  {
  }

  lemma {:induction false} GenerationsOnlyRise(states: seq<State>, actions: seq<Action>, m: nat, n: nat, c: string)
    requires IsRun(states, actions) && m <= n < |states|
    ensures AuthGeneration(states[m], c) <= AuthGeneration(states[n], c)
  {
    if m < n {
      hide AuthGeneration, Step, Enabled;
      GenerationsOnlyRise(states, actions, m, n - 1, c);
      assert states[n - 1 + 1] == Step(states[n - 1], actions[n - 1]);
      StepRaisesGenerations(states[n - 1], actions[n - 1], c);
    }
  }

  /**
   * Every cached success is db-proxy's own answer for exactly those
   * credentials: db-proxy held them for that client at some moment, with no
   * invalidation of the client since, and the entry expires `ttlMs` after the
   * answer came.
   */
  lemma CacheRefinesAsking(states: seq<State>, actions: seq<Action>, n: nat, key: Credential)
    requires IsRun(states, actions) && n < |states| && key in states[n].auth.cache
    ensures var entry, generation := states[n].auth.cache[key], AuthGeneration(states[n], key.clientId);
      && (exists m :: 0 <= m <= n && HeldAt(states[m], key, entry.client, generation)
                      && AuthGeneration(states[m], key.clientId) == generation)
      && exists i :: Vouches(states[n], key, entry, i)
  {
    EveryStateSatisfiesInv(states, actions, n);
    var s := states[n];
    var i :| Vouches(s, key, s.auth.cache[key], i);
    AnswersWereTrue(states, actions, n, i);
    var m :| 0 <= m <= n && HeldAt(states[m], key, s.auth.cache[key].client, AuthGeneration(s, key.clientId));
    GenerationsOnlyRise(states, actions, m, n, key.clientId);
  }

  /**
   * An answer served from the cache is one db-proxy gave to a question about
   * exactly those credentials, less than `ttlMs` before now.
   */
  lemma ServedAnswersAreFresh(states: seq<State>, actions: seq<Action>, n: nat)
    requires IsRun(states, actions) && n < |actions| && actions[n].Start?
    ensures |states[n + 1].calls| == |states[n].calls| + 1
    ensures var s, call := states[n], states[n + 1].calls[|states[n].calls|];
      !call.asked && call.verdict.value.Admitted? ==> exists i :: FreshlyAnswered(s, call.key, call.verdict.value.client, i)
  {
    EveryStateSatisfiesInv(states, actions, n);
    var s, key := states[n], actions[n].key;
    assert states[n + 1] == Started(s, key, actions[n].connection);
    if key in s.auth.cache {
      var i :| Vouches(s, key, s.auth.cache[key], i);
      assert s.auth.cache[key].expiresAt > s.now ==> FreshlyAnswered(s, key, s.auth.cache[key].client, i);
    }
    hide Inv, IsRun;
  }

  predicate FreshlyAnswered(s: State, key: Credential, client: AuthenticatedClient, i: nat) {
    && i < |s.calls| && s.calls[i].key == key && s.calls[i].asked && s.calls[i].answer == Some(Found(client))
    && s.calls[i].asking == AuthGeneration(s, key.clientId) && s.now < s.calls[i].repliedAt + s.ttlMs
  }

  // ----- a session registered late ----------------------------------------------------------------------------

  const KEY := Credential("c", "secret")
  const CLIENT := AuthenticatedClient(None, None, None, None)
  const CONNECTION := Connection(0, true, None)
  const NONE_YET := Sessions(map[], map[], map[], [], {}, [], [])

  function Waiting(answer: Option<Answer>, verdict: Option<Verdict>): Call {
    Call(KEY, CONNECTION, 0, true, 0, answer, verdict, 0, false, None)
  }

  function Reached(clients: map<Credential, AuthenticatedClient>, auth: Auth, sessions: Sessions, calls: seq<Call>): State {
    State(1, 0, clients, if clients == map[] then {} else {"c"}, auth, sessions, calls, {})
  }

  /** A call waits for db-proxy, its connection ends, and then it registers: one index holds its lease, the other does not. */
  lemma LateRegistrationParts() returns (states: seq<State>, actions: seq<Action>)
    ensures IsRun(states, actions) && |actions| == 6 && |states| == 7
    ensures actions[4] == End(CONNECTION) && actions[5] == Finish(0)
    ensures SameLeases(states[5].sessions) && !SameLeases(states[6].sessions)
  {
    var empty := Auth(map[], map[], map[]);
    var held := map[KEY := CLIENT];
    var cached := Remembered(empty, KEY, CLIENT, 0, 1);
    var ended := NONE_YET.(ended := {CONNECTION});
    var admitted := Waiting(Some(Found(CLIENT)), Some(Admitted(CLIENT)));
    var (parted, lease) := Registered(ended, "c", 0, CONNECTION);
    actions := [Create(KEY, CLIENT), Start(KEY, CONNECTION), DbReads(0, Found(CLIENT)), DbReplies(0), End(CONNECTION), Finish(0)];
    states := [Reached(map[], empty, NONE_YET, []), Reached(held, empty, NONE_YET, []),
               Reached(held, empty, NONE_YET, [Waiting(None, None)]),
               Reached(held, empty, NONE_YET, [Waiting(Some(Found(CLIENT)), None)]),
               Reached(held, cached, NONE_YET, [admitted]), Reached(held, cached, ended, [admitted]),
               Reached(held, cached, parted, [admitted.(finished := true, lease := lease)])];
    AsksAndHears(states, actions);
    EndsAndRegisters(states, actions);
    hide Step, Enabled, Initial, Reached, Waiting;
  }

  /** The first four steps: the client is created, and a call of it asks and is answered. */
  lemma AsksAndHears(states: seq<State>, actions: seq<Action>)
    requires |states| == 7 && |actions| == 6
    requires actions[..4] == [Create(KEY, CLIENT), Start(KEY, CONNECTION), DbReads(0, Found(CLIENT)), DbReplies(0)]
    requires var empty, held := Auth(map[], map[], map[]), map[KEY := CLIENT];
      states[..5] == [Reached(map[], empty, NONE_YET, []), Reached(held, empty, NONE_YET, []),
                      Reached(held, empty, NONE_YET, [Waiting(None, None)]),
                      Reached(held, empty, NONE_YET, [Waiting(Some(Found(CLIENT)), None)]),
                      Reached(held, Remembered(empty, KEY, CLIENT, 0, 1), NONE_YET,
                              [Waiting(Some(Found(CLIENT)), Some(Admitted(CLIENT)))])]
    ensures Initial(states[0]) && forall i :: 0 <= i < 4 ==> Enabled(states[i], actions[i]) && states[i + 1] == Step(states[i], actions[i])
  {
    hide Remembered;
    forall i | 0 <= i < 4 ensures Enabled(states[i], actions[i]) && states[i + 1] == Step(states[i], actions[i]) {
      assert states[i] == states[..5][i] && states[i + 1] == states[..5][i + 1] && actions[i] == actions[..4][i];
    }
    assert states[0] == states[..5][0];
  }

  /** The last two: its connection ends, and it registers. */
  lemma EndsAndRegisters(states: seq<State>, actions: seq<Action>)
    requires |states| == 7 && |actions| == 6 && actions[4] == End(CONNECTION) && actions[5] == Finish(0)
    requires var held, ended := map[KEY := CLIENT], NONE_YET.(ended := {CONNECTION});
      var admitted, cached := Waiting(Some(Found(CLIENT)), Some(Admitted(CLIENT))), states[4].auth;
      var (parted, lease) := Registered(ended, "c", 0, CONNECTION);
      && states[4] == Reached(held, cached, NONE_YET, [admitted]) && states[5] == Reached(held, cached, ended, [admitted])
      && states[6] == Reached(held, cached, parted, [admitted.(finished := true, lease := lease)])
    ensures forall i :: 4 <= i < 6 ==> Enabled(states[i], actions[i]) && states[i + 1] == Step(states[i], actions[i])
    ensures SameLeases(states[5].sessions) && !SameLeases(states[6].sessions)
  {
    assert ClientSessions.Ended(NONE_YET, CONNECTION) == NONE_YET.(ended := {CONNECTION}) by {
      assert Flagged([], {}, false) == [] && Stripped(map[], {}) == map[];
    }
    var parted := states[6].sessions;
    assert parted.leases == [Lease("c", 0, CONNECTION, false, false)];
    assert 0 in LeasesOf(parted.byClient, parted.leases[0].client) && 0 !in LeasesOn(parted.byConnection, parted.leases[0].connection);
  }
}
