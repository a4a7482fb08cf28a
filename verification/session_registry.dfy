/**
 * `ClientSessions`, `ConnectionLifetime` and the gateway in their own form:
 * the fields they change in place and the loops that walk them, each call
 * proved to be its step of `ClientSessions` or `ClientRevocation`.
 */
module SessionRegistry {
  import opened Options
  import opened ClientAuth
  import opened ClientSessions
  import ClientRevocation

  /** `ConnectionLifetime`: listeners are numbered; `ran` is every listener that has run, in order. */
  class ConnectionLifetime {
    var listeners: seq<nat>
    var ended: bool
    ghost var ran: seq<nat>

    /** Nothing waits on a connection that has ended. */
    ghost predicate Valid()
      reads this
    {
      ended ==> listeners == []
    }

    constructor ()
      ensures Valid() && !ended && listeners == [] && ran == []
    {
      listeners, ended := [], false;
      ran := [];
    }

    /** Runs later, or at once when the connection has ended: either way it takes the next place in line. */
    method OnEnd(listener: nat)
      requires Valid()
      modifies this
      ensures Valid() && ended == old(ended) && ran + listeners == old(ran + listeners) + [listener]
    {
      if ended {
        ran := ran + [listener];
        return;
      }
      listeners := listeners + [listener];
    }

    /**
     * Every listener has run, in line, and none twice, although some throw,
     * whose errors are reported; ending again runs none.
     */
    method End(throws: set<nat>) returns (reported: seq<nat>)
      requires Valid()
      modifies this
      ensures Valid() && ended && ran == old(ran + listeners)
      ensures reported == if old(ended) then [] else Throwing(old(listeners), throws)
    {
      reported := [];
      if ended {
        return;
      }
      ended := true;
      var waiting, i := listeners, 0;
      listeners := [];
      while i < |waiting|
        invariant 0 <= i <= |waiting| && ran == old(ran) + waiting[..i] && listeners == [] && ended
        invariant reported == Throwing(waiting[..i], throws)
      {
        assert waiting[..i + 1][..i] == waiting[..i];
        ran := ran + [waiting[i]];
        if waiting[i] in throws {
          reported := reported + [waiting[i]];
        }
        i := i + 1;
      }
      assert waiting[..i] == waiting;
    }
  }

  /** Those of the listeners that throw, in order. */
  function Throwing(listeners: seq<nat>, throws: set<nat>): seq<nat> {
    if listeners == [] then []
    else
      var last, before := listeners[|listeners| - 1], Throwing(listeners[..|listeners| - 1], throws);
      if last in throws then before + [last] else before
  }

  /** The registry part way through revoking: the leases in `done` are revoked and released. */
  function Revoking(s: Sessions, client: string, done: set<nat>): Sessions
    requires client in s.byClient
  {
    s.(leases := Flagged(s.leases, done, true),
       byClient := if s.byClient[client] - done == map[] then s.byClient - {client}
                   else s.byClient[client := s.byClient[client] - done],
       byConnection := Thinned(s.byConnection, done))
  }

  /** The registry part way through a connection's end. */
  function Ending(s: Sessions, connection: Connection, done: set<nat>): Sessions
    requires connection in s.byConnection
  {
    s.(leases := Flagged(s.leases, done, false), byClient := Stripped(s.byClient, done),
       byConnection := s.byConnection[connection := s.byConnection[connection] - done])
  }

  function RevokedAt(s: Sessions, l: nat): Sessions
    requires l < |s.leases|
  {
    s.(leases := s.leases[l := s.leases[l].(revoked := true)])
  }

  lemma ThinnedNext(s: Sessions, done: set<nat>, l: nat)
    requires ConnectionIndex(s) && l < |s.leases|
    ensures var thin, on := Thinned(s.byConnection, done), s.leases[l].connection;
      Thinned(s.byConnection, done + {l}) == if on in thin then thin[on := thin[on] - {l}] else thin
  {
    forall conn | conn in s.byConnection
      ensures s.byConnection[conn] - (done + {l})
           == if conn == s.leases[l].connection then s.byConnection[conn] - done - {l} else s.byConnection[conn] - done
    {
      assert l in LeasesOn(s.byConnection, conn) <==> HeldOn(s.leases, l, conn) && conn !in s.ended;
    }
  }

  lemma StrippedNext(s: Sessions, done: set<nat>, l: nat)
    requires ClientIndex(s) && l < |s.leases| && !s.leases[l].released && l !in done
    ensures var strip, c := Stripped(s.byClient, done), s.leases[l].client;
      && c in strip && Stripped(s.byClient, done + {l}) == if strip[c] - {l} == map[] then strip - {c} else strip[c := strip[c] - {l}]
  {
    var strip, c := Stripped(s.byClient, done), s.leases[l].client;
    assert HeldBy(s.leases, l, c);
    assert l in LeasesOf(s.byClient, c) && l in s.byClient[c] - done;
    assert strip[c] - {l} == s.byClient[c] - (done + {l});
    forall d | d in s.byClient && d != c ensures s.byClient[d] - (done + {l}) == s.byClient[d] - done {
      assert l in LeasesOf(s.byClient, d) <==> HeldBy(s.leases, l, d);
    }
  }

  /** Once every lease is released, only the close is left to defer. */
  lemma RevokingAll(s: Sessions, bumped: Sessions, client: string)
    requires client in s.byClient && bumped == s.(generations := Bumped(s.generations, client))
    ensures Revoked(s, client)
         == Revoking(bumped, client, s.byClient[client].Keys).(
              deferred := s.deferred + [Closing(client, s.byClient[client].Values)])
  {
  }

  lemma RevokingNobody(s: Sessions, client: string)
    requires client !in s.byClient
    ensures Revoked(s, client) == s.(generations := Bumped(s.generations, client))
  {
  }

  lemma RevokingNext(s: Sessions, client: string, done: set<nat>, l: nat)
    requires ClientIndex(s) && ConnectionIndex(s) && client in s.byClient && l in s.byClient[client] && l !in done
    ensures var mid := Revoking(s, client, done);
      l < |mid.leases| && Released(RevokedAt(mid, l), l) == Revoking(s, client, done + {l})
  {
    assert l in LeasesOf(s.byClient, client) && HeldBy(s.leases, l, client);
    ThinnedNext(s, done, l);
    FlagsNext(s.leases, done, l, true);
    RevokingIs(s, client, done, l);
    hide ClientIndex, ConnectionIndex, Thinned, Flagged, Released;
    var mid := RevokedAt(Revoking(s, client, done), l);
    ReleasedIs(mid, l);
  }

  /** What is left of the client's entry and of the leases, one lease on. */
  lemma RevokingIs(s: Sessions, client: string, done: set<nat>, l: nat)
    requires client in s.byClient && l in s.byClient[client] && l !in done && l < |s.leases|
    ensures var mid, next := Revoking(s, client, done), Revoking(s, client, done + {l});
      && client in mid.byClient && mid.byClient[client] == s.byClient[client] - done
      && next.byClient == (if mid.byClient[client] - {l} == map[] then mid.byClient - {client}
                           else mid.byClient[client := mid.byClient[client] - {l}])
      && l < |mid.leases| && mid.leases[l] == s.leases[l]
  {
    assert l in s.byClient[client] - done;
    assert (s.byClient[client] - done) - {l} == s.byClient[client] - (done + {l});
  }

  /** Releasing, field by field. */
  lemma ReleasedIs(s: Sessions, l: nat)
    requires l < |s.leases| && !s.leases[l].released && s.leases[l].client in s.byClient
    ensures var c, on := s.leases[l].client, s.leases[l].connection;
      Released(s, l) == s.(
        leases := s.leases[l := s.leases[l].(released := true)],
        byClient := if s.byClient[c] - {l} == map[] then s.byClient - {c} else s.byClient[c := s.byClient[c] - {l}],
        byConnection := if on in s.byConnection then s.byConnection[on := s.byConnection[on] - {l}] else s.byConnection)
  {
  }

  lemma FlagsNext(leases: seq<Lease>, done: set<nat>, l: nat, revoked: bool)
    requires l < |leases| && l !in done
    ensures Flagged(leases, done + {l}, revoked) == Flagged(leases, done, revoked)[l := Flag(leases[l], revoked, true)]
  {
  }

  lemma EndingNext(s: Sessions, connection: Connection, done: set<nat>, l: nat)
    requires ClientIndex(s) && ConnectionIndex(s) && connection in s.byConnection && l in s.byConnection[connection] && l !in done
    ensures var mid := Ending(s, connection, done);
      l < |mid.leases| && Released(mid, l) == Ending(s, connection, done + {l})
  {
    assert l in LeasesOn(s.byConnection, connection) && HeldOn(s.leases, l, connection);
    StrippedNext(s, done, l);
    FlagsNext(s.leases, done, l, false);
    hide ClientIndex, ConnectionIndex, Stripped, Flagged, Released;
    assert s.byConnection[connection] - done - {l} == s.byConnection[connection] - (done + {l});
    ReleasedIs(Ending(s, connection, done), l);
  }

  class SessionTable {
    var generations: map<string, nat>
    var byClient: map<string, map<nat, Connection>>
    var byConnection: map<Connection, set<nat>>
    /** The leases issued, with what each has come to. */
    var leases: seq<Lease>
    /** The connections whose lifetime has ended. */
    var ended: set<Connection>
    var deferred: seq<Closing>
    var closed: seq<Closing>

    function Now(): Sessions
      reads this
    {
      Sessions(generations, byClient, byConnection, leases, ended, deferred, closed)
    }

    ghost predicate Valid()
      reads this
    {
      ClientSessions.Inv(Now())
    }

    constructor ()
      ensures Valid() && Now() == Sessions(map[], map[], map[], [], {}, [], [])
    {
      generations, byClient, byConnection := map[], map[], map[];
      leases, ended, deferred, closed := [], {}, [], [];
    }

    method Register(client: string, seen: nat, connection: Connection) returns (lease: Option<nat>)
      requires Valid()
      modifies this
      ensures Valid() && (Now(), lease) == Registered(old(Now()), client, seen, connection)
    {
      RegisteredKeeps(Now(), client, seen, connection);
      hide ClientSessions.Inv, Registered;
      lease := Issue(client, seen, connection);
    }

    method Issue(client: string, seen: nat, connection: Connection) returns (lease: Option<nat>)
      modifies this`leases, this`byClient, this`byConnection
      ensures (Now(), lease) == Registered(old(Now()), client, seen, connection)
    {
      if Generation(generations, client) != seen {
        return None;
      }
      var l := |leases|;
      leases := leases + [Lease(client, seen, connection, false, false)];
      if client !in byClient {
        byClient := byClient[client := map[]];
      }
      byClient := byClient[client := byClient[client][l := connection]];
      assert byClient == old(byClient)[client := LeasesOf(old(byClient), client)[l := connection]];
      AddToConnection(l, connection);
      lease := Some(l);
    }

    /** A connection's first session makes its entry and its end listener, which runs at once if it has ended. */
    method AddToConnection(l: nat, connection: Connection)
      modifies this`byConnection
      ensures byConnection == if connection in ended && connection !in old(byConnection) then old(byConnection)
                              else old(byConnection)[connection := LeasesOn(old(byConnection), connection) + {l}]
    {
      if connection !in byConnection {
        byConnection := byConnection[connection := {}];
        if connection in ended {
          // The entry is dropped again while it is empty; the lease joins a set nothing indexes any more.
          byConnection := byConnection - {connection};
          assert byConnection == old(byConnection);
        }
      }
      if connection in byConnection {
        byConnection := byConnection[connection := byConnection[connection] + {l}];
        assert byConnection == old(byConnection)[connection := LeasesOn(old(byConnection), connection) + {l}];
      }
    }

    /** Refuses a call once the lease is revoked; a released lease is still checked by its generation. */
    method AssertLive(l: nat) returns (admitted: bool)
      requires l < |leases|
      ensures admitted == Admits(Now(), l)
    {
      admitted := !(leases[l].revoked || leases[l].seen != Generation(generations, leases[l].client));
    }

    method Release(l: nat)
      requires l < |leases|
      modifies this`leases, this`byClient, this`byConnection
      ensures Now() == Released(old(Now()), l)
    {
      if leases[l].released {
        return;
      }
      leases := leases[l := leases[l].(released := true)];
      Forget(l);
    }

    method Dispose(l: nat)
      requires Valid() && l < |leases|
      modifies this
      ensures Valid() && Now() == Released(old(Now()), l)
    {
      ReleasedKeeps(Now(), l);
      Release(l);
    }

    method Forget(l: nat)
      requires l < |leases|
      modifies this`byClient, this`byConnection
      ensures Now() == ClientSessions.Forgotten(old(Now()), l)
    {
      var client, connection := leases[l].client, leases[l].connection;
      if client in byClient {
        byClient := byClient[client := byClient[client] - {l}];
        if byClient[client] == map[] {
          byClient := byClient - {client};
        }
      }
      if connection in byConnection {
        byConnection := byConnection[connection := byConnection[connection] - {l}];
      }
    }

    method Revoke(client: string)
      requires Valid()
      modifies this
      ensures Valid() && Now() == Revoked(old(Now()), client)
    {
      RevokedKeeps(Now(), client);
      hide Revoked;
      RefuseAndRelease(client);
    }

    method RefuseAndRelease(client: string)
      requires ClientIndex(Now()) && ConnectionIndex(Now())
      modifies this
      ensures Now() == Revoked(old(Now()), client)
    {
      hide Revoked, Revoking;
      generations := generations[client := Generation(generations, client) + 1];
      assert ClientIndex(Now()) && ConnectionIndex(Now());
      hide ClientIndex, ConnectionIndex, Generation;
      if client !in byClient {
        RevokingNobody(old(Now()), client);
        return;
      }
      RevokingAll(old(Now()), Now(), client);
      var held := byClient[client];
      ReleaseAll(client);
      deferred := deferred + [Closing(client, held.Values)];
    }

    method ReleaseAll(client: string)
      requires ClientIndex(Now()) && ConnectionIndex(Now()) && client in byClient
      modifies this`leases, this`byClient, this`byConnection
      ensures Now() == old(Revoking(Now(), client, byClient[client].Keys))
    {
      ghost var start := Now();
      var all := byClient[client].Keys;
      var todo := all;
      hide ClientIndex, ConnectionIndex;
      assert Revoking(start, client, all - todo) == start by {
        assert all - todo == {};
        NothingRevoked(start, client);
      }
      while todo != {}
        invariant todo <= all && Now() == Revoking(start, client, all - todo)
        decreases todo
      {
        var l :| l in todo;
        RevokingNext(start, client, all - todo, l);
        assert all - (todo - {l}) == (all - todo) + {l};
        hide Revoking, Released;
        leases := leases[l := leases[l].(revoked := true)];
        Release(l);
        todo := todo - {l};
      }
      assert all - {} == all;
    }

    method HasLiveOn(connection: Connection) returns (live: bool)
      requires ConnectionIndex(Now())
      ensures live == HasLive(Now(), connection)
    {
      var todo := if connection in byConnection then byConnection[connection] else {};
      live := false;
      while todo != {}
        invariant todo <= LeasesOn(byConnection, connection)
        invariant forall l :: l in LeasesOn(byConnection, connection) - todo ==> l < |leases| && !IsLive(Now(), l)
      {
        var l :| l in todo;
        assert HeldOn(leases, l, connection);
        if !leases[l].revoked && !leases[l].released && leases[l].seen == Generation(generations, leases[l].client) {
          return true;
        }
        todo := todo - {l};
      }
    }

    /** The next deferred close runs. */
    method RunDeferred()
      requires Valid() && deferred != []
      modifies this
      ensures Valid() && Now() == Closed(old(Now()))
    {
      ClosesWhatNoLeaseHolds(Now());
      ghost var start := Now();
      var next := deferred[0];
      var todo: set<Connection>, shut: set<Connection> := next.connections, {};
      assert ToClose(start, next.connections - todo) == {};
      while todo != {}
        invariant todo <= next.connections && Now() == start && shut == ToClose(start, next.connections - todo)
        decreases todo
      {
        var connection :| connection in todo;
        var live := HasLiveOn(connection);
        assert next.connections - (todo - {connection}) == next.connections - todo + {connection};
        if connection.socket && connection in byConnection && !live {
          shut := shut + {connection};
        }
        todo := todo - {connection};
        hide HasLive;
      }
      assert next.connections - {} == next.connections;
      deferred, closed := deferred[1..], closed + [Closing(next.client, shut)];
    }

    /** The connection's lifetime ends, and with it its sessions. */
    method ConnectionEnds(connection: Connection)
      requires Valid()
      modifies this
      ensures Valid() && Now() == Ended(old(Now()), connection)
    {
      EndedKeeps(Now(), connection);
      StrippingNothing(Now());
      hide Current, Closable, Stripped, Flagged;
      if connection in ended {
        return;
      }
      ended := ended + {connection};
      if connection in byConnection {
        EndConnection(connection);
      } else {
        assert byConnection - {connection} == byConnection;
      }
    }

    method EndConnection(connection: Connection)
      requires ClientIndex(Now()) && connection in byConnection
      requires ConnectionIndex(Now().(ended := ended - {connection}))
      modifies this`leases, this`byClient, this`byConnection
      ensures var all := old(byConnection[connection]);
              Now() == old(Ending(Now(), connection, all)).(byConnection := old(byConnection) - {connection})
    {
      ghost var start := Now();
      ghost var open := start.(ended := ended - {connection});
      var all := byConnection[connection];
      var todo := all;
      assert ClientIndex(open);
      hide ConnectionIndex;
      assert Ending(start, connection, all - todo) == start by {
        assert all - todo == {};
        NothingEnded(start, connection);
      }
      while todo != {}
        invariant todo <= all && Now() == Ending(start, connection, all - todo)
        decreases todo
      {
        var l :| l in todo;
        EndingNext(open, connection, all - todo, l);
        EndingOf(start, open, connection, all - todo, l);
        assert all - (todo - {l}) == (all - todo) + {l};
        hide Ending, Released;
        Release(l);
        todo := todo - {l};
      }
      assert all - {} == all;
      byConnection := byConnection - {connection};
    }
  }

  /** Which connections have ended plays no part in releasing. */
  lemma EndingOf(s: Sessions, open: Sessions, connection: Connection, done: set<nat>, l: nat)
    requires open == s.(ended := open.ended) && connection in s.byConnection && l < |s.leases|
    ensures Released(Ending(s, connection, done), l) == Released(Ending(open, connection, done), l).(ended := s.ended)
    ensures Ending(s, connection, done + {l}) == Ending(open, connection, done + {l}).(ended := s.ended)
  {
  }

  lemma StrippingNothing(s: Sessions)
    requires ClientIndex(s)
    ensures Stripped(s.byClient, {}) == s.byClient && Flagged(s.leases, {}, false) == s.leases
  {
    assert forall c :: c in s.byClient ==> s.byClient[c] - {} == s.byClient[c];
  }

  lemma NothingRevoked(s: Sessions, client: string)
    requires ClientIndex(s) && client in s.byClient
    ensures Revoking(s, client, {}) == s
  {
    assert s.byClient[client] - {} == s.byClient[client] && client in s.byClient && s.byClient[client] != map[];
    assert forall conn :: conn in s.byConnection ==> s.byConnection[conn] - {} == s.byConnection[conn];
    assert Thinned(s.byConnection, {}) == s.byConnection;
    assert Flagged(s.leases, {}, true) == s.leases;
  }

  lemma NothingEnded(s: Sessions, connection: Connection)
    requires ClientIndex(s) && connection in s.byConnection
    ensures Ending(s, connection, {}) == s
  {
    StrippingNothing(s);
    assert s.byConnection[connection] - {} == s.byConnection[connection];
  }

  // ----- the gateway --------------------------------------------------------------------------------------

  datatype Outcome = Session(clientId: string, lease: nat) | Refused | Unavailable | Threw

  class ApiGateway {
    const auth: CredentialChecks
    const sessions: SessionTable

    constructor (auth: CredentialChecks, sessions: SessionTable)
      ensures this.auth == auth && this.sessions == sessions
    {
      this.auth, this.sessions := auth, sessions;
    }

    /** `authenticate` up to its wait: the generation is read before anything is checked. */
    method BeginAuthenticate(key: Credential, now: int) returns (seen: nat, looked: Lookup)
      requires auth.Valid() && sessions.Valid()
      modifies auth
      ensures auth.Valid() && sessions.Valid() && seen == Generation(sessions.generations, key.clientId)
      ensures (auth.Now(), looked) == Looked(old(auth.Now()), key, now)
    {
      seen := Generation(sessions.generations, key.clientId);
      looked := auth.BeginValidate(key, now);
    }

    /** The rest of `authenticate`: a session only for an admitted client, from its own origin, not revoked since `seen`. */
    method FinishAuthenticate(key: Credential, seen: nat, connection: Connection, verdict: Verdict) returns (outcome: Outcome)
      requires sessions.Valid()
      modifies sessions
      ensures sessions.Valid()
      ensures sessions.Now() == ClientRevocation.Concluded(old(sessions.Now()), key, seen, connection, verdict).0
      ensures match ClientRevocation.Concluded(old(sessions.Now()), key, seen, connection, verdict).1
        case Some(l) => outcome == Session(key.clientId, l)
        case None => outcome == if verdict.AuthUnavailable? then Unavailable else if verdict.Broken? then Threw else Refused
    {
      match verdict
      case Broken => return Threw;
      case AuthUnavailable => return Unavailable;
      case InvalidCredentials => return Refused;
      case Admitted(client) =>
        if client.boundOrigin.Some? && !(connection.origin.Some? && connection.origin.value == client.boundOrigin.value) {
          return Refused;
        }
        var lease := sessions.Register(key.clientId, seen, connection);
        if lease.None? {
          return Refused;
        }
        return Session(key.clientId, lease.value);
    }

    /** `ClientRevoker.revoke`, as far as sessions and credentials go. */
    method RevokeClient(clientId: string)
      requires auth.Valid() && sessions.Valid()
      modifies auth, sessions
      ensures auth.Valid() && sessions.Valid()
      ensures auth.Now() == Invalidated(old(auth.Now()), clientId) && sessions.Now() == Revoked(old(sessions.Now()), clientId)
    {
      auth.InvalidateCache(clientId);
      sessions.Revoke(clientId);
    }
  }
}
