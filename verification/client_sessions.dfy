/**
 * `ClientSessions` and `SessionLease` (`api/src/client-sessions.ts`) with the
 * connection ends they depend on (`api/src/gateway-connection.ts`). Leases are
 * numbered in the order they were issued; a lease's two callbacks are `Forget`
 * of its number and its generation test.
 */
module ClientSessions {
  import opened Options
  import opened ClientAuth

  /** A WebSocket has a close; an HTTP batch does not. */
  datatype Connection = Connection(id: nat, socket: bool, origin: Option<string>)

  datatype Lease = Lease(client: string, seen: nat, connection: Connection, revoked: bool, released: bool)

  /** A revocation's close task, or what one closed. */
  datatype Closing = Closing(client: string, connections: set<Connection>)

  datatype Sessions = Sessions(
    generations: map<string, nat>, byClient: map<string, map<nat, Connection>>, byConnection: map<Connection, set<nat>>,
    leases: seq<Lease>, ended: set<Connection>, deferred: seq<Closing>, closed: seq<Closing>)

  function LeasesOf(byClient: map<string, map<nat, Connection>>, client: string): map<nat, Connection> {
    if client in byClient then byClient[client] else map[]
  }

  function LeasesOn(byConnection: map<Connection, set<nat>>, connection: Connection): set<nat> {
    if connection in byConnection then byConnection[connection] else {}
  }

  /** `assertLive` lets a call through. */
  predicate Admits(s: Sessions, l: nat)
    requires l < |s.leases|
  {
    !s.leases[l].revoked && s.leases[l].seen == Generation(s.generations, s.leases[l].client)
  }

  predicate IsLive(s: Sessions, l: nat)
    requires l < |s.leases|
  {
    !s.leases[l].revoked && !s.leases[l].released && s.leases[l].seen == Generation(s.generations, s.leases[l].client)
  }

  function Flag(lease: Lease, revoked: bool, released: bool): Lease {
    lease.(revoked := lease.revoked || revoked, released := lease.released || released)
  }

  /** The leases in `some`, flagged. */
  function Flagged(leases: seq<Lease>, some: set<nat>, revoked: bool): (flagged: seq<Lease>)
    ensures |flagged| == |leases|
    ensures forall l :: 0 <= l < |leases| ==> flagged[l] == if l in some then Flag(leases[l], revoked, true) else leases[l]
  {
    seq(|leases|, l requires 0 <= l < |leases| => if l in some then Flag(leases[l], revoked, true) else leases[l])
  }

  function Removed(m: map<nat, Connection>, l: nat): map<nat, Connection> { m - {l} }

  /** `forget`: the lease leaves both indexes; its connection's entry stays. */
  function Forgotten(s: Sessions, l: nat): Sessions
    requires l < |s.leases|
  {
    var c, conn := s.leases[l].client, s.leases[l].connection;
    var rest := Removed(LeasesOf(s.byClient, c), l);
    s.(byClient := if c !in s.byClient then s.byClient else if rest == map[] then s.byClient - {c} else s.byClient[c := rest],
       byConnection := if conn in s.byConnection then s.byConnection[conn := s.byConnection[conn] - {l}] else s.byConnection)
  }

  function Released(s: Sessions, l: nat): Sessions
    requires l < |s.leases|
  {
    if s.leases[l].released then s else Forgotten(s.(leases := s.leases[l := s.leases[l].(released := true)]), l)
  }

  /** On a connection that has ended, the end listener runs at once and drops the connection's entry again. */
  function Registered(s: Sessions, client: string, seen: nat, connection: Connection): (Sessions, Option<nat>) {
    if Generation(s.generations, client) != seen then (s, None)
    else
      var l := |s.leases|;
      (s.(leases := s.leases + [Lease(client, seen, connection, false, false)],
          byClient := s.byClient[client := LeasesOf(s.byClient, client)[l := connection]],
          byConnection := if connection in s.ended && connection !in s.byConnection then s.byConnection
                          else s.byConnection[connection := LeasesOn(s.byConnection, connection) + {l}]),
       Some(l))
  }

  /** Takes the leases in `gone` off every connection, whose entries stay. */
  function Thinned(byConnection: map<Connection, set<nat>>, gone: set<nat>): map<Connection, set<nat>> {
    map conn | conn in byConnection :: byConnection[conn] - gone
  }

  function Revoked(s: Sessions, client: string): Sessions {
    var bumped := s.(generations := Bumped(s.generations, client));
    if client !in s.byClient then bumped
    else
      var ending := s.byClient[client];
      bumped.(leases := Flagged(s.leases, ending.Keys, true), byClient := s.byClient - {client},
              byConnection := Thinned(s.byConnection, ending.Keys),
              deferred := s.deferred + [Closing(client, ending.Values)])
  }

  predicate HasLive(s: Sessions, connection: Connection) {
    exists l :: l in LeasesOn(s.byConnection, connection) && l < |s.leases| && IsLive(s, l)
  }

  function ToClose(s: Sessions, connections: set<Connection>): set<Connection> {
    set conn | conn in connections && conn.socket && conn in s.byConnection && !HasLive(s, conn)
  }

  /** The next deferred close runs, deciding now. */
  function Closed(s: Sessions): Sessions
    requires s.deferred != []
  {
    s.(deferred := s.deferred[1..],
       closed := s.closed + [Closing(s.deferred[0].client, ToClose(s, s.deferred[0].connections))])
  }

  /** Drops the leases in `gone` from every client's, and a client with none left. */
  function Stripped(byClient: map<string, map<nat, Connection>>, gone: set<nat>): (rest: map<string, map<nat, Connection>>)
  {
    map c | c in byClient && byClient[c] - gone != map[] :: byClient[c] - gone
  }

  /** The connection ends, once: its leases are released. */
  function Ended(s: Sessions, connection: Connection): Sessions {
    if connection in s.ended then s
    else
      var ending := LeasesOn(s.byConnection, connection);
      s.(ended := s.ended + {connection}, leases := Flagged(s.leases, ending, false),
         byClient := Stripped(s.byClient, ending), byConnection := s.byConnection - {connection})
  }

  // ----- what every step keeps ----------------------------------------------------------------------------

  predicate HeldBy(leases: seq<Lease>, l: nat, c: string) {
    l < |leases| && leases[l].client == c && !leases[l].released
  }

  predicate HeldOn(leases: seq<Lease>, l: nat, conn: Connection) {
    l < |leases| && leases[l].connection == conn && !leases[l].released
  }

  /** A client's entry is exactly its unreleased leases, each with its connection, and is never empty. */
  ghost predicate ClientIndex(s: Sessions) {
    && (forall c :: c in s.byClient ==> s.byClient[c] != map[])
    && (forall c, l: nat :: l in LeasesOf(s.byClient, c) <==> HeldBy(s.leases, l, c))
    && (forall c, l: nat :: l in LeasesOf(s.byClient, c) ==> LeasesOf(s.byClient, c)[l] == s.leases[l].connection)
  }

  /** A connection's entry is exactly its unreleased leases, and an ended connection has no entry. */
  ghost predicate ConnectionIndex(s: Sessions) {
    && (forall conn :: conn in s.byConnection ==> conn !in s.ended)
    && (forall conn, l: nat :: l in LeasesOn(s.byConnection, conn) <==> HeldOn(s.leases, l, conn) && conn !in s.ended)
  }

  /** An unreleased lease is of its client's generation and not revoked. */
  ghost predicate Current(s: Sessions) {
    forall l :: 0 <= l < |s.leases| ==>
      && s.leases[l].seen <= Generation(s.generations, s.leases[l].client)
      && (s.leases[l].revoked ==> s.leases[l].released)
      && (!s.leases[l].released ==> s.leases[l].seen == Generation(s.generations, s.leases[l].client))
  }

  /** What waits to be closed is still listened to, unless it has ended. */
  ghost predicate Closable(s: Sessions) {
    forall d, conn :: 0 <= d < |s.deferred| && conn in s.deferred[d].connections ==> conn in s.ended || conn in s.byConnection
  }

  ghost predicate Inv(s: Sessions) {
    ClientIndex(s) && ConnectionIndex(s) && Current(s) && Closable(s)
  }

  /** The two indexes hold the same leases. */
  ghost predicate SameLeases(s: Sessions) {
    forall l :: 0 <= l < |s.leases| ==>
      (l in LeasesOf(s.byClient, s.leases[l].client) <==> l in LeasesOn(s.byConnection, s.leases[l].connection))
  }

  /** The indexes agree exactly when no lease still held is on a connection that has ended. */
  lemma IndexesAgreeOnLiveConnections(s: Sessions)
    requires Inv(s)
    ensures SameLeases(s) <==> forall l :: 0 <= l < |s.leases| && !s.leases[l].released ==> s.leases[l].connection !in s.ended
  {
    forall l | 0 <= l < |s.leases|
      ensures l in LeasesOf(s.byClient, s.leases[l].client) <==> !s.leases[l].released
      ensures l in LeasesOn(s.byConnection, s.leases[l].connection)
          <==> !s.leases[l].released && s.leases[l].connection !in s.ended
    {
      assert HeldBy(s.leases, l, s.leases[l].client) <==> !s.leases[l].released;
    }
  }

  lemma ReleasedKeepsClientIndex(s: Sessions, l: nat)
    requires ClientIndex(s) && l < |s.leases| && !s.leases[l].released
    ensures ClientIndex(Released(s, l))
  {
    var s', c := Released(s, l), s.leases[l].client;
    assert HeldBy(s.leases, l, c);
    forall d ensures LeasesOf(s'.byClient, d) == if d == c then Removed(LeasesOf(s.byClient, d), l) else LeasesOf(s.byClient, d) {
    }
    hide LeasesOf;
    forall d, k: nat ensures HeldBy(s'.leases, k, d) <==> HeldBy(s.leases, k, d) && k != l {
    }
  }

  lemma ReleasedKeepsConnectionIndex(s: Sessions, l: nat)
    requires ConnectionIndex(s) && l < |s.leases| && !s.leases[l].released
    ensures ConnectionIndex(Released(s, l))
  {
    var s', on := Released(s, l), s.leases[l].connection;
    forall conn
      ensures LeasesOn(s'.byConnection, conn) == LeasesOn(s.byConnection, conn) - (if conn == on then {l} else {})
    {
    }
    forall conn, k: nat ensures HeldOn(s'.leases, k, conn) <==> HeldOn(s.leases, k, conn) && k != l {
    }
  }

  lemma ReleasedKeeps(s: Sessions, l: nat)
    requires Inv(s) && l < |s.leases|
    ensures Inv(Released(s, l))
  {
    if !s.leases[l].released {
      ReleasedKeepsClientIndex(s, l);
      ReleasedKeepsConnectionIndex(s, l);
      hide ClientIndex, ConnectionIndex;
      assert Current(Released(s, l));
    }
  }

  lemma RegisteredKeeps(s: Sessions, client: string, seen: nat, connection: Connection)
    requires Inv(s)
    ensures Inv(Registered(s, client, seen, connection).0)
    ensures var (s', l) := Registered(s, client, seen, connection);
      match l case None => s' == s case Some(l) => l == |s.leases| < |s'.leases| && IsLive(s', l)
  {
    RegisteredKeepsConnectionIndex(s, client, seen, connection);
    RegisteredKeepsClientIndex(s, client, seen, connection);
    hide ClientIndex, ConnectionIndex;
  }

  /** Whose entry a registration adds to, and what it adds. */
  lemma RegisteredAddsToEntry(s: Sessions, client: string, seen: nat, connection: Connection, c: string)
    ensures var (s', issued) := Registered(s, client, seen, connection);
      && (issued.None? ==> s' == s)
      && (issued.Some? ==>
            && s'.leases == s.leases + [Lease(client, seen, connection, false, false)]
            && LeasesOf(s'.byClient, c)
               == (if c == client then LeasesOf(s.byClient, c)[|s.leases| := connection] else LeasesOf(s.byClient, c))
            && (c in s'.byClient ==> c in s.byClient || c == client))
  {
  }

  lemma RegisteredEntry(s: Sessions, client: string, seen: nat, connection: Connection, c: string)
    requires ClientIndex(s)
    ensures EntryHolds(Registered(s, client, seen, connection).0, c)
  {
    var (s', issued) := Registered(s, client, seen, connection);
    var entry, entry' := LeasesOf(s.byClient, c), LeasesOf(s'.byClient, c);
    RegisteredAddsToEntry(s, client, seen, connection, c);
    assert EntryHolds(s, c);
    hide ClientIndex, LeasesOf, Registered;
    if issued.Some? {
      assert forall k: nat :: HeldBy(s'.leases, k, c) <==> HeldBy(s.leases, k, c) || (k == |s.leases| && c == client);
      assert c == client ==> |s.leases| in entry';
      hide HeldBy;
      EntryIs(s', c, entry');
    }
  }

  lemma RegisteredKeepsClientIndex(s: Sessions, client: string, seen: nat, connection: Connection)
    requires ClientIndex(s)
    ensures ClientIndex(Registered(s, client, seen, connection).0)
  {
    hide ClientIndex, EntryHolds, Registered;
    forall c ensures EntryHolds(Registered(s, client, seen, connection).0, c) {
      RegisteredEntry(s, client, seen, connection, c);
    }
    IndexOfEntries(Registered(s, client, seen, connection).0);
  }

  lemma RegisteredKeepsConnectionIndex(s: Sessions, client: string, seen: nat, connection: Connection)
    requires ConnectionIndex(s)
    ensures ConnectionIndex(Registered(s, client, seen, connection).0)
  {
    var (s', issued) := Registered(s, client, seen, connection);
    if issued.Some? {
      var n := |s.leases|;
      forall conn, k: nat ensures HeldOn(s'.leases, k, conn) <==> HeldOn(s.leases, k, conn) || (k == n && conn == connection) {
      }
      assert forall conn :: n !in LeasesOn(s.byConnection, conn) by {
        assert forall conn :: !HeldOn(s.leases, n, conn);
      }
    }
  }

  /** Revoking flags exactly the leases the client holds. */
  lemma RevokedFlags(s: Sessions, client: string)
    requires ClientIndex(s)
    ensures |Revoked(s, client).leases| == |s.leases|
    ensures forall l :: 0 <= l < |s.leases| ==>
      Revoked(s, client).leases[l] == if HeldBy(s.leases, l, client) then Flag(s.leases[l], true, true) else s.leases[l]
  {
    assert forall l: nat :: l in LeasesOf(s.byClient, client) <==> HeldBy(s.leases, l, client);
  }

  lemma RevokedKeepsConnectionIndex(s: Sessions, client: string)
    requires ClientIndex(s) && ConnectionIndex(s)
    ensures ConnectionIndex(Revoked(s, client))
  {
    var s', ending := Revoked(s, client), LeasesOf(s.byClient, client);
    forall conn ensures LeasesOn(s'.byConnection, conn) == LeasesOn(s.byConnection, conn) - ending.Keys {
    }
    RevokedFlags(s, client);
    assert forall l: nat :: l in ending.Keys <==> HeldBy(s.leases, l, client);
    assert s'.byConnection.Keys == s.byConnection.Keys;
    hide LeasesOn, LeasesOf, Revoked;
    forall conn, k: nat ensures HeldOn(s'.leases, k, conn) <==> HeldOn(s.leases, k, conn) && !HeldBy(s.leases, k, client) {
    }
  }

  lemma RevokedEmptiesEntry(s: Sessions, client: string)
    ensures forall d :: LeasesOf(Revoked(s, client).byClient, d) == if d == client then map[] else LeasesOf(s.byClient, d)
    ensures forall d :: d in Revoked(s, client).byClient ==> d in s.byClient && Revoked(s, client).byClient[d] == s.byClient[d]
  {
  }

  /** One client's part of `ClientIndex`. */
  ghost predicate EntryHolds(s: Sessions, c: string) {
    var entry := LeasesOf(s.byClient, c);
    && (c in s.byClient ==> entry != map[])
    && (forall l: nat :: l in entry <==> HeldBy(s.leases, l, c))
    && (forall l: nat :: l in entry ==> l < |s.leases| && entry[l] == s.leases[l].connection)
  }

  lemma IndexOfEntries(s: Sessions)
    requires forall c :: EntryHolds(s, c)
    ensures ClientIndex(s)
  {
    forall c ensures c in s.byClient ==> s.byClient[c] != map[] {
      assert EntryHolds(s, c);
    }
    forall c, l: nat
      ensures l in LeasesOf(s.byClient, c) <==> HeldBy(s.leases, l, c)
      ensures l in LeasesOf(s.byClient, c) ==> l < |s.leases| && LeasesOf(s.byClient, c)[l] == s.leases[l].connection
    {
      assert EntryHolds(s, c);
    }
  }

  lemma RevokedEntry(s: Sessions, client: string, c: string)
    requires ClientIndex(s)
    ensures EntryHolds(Revoked(s, client), c)
  {
    var s' := Revoked(s, client);
    assert EntryHolds(s, c);
    RevokedEmptiesEntry(s, client);
    RevokedFlags(s, client);
    assert c in s'.byClient ==> c in s.byClient && c != client;
    hide ClientIndex, LeasesOf, Revoked, Flagged;
    assert forall k: nat :: HeldBy(s'.leases, k, c) <==> HeldBy(s.leases, k, c) && c != client;
    assert forall k :: 0 <= k < |s.leases| ==> s'.leases[k].connection == s.leases[k].connection;
    hide HeldBy, Flag;
    EntryIs(s', c, LeasesOf(s'.byClient, c));
  }

  lemma RevokedKeepsClientIndex(s: Sessions, client: string)
    requires ClientIndex(s)
    ensures ClientIndex(Revoked(s, client))
  {
    hide ClientIndex, EntryHolds;
    forall c ensures EntryHolds(Revoked(s, client), c) {
      RevokedEntry(s, client, c);
    }
    IndexOfEntries(Revoked(s, client));
  }

  /** Every lease of the client stops admitting calls, tracked or not, and no other client's does. */
  lemma RevokedKeeps(s: Sessions, client: string)
    requires Inv(s)
    ensures Inv(Revoked(s, client)) && |Revoked(s, client).leases| == |s.leases|
    ensures forall l :: 0 <= l < |s.leases| && s.leases[l].client == client ==> !Admits(Revoked(s, client), l)
    ensures forall l :: 0 <= l < |s.leases| && s.leases[l].client != client ==>
              (Admits(Revoked(s, client), l) <==> Admits(s, l)) && (IsLive(Revoked(s, client), l) <==> IsLive(s, l))
  {
    RevokedFlags(s, client);
    RevokedKeepsClientIndex(s, client);
    RevokedKeepsConnectionIndex(s, client);
    RevokedKeepsClosable(s, client);
    hide ClientIndex, ConnectionIndex, Closable, Flagged;
  }

  lemma RevokedKeepsClosable(s: Sessions, client: string)
    requires ClientIndex(s) && ConnectionIndex(s) && Closable(s)
    ensures Closable(Revoked(s, client))
  {
    var s' := Revoked(s, client);
    if client in s.byClient {
      forall conn | conn in s.byClient[client].Values ensures conn in s.ended || conn in s.byConnection {
        var l :| l in s.byClient[client] && s.byClient[client][l] == conn;
        assert l in LeasesOf(s.byClient, client) && HeldBy(s.leases, l, client) && HeldOn(s.leases, l, conn);
        assert conn !in s.ended ==> l in LeasesOn(s.byConnection, conn);
      }
      assert s'.byConnection.Keys == s.byConnection.Keys && s'.deferred[..|s.deferred|] == s.deferred;
      forall d, conn | 0 <= d < |s'.deferred| && conn in s'.deferred[d].connections
        ensures conn in s'.ended || conn in s'.byConnection
      {
        assert d < |s.deferred| ==> s'.deferred[d] == s.deferred[d];
      }
    }
  }

  /** Every connection the client held a session on is in the close its revocation defers. */
  lemma RevokedDefersEveryClose(s: Sessions, client: string, l: nat)
    requires ClientIndex(s) && HeldBy(s.leases, l, client)
    ensures var d := Revoked(s, client).deferred;
      |d| == |s.deferred| + 1 && d[|s.deferred|].client == client && s.leases[l].connection in d[|s.deferred|].connections
  {
    assert l in LeasesOf(s.byClient, client);
  }

  lemma EndedStripsEntry(s: Sessions, connection: Connection, c: string)
    requires connection !in s.ended
    ensures var s', ending := Ended(s, connection), LeasesOn(s.byConnection, connection);
      && LeasesOf(s'.byClient, c) == LeasesOf(s.byClient, c) - ending
      && (c in s'.byClient ==> LeasesOf(s'.byClient, c) != map[]) && |s'.leases| == |s.leases|
      && forall k :: 0 <= k < |s.leases| ==> s'.leases[k] == if k in ending then Flag(s.leases[k], false, true) else s.leases[k]
  {
  }

  /** An entry that loses the leases that ended is again exactly the unreleased ones. */
  lemma EntryShrinks(entry: map<nat, Connection>, leases: seq<Lease>, leases': seq<Lease>, ending: set<nat>, c: string)
    requires forall l: nat :: l in entry <==> HeldBy(leases, l, c)
    requires forall l: nat :: l in entry ==> l < |leases| && entry[l] == leases[l].connection
    requires |leases'| == |leases|
    requires forall k :: 0 <= k < |leases| ==> leases'[k] == if k in ending then Flag(leases[k], false, true) else leases[k]
    ensures forall l: nat :: l in entry - ending <==> HeldBy(leases', l, c)
    ensures forall l: nat :: l in entry - ending ==> l < |leases'| && (entry - ending)[l] == leases'[l].connection
  {
    forall k: nat ensures HeldBy(leases', k, c) <==> HeldBy(leases, k, c) && k !in ending {
      if k < |leases| {
        assert leases'[k].client == leases[k].client;
      }
    }
  }

  /** What an entry holding says, told of the entry alone. */
  lemma EntryIs(s: Sessions, c: string, entry: map<nat, Connection>)
    requires entry == LeasesOf(s.byClient, c) && (c in s.byClient ==> entry != map[])
    requires forall l: nat :: l in entry <==> HeldBy(s.leases, l, c)
    requires forall l: nat :: l in entry ==> l < |s.leases| && entry[l] == s.leases[l].connection
    ensures EntryHolds(s, c)
  {
    hide HeldBy, LeasesOf;
  }

  lemma EndedEntry(s: Sessions, connection: Connection, c: string)
    requires ClientIndex(s) && ConnectionIndex(s) && connection !in s.ended
    ensures EntryHolds(Ended(s, connection), c)
  {
    var entry, s', ending := LeasesOf(s.byClient, c), Ended(s, connection), LeasesOn(s.byConnection, connection);
    EndedStripsEntry(s, connection, c);
    assert forall l: nat :: l in entry <==> HeldBy(s.leases, l, c);
    assert forall l: nat :: l in entry ==> l < |s.leases| && entry[l] == s.leases[l].connection;
    hide ClientIndex, ConnectionIndex, LeasesOf, LeasesOn, Ended, HeldBy, Flag, EntryHolds;
    EntryShrinks(entry, s.leases, s'.leases, ending, c);
    EntryIs(s', c, entry - ending);
  }

  lemma EndedKeepsClientIndex(s: Sessions, connection: Connection)
    requires ClientIndex(s) && ConnectionIndex(s) && connection !in s.ended
    ensures ClientIndex(Ended(s, connection))
  {
    hide ClientIndex, ConnectionIndex, EntryHolds, Ended;
    forall c ensures EntryHolds(Ended(s, connection), c) {
      EndedEntry(s, connection, c);
    }
    IndexOfEntries(Ended(s, connection));
  }

  lemma EndedKeepsConnectionIndex(s: Sessions, connection: Connection)
    requires ConnectionIndex(s) && connection !in s.ended
    ensures ConnectionIndex(Ended(s, connection))
  {
    var s', ending := Ended(s, connection), LeasesOn(s.byConnection, connection);
    forall conn ensures LeasesOn(s'.byConnection, conn) == if conn == connection then {} else LeasesOn(s.byConnection, conn) {
    }
    assert forall k: nat :: k in ending <==> HeldOn(s.leases, k, connection);
    assert forall k :: 0 <= k < |s.leases| ==> s'.leases[k] == if k in ending then Flag(s.leases[k], false, true) else s.leases[k];
    hide LeasesOn;
    forall conn, k: nat
      ensures HeldOn(s'.leases, k, conn) <==> HeldOn(s.leases, k, conn) && conn != connection
    {
    }
  }

  lemma EndedKeeps(s: Sessions, connection: Connection)
    requires Inv(s)
    ensures Inv(Ended(s, connection)) && connection in Ended(s, connection).ended
  {
    if connection !in s.ended {
      EndedKeepsClientIndex(s, connection);
      EndedKeepsConnectionIndex(s, connection);
    }
    hide ClientIndex, ConnectionIndex;
    var s' := Ended(s, connection);
    assert Current(s') && Closable(s');
  }

  /**
   * A deferred close closes exactly the still-open sockets it waited for on
   * which no lease of any client is live.
   */
  lemma ClosesWhatNoLeaseHolds(s: Sessions)
    requires Inv(s) && s.deferred != []
    ensures Inv(Closed(s))
    ensures forall conn ::
      conn in ToClose(s, s.deferred[0].connections) <==>
        && conn in s.deferred[0].connections && conn.socket && conn !in s.ended
        && forall l :: 0 <= l < |s.leases| && s.leases[l].connection == conn ==> !IsLive(s, l)
  {
    forall conn | conn in s.deferred[0].connections && conn.socket && conn !in s.ended
      ensures HasLive(s, conn) <==> exists l :: 0 <= l < |s.leases| && s.leases[l].connection == conn && IsLive(s, l)
    {
      if l :| 0 <= l < |s.leases| && s.leases[l].connection == conn && IsLive(s, l) {
        assert HeldOn(s.leases, l, conn);
      }
      assert HasLive(s, conn) ==> exists l :: l in LeasesOn(s.byConnection, conn) && HeldOn(s.leases, l, conn) && IsLive(s, l);
    }
  }

  /** The one way the indexes part: a session registered on a connection that has ended is in one and not the other. */
  lemma OnlyALateRegistrationParts(s: Sessions, client: string, seen: nat, connection: Connection)
    requires Inv(s) && SameLeases(s)
    ensures SameLeases(Registered(s, client, seen, connection).0)
        <==> connection !in s.ended || Generation(s.generations, client) != seen
  {
    RegisteredKeeps(s, client, seen, connection);
    var (s', issued) := Registered(s, client, seen, connection);
    IndexesAgreeOnLiveConnections(s);
    IndexesAgreeOnLiveConnections(s');
    hide Inv, SameLeases;
    if issued.Some? {
      assert s'.leases[|s.leases|] == Lease(client, seen, connection, false, false);
      assert forall l :: 0 <= l < |s.leases| ==> s'.leases[l] == s.leases[l];
    }
  }

  /** No lease is held on an ended connection. */
  ghost predicate NoneLate(s: Sessions) {
    forall l :: 0 <= l < |s.leases| && !s.leases[l].released ==> s.leases[l].connection !in s.ended
  }

  /** No other step parts them. */
  lemma OtherStepsKeepSameLeases(s: Sessions, l: nat, client: string, connection: Connection)
    requires Inv(s) && SameLeases(s)
    ensures l < |s.leases| ==> SameLeases(Released(s, l))
    ensures SameLeases(Revoked(s, client)) && SameLeases(Ended(s, connection))
    ensures s.deferred != [] ==> SameLeases(Closed(s))
  {
    IndexesAgreeOnLiveConnections(s);
    if l < |s.leases| {
      ReleasedKeeps(s, l);
      IndexesAgreeOnLiveConnections(Released(s, l));
    }
    RevokedKeeps(s, client);
    IndexesAgreeOnLiveConnections(Revoked(s, client));
    EndedKeeps(s, connection);
    IndexesAgreeOnLiveConnections(Ended(s, connection));
    assert s.deferred != [] ==> SameLeases(Closed(s));
    hide Inv, SameLeases;
    assert NoneLate(s);
    NoneLateAfter(s, l, client, connection);
  }

  lemma NoneLateOnceReleased(s: Sessions, l: nat)
    requires NoneLate(s) && l < |s.leases|
    ensures NoneLate(Released(s, l))
  {
  }

  lemma NoneLateOnceRevoked(s: Sessions, client: string)
    requires NoneLate(s)
    ensures NoneLate(Revoked(s, client))
  {
  }

  lemma NoneLateOnceEnded(s: Sessions, connection: Connection)
    requires ConnectionIndex(s) && NoneLate(s)
    ensures NoneLate(Ended(s, connection))
  {
    assert forall k: nat :: k in LeasesOn(s.byConnection, connection) <==> HeldOn(s.leases, k, connection) && connection !in s.ended;
    hide ConnectionIndex, LeasesOn, Stripped;
  }

  lemma NoneLateAfter(s: Sessions, l: nat, client: string, connection: Connection)
    requires Inv(s) && NoneLate(s)
    ensures l < |s.leases| ==> NoneLate(Released(s, l))
    ensures NoneLate(Revoked(s, client)) && NoneLate(Ended(s, connection))
  {
    if l < |s.leases| {
      NoneLateOnceReleased(s, l);
    }
    NoneLateOnceRevoked(s, client);
    NoneLateOnceEnded(s, connection);
  }
}
