/**
 * What every run of the engine event stream keeps: each frame number handed
 * out is accounted for, each request settles once, and stopping leaves none.
 */
module EventStreamRuns {
  import opened Options
  import opened EventStreamSteps

  // ----- one subscription ---------------------------------------------------------------------------------

  /** The numbers pushed, in order, as the fates tell them. */
  function PushedIn(fates: seq<Fate>): (ns: seq<nat>)
    ensures forall i :: 0 <= i < |ns| ==> 1 <= ns[i] <= |fates|
  {
    if fates == [] then []
    else PushedIn(fates[..|fates| - 1]) + (if fates[|fates| - 1].Pushed? then [|fates|] else [])
  }

  /**
   * The queue holds the newest numbers in order, every older one has its one
   * fate, and the subscriber was handed exactly those whose fate was a push.
   */
  ghost predicate Accounted(sub: Subscription) {
    && |sub.fates| + |sub.queue| == sub.lastNo
    && (forall i :: 0 <= i < |sub.queue| ==> sub.queue[i].no == |sub.fates| + 1 + i)
    && |sub.pushed| == |PushedIn(sub.fates)|
    && (forall i :: 0 <= i < |sub.pushed| ==> sub.pushed[i].no == PushedIn(sub.fates)[i])
    && (sub.closed ==> sub.queue == [])
    && (!sub.closed ==> Discarded !in sub.fates)
  }

  /** A pump runs exactly while a push is awaited, the last frame handed over; queued frames always have one. */
  ghost predicate Pumped(sub: Subscription) {
    && (sub.pumping <==> sub.inFlight.Some?)
    && (sub.queue != [] ==> sub.pumping)
    && (sub.inFlight.Some? ==> sub.pushed != [] && sub.pushed[|sub.pushed| - 1] == sub.inFlight.value)
  }

  ghost predicate Sound(sub: Subscription, limit: nat) {
    Accounted(sub) && Pumped(sub) && |sub.queue| <= limit
  }

  predicate Holds(frames: seq<Frame>, id: string) {
    exists i :: 0 <= i < |frames| && frames[i].message == Request(id)
  }

  /** The subscription still has the request queued, or has handed it over. */
  predicate Carries(sub: Subscription, id: string) {
    Holds(sub.queue, id) || Holds(sub.pushed, id)
  }

  lemma PushedInGrows(fates: seq<Fate>, fate: Fate)
    ensures PushedIn(fates + [fate]) == PushedIn(fates) + (if fate.Pushed? then [|fates| + 1] else [])
  {
    assert (fates + [fate])[..|fates|] == fates;
  }

  lemma HoldsAfter(frames: seq<Frame>, frame: Frame, id: string)
    ensures Holds(frames + [frame], id) <==> Holds(frames, id) || frame.message == Request(id)
  {
    var all := frames + [frame];
    assert all[|frames|] == frame;
    if Holds(frames, id) {
      var i :| 0 <= i < |frames| && frames[i].message == Request(id);
      assert all[i].message == Request(id);
    }
  }

  lemma HoldsFirst(frames: seq<Frame>, id: string)
    requires frames != []
    ensures Holds(frames, id) <==> Holds(frames[1..], id) || frames[0].message == Request(id)
  {
    assert frames == [frames[0]] + frames[1..];
    if Holds(frames[1..], id) {
      var i :| 0 <= i < |frames[1..]| && frames[1..][i].message == Request(id);
      assert frames[i + 1].message == Request(id);
    }
  }

  /** The oldest queued frame leaves unpushed; every other request is still carried. */
  lemma FirstIsLost(sub: Subscription, fate: Fate)
    requires Accounted(sub) && sub.queue != [] && (fate.Dropped? || fate.Skipped?)
    ensures var rest := sub.(queue := sub.queue[1..], fates := sub.fates + [fate]);
            && Accounted(rest)
            && forall id :: Carries(sub, id) && sub.queue[0].message != Request(id) ==> Carries(rest, id)
  {
    PushedInGrows(sub.fates, fate);
    forall id ensures Holds(sub.queue, id) <==> Holds(sub.queue[1..], id) || sub.queue[0].message == Request(id) {
      HoldsFirst(sub.queue, id);
    }
  }

  /** The oldest queued frame is handed to the subscriber; every request is still carried. */
  lemma FirstIsPushed(sub: Subscription)
    requires Accounted(sub) && sub.queue != []
    ensures var frame := sub.queue[0];
            var rest := sub.(queue := sub.queue[1..], pumping := true, inFlight := Some(frame),
                             pushed := sub.pushed + [frame], fates := sub.fates + [Pushed]);
            Accounted(rest) && Pumped(rest) && forall id :: Carries(sub, id) ==> Carries(rest, id)
  {
    PushedInGrows(sub.fates, Pushed);
    forall id ensures Holds(sub.queue, id) <==> Holds(sub.queue[1..], id) || sub.queue[0].message == Request(id) {
      HoldsFirst(sub.queue, id);
    }
    forall id ensures Holds(sub.pushed + [sub.queue[0]], id)
                 <==> Holds(sub.pushed, id) || sub.queue[0].message == Request(id) {
      HoldsAfter(sub.pushed, sub.queue[0], id);
    }
  }

  /** Whatever is settled is left behind; a request still waiting stays carried. */
  lemma {:induction false} PumpAccounts(sub: Subscription, waiting: set<string>)
    requires Accounted(sub)
    ensures var sub' := Pump(sub, waiting);
            && Accounted(sub') && Pumped(sub') && |sub'.queue| <= |sub.queue|
            && (forall id :: id in waiting && Carries(sub, id) ==> Carries(sub', id))
    decreases |sub.queue|
  {
    if sub.queue != [] && !sub.closed {
      FirstIsLost(sub, Skipped);
      FirstIsPushed(sub);
      hide Accounted, Carries, Pumped;
      if sub.queue[0].message.Request? && sub.queue[0].message.id !in waiting {
        PumpAccounts(sub.(queue := sub.queue[1..], fates := sub.fates + [Skipped]), waiting);
      }
    }
  }

  lemma AppendAccounts(sub: Subscription, message: Message)
    requires Accounted(sub) && !sub.closed
    ensures Accounted(Append(sub, message))
    ensures forall id :: Carries(Append(sub, message), id) <==> Carries(sub, id) || message == Request(id)
  {
    forall id ensures Carries(Append(sub, message), id) <==> Carries(sub, id) || message == Request(id) {
      HoldsAfter(sub.queue, Frame(sub.lastNo + 1, message), id);
    }
  }

  lemma {:induction false} PushedInRises(fates: seq<Fate>)
    ensures forall i, j :: 0 <= i < j < |PushedIn(fates)| ==> PushedIn(fates)[i] < PushedIn(fates)[j]
    ensures forall m :: 0 <= m < |fates| && fates[m].Pushed? ==> m + 1 in PushedIn(fates)
  {
    if fates != [] {
      PushedInRises(fates[..|fates| - 1]);
    }
  }

  function Lost(fates: seq<Fate>): nat {
    if fates == [] then 0
    else (if fates[0].Dropped? || fates[0].Skipped? || fates[0].Discarded? then 1 else 0) + Lost(fates[1..])
  }

  lemma {:induction false} AllLost(fates: seq<Fate>)
    requires forall i :: 0 <= i < |fates| ==> !fates[i].Pushed?
    ensures Lost(fates) == |fates|
  {
    if fates != [] {
      AllLost(fates[1..]);
    }
  }

  /** Pushes rise, and the gap between two in a row is the number of frames lost between them. */
  lemma GapIsWhatWasLost(sub: Subscription, i: nat)
    requires Accounted(sub) && i + 1 < |sub.pushed|
    ensures var a, b := sub.pushed[i].no, sub.pushed[i + 1].no;
            1 <= a < b <= |sub.fates| && Lost(sub.fates[a..b - 1]) == b - a - 1
  {
    var ns := PushedIn(sub.fates);
    var a, b := ns[i], ns[i + 1];
    PushedInRises(sub.fates);
    forall m | a <= m < b - 1 ensures !sub.fates[m].Pushed? {
      if sub.fates[m].Pushed? {
        var j :| 0 <= j < |ns| && ns[j] == m + 1;
        assert false;
      }
    }
    AllLost(sub.fates[a..b - 1]);
  }

  // ----- the whole stream ---------------------------------------------------------------------------------

  /** A registered subscription is an open one, and a session holds one. Those in `loose` are about to be closed. */
  ghost predicate Registry(s: State, loose: set<SubId>) {
    && (forall k :: k in s.registered ==> k in s.subs && !s.subs[k].closed)
    && (forall k :: k in s.subs && !s.subs[k].closed ==> k in s.registered || k in loose)
    && (forall i, j :: 0 <= i < j < |s.registered| ==>
          s.registered[i] != s.registered[j]
          && s.subs[s.registered[i]].session != s.subs[s.registered[j]].session)
    && (s.stopped ==> s.registered == [])
  }

  ghost predicate Subscriptions(s: State) {
    && 1 <= s.limit
    && forall k :: k in s.subs ==> Sound(s.subs[k], s.limit)
  }

  /** A waiting request is on an open subscription of its own client, which carries it. */
  ghost predicate Waits(s: State, id: string, unsent: set<string>)
    requires id in s.pending
  {
    var p := s.pending[id];
    && p.sub in s.subs && !s.subs[p.sub].closed && s.subs[p.sub].client == p.client
    && id in s.asked && s.asked[id] == p.client
    && (id in unsent || Carries(s.subs[p.sub], id))
  }

  /** Every request taken is waiting or settled, not both, and only its own client answers it. */
  ghost predicate Requests(s: State, unsent: set<string>) {
    && (forall id :: id in s.pending ==> Waits(s, id, unsent))
    && (forall id :: id in s.asked <==> id in s.pending || id in s.settled)
    && (forall id :: id in s.pending ==> id !in s.settled)
    && (forall id :: id in s.settled && (s.settled[id].Answered? || s.settled[id].Refused?) ==>
          s.settled[id].client == s.asked[id])
  }

  ghost predicate Inv(s: State) {
    Registry(s, {}) && Subscriptions(s) && Requests(s, {})
  }

  lemma InvLists(s: State)
    requires Inv(s)
    ensures Listed(s) && 1 <= s.limit
  {
  }

  lemma SettleKeeps(s: State, id: string, outcome: Outcome, unsent: set<string>)
    requires Requests(s, unsent)
    requires outcome.Answered? || outcome.Refused? ==> id in s.pending ==> s.pending[id].client == outcome.client
    ensures Requests(Settle(s, id, outcome), unsent)
  {
  }

  lemma LoseOldestKeeps(sub: Subscription)
    requires Accounted(sub) && sub.queue != []
    ensures Accounted(LoseOldest(sub))
    ensures sub.pumping && Pumped(sub) ==> Pumped(LoseOldest(sub))
    ensures forall id :: Carries(sub, id) && sub.queue[0].message != Request(id) ==> Carries(LoseOldest(sub), id)
  {
    FirstIsLost(sub, Dropped);
  }

  /** One subscription replaced by another that still carries what waits on it. */
  lemma ReplaceKeepsRequests(s: State, k: SubId, sub: Subscription, unsent: set<string>, unsent': set<string>)
    requires Requests(s, unsent) && k in s.subs
    requires sub.client == s.subs[k].client && sub.closed == s.subs[k].closed
    requires unsent' <= unsent
    requires forall id :: id in s.pending && id in unsent - unsent' ==> s.pending[id].sub == k && Carries(sub, id)
    requires forall id :: id in s.pending && s.pending[id].sub == k && Carries(s.subs[k], id) ==> Carries(sub, id)
    ensures Requests(s.(subs := s.subs[k := sub]), unsent')
  {
    hide Carries;
  }

  /** Only subscription `k` differs, and it is the same session's, as open as it was. */
  predicate ReplacesOnly(s: State, s': State, k: SubId) {
    && k in s.subs && k in s'.subs && s'.subs == s.subs[k := s'.subs[k]]
    && s'.subs[k].session == s.subs[k].session && s'.subs[k].closed == s.subs[k].closed
    && s'.subs[k].client == s.subs[k].client
    && s'.registered == s.registered && s'.stopped == s.stopped && s'.limit == s.limit
  }

  /** A queue with room for one more. */
  ghost predicate Roomy(sub: Subscription, limit: nat) {
    Accounted(sub) && |sub.queue| < limit && (sub.pumping ==> Pumped(sub))
  }

  lemma MakeRoomMakesRoom(s: State, k: SubId)
    requires Subscriptions(s) && k in s.subs
    ensures ReplacesOnly(s, MakeRoom(s, k), k) && Roomy(MakeRoom(s, k).subs[k], s.limit)
  {
    if |s.subs[k].queue| >= s.limit {
      LoseOldestKeeps(s.subs[k]);
    }
    hide Accounted, Pumped;
  }

  lemma MakeRoomKeepsRequests(s: State, k: SubId, unsent: set<string>)
    requires Requests(s, unsent) && k in s.subs && Accounted(s.subs[k])
    ensures var s' := MakeRoom(s, k);
            && Requests(s', unsent)
            && forall id :: id in s'.pending ==> id in s.pending && s'.pending[id] == s.pending[id]
  {
    var sub := s.subs[k];
    if |sub.queue| >= s.limit && sub.queue != [] {
      LoseOldestKeeps(sub);
      var first := sub.queue[0].message;
      var s1 := if first.Request? then Settle(s, first.id, Overflowed) else s;
      if first.Request? {
        SettleKeeps(s, first.id, Overflowed, unsent);
      }
      hide Accounted, Carries;
      ReplaceKeepsRequests(s1, k, LoseOldest(sub), unsent, unsent);
    }
  }

  lemma PushAccounts(sub: Subscription, message: Message, waiting: set<string>, limit: nat)
    requires 1 <= limit && Roomy(sub, limit) && !sub.closed
    ensures var sub' := Push(sub, message, waiting);
            && Sound(sub', limit)
            && sub'.client == sub.client && sub'.session == sub.session && sub'.closed == sub.closed
            && (forall id :: id in waiting && (Carries(sub, id) || message == Request(id)) ==> Carries(sub', id))
  {
    AppendAccounts(sub, message);
    PumpAccounts(Append(sub, message), waiting);
    hide Carries;
  }

  lemma ReplaceKeepsRegistry(s: State, s': State, k: SubId, loose: set<SubId>)
    requires Registry(s, loose) && ReplacesOnly(s, s', k)
    ensures Registry(s', loose)
  {
  }

  lemma EnqueueKeepsRequests(s: State, k: SubId, message: Message, unsent: set<string>)
    requires Subscriptions(s) && Requests(s, unsent) && k in s.subs && !s.subs[k].closed
    requires unsent == if message.Request? then {message.id} else {}
    requires message.Request? && message.id in s.pending ==> s.pending[message.id].sub == k
    ensures Requests(Enqueue(s, k, message), {})
  {
    MakeRoomMakesRoom(s, k);
    MakeRoomKeepsRequests(s, k, unsent);
    var s1 := MakeRoom(s, k);
    PushAccounts(s1.subs[k], message, WaitingOn(s1, k), s.limit);
    hide Carries, Sound, Roomy, Push, MakeRoom;
    ReplaceKeepsRequests(s1, k, Push(s1.subs[k], message, WaitingOn(s1, k)), unsent, {});
  }

  lemma ReplaceTwice(s: State, s': State, k: SubId, sub: Subscription)
    requires ReplacesOnly(s, s', k)
    requires sub.session == s'.subs[k].session && sub.client == s'.subs[k].client && sub.closed == s'.subs[k].closed
    ensures ReplacesOnly(s, s'.(subs := s'.subs[k := sub]), k)
  {
    assert s'.subs[k := sub] == s.subs[k := sub];
  }

  lemma EnqueueReplacesOnly(s: State, k: SubId, message: Message)
    requires Subscriptions(s) && k in s.subs && !s.subs[k].closed
    ensures ReplacesOnly(s, Enqueue(s, k, message), k) && Sound(Enqueue(s, k, message).subs[k], s.limit)
  {
    MakeRoomMakesRoom(s, k);
    var s1 := MakeRoom(s, k);
    assert ReplacesOnly(s, s1, k) && Roomy(s1.subs[k], s.limit) && !s1.subs[k].closed;
    hide MakeRoom, Roomy, Sound, Push, Carries;
    var sub := Push(s1.subs[k], message, WaitingOn(s1, k));
    PushAccounts(s1.subs[k], message, WaitingOn(s1, k), s.limit);
    ReplaceTwice(s, s1, k, sub);
    hide ReplacesOnly;
    assert Enqueue(s, k, message) == s1.(subs := s1.subs[k := sub]);
  }

  lemma EnqueueKeeps(s: State, k: SubId, message: Message)
    requires Registry(s, {}) && Subscriptions(s) && k in s.subs && !s.subs[k].closed
    requires Requests(s, if message.Request? then {message.id} else {})
    requires message.Request? && message.id in s.pending ==> s.pending[message.id].sub == k
    ensures Inv(Enqueue(s, k, message)) && ReplacesOnly(s, Enqueue(s, k, message), k)
  {
    hide Requests, Subscriptions, Enqueue;
    EnqueueKeepsRequests(s, k, message, if message.Request? then {message.id} else {});
    EnqueueReplacesOnly(s, k, message);
    ReplaceKeepsRegistry(s, Enqueue(s, k, message), k, {});
    ReplaceKeepsSubscriptions(s, Enqueue(s, k, message), k);
  }

  lemma ReplaceKeepsSubscriptions(s: State, s': State, k: SubId)
    requires Subscriptions(s) && ReplacesOnly(s, s', k) && Sound(s'.subs[k], s.limit)
    ensures Subscriptions(s')
  {
    hide Sound;
  }

  lemma {:induction false} PublishKeeps(s: State, ks: seq<SubId>, eventType: string, target: Option<string>)
    requires Inv(s) && forall k :: k in ks ==> k in s.registered
    ensures Inv(PublishTo(s, ks, eventType, target))
    decreases |ks|
  {
    if ks != [] {
      var s' := s;
      if Wants(s.subs[ks[0]], eventType, target) {
        EnqueueKeeps(s, ks[0], Event(eventType));
        s' := Enqueue(s, ks[0], Event(eventType));
      }
      hide Requests, Subscriptions, Enqueue;
      PublishKeeps(s', ks[1..], eventType, target);
    }
  }

  /** The request is noted before its frame is queued. */
  lemma NotedRequest(s: State, id: string, k: SubId)
    requires Requests(s, {}) && id !in s.asked && k in s.subs && !s.subs[k].closed
    ensures var client := s.subs[k].client;
            Requests(s.(pending := s.pending[id := Pending(client, k)], asked := s.asked[id := client]), {id})
  {
    hide Carries;
  }

  lemma NotedRequestQueues(s: State, id: string, k: SubId)
    requires Inv(s) && id !in s.asked && k in s.subs && !s.subs[k].closed
    ensures var client := s.subs[k].client;
            Inv(Enqueue(s.(pending := s.pending[id := Pending(client, k)], asked := s.asked[id := client]), k, Request(id)))
  {
    var client := s.subs[k].client;
    var s1 := s.(pending := s.pending[id := Pending(client, k)], asked := s.asked[id := client]);
    NotedRequest(s, id, k);
    hide Carries, Sound, Enqueue;
    assert Registry(s1, {}) && Subscriptions(s1);
    hide Requests, Subscriptions, Registry;
    EnqueueKeeps(s1, k, Request(id));
  }

  lemma AskKeeps(s: State, id: string, client: string)
    requires Inv(s) && id !in s.asked
    ensures Inv(AskStep(s, id, client))
  {
    if Takes(s, id, client) {
      hide Requests, Subscriptions, Enqueue;
      NotedRequestQueues(s, id, NewestFor(s, client).value);
    }
  }

  // ----- closing ------------------------------------------------------------------------------------------

  lemma {:induction false} DiscardsPushNothing(fates: seq<Fate>, n: nat)
    ensures PushedIn(fates + Discards(n)) == PushedIn(fates) && |Discards(n)| == n
  {
    if n == 0 {
      assert fates + Discards(n) == fates;
    } else {
      assert fates + Discards(n) == (fates + Discards(n - 1)) + [Discarded];
      PushedInGrows(fates + Discards(n - 1), Discarded);
      DiscardsPushNothing(fates, n - 1);
    }
  }

  lemma CloseIsSound(s: State, k: SubId)
    requires k in s.subs && Sound(s.subs[k], s.limit)
    ensures Sound(Close(s, k).subs[k], s.limit) && Close(s, k).subs[k].closed
  {
    DiscardsPushNothing(s.subs[k].fates, |s.subs[k].queue|);
  }

  lemma CloseKeepsRequests(s: State, k: SubId)
    requires Requests(s, {}) && k in s.subs
    ensures Requests(Close(s, k), {})
  {
    hide Carries;
  }

  lemma CloseKeepsRegistry(s: State, k: SubId, loose: set<SubId>)
    requires Registry(s, loose) && k in s.subs && k !in s.registered
    ensures Registry(Close(s, k), loose - {k})
  {
  }

  lemma CloseKeeps(s: State, k: SubId, loose: set<SubId>)
    requires Registry(s, loose) && Subscriptions(s) && Requests(s, {}) && k in s.subs && k !in s.registered
    ensures var s' := Close(s, k); Registry(s', loose - {k}) && Subscriptions(s') && Requests(s', {})
  {
    CloseIsSound(s, k);
    CloseKeepsRequests(s, k);
    CloseKeepsRegistry(s, k, loose);
    hide Requests, Registry, Sound;
  }

  lemma {:induction false} WithoutDrops(registered: seq<SubId>, k: SubId)
    requires forall i, j :: 0 <= i < j < |registered| ==> registered[i] != registered[j]
    ensures var rest := Without(registered, k);
            && k !in rest && (forall x :: x in rest <==> x in registered && x != k)
            && (forall i, j :: 0 <= i < j < |rest| ==> rest[i] != rest[j])
  {
    if registered != [] {
      WithoutDrops(registered[1..], k);
      assert registered[0] !in registered[1..];
    }
  }

  /** Taking a subscription out of the map leaves it loose until it is closed. */
  lemma WithoutKeepsRegistry(s: State, k: SubId)
    requires Registry(s, {}) && k in s.subs
    ensures Registry(s.(registered := Without(s.registered, k)), {k})
  {
    var rest := Without(s.registered, k);
    WithoutDrops(s.registered, k);
    forall i, j | 0 <= i < j < |rest| ensures s.subs[rest[i]].session != s.subs[rest[j]].session {
      assert rest[i] in s.registered && rest[j] in s.registered && rest[i] != rest[j];
    }
  }

  /** What a queued frame leaves alone. */
  lemma EnqueueFrame(s: State, k: SubId, message: Message)
    requires k in s.subs
    ensures var s' := Enqueue(s, k, message);
            && s'.registered == s.registered && s'.stopped == s.stopped && s'.limit == s.limit
            && forall x :: x in s.subs ==> s'.subs[x].client == s.subs[x].client && s'.subs[x].types == s.subs[x].types
  {
  }

  lemma DropFrame(s: State, k: SubId)
    requires k in s.subs
    ensures Drop(s, k).registered == Without(s.registered, k) && Drop(s, k).stopped == s.stopped
    ensures forall x :: x in s.subs && x != k ==> Drop(s, k).subs[x] == s.subs[x]
    ensures var sub := Drop(s, k).subs[k]; sub.closed && sub.client == s.subs[k].client && sub.session == s.subs[k].session
  {
  }

  /** Who is registered has no part in what waits. */
  lemma LeavingTheMapKeepsRequests(s: State, registered: seq<SubId>)
    requires Requests(s, {})
    ensures Requests(s.(registered := registered), {})
  {
    var s' := s.(registered := registered);
    hide Carries;
    forall id | id in s'.pending ensures Waits(s', id, {}) {
      assert Waits(s, id, {});
    }
    hide Waits;
  }

  lemma DropKeeps(s: State, k: SubId)
    requires Inv(s) && k in s.subs
    ensures Inv(Drop(s, k))
  {
    var s1 := s.(registered := Without(s.registered, k));
    WithoutKeepsRegistry(s, k);
    LeavingTheMapKeepsRequests(s, s1.registered);
    WithoutDrops(s.registered, k);
    assert k !in s1.registered;
    hide Requests, Registry, Sound, Close, Without;
    assert Subscriptions(s1);
    hide Subscriptions;
    CloseKeeps(s1, k, {k});
    assert {k} - {k} == {};
  }

  lemma {:induction false} DropEachKeeps(s: State, ks: seq<SubId>)
    requires Inv(s) && forall k :: k in ks ==> k in s.subs
    ensures Inv(DropEach(s, ks))
    decreases |ks|
  {
    if ks != [] {
      DropKeeps(s, ks[0]);
      hide Inv;
      DropEachKeeps(Drop(s, ks[0]), ks[1..]);
    }
  }

  lemma {:induction false} CloseEachKeeps(s: State, ks: seq<SubId>, loose: set<SubId>)
    requires Registry(s, loose) && Subscriptions(s) && Requests(s, {}) && s.registered == []
    requires (forall k :: k in ks ==> k in s.subs) && (forall k :: k in loose ==> k in ks)
    ensures Inv(CloseEach(s, ks)) && CloseEach(s, ks).registered == []
    decreases |ks|
  {
    if ks != [] {
      CloseKeeps(s, ks[0], loose);
      hide Requests, Registry, Subscriptions;
      CloseEachKeeps(Close(s, ks[0]), ks[1..], loose - {ks[0]});
    } else {
      assert loose == {};
    }
  }

  lemma NewSubscriptionIsRegistered(s: State, sub: Subscription, k: SubId)
    requires Registry(s, {}) && k !in s.subs && !s.stopped && !sub.closed
    requires forall x :: x in s.registered ==> s.subs[x].session != sub.session
    ensures Registry(s.(subs := s.subs[k := sub], registered := s.registered + [k]), {})
  {
  }

  /** The requests waiting on other subscriptions still do. */
  lemma NewSubscriptionKeepsRequests(s: State, sub: Subscription, k: SubId)
    requires Requests(s, {}) && k !in s.subs
    ensures Requests(s.(subs := s.subs[k := sub], registered := s.registered + [k]), {})
  {
    var s' := s.(subs := s.subs[k := sub], registered := s.registered + [k]);
    hide Carries;
    forall id | id in s'.pending ensures Waits(s', id, {}) {
      assert Waits(s, id, {});
    }
    hide Waits;
  }

  lemma NewSubscriptionKeeps(s: State, sub: Subscription, k: SubId)
    requires Inv(s) && k !in s.subs && !s.stopped && !sub.closed && Sound(sub, s.limit)
    requires forall x :: x in s.registered ==> s.subs[x].session != sub.session
    ensures Inv(s.(subs := s.subs[k := sub], registered := s.registered + [k]))
  {
    NewSubscriptionIsRegistered(s, sub, k);
    NewSubscriptionKeepsRequests(s, sub, k);
    hide Requests, Registry, Sound;
  }

  /** The session's earlier subscription, if any, is closed first. */
  function Vacated(s: State, session: Session): State
    requires Listed(s)
  {
    var held := HeldBy(s.subs, s.registered, session);
    if held.Some? then Drop(s, held.value) else s
  }

  lemma VacatedKeeps(s: State, session: Session)
    requires Inv(s)
    ensures var s' := Vacated(s, session);
            && Inv(s') && s'.stopped == s.stopped && s'.subs.Keys == s.subs.Keys
            && forall x :: x in s'.registered ==> s'.subs[x].session != session
  {
    var held := HeldBy(s.subs, s.registered, session);
    if held.Some? {
      DropKeeps(s, held.value);
      DropFrame(s, held.value);
      WithoutDrops(s.registered, held.value);
      hide Requests, Subscriptions, Drop;
      forall x | x in Without(s.registered, held.value) ensures s.subs[x].session != session {
        var i :| 0 <= i < |s.registered| && s.registered[i] == x;
        var j :| 0 <= j < |s.registered| && s.registered[j] == held.value;
        assert i < j || j < i;
      }
    }
  }

  lemma SubscribeKeeps(s: State, session: Session, client: string, types: Option<set<string>>, k: SubId)
    requires Inv(s) && k !in s.subs
    ensures Inv(SubscribeStep(s, session, client, types, k))
  {
    if !s.stopped {
      VacatedKeeps(s, session);
      var s1 := Vacated(s, session);
      var sub := NewSubscription(session, client, types);
      assert 1 <= s1.limit && Sound(sub, s1.limit);
      hide Registry, Subscriptions, Requests, Sound, Drop;
      NewSubscriptionKeeps(s1, sub, k);
    }
  }

  /** One subscription replaced by a sound one that carries what waits on it. */
  lemma ReplaceKeeps(s: State, k: SubId, sub: Subscription)
    requires Inv(s) && k in s.subs && Sound(sub, s.limit)
    requires sub.session == s.subs[k].session && sub.client == s.subs[k].client && sub.closed == s.subs[k].closed
    requires forall id :: id in s.pending && s.pending[id].sub == k && Carries(s.subs[k], id) ==> Carries(sub, id)
    ensures Inv(s.(subs := s.subs[k := sub]))
  {
    var s' := s.(subs := s.subs[k := sub]);
    assert ReplacesOnly(s, s', k);
    hide Sound, Carries, ReplacesOnly;
    assert Sound(s'.subs[k], s.limit);
    ReplaceKeepsRequests(s, k, sub, {}, {});
    ReplaceKeepsSubscriptions(s, s', k);
    ReplaceKeepsRegistry(s, s', k, {});
  }

  lemma PushFailsKeeps(s: State, k: SubId)
    requires Inv(s) && k in s.subs && s.subs[k].closed
    ensures Inv(s.(subs := s.subs[k := s.subs[k].(pumping := false, inFlight := None)]))
  {
    var sub := s.subs[k].(pumping := false, inFlight := None);
    assert Sound(sub, s.limit);
    hide Requests, Registry, Sound;
    ReplaceKeeps(s, k, sub);
  }

  lemma PushSettlesKeeps(s: State, k: SubId, failed: bool)
    requires Inv(s) && k in s.subs && s.subs[k].inFlight.Some?
    ensures Inv(PushSettlesStep(s, k, failed))
  {
    if failed {
      hide Requests, Registry, Subscriptions;
      DropKeeps(s, k);
      DropFrame(s, k);
      PushFailsKeeps(Drop(s, k), k);
    } else {
      var sub := Pump(s.subs[k], WaitingOn(s, k));
      PumpAccounts(s.subs[k], WaitingOn(s, k));
      assert Sound(sub, s.limit);
      hide Requests, Registry, Carries, Sound, Accounted, Pumped, Pump;
      ReplaceKeeps(s, k, sub);
    }
  }

  lemma StepKeepsInv(s: State, a: Action)
    requires Inv(s) && Enabled(s, a)
    ensures Inv(Step(s, a))
  {
    match a
    case Subscribe(session, client, types, k) => SubscribeKeeps(s, session, client, types, k);
    case SessionBreaks(k) => DropKeeps(s, k);
    case DropClient(client) => DropEachKeeps(s, OwnedBy(s.subs, s.registered, client));
    case Stop =>
      if !s.stopped {
        StopCloses(s);
      }
    case Publish(eventType, target) => PublishKeeps(s, s.registered, eventType, target);
    case Ask(id, client) => AskKeeps(s, id, client);
    case Answer(client, id, ok) =>
      if id in s.pending && s.pending[id].client == client {
        SettleKeeps(s, id, if ok then Answered(client) else Refused(client), {});
      }
    case Timeout(id) => SettleKeeps(s, id, TimedOut, {});
    case PushSettles(k, failed) => PushSettlesKeeps(s, k, failed);
  }

  lemma StoppedKeepsRequests(s: State)
    requires Requests(s, {})
    ensures Requests(s.(stopped := true, registered := []), {})
  {
    hide Carries;
  }

  /** Stopping closes every subscription, so no request outlives them and the shutdown check never throws. */
  lemma StopCloses(s: State)
    requires Inv(s) && !s.stopped
    ensures var s' := StopStep(s); Inv(s') && s'.registered == [] && s'.pending == map[]
    ensures forall k :: k in StopStep(s).subs ==> StopStep(s).subs[k].closed
  {
    var loose := set k | k in s.registered;
    var s1 := s.(stopped := true, registered := []);
    StoppedKeepsRequests(s);
    assert Registry(s1, loose) && Subscriptions(s1);
    CloseEachKeeps(s1, s.registered, loose);
    NoneRegisteredNonePending(StopStep(s));
  }

  lemma NoneRegisteredNonePending(s: State)
    requires Inv(s) && s.registered == []
    ensures s.pending == map[] && forall k :: k in s.subs ==> s.subs[k].closed
  {
    PendingIsRegistered(s);
    hide Carries, Subscriptions, Requests;
  }

  lemma PendingIsRegistered(s: State)
    requires Inv(s)
    ensures forall id :: id in s.pending ==> s.pending[id].sub in s.registered
  {
    hide Carries, Subscriptions;
    forall id | id in s.pending ensures s.pending[id].sub in s.registered {
      assert Waits(s, id, {});
    }
  }

  // ----- runs ---------------------------------------------------------------------------------------------

  /** A run of public calls, timers and settled pushes, in any order. */
  ghost predicate IsRun(states: seq<State>, actions: seq<Action>) {
    && |states| == |actions| + 1 && Initial(states[0])
    && forall i :: 0 <= i < |actions| ==>
         Listed(states[i]) && Enabled(states[i], actions[i]) && states[i + 1] == Step(states[i], actions[i])
  }

  lemma {:induction false} EveryStateIsSound(states: seq<State>, actions: seq<Action>, n: nat)
    requires IsRun(states, actions) && n <= |actions|
    ensures Inv(states[n])
  {
    if n > 0 {
      hide Inv, Step, Enabled, Listed;
      EveryStateIsSound(states, actions, n - 1);
      StepKeepsInv(states[n - 1], actions[n - 1]);
    }
  }

  /** In every reachable state a waiting request is on an open, registered subscription of the client it was sent to. */
  lemma PendingIsOnItsOwnSubscription(states: seq<State>, actions: seq<Action>, n: nat, id: string)
    requires IsRun(states, actions) && n <= |actions| && id in states[n].pending
    ensures var s := states[n];
            var p := s.pending[id];
            && p.sub in s.subs && p.sub in s.registered && !s.subs[p.sub].closed && s.subs[p.sub].client == p.client
            && id in s.asked && s.asked[id] == p.client && !s.stopped
  {
    EveryStateIsSound(states, actions, n);
    hide Carries;
    assert Waits(states[n], id, {});
  }

  /** A settled request stays settled as it was, and never waits again. */
  ghost predicate KeepsSettled(s: State, s': State) {
    forall id :: id in s.settled && id !in s.pending ==>
      id !in s'.pending && id in s'.settled && s'.settled[id] == s.settled[id]
  }

  lemma EnqueueKeepsSettled(s: State, k: SubId, message: Message)
    requires k in s.subs
    ensures KeepsSettled(s, Enqueue(s, k, message))
  {
  }

  lemma DropKeepsSettled(s: State, k: SubId)
    requires k in s.subs
    ensures KeepsSettled(s, Close(s, k)) && KeepsSettled(s, Drop(s, k))
  {
  }

  lemma {:induction false} PublishKeepsSettled(s: State, ks: seq<SubId>, eventType: string, target: Option<string>)
    requires forall k :: k in ks ==> k in s.subs
    ensures KeepsSettled(s, PublishTo(s, ks, eventType, target))
    decreases |ks|
  {
    if ks != [] {
      var s' := if Wants(s.subs[ks[0]], eventType, target) then Enqueue(s, ks[0], Event(eventType)) else s;
      EnqueueKeepsSettled(s, ks[0], Event(eventType));
      PublishKeepsSettled(s', ks[1..], eventType, target);
    }
  }

  lemma {:induction false} DropEachKeepsSettled(s: State, ks: seq<SubId>)
    requires forall k :: k in ks ==> k in s.subs
    ensures KeepsSettled(s, DropEach(s, ks)) && KeepsSettled(s, CloseEach(s, ks))
    decreases |ks|
  {
    if ks != [] {
      DropKeepsSettled(s, ks[0]);
      DropEachKeepsSettled(Drop(s, ks[0]), ks[1..]);
      DropEachKeepsSettled(Close(s, ks[0]), ks[1..]);
    }
  }

  lemma StepKeepsSettled(s: State, a: Action)
    requires Listed(s) && Enabled(s, a) && forall id :: id in s.settled ==> id in s.asked
    ensures KeepsSettled(s, Step(s, a))
  {
    match a
    case Subscribe(session, _, _, _) =>
      var held := HeldBy(s.subs, s.registered, session);
      if held.Some? {
        DropKeepsSettled(s, held.value);
      }
    case SessionBreaks(k) => DropKeepsSettled(s, k);
    case DropClient(client) => DropEachKeepsSettled(s, OwnedBy(s.subs, s.registered, client));
    case Stop => DropEachKeepsSettled(s.(stopped := true, registered := []), s.registered);
    case Publish(eventType, target) => PublishKeepsSettled(s, s.registered, eventType, target);
    case Ask(id, client) =>
      if Takes(s, id, client) {
        var k := NewestFor(s, client).value;
        EnqueueKeepsSettled(s.(pending := s.pending[id := Pending(client, k)], asked := s.asked[id := client]),
                            k, Request(id));
      }
    case PushSettles(k, _) => DropKeepsSettled(s, k);
    case _ =>
  }

  /** A request's promise settles once: what it settled to at one point of a run, it is settled to ever after. */
  lemma {:induction false} SettlesOnce(states: seq<State>, actions: seq<Action>, m: nat, n: nat, id: string)
    requires IsRun(states, actions) && m <= n <= |actions| && id in states[m].settled
    ensures id !in states[n].pending && id in states[n].settled && states[n].settled[id] == states[m].settled[id]
    decreases n
  {
    EveryStateIsSound(states, actions, m);
    if m < n {
      hide Step, Enabled, Listed;
      SettlesOnce(states, actions, m, n - 1, id);
      EveryStateIsSound(states, actions, n - 1);
      StepKeepsSettled(states[n - 1], actions[n - 1]);
    }
  }
}
