/**
 * `EngineEventStream` in its own form: the maps it changes in place and the
 * loops that walk them. Each call is proved to be its step of
 * `EventStreamSteps`, so what is proved of runs holds of it.
 */
module EventStream {
  import opened Options
  import opened EventStreamSteps
  import EventStreamRuns

  class EngineEventStream {
    const bufferLimit: nat
    /** Every subscription there has been; `registered` are those the map holds, in insertion order. */
    var subs: map<SubId, Subscription>
    var registered: seq<SubId>
    var pending: map<string, Pending>
    var stopped: bool
    var nextSub: nat
    ghost var asked: map<string, string>
    ghost var settled: map<string, Outcome>

    ghost function Abstract(): State
      reads this
    {
      State(bufferLimit, subs, registered, pending, stopped, asked, settled)
    }

    ghost predicate Valid()
      reads this
    {
      1 <= bufferLimit && EventStreamRuns.Inv(Abstract()) && Listed(Abstract()) && forall k :: k in subs ==> k < nextSub
    }

    constructor (limit: nat)
      requires limit >= 1
      ensures Initial(Abstract()) && Valid() && bufferLimit == limit
    {
      bufferLimit := limit;
      subs, registered, pending, stopped, nextSub := map[], [], map[], false, 0;
      asked, settled := map[], map[];
    }

    // ----- public calls -----------------------------------------------------------------------------------

    method Subscribe(session: Session, client: string, types: Option<set<string>>) returns (k: SubId, refused: bool)
      requires Valid()
      modifies this
      ensures Valid() && refused == old(stopped) && k == old(nextSub)
      ensures Abstract() == Step(old(Abstract()), Action.Subscribe(session, client, types, k))
    {
      hide EventStreamRuns.Inv;
      EventStreamRuns.StepKeepsInv(Abstract(), Action.Subscribe(session, client, types, nextSub));
      EventStreamRuns.InvLists(Step(Abstract(), Action.Subscribe(session, client, types, nextSub)));
      k, refused := nextSub, stopped;
      if stopped {
        return;
      }
      hide HeldBy, Drop;
      var held := HeldOf(session);
      if held.Some? {
        DropSubscription(held.value);
      }
      subs := subs[k := Subscription(session, client, types, [], 0, false, false, None, [], [])];
      registered := registered + [k];
      nextSub := nextSub + 1;
    }

    /** The session's registered subscription, if it has one. */
    method HeldOf(session: Session) returns (held: Option<SubId>)
      requires forall k :: k in registered ==> k in subs
      ensures held == HeldBy(subs, registered, session)
    {
      var i := 0;
      assert registered[0..] == registered;
      while i < |registered| && subs[registered[i]].session != session
        invariant 0 <= i <= |registered|
        invariant HeldBy(subs, registered[i..], session) == HeldBy(subs, registered, session)
      {
        assert registered[i..][1..] == registered[i + 1..];
        i := i + 1;
      }
      return if i < |registered| then Some(registered[i]) else None;
    }

    /** The session broke: its subscription leaves the map if it is still there, and closes. */
    method SessionBroke(k: SubId)
      requires Valid() && k in subs
      modifies this
      ensures Valid() && Abstract() == Step(old(Abstract()), SessionBreaks(k))
    {
      hide EventStreamRuns.Inv;
      EventStreamRuns.StepKeepsInv(Abstract(), SessionBreaks(k));
      EventStreamRuns.InvLists(Step(Abstract(), SessionBreaks(k)));
      DropSubscription(k);
    }

    method DropClient(client: string)
      requires Valid()
      modifies this
      ensures Valid() && Abstract() == Step(old(Abstract()), Action.DropClient(client))
    {
      hide EventStreamRuns.Inv, DropEach;
      EventStreamRuns.StepKeepsInv(Abstract(), Action.DropClient(client));
      EventStreamRuns.InvLists(Step(Abstract(), Action.DropClient(client)));
      DropOwned(client);
    }

    method DropOwned(client: string)
      requires Listed(Abstract())
      modifies this`subs, this`registered, this`pending, this`settled
      ensures Abstract() == DropEach(old(Abstract()), OwnedBy(old(subs), old(registered), client))
      ensures subs.Keys == old(subs).Keys
    {
      hide Drop;
      var listed, i := registered, 0;
      ghost var start, clients := Abstract(), subs;
      assert listed[0..] == listed;
      while i < |listed|
        invariant 0 <= i <= |listed| && subs.Keys == clients.Keys
        invariant forall k :: k in subs ==> subs[k].client == clients[k].client
        invariant DropEach(Abstract(), OwnedBy(clients, listed[i..], client)) == DropEach(start, OwnedBy(clients, listed, client))
      {
        DropsNext(Abstract(), clients, listed[i..], client);
        assert listed[i] in listed && listed[i..][1..] == listed[i + 1..];
        if subs[listed[i]].client == client {
          EventStreamRuns.DropFrame(Abstract(), listed[i]);
          DropSubscription(listed[i]);
        }
        i := i + 1;
      }
    }

    /** Returns how many requests outlived their subscriptions, on which the source throws: none do. */
    method Stop() returns (outlived: nat)
      requires Valid()
      modifies this
      ensures Valid() && outlived == 0 && stopped && Abstract() == Step(old(Abstract()), Action.Stop)
    {
      ghost var start := Abstract();
      hide EventStreamRuns.Inv;
      EventStreamRuns.StepKeepsInv(start, Action.Stop);
      EventStreamRuns.InvLists(Step(start, Action.Stop));
      if stopped {
        return 0;
      }
      EventStreamRuns.StopCloses(start);
      hide Step, StopStep, CloseEach;
      stopped := true;
      var closing := registered;
      registered := [];
      CloseAll(closing);
      StopIs(start);
      assert pending == map[];
      outlived := |pending|;
    }

    method CloseAll(closing: seq<SubId>)
      requires forall k :: k in closing ==> k in subs
      modifies this`subs, this`pending, this`settled
      ensures Abstract() == CloseEach(old(Abstract()), closing) && subs.Keys == old(subs).Keys
    {
      ghost var start := Abstract();
      hide Close;
      var i := 0;
      assert closing[0..] == closing;
      while i < |closing|
        invariant 0 <= i <= |closing| && subs.Keys == start.subs.Keys
        invariant CloseEach(Abstract(), closing[i..]) == CloseEach(start, closing)
      {
        assert closing[i] in closing && closing[i..][1..] == closing[i + 1..];
        CloseSubscription(closing[i]);
        i := i + 1;
      }
      assert closing[i..] == [];
    }

    /** Queues the event for every subscription that wants it, and says for how many. */
    method Publish(eventType: string, target: Option<string>) returns (queued: nat)
      requires Valid()
      modifies this
      ensures Valid() && Abstract() == Step(old(Abstract()), Action.Publish(eventType, target))
      ensures queued == Wanting(old(subs), old(registered), eventType, target)
    {
      hide EventStreamRuns.Inv;
      EventStreamRuns.StepKeepsInv(Abstract(), Action.Publish(eventType, target));
      EventStreamRuns.InvLists(Step(Abstract(), Action.Publish(eventType, target)));
      queued := PublishToAll(eventType, target);
    }

    method PublishToAll(eventType: string, target: Option<string>) returns (queued: nat)
      requires Listed(Abstract()) && bufferLimit >= 1
      modifies this`subs, this`pending, this`settled
      ensures Abstract() == PublishTo(old(Abstract()), registered, eventType, target) && subs.Keys == old(subs).Keys
      ensures queued == Wanting(old(subs), registered, eventType, target)
    {
      ghost var start := Abstract();
      hide Enqueue, Wants;
      queued := 0;
      var i := 0;
      while i < |registered|
        invariant 0 <= i <= |registered| && subs.Keys == start.subs.Keys
        invariant forall k :: k in subs ==> Wants(subs[k], eventType, target) == Wants(start.subs[k], eventType, target)
        invariant PublishTo(Abstract(), registered[i..], eventType, target) == PublishTo(start, registered, eventType, target)
        invariant queued + Wanting(start.subs, registered[i..], eventType, target)
               == Wanting(start.subs, registered, eventType, target)
      {
        assert registered[i..][1..] == registered[i + 1..];
        hide PublishTo, Wanting;
        var took := PublishFirst(registered[i..], eventType, target, start.subs);
        queued := queued + took;
        i := i + 1;
      }
    }

    /** The turn of the first of those left, and whether it counts. */
    method PublishFirst(ks: seq<SubId>, eventType: string, target: Option<string>, ghost from: map<SubId, Subscription>)
      returns (took: nat)
      requires ks != [] && bufferLimit >= 1 && subs.Keys == from.Keys && forall k :: k in ks ==> k in subs
      requires forall k :: k in subs ==> Wants(subs[k], eventType, target) == Wants(from[k], eventType, target)
      modifies this`subs, this`pending, this`settled
      ensures subs.Keys == from.Keys
      ensures forall k :: k in subs ==> Wants(subs[k], eventType, target) == Wants(from[k], eventType, target)
      ensures PublishTo(Abstract(), ks[1..], eventType, target) == PublishTo(old(Abstract()), ks, eventType, target)
      ensures took + Wanting(from, ks[1..], eventType, target) == Wanting(from, ks, eventType, target)
    {
      PublishesNext(Abstract(), from, ks, eventType, target);
      hide Enqueue, Wants, PublishTo, Wanting;
      var wanted := PublishOne(ks[0], eventType, target);
      took := if wanted then 1 else 0;
    }

    /** One subscription's turn, if it wants the event. */
    method PublishOne(k: SubId, eventType: string, target: Option<string>) returns (took: bool)
      requires k in subs && bufferLimit >= 1
      modifies this`subs, this`pending, this`settled
      ensures took == Wants(old(subs)[k], eventType, target) && subs.Keys == old(subs).Keys
      ensures Abstract() == if took then Enqueue(old(Abstract()), k, Event(eventType)) else old(Abstract())
      ensures forall x :: x in subs ==> Wants(subs[x], eventType, target) == Wants(old(subs)[x], eventType, target)
    {
      took := (target.None? || subs[k].client == target.value) && (subs[k].types.None? || eventType in subs[k].types.value);
      if took {
        EventStreamRuns.EnqueueFrame(Abstract(), k, Event(eventType));
        hide Enqueue;
        EnqueueFrame(k, Event(eventType));
      }
    }

    /** Takes the request for the client's newest subscription, or refuses it at once. */
    method Request(id: string, client: string) returns (taken: bool)
      requires Valid() && id !in asked
      modifies this
      ensures Valid() && taken == Takes(old(Abstract()), id, client)
      ensures Abstract() == Step(old(Abstract()), Ask(id, client))
    {
      hide EventStreamRuns.Inv, Enqueue;
      EventStreamRuns.StepKeepsInv(Abstract(), Ask(id, client));
      EventStreamRuns.InvLists(Step(Abstract(), Ask(id, client)));
      AskIs(Abstract(), id, client);
      hide Step, NewestFor, Takes;
      taken := false;
      if !stopped {
        var newest := NewestSubscription(client);
        if newest.Some? && id !in pending {
          taken := true;
          pending := pending[id := Pending(client, newest.value)];
          asked := asked[id := client];
          EnqueueFrame(newest.value, Message.Request(id));
        }
      }
    }

    /** Settles the client's own request; false when no such request waits for this client. */
    method AnswerRequest(client: string, id: string, ok: bool) returns (found: bool)
      requires Valid()
      modifies this
      ensures Valid() && found == (id in old(pending) && old(pending)[id].client == client)
      ensures Abstract() == Step(old(Abstract()), Answer(client, id, ok))
    {
      hide EventStreamRuns.Inv;
      EventStreamRuns.StepKeepsInv(Abstract(), Answer(client, id, ok));
      EventStreamRuns.InvLists(Step(Abstract(), Answer(client, id, ok)));
      found := id in pending && pending[id].client == client;
      if found {
        SettleRequest(id, if ok then Answered(client) else Refused(client));
      }
    }

    method TimerFired(id: string)
      requires Valid()
      modifies this
      ensures Valid() && Abstract() == Step(old(Abstract()), Timeout(id))
    {
      hide EventStreamRuns.Inv;
      EventStreamRuns.StepKeepsInv(Abstract(), Timeout(id));
      EventStreamRuns.InvLists(Step(Abstract(), Timeout(id)));
      SettleRequest(id, TimedOut);
    }

    /** `pump` goes on once the push it awaited has settled. */
    method PushSettled(k: SubId, failed: bool)
      requires Valid() && k in subs && subs[k].inFlight.Some?
      modifies this
      ensures Valid() && Abstract() == Step(old(Abstract()), PushSettles(k, failed))
    {
      hide EventStreamRuns.Inv;
      EventStreamRuns.StepKeepsInv(Abstract(), PushSettles(k, failed));
      EventStreamRuns.InvLists(Step(Abstract(), PushSettles(k, failed)));
      if failed {
        DropSubscription(k);
        subs := subs[k := subs[k].(pumping := false, inFlight := None)];
      } else {
        RunPump(k);
      }
    }

    // ----- private ----------------------------------------------------------------------------------------

    method NewestSubscription(client: string) returns (newest: Option<SubId>)
      requires Listed(Abstract())
      ensures newest == NewestFor(Abstract(), client)
    {
      hide OwnedBy;
      newest := None;
      var i := 0;
      OwnedByNone(subs, registered[..0], client);
      while i < |registered|
        invariant 0 <= i <= |registered|
        invariant newest == LastOf(OwnedBy(subs, registered[..i], client))
      {
        OwnedByGrows(subs, registered[..i], registered[i], client);
        assert registered[..i + 1] == registered[..i] + [registered[i]];
        if subs[registered[i]].client == client {
          newest := Some(registered[i]);
        }
        i := i + 1;
      }
      assert registered[..i] == registered;
    }

    method EnqueueFrame(k: SubId, message: Message)
      requires k in subs && bufferLimit >= 1
      modifies this`subs, this`pending, this`settled
      ensures Abstract() == Enqueue(old(Abstract()), k, message)
    {
      if |subs[k].queue| >= bufferLimit {
        DropOldest(k);
      }
      assert Abstract() == MakeRoom(old(Abstract()), k);
      hide MakeRoom, Push, WaitingOn;
      PushFrame(k, message);
    }

    method PushFrame(k: SubId, message: Message)
      requires k in subs
      modifies this`subs
      ensures Abstract() == old(Abstract()).(subs := old(subs)[k := Push(old(subs)[k], message, WaitingOn(old(Abstract()), k))])
    {
      hide Pump;
      var no := subs[k].lastNo + 1;
      subs := subs[k := subs[k].(lastNo := no, queue := subs[k].queue + [Frame(no, message)])];
      assert WaitingOn(Abstract(), k) == WaitingOn(old(Abstract()), k);
      hide WaitingOn;
      if !subs[k].pumping {
        RunPump(k);
      }
    }

    method DropOldest(k: SubId)
      requires k in subs && |subs[k].queue| >= bufferLimit >= 1
      modifies this`subs, this`pending, this`settled
      ensures Abstract() == MakeRoom(old(Abstract()), k)
    {
      var oldest := subs[k].queue[0];
      subs := subs[k := subs[k].(queue := subs[k].queue[1..], fates := subs[k].fates + [Dropped])];
      if oldest.message.Request? {
        SettleRequest(oldest.message.id, Overflowed);
      }
    }

    /** Hands over frames until a push is awaited or the queue is empty. */
    method RunPump(k: SubId)
      requires k in subs
      modifies this`subs
      ensures Abstract() == old(Abstract()).(subs := old(subs)[k := Pump(old(subs)[k], WaitingOn(old(Abstract()), k))])
    {
      ghost var waiting := WaitingOn(Abstract(), k);
      var sub := subs[k];
      ghost var end := Pump(subs[k], waiting);
      while sub.queue != [] && !sub.closed
        invariant Pump(sub, waiting) == end
        decreases |sub.queue|
      {
        var frame := sub.queue[0];
        sub := sub.(queue := sub.queue[1..]);
        if frame.message.Request? && !(frame.message.id in pending && pending[frame.message.id].sub == k) {
          sub := sub.(fates := sub.fates + [Skipped]);
        } else {
          subs := subs[k := sub.(inFlight := Some(frame), pushed := sub.pushed + [frame], fates := sub.fates + [Pushed],
                                 pumping := true)];
          return;
        }
      }
      subs := subs[k := sub.(pumping := false, inFlight := None)];
    }

    method DropSubscription(k: SubId)
      requires k in subs
      modifies this`subs, this`registered, this`pending, this`settled
      ensures Abstract() == Drop(old(Abstract()), k)
    {
      hide Close, Without;
      Unregister(k);
      CloseSubscription(k);
    }

    method Unregister(k: SubId)
      modifies this`registered
      ensures registered == Without(old(registered), k)
    {
      var kept, i := [], 0;
      while i < |registered|
        invariant 0 <= i <= |registered|
        invariant kept + Without(registered[i..], k) == Without(registered, k)
      {
        assert registered[i..][1..] == registered[i + 1..];
        if registered[i] != k {
          kept := kept + [registered[i]];
        }
        i := i + 1;
      }
      assert registered[i..] == [] && kept + [] == kept;
      registered := kept;
    }

    method CloseSubscription(k: SubId)
      requires k in subs
      modifies this`subs, this`pending, this`settled
      ensures Abstract() == Close(old(Abstract()), k)
    {
      var sub := subs[k];
      if sub.closed {
        return;
      }
      subs := subs[k := sub.(closed := true, queue := [], fates := sub.fates + Discards(|sub.queue|))];
      FailRequests(k);
    }

    /** Fails every request still waiting on subscription `k`. */
    method FailRequests(k: SubId)
      modifies this`pending, this`settled
      ensures pending == old(pending) - WaitingOn(old(Abstract()), k)
      ensures settled == old(settled) + ClosedBy(WaitingOn(old(Abstract()), k))
    {
      ghost var waited, before := pending, settled;
      ghost var failed: set<string> := {};
      var ids := pending.Keys;
      assert ClosedBy(failed) == map[];
      hide WaitingOn, ClosedBy;
      while ids != {}
        invariant pending == waited - failed && settled == before + ClosedBy(failed)
        invariant ids <= waited.Keys && ids !! failed
        invariant forall id :: id in waited.Keys - ids ==> (id in failed <==> waited[id].sub == k)
        invariant failed <= waited.Keys
        decreases ids
      {
        var id :| id in ids;
        if pending[id].sub == k {
          ClosedByGrows(failed, id);
          SettleRequest(id, SubscriptionClosed);
          failed := failed + {id};
        }
        ids := ids - {id};
      }
      WaitingIs(old(Abstract()), k, failed);
    }

    method SettleRequest(id: string, outcome: Outcome)
      modifies this`pending, this`settled
      ensures Abstract() == Settle(old(Abstract()), id, outcome)
    {
      if id in pending {
        pending := pending - {id};
        settled := settled[id := outcome];
      }
    }
  }

  function LastOf(ks: seq<SubId>): Option<SubId> {
    if ks == [] then None else Some(ks[|ks| - 1])
  }

  lemma OwnedByNone(subs: map<SubId, Subscription>, ks: seq<SubId>, client: string)
    requires ks == []
    ensures OwnedBy(subs, ks, client) == []
  {
  }

  lemma StopIs(s: State)
    requires Listed(s) && !s.stopped
    ensures Enabled(s, Action.Stop) && Step(s, Action.Stop) == StopStep(s)
    ensures StopStep(s) == CloseEach(s.(stopped := true, registered := []), s.registered)
  {
  }

  /** What asking does, told from what is there now. */
  lemma AskIs(s: State, id: string, client: string)
    requires Listed(s) && Enabled(s, Ask(id, client)) && EventStreamRuns.Inv(s)
    ensures var newest := NewestFor(s, client);
      && Takes(s, id, client) == (!s.stopped && newest.Some? && id !in s.pending)
      && Step(s, Ask(id, client))
         == if !Takes(s, id, client) then s
            else Enqueue(s.(pending := s.pending[id := Pending(client, newest.value)], asked := s.asked[id := client]),
                         newest.value, Message.Request(id))
  {
  }

  lemma ClosedByGrows(ids: set<string>, id: string)
    ensures ClosedBy(ids + {id}) == ClosedBy(ids)[id := SubscriptionClosed]
  {
  }

  lemma WaitingIs(s: State, k: SubId, ids: set<string>)
    requires ids <= s.pending.Keys && forall id :: id in s.pending ==> (id in ids <==> s.pending[id].sub == k)
    ensures ids == WaitingOn(s, k)
  {
  }

  lemma PublishesNext(s: State, subs: map<SubId, Subscription>, ks: seq<SubId>, eventType: string, target: Option<string>)
    requires ks != [] && forall k :: k in ks ==> k in s.subs && k in subs
    ensures PublishTo(s, ks, eventType, target)
         == PublishTo(if Wants(s.subs[ks[0]], eventType, target) then Enqueue(s, ks[0], Event(eventType)) else s,
                      ks[1..], eventType, target)
    ensures Wanting(subs, ks, eventType, target)
         == (if Wants(subs[ks[0]], eventType, target) then 1 else 0) + Wanting(subs, ks[1..], eventType, target)
  {
  }

  lemma DropsNext(s: State, subs: map<SubId, Subscription>, ks: seq<SubId>, client: string)
    requires ks != [] && forall k :: k in ks ==> k in subs && k in s.subs
    ensures DropEach(s, OwnedBy(subs, ks, client))
         == DropEach(if subs[ks[0]].client == client then Drop(s, ks[0]) else s, OwnedBy(subs, ks[1..], client))
  {
    var rest := OwnedBy(subs, ks[1..], client);
    assert ([ks[0]] + rest)[1..] == rest && [] + rest == rest;
  }

  lemma {:induction false} OwnedByGrows(subs: map<SubId, Subscription>, ks: seq<SubId>, k: SubId, client: string)
    requires k in subs && forall x :: x in ks ==> x in subs
    ensures OwnedBy(subs, ks + [k], client) == OwnedBy(subs, ks, client) + (if subs[k].client == client then [k] else [])
  {
    if ks == [] {
      assert ks + [k] == [k];
    } else {
      assert (ks + [k])[1..] == ks[1..] + [k];
      OwnedByGrows(subs, ks[1..], k, client);
      var first := if subs[ks[0]].client == client then [ks[0]] else [];
      var last := if subs[k].client == client then [k] else [];
      assert OwnedBy(subs, ks + [k], client) == first + OwnedBy(subs, ks[1..] + [k], client);
      assert first + (OwnedBy(subs, ks[1..], client) + last) == (first + OwnedBy(subs, ks[1..], client)) + last;
    }
  }
}
