/**
 * `StreamSessionResolver` (`api/src/stream-session-resolver.ts`) over the
 * session store it writes to. Decisions run one at a time, so each method is a
 * whole decision; `calls` is how many of its database and bus calls succeed
 * before one fails and ends it.
 */
module StreamSessionResolver {
  import opened Options
  import opened StreamSessionTimeline
  import opened StreamSessionSteps

  /** The session tables, through the repository's four calls. */
  class SessionStore {
    var sessions: seq<Session>
    var segments: seq<Segment>

    constructor ()
      ensures sessions == [] && segments == []
    {
      sessions, segments := [], [];
    }

    /** The open session, added now when there is none. */
    method EnsureOpenSession(now: int) returns (open: nat)
      modifies this`sessions
      ensures sessions == if old(sessions) == [] then [Session(now, None)] else old(sessions)
      ensures open + 1 == |sessions|
    {
      if sessions == [] {
        sessions := [Session(now, None)];
      }
      open := |sessions| - 1;
    }

    /** The two facts the extend-or-split decision reads, with the session they are about. */
    method State() returns (state: OpenSessionState)
      requires sessions != []
      ensures state == StateOf(sessions, segments)
    {
      var open, i := |sessions| - 1, 0;
      var last: Option<int> := None;
      while i < |segments|
        invariant 0 <= i <= |segments| && last == LastEnd(segments[..i], open)
      {
        assert segments[..i + 1][..i] == segments[..i];
        var segment := segments[i];
        if segment.session == open && segment.end.Some? && (last.None? || last.value < segment.end.value) {
          last := segment.end;
        }
        i := i + 1;
      }
      assert segments[..i] == segments;
      var live := |segments| > 0 && segments[|segments| - 1].end.None?;
      state := OpenSessionState(sessions[open].startedAt, last, live);
    }

    /** Ends the open session at `at` and opens its successor there; refused before the session's start. */
    method SplitSession(at: int) returns (ok: bool)
      requires sessions != []
      modifies this`sessions
      ensures ok == (old(sessions)[|old(sessions)| - 1].startedAt <= at)
      ensures sessions == if ok then SplitAt(old(sessions), at) else old(sessions)
    {
      var open := |sessions| - 1;
      ok := !(at < sessions[open].startedAt);
      if ok {
        sessions := sessions[open := sessions[open].(endedAt := Some(at))];
        sessions := sessions + [Session(at, None)];
      }
    }

    /** Starts a live span, unless one is open already. */
    method OpenSegment(session: nat, at: int)
      modifies this`segments
      ensures segments == if Live(old(segments)) then old(segments) else old(segments) + [Segment(session, at, None)]
    {
      if |segments| > 0 && segments[|segments| - 1].end.None? {
        return;
      }
      segments := segments + [Segment(session, at, None)];
    }

    method CloseOpenSegment(at: int) returns (found: bool)
      modifies this`segments
      ensures found == Live(old(segments)) && segments == CloseAt(old(segments), at)
    {
      found := |segments| > 0 && segments[|segments| - 1].end.None?;
      if found {
        segments := segments[|segments| - 1 := segments[|segments| - 1].(end := Some(at))];
      }
    }
  }

  class Resolver {
    const store: SessionStore
    const graceMs: int
    var sessionId: Option<nat>
    var published: seq<Announcement>

    function Now(): View
      reads this, store
    {
      View(store.sessions, store.segments, sessionId, published)
    }

    ghost predicate Valid()
      reads this
    {
      graceMs >= 0
    }

    constructor (store: SessionStore, graceMs: int)
      requires graceMs >= 0
      ensures Valid() && this.store == store && this.graceMs == graceMs && sessionId.None? && published == []
    {
      this.store, this.graceMs := store, graceMs;
      sessionId, published := None, [];
    }

    /**
     * Resolves and announces the open session before the first event arrives,
     * then runs the first check whether or not that succeeded.
     */
    method Start(now: int, syncCalls: nat, checkCalls: nat)
      requires Valid()
      modifies this, store`sessions
      ensures var synced := Synced(old(Now()), now, syncCalls);
        && (checkCalls == 0 ==> Now() == synced)
        && (checkCalls > 0 ==> MayLeave(Ensured(synced, now), Check(now), Now(), graceMs))
        && (checkCalls >= 4 ==> Now() == Checking(Ensured(synced, now), now, graceMs))
      ensures old(Now()) == View([], [], None, []) && syncCalls >= 2 && checkCalls >= 4 ==> Now() == FirstView(now)
    {
      hide MayLeave;
      SyncCurrentSession(now, syncCalls);
      if syncCalls >= 2 && old(Now()) == View([], [], None, []) {
        NothingToEnd(now, graceMs);
      }
      var _ := EndBroadcastIfOver(now, checkCalls);
    }

    /** `syncCurrentSession`: a failure is logged, and the session adopted all the same once it is known. */
    method SyncCurrentSession(now: int, calls: nat)
      modifies this, store`sessions
      ensures Now() == Synced(old(Now()), now, calls)
    {
      if calls == 0 {
        return;
      }
      var open := store.EnsureOpenSession(now);
      var _, _ := AdoptSession(open, store.sessions[open].startedAt, calls - 1);
    }

    /** `adoptSession`: the session is current before it is announced. */
    method AdoptSession(session: nat, startedAt: int, calls: nat) returns (left: nat, ok: bool)
      modifies this
      ensures sessionId == Some(session) && ok == (calls > 0) && left == (if ok then calls - 1 else 0)
      ensures published == if ok then old(published) + [Started(session, startedAt)] else old(published)
    {
      sessionId := Some(session);
      ok := calls > 0;
      left := if ok then calls - 1 else 0;
      if ok {
        published := published + [Started(session, startedAt)];
      }
    }

    /** `endBroadcast`: ends the broadcast's session at its last segment's end, unless the store refuses, and announces it. */
    method EndBroadcast(endedAt: int, calls: nat) returns (left: nat, ok: bool)
      requires store.sessions != []
      modifies this, store`sessions
      ensures ok == (calls >= 3 && CanSplit(old(store.sessions), endedAt))
      ensures ok ==> left == calls - 3 && Now() == Ending(old(Now()), endedAt)
      ensures if calls == 0 || !CanSplit(old(store.sessions), endedAt) then Now() == old(Now())
              else store.sessions == SplitAt(old(store.sessions), endedAt)
    {
      if calls == 0 {
        return 0, false;
      }
      var k := |store.sessions| - 1;
      var split := store.SplitSession(endedAt);
      if !split {
        return calls - 1, false;
      }
      published := published + [Cleared(k)];
      if calls == 1 {
        return 0, false;
      }
      published := published + [Ended(k, endedAt, k + 1)];
      left, ok := AdoptSession(k + 1, endedAt, calls - 2);
    }

    /** Closes the session if the stream has stayed down past the grace window; touches no segment. */
    method EndBroadcastIfOver(now: int, calls: nat) returns (done: bool)
      requires Valid()
      modifies this, store`sessions
      ensures calls == 0 ==> Now() == old(Now())
      ensures calls > 0 ==> MayLeave(Ensured(old(Now()), now), Check(now), Now(), graceMs)
      ensures calls >= 4 || done ==> calls > 0 && Now() == Checking(Ensured(old(Now()), now), now, graceMs)
    {
      hide LastEnd, DecideOnStreamOnline;
      if calls == 0 {
        return false;
      }
      var _ := store.EnsureOpenSession(now);
      var decision := store.State();
      done := true;
      if IsBroadcastOver(decision, now, graceMs) {
        var _, ok := EndBroadcast(decision.lastSegmentEndedAt.value, calls - 1);
        done := ok;
      }
    }

    /** The split a broadcast starts with: the last one ends where it always would have, then its own session begins. */
    method SplitForBroadcast(at: int, lastEnd: Option<int>, calls: nat) returns (left: nat, ok: bool)
      requires store.sessions != [] && lastEnd == LastEnd(store.segments, |store.sessions| - 1)
      requires (if lastEnd.Some? then lastEnd.value else store.sessions[|store.sessions| - 1].startedAt) <= at
      modifies this, store`sessions
      ensures ok ==> !Refused(old(Now())) && |store.sessions| >= 2 && Now() == Ready(old(Now()), at)
      ensures !Refused(old(Now())) && calls >= 4 ==> ok && left >= calls - 4
      ensures Refused(old(Now())) ==> Now() == old(Now())
      ensures store.sessions == old(store.sessions) || store.sessions == Ready(old(Now()), at).sessions
              || (lastEnd.Some? && store.sessions == Ending(old(Now()), lastEnd.value).sessions)
    {
      hide LastEnd;
      left, ok := calls, true;
      if lastEnd.Some? {
        left, ok := EndBroadcast(lastEnd.value, calls);
      }
      if !ok || left == 0 {
        return left, false;
      }
      left := left - 1;
      ok := store.SplitSession(at);
    }

    /**
     * The stream went live. Whatever call fails, the segment is stored only
     * with the sessions it belongs to, so a segment is never put in a session
     * the whole decision would not have put it in.
     */
    method DecideOnLive(at: int, calls: nat) returns (done: bool)
      requires Valid()
      modifies this, store
      ensures calls == 0 ==> Now() == old(Now())
      ensures calls > 0 ==> MayLeave(Ensured(old(Now()), at), Online(at), Now(), graceMs)
      ensures calls >= 7 || done ==> calls > 0 && Now() == GoingLive(Ensured(old(Now()), at), at, graceMs)
    {
      if calls == 0 {
        return false;
      }
      var _ := store.EnsureOpenSession(at);
      done := DecideOnOpen(at, calls - 1);
    }

    /** The rest of `decideOnLive`, once the open session is known. */
    method DecideOnOpen(at: int, calls: nat) returns (done: bool)
      requires Valid() && store.sessions != []
      modifies this, store
      ensures MayLeave(old(Now()), Online(at), Now(), graceMs)
      ensures calls >= 6 || done ==> Now() == GoingLive(old(Now()), at, graceMs)
    {
      hide LastEnd, Ready, Ending, DecideOnStreamOnline, Live, Refused;
      ghost var before := Now();
      var decision := store.State();
      var action := DecideOnStreamOnline(decision, at, graceMs);
      if action.Extend? {
        if calls == 0 {
          return false;
        }
        assert GoingLive(before, at, graceMs) == Opening(before, at, None);
        hide GoingLive;
        done := OpenAndAdopt(|store.sessions| - 1, None, at, calls - 1);
        return;
      }
      SplitGoesOn(before, at, graceMs);
      hide GoingLive;
      var left, ok := SplitForBroadcast(at, decision.lastSegmentEndedAt, calls);
      if !ok || left == 0 {
        return false;
      }
      done := OpenAndAdopt(|store.sessions| - 1, Some(|store.sessions| - 2), at, left - 1);
    }

    /** Persists the segment, then clears an idle session's storage and adopts the session. */
    method OpenAndAdopt(session: nat, replaced: Option<nat>, at: int, calls: nat) returns (done: bool)
      requires session + 1 == |store.sessions|
      modifies this, store`segments
      ensures calls >= 1 ==> done
      ensures var whole := Opening(old(Now()), at, replaced);
              store.segments == whole.segments && (done ==> Now() == whole)
    {
      store.OpenSegment(session, at);
      if replaced.Some? {
        published := published + [Cleared(replaced.value)];
      }
      done := true;
      if sessionId != Some(session) {
        var _, ok := AdoptSession(session, at, calls);
        done := ok;
      }
    }

    /** The stream went down: only its segment closes, at whatever time. */
    method CloseSegment(at: int, calls: nat) returns (done: bool)
      modifies store`segments
      ensures done == (calls > 0)
      ensures Now() == old(Now()).(segments := if done then CloseAt(old(store.segments), at) else old(store.segments))
    {
      done := calls > 0;
      if done {
        var _ := store.CloseOpenSegment(at);
      }
    }
  }

  /** Where the start-up sync leaves things, with `calls` of its calls succeeding. */
  function Synced(v: View, now: int, calls: nat): View {
    if calls == 0 then v
    else
      var open := Ensured(v, now);
      if calls == 1 then open.(current := Some(|open.sessions| - 1)) else Adopting(open)
  }

  /** A session just made has nothing to end. */
  lemma NothingToEnd(now: int, graceMs: int)
    ensures Checking(FirstView(now), now, graceMs) == FirstView(now)
    ensures Synced(View([], [], None, []), now, 2) == FirstView(now)
  {
    assert [] + [Started(0, now)] == [Started(0, now)];
  }
}
