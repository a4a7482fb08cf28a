/**
 * What each decision of `StreamSessionResolver` (`api/src/stream-session-resolver.ts`)
 * does to the stored timeline and to what is announced, and what every run of
 * them keeps.
 */
module StreamSessionSteps {
  import opened Options
  import opened StreamSessionTimeline

  /** What goes out: cleared session storage, and the two session events. */
  datatype Announcement =
    | Cleared(session: nat)
    | Ended(session: nat, endedAt: int, replacedBy: nat)
    | Started(session: nat, startedAt: int)

  /** The store, the session the process is in, and everything it has announced. */
  datatype View = View(sessions: seq<Session>, segments: seq<Segment>, current: Option<nat>, published: seq<Announcement>)

  /** The stream went live or down at a time, or the broadcast-end check ran then. */
  datatype StreamEvent = Online(at: int) | Offline(at: int) | Check(at: int)

  // ----- what each write does to the timeline -------------------------------------------------------------

  function SplitAt(sessions: seq<Session>, at: int): seq<Session>
    requires sessions != []
  {
    sessions[|sessions| - 1 := sessions[|sessions| - 1].(endedAt := Some(at))] + [Session(at, None)]
  }

  function CloseAt(segments: seq<Segment>, at: int): seq<Segment> {
    if Live(segments) then segments[|segments| - 1 := segments[|segments| - 1].(end := Some(at))] else segments
  }

  /** The two facts the decision reads, and the open session's start. */
  function StateOf(sessions: seq<Session>, segments: seq<Segment>): OpenSessionState
    requires sessions != []
  {
    OpenSessionState(sessions[|sessions| - 1].startedAt, LastEnd(segments, |sessions| - 1), Live(segments))
  }

  /** The broadcast's session ends at `endedAt`, and an idle one takes over. */
  function Ending(v: View, endedAt: int): View
    requires v.sessions != []
  {
    var k := |v.sessions| - 1;
    View(SplitAt(v.sessions, endedAt), v.segments, Some(k + 1),
         v.published + [Cleared(k)] + [Ended(k, endedAt, k + 1)] + [Started(k + 1, endedAt)])
  }

  /** The open session, added now when there is none. */
  function Ensured(v: View, now: int): (v': View)
    ensures v'.sessions != []
  {
    if v.sessions == [] then v.(sessions := [Session(now, None)]) else v
  }

  /** The store refuses to end a session before it started. */
  predicate CanSplit(sessions: seq<Session>, at: int)
    requires sessions != []
  {
    sessions[|sessions| - 1].startedAt <= at
  }

  /** The open session's broadcast ended before the session started, so the session cannot end there. */
  predicate Refused(v: View)
    requires v.sessions != []
  {
    var lastEnd := LastEnd(v.segments, |v.sessions| - 1);
    lastEnd.Some? && !CanSplit(v.sessions, lastEnd.value)
  }

  function Checking(v: View, now: int, graceMs: int): View
    requires v.sessions != []
  {
    var state := StateOf(v.sessions, v.segments);
    if IsBroadcastOver(state, now, graceMs) && !Refused(v) then Ending(v, state.lastSegmentEndedAt.value) else v
  }

  /** A segment for the open session; `cleared` is the idle session it replaces. */
  function Opening(v: View, at: int, cleared: Option<nat>): View
    requires v.sessions != []
  {
    var k := |v.sessions| - 1;
    var segments := if Live(v.segments) then v.segments else v.segments + [Segment(k, at, None)];
    var published := if cleared.Some? then v.published + [Cleared(cleared.value)] else v.published;
    if v.current == Some(k) then v.(segments := segments, published := published)
    else View(v.sessions, segments, Some(k), published + [Started(k, at)])
  }

  function GoingLive(v: View, at: int, graceMs: int): View
    requires v.sessions != []
  {
    var state := StateOf(v.sessions, v.segments);
    if DecideOnStreamOnline(state, at, graceMs).Extend? then Opening(v, at, None)
    else if Refused(v) then v
    else
      var ended := if state.lastSegmentEndedAt.Some? then Ending(v, state.lastSegmentEndedAt.value) else v;
      Opening(ended.(sessions := SplitAt(ended.sessions, at)), at, Some(|ended.sessions| - 1))
  }

  function Decided(v: View, event: StreamEvent, graceMs: int): (v': View)
    requires v.sessions != []
    ensures v'.sessions != []
  {
    match event
    case Online(at) => GoingLive(v, at, graceMs)
    case Offline(at) => v.(segments := CloseAt(v.segments, at))
    case Check(at) => Checking(v, at, graceMs)
  }

  /** A broadcast's session may only be split at its last segment's end. */
  predicate SplitsAtBroadcastEnd(sessions: seq<Session>, segments: seq<Segment>, at: int) {
    segments != [] && segments[|segments| - 1].session == |sessions| - 1 ==> segments[|segments| - 1].end == Some(at)
  }

  lemma SplitKeepsSound(sessions: seq<Session>, segments: seq<Segment>, at: int)
    requires Sound(sessions, segments) && !Live(segments) && sessions[|sessions| - 1].startedAt <= at
    requires SplitsAtBroadcastEnd(sessions, segments, at)
    ensures Sound(SplitAt(sessions, at), segments)
  {
    SplitKeepsEnds(sessions, segments, at);
    hide EndsMatch;
    assert Chained(SplitAt(sessions, at));
    hide Chained;
    assert InOrder(SplitAt(sessions, at), segments);
  }

  lemma SplitKeepsEnds(sessions: seq<Session>, segments: seq<Segment>, at: int)
    requires sessions != [] && InOrder(sessions, segments) && EndsMatch(sessions, segments)
    requires SplitsAtBroadcastEnd(sessions, segments, at)
    ensures EndsMatch(SplitAt(sessions, at), segments)
  {
    var sessions' := SplitAt(sessions, at);
    forall i | ClosesBroadcast(segments, i) && segments[i].session < |sessions'| - 1
      ensures sessions'[segments[i].session].endedAt == segments[i].end
    {
      if i < |segments| - 1 {
        assert segments[i].session <= segments[i + 1].session;
      }
    }
  }

  lemma OpenKeepsSound(sessions: seq<Session>, segments: seq<Segment>, at: int)
    requires Sound(sessions, segments) && !Live(segments)
    ensures Sound(sessions, segments + [Segment(|sessions| - 1, at, None)])
  {
    var segments' := segments + [Segment(|sessions| - 1, at, None)];
    assert InOrder(sessions, segments');
    hide InOrder, Chained;
    forall i | ClosesBroadcast(segments', i) && segments'[i].session < |sessions| - 1
      ensures sessions[segments'[i].session].endedAt == segments'[i].end
    {
      assert ClosesBroadcast(segments, i);
    }
  }

  lemma CloseKeepsSound(sessions: seq<Session>, segments: seq<Segment>, at: int)
    requires Sound(sessions, segments) && OfflineInTime(sessions, segments, at)
    ensures Sound(sessions, CloseAt(segments, at))
  {
    hide EndsMatch;
    if Live(segments) {
      assert segments[|segments| - 1].session == |sessions| - 1;
      CloseKeepsInOrder(sessions, segments, at);
      CloseKeepsEnds(sessions, segments, at);
    }
  }

  lemma CloseKeepsEnds(sessions: seq<Session>, segments: seq<Segment>, at: int)
    requires EndsMatch(sessions, segments) && Live(segments) && segments[|segments| - 1].session == |sessions| - 1
    requires sessions[|sessions| - 1].startedAt <= at
    ensures EndsMatch(sessions, CloseAt(segments, at))
  {
    var segments' := CloseAt(segments, at);
    assert forall i :: 0 <= i < |segments| ==> segments'[i].session == segments[i].session;
    forall i | ClosesBroadcast(segments', i) && segments'[i].session < |sessions| - 1
      ensures sessions[segments'[i].session].endedAt == segments'[i].end
    {
      assert ClosesBroadcast(segments, i);
    }
  }

  lemma CloseKeepsInOrder(sessions: seq<Session>, segments: seq<Segment>, at: int)
    requires InOrder(sessions, segments) && OfflineInTime(sessions, segments, at) && Live(segments)
    ensures InOrder(sessions, CloseAt(segments, at))
  {
    var segments', m := CloseAt(segments, at), |segments| - 1;
    assert forall i :: 0 <= i < m ==> segments'[i] == segments[i];
    assert segments'[m] == segments[m].(end := Some(at));
  }

  /** The stream goes offline no earlier than its session began, and no earlier than it went offline before. */
  predicate OfflineInTime(sessions: seq<Session>, segments: seq<Segment>, at: int) {
    && sessions != [] && sessions[|sessions| - 1].startedAt <= at
    && forall i :: 0 <= i < |segments| && segments[i].end.Some? ==> segments[i].end.value <= at
  }

  /** An online that arrives after a check ended the broadcast it would still have belonged to. */
  predicate DelayedPastCheck(sessions: seq<Session>, segments: seq<Segment>, at: int, graceMs: int) {
    && segments != [] && segments[|segments| - 1].session != |sessions| - 1
    && segments[|segments| - 1].end.Some? && at - segments[|segments| - 1].end.value <= graceMs
  }

  lemma OpenKeepsGrouped(sessions: seq<Session>, segments: seq<Segment>, session: nat, at: int, graceMs: int)
    requires Sound(sessions, segments) && !Live(segments)
    ensures var segments' := segments + [Segment(session, at, None)];
            Grouped(segments', graceMs) <==>
              Grouped(segments, graceMs)
              && (segments == [] || (segments[|segments| - 1].session == session
                                     <==> at - segments[|segments| - 1].end.value <= graceMs))
  {
    var segments' := segments + [Segment(session, at, None)];
    assert forall i :: 0 <= i < |segments| ==> segments'[i] == segments[i];
    if segments != [] && Grouped(segments', graceMs) {
      assert segments'[|segments|] == Segment(session, at, None);
    }
  }

  lemma CloseKeepsGrouped(segments: seq<Segment>, at: int, graceMs: int)
    ensures Grouped(CloseAt(segments, at), graceMs) <==> Grouped(segments, graceMs)
  {
    var closed := CloseAt(segments, at);
    assert forall i :: 0 <= i < |segments| - 1 ==> closed[i] == segments[i];
    assert forall i :: 0 <= i < |segments| ==>
      closed[i].session == segments[i].session && closed[i].start == segments[i].start;
  }

  // ----- announcements ------------------------------------------------------------------------------------

  predicate HasSegment(segments: seq<Segment>, session: nat) {
    exists i :: 0 <= i < |segments| && segments[i].session == session
  }

  /** The sessions before `n` that were broadcasts. */
  function Broadcasts(segments: seq<Segment>, n: nat): seq<nat> {
    if n == 0 then [] else Broadcasts(segments, n - 1) + (if HasSegment(segments, n - 1) then [n - 1] else [])
  }

  function EndedIn(published: seq<Announcement>): seq<nat> {
    if published == [] then []
    else
      var last := published[|published| - 1];
      EndedIn(published[..|published| - 1]) + (if last.Ended? then [last.session] else [])
  }

  lemma EndedInGrows(published: seq<Announcement>, a: Announcement)
    ensures EndedIn(published + [a]) == EndedIn(published) + (if a.Ended? then [a.session] else [])
  {
    assert (published + [a])[..|published|] == published;
  }

  /**
   * `session.ended` named each replaced broadcast once, in order, and no idle
   * session, with the boundary the store holds, after its storage was cleared.
   */
  ghost predicate Announced(published: seq<Announcement>, sessions: seq<Session>, segments: seq<Segment>) {
    && |sessions| >= 1
    && EndedIn(published) == Broadcasts(segments, |sessions| - 1)
    && forall i :: 0 <= i < |published| && published[i].Ended? ==> EndIsReal(published, sessions, i)
  }

  predicate EndIsReal(published: seq<Announcement>, sessions: seq<Session>, i: nat)
    requires i < |published| && published[i].Ended?
  {
    var ended := published[i];
    && i > 0 && published[i - 1] == Cleared(ended.session)
    && ended.session + 1 == ended.replacedBy < |sessions|
    && sessions[ended.session].endedAt == Some(ended.endedAt)
    && sessions[ended.replacedBy].startedAt == ended.endedAt
  }

  lemma {:induction false} BroadcastsSame(segments: seq<Segment>, segments': seq<Segment>, n: nat)
    requires forall k :: 0 <= k < n ==> (HasSegment(segments, k) <==> HasSegment(segments', k))
    ensures Broadcasts(segments, n) == Broadcasts(segments', n)
  {
    if n > 0 {
      BroadcastsSame(segments, segments', n - 1);
    }
  }

  /** Opening or closing a segment of the open session announces nothing. */
  lemma SegmentKeepsAnnounced(published: seq<Announcement>, sessions: seq<Session>, segments: seq<Segment>, at: int)
    requires Announced(published, sessions, segments)
    ensures Announced(published, sessions, segments + [Segment(|sessions| - 1, at, None)])
  {
    var added := segments + [Segment(|sessions| - 1, at, None)];
    forall k | 0 <= k < |sessions| - 1 ensures HasSegment(segments, k) <==> HasSegment(added, k) {
      if HasSegment(segments, k) {
        var i :| 0 <= i < |segments| && segments[i].session == k;
        assert added[i].session == k;
      }
    }
    BroadcastsSame(segments, added, |sessions| - 1);
  }

  lemma CloseKeepsAnnounced(published: seq<Announcement>, sessions: seq<Session>, segments: seq<Segment>, at: int)
    requires Announced(published, sessions, segments)
    ensures Announced(published, sessions, CloseAt(segments, at))
  {
    var closed := CloseAt(segments, at);
    forall k ensures HasSegment(segments, k) <==> HasSegment(closed, k) {
      if HasSegment(segments, k) {
        var i :| 0 <= i < |segments| && segments[i].session == k;
        assert closed[i].session == k;
      }
    }
    BroadcastsSame(segments, closed, |sessions| - 1);
  }

  /** An idle session's end is not announced. */
  lemma IdleSplitKeepsAnnounced(published: seq<Announcement>, sessions: seq<Session>, segments: seq<Segment>, at: int)
    requires Announced(published, sessions, segments) && !HasSegment(segments, |sessions| - 1)
    ensures Announced(published, SplitAt(sessions, at), segments)
  {
  }

  /** Anything but an end changes nothing about what was announced ended. */
  lemma OtherKeepsAnnounced(published: seq<Announcement>, sessions: seq<Session>, segments: seq<Segment>, a: Announcement)
    requires Announced(published, sessions, segments) && !a.Ended?
    ensures Announced(published + [a], sessions, segments)
  {
    EndedInGrows(published, a);
  }

  lemma EndedBroadcastIsAnnounced(published: seq<Announcement>, sessions: seq<Session>, segments: seq<Segment>, at: int)
    requires Announced(published, sessions, segments) && HasSegment(segments, |sessions| - 1)
    ensures var k := |sessions| - 1;
            Announced(published + [Cleared(k)] + [Ended(k, at, k + 1)], SplitAt(sessions, at), segments)
  {
    var k := |sessions| - 1;
    var cleared := published + [Cleared(k)];
    var published', sessions' := cleared + [Ended(k, at, k + 1)], SplitAt(sessions, at);
    EndedInGrows(published, Cleared(k));
    EndedInGrows(cleared, Ended(k, at, k + 1));
    assert Broadcasts(segments, k + 1) == Broadcasts(segments, k) + [k];
    forall i | 0 <= i < |published'| && published'[i].Ended? ensures EndIsReal(published', sessions', i) {
      assert i < |published| ==> EndIsReal(published, sessions, i);
    }
  }


  // ----- one decision -------------------------------------------------------------------------------------

  lemma NoSegmentInOpen(sessions: seq<Session>, segments: seq<Segment>)
    requires Sound(sessions, segments)
    ensures (segments == [] || segments[|segments| - 1].session != |sessions| - 1) ==> !HasSegment(segments, |sessions| - 1)
    ensures !HasSegment(segments, |sessions|)
  {
  }

  lemma EndingKeepsSound(v: View, endedAt: int)
    requires Sound(v.sessions, v.segments) && !Live(v.segments)
    requires LastEnd(v.segments, |v.sessions| - 1) == Some(endedAt)
    ensures v.sessions[|v.sessions| - 1].startedAt <= endedAt
    ensures Sound(Ending(v, endedAt).sessions, v.segments)
    ensures HasSegment(v.segments, |v.sessions| - 1) && !HasSegment(v.segments, |v.sessions|)
  {
    LastEndIsLastClosed(v.sessions, v.segments);
    NoSegmentInOpen(v.sessions, v.segments);
    SplitKeepsSound(v.sessions, v.segments, endedAt);
  }

  lemma EndingAnnounces(v: View, endedAt: int)
    requires Announced(v.published, v.sessions, v.segments) && HasSegment(v.segments, |v.sessions| - 1)
    ensures var v' := Ending(v, endedAt); Announced(v'.published, v'.sessions, v'.segments)
  {
    hide Announced;
    var k := |v.sessions| - 1;
    EndedBroadcastIsAnnounced(v.published, v.sessions, v.segments, endedAt);
    OtherKeepsAnnounced(v.published + [Cleared(k)] + [Ended(k, endedAt, k + 1)], SplitAt(v.sessions, endedAt), v.segments,
                        Started(k + 1, endedAt));
  }

  /** The store before the segment is opened, when the session is split. */
  function Ready(v: View, at: int): View
    requires v.sessions != []
  {
    var lastEnd := LastEnd(v.segments, |v.sessions| - 1);
    var ended := if lastEnd.Some? then Ending(v, lastEnd.value) else v;
    ended.(sessions := SplitAt(ended.sessions, at))
  }

  lemma SplittingKeepsSound(v: View, at: int)
    requires Sound(v.sessions, v.segments) && !Live(v.segments)
    requires (var lastEnd := LastEnd(v.segments, |v.sessions| - 1);
              (if lastEnd.Some? then lastEnd.value else v.sessions[|v.sessions| - 1].startedAt) <= at)
    ensures Sound(Ready(v, at).sessions, v.segments)
    ensures Announced(v.published, v.sessions, v.segments)
        ==> Announced(Ready(v, at).published, Ready(v, at).sessions, v.segments)
  {
    hide Announced, HasSegment, InOrder, EndsMatch;
    var lastEnd := LastEnd(v.segments, |v.sessions| - 1);
    LastEndIsLastClosed(v.sessions, v.segments);
    NoSegmentInOpen(v.sessions, v.segments);
    var ended := v;
    if lastEnd.Some? {
      EndingKeepsSound(v, lastEnd.value);
      if Announced(v.published, v.sessions, v.segments) {
        EndingAnnounces(v, lastEnd.value);
      }
      ended := Ending(v, lastEnd.value);
    }
    NoSegmentSplits(ended.sessions, ended.segments, at);
    if Announced(v.published, v.sessions, v.segments) {
      IdleSplitKeepsAnnounced(ended.published, ended.sessions, ended.segments, at);
    }
  }

  lemma NoSegmentSplits(sessions: seq<Session>, segments: seq<Segment>, at: int)
    requires Sound(sessions, segments) && !Live(segments) && !HasSegment(segments, |sessions| - 1)
    requires sessions[|sessions| - 1].startedAt <= at
    ensures Sound(SplitAt(sessions, at), segments)
  {
    SplitKeepsSound(sessions, segments, at);
  }

  lemma SplitIsInTime(v: View, at: int, graceMs: int)
    requires Sound(v.sessions, v.segments) && graceMs >= 0 && DecideOnStreamOnline(StateOf(v.sessions, v.segments), at, graceMs).Split?
    ensures !Refused(v)
    ensures GoingLive(v, at, graceMs) == Opening(Ready(v, at), at, Some(|Ready(v, at).sessions| - 2))
    ensures !Live(v.segments)
    ensures (var lastEnd := LastEnd(v.segments, |v.sessions| - 1);
             (if lastEnd.Some? then lastEnd.value else v.sessions[|v.sessions| - 1].startedAt) <= at)
  {
    LastEndIsLastClosed(v.sessions, v.segments);
    hide LastEnd, Chained, InOrder;
    SplitGoesOn(v, at, graceMs);
  }

  /** A split is of a stream that is down; past the store's refusal, both of its splits are allowed. */
  lemma SplitGoesOn(v: View, at: int, graceMs: int)
    requires v.sessions != [] && graceMs >= 0 && DecideOnStreamOnline(StateOf(v.sessions, v.segments), at, graceMs).Split?
    ensures !Live(v.segments)
    ensures Refused(v) ==> GoingLive(v, at, graceMs) == v
    ensures !Refused(v) ==> GoingLive(v, at, graceMs) == Opening(Ready(v, at), at, Some(|Ready(v, at).sessions| - 2))
    ensures (var lastEnd := LastEnd(v.segments, |v.sessions| - 1);
             (if lastEnd.Some? then lastEnd.value else v.sessions[|v.sessions| - 1].startedAt) <= at)
  {
  }

  lemma OpeningKeeps(v: View, at: int, cleared: Option<nat>)
    requires Sound(v.sessions, v.segments)
    ensures var v' := Opening(v, at, cleared);
      && Sound(v'.sessions, v'.segments) && v'.current == Some(|v'.sessions| - 1) && Live(v'.segments)
      && (Announced(v.published, v.sessions, v.segments) ==> Announced(v'.published, v'.sessions, v'.segments))
  {
    hide Announced, InOrder, EndsMatch;
    if !Live(v.segments) {
      OpenKeepsSound(v.sessions, v.segments, at);
    }
    if Announced(v.published, v.sessions, v.segments) {
      SegmentKeepsAnnounced(v.published, v.sessions, v.segments, at);
      var v' := Opening(v, at, cleared);
      var published := if cleared.Some? then v.published + [Cleared(cleared.value)] else v.published;
      if cleared.Some? {
        OtherKeepsAnnounced(v.published, v.sessions, v'.segments, Cleared(cleared.value));
      }
      OtherKeepsAnnounced(published, v.sessions, v'.segments, Started(|v.sessions| - 1, at));
    }
  }

  // ----- storage and starts -------------------------------------------------------------------------------

  function ClearedIn(published: seq<Announcement>): seq<nat> {
    if published == [] then []
    else
      var last, before := published[|published| - 1], ClearedIn(published[..|published| - 1]);
      if last.Cleared? then before + [last.session] else before
  }

  function LastStarted(published: seq<Announcement>): Option<nat> {
    if published == [] then None
    else
      var last := published[|published| - 1];
      if last.Started? then Some(last.session) else LastStarted(published[..|published| - 1])
  }

  function Upto(n: nat): seq<nat> {
    if n == 0 then [] else Upto(n - 1) + [n - 1]
  }

  /**
   * The storage of every replaced session, idle ones included, was cleared
   * once, in order, and the last start announced is of the current session.
   */
  ghost predicate Tidied(v: View) {
    |v.sessions| >= 1 && ClearedIn(v.published) == Upto(|v.sessions| - 1) && LastStarted(v.published) == v.current
  }

  lemma AnnouncedLast(published: seq<Announcement>, a: Announcement)
    ensures ClearedIn(published + [a]) == if a.Cleared? then ClearedIn(published) + [a.session] else ClearedIn(published)
    ensures LastStarted(published + [a]) == if a.Started? then Some(a.session) else LastStarted(published)
  {
    assert (published + [a])[..|published|] == published;
  }

  lemma EndingTidies(v: View, endedAt: int)
    requires Tidied(v)
    ensures Tidied(Ending(v, endedAt))
  {
    var k := |v.sessions| - 1;
    assert Upto(k + 1) == Upto(k) + [k];
    hide Upto, ClearedIn, LastStarted;
    var cleared := v.published + [Cleared(k)];
    AnnouncedLast(v.published, Cleared(k));
    AnnouncedLast(cleared, Ended(k, endedAt, k + 1));
    AnnouncedLast(cleared + [Ended(k, endedAt, k + 1)], Started(k + 1, endedAt));
  }

  lemma OpeningTidies(v: View, at: int, cleared: Option<nat>)
    requires |v.sessions| >= 1 && LastStarted(v.published) == v.current
    requires match cleared
      case None => ClearedIn(v.published) == Upto(|v.sessions| - 1)
      case Some(k) => k + 2 == |v.sessions| && ClearedIn(v.published) == Upto(k)
    ensures Tidied(Opening(v, at, cleared))
  {
    hide Opening, Upto, ClearedIn, LastStarted, Clearing;
    var k := |v.sessions| - 1;
    OpeningPublishes(v, at, cleared);
    ClearingTidies(v.published, k, cleared);
    AnnouncedLast(Clearing(v.published, cleared), Started(k, at));
  }

  function Clearing(published: seq<Announcement>, cleared: Option<nat>): seq<Announcement> {
    if cleared.Some? then published + [Cleared(cleared.value)] else published
  }

  lemma OpeningPublishes(v: View, at: int, cleared: Option<nat>)
    requires v.sessions != []
    ensures var v', k := Opening(v, at, cleared), |v.sessions| - 1;
      && v'.sessions == v.sessions && v'.current == Some(k)
      && v'.published == (if v.current == Some(k) then Clearing(v.published, cleared)
                          else Clearing(v.published, cleared) + [Started(k, at)])
  {
  }

  lemma ClearingTidies(published: seq<Announcement>, k: nat, cleared: Option<nat>)
    requires match cleared
      case None => ClearedIn(published) == Upto(k)
      case Some(c) => c + 1 == k && ClearedIn(published) == Upto(c)
    ensures ClearedIn(Clearing(published, cleared)) == Upto(k)
    ensures LastStarted(Clearing(published, cleared)) == LastStarted(published)
  {
    if cleared.Some? {
      assert Upto(k) == Upto(k - 1) + [k - 1];
      hide ClearedIn, LastStarted, Upto;
      AnnouncedLast(published, Cleared(cleared.value));
    }
  }

  lemma DecisionTidies(v: View, event: StreamEvent, graceMs: int)
    requires Tidied(v)
    ensures Tidied(Decided(v, event, graceMs))
  {
    hide ClearedIn, LastStarted, LastEnd;
    var state := StateOf(v.sessions, v.segments);
    match event
    case Online(at) =>
      if DecideOnStreamOnline(state, at, graceMs).Extend? {
        OpeningTidies(v, at, None);
      } else if !Refused(v) {
        var ended := v;
        if state.lastSegmentEndedAt.Some? {
          EndingTidies(v, state.lastSegmentEndedAt.value);
          ended := Ending(v, state.lastSegmentEndedAt.value);
        }
        OpeningTidies(ended.(sessions := SplitAt(ended.sessions, at)), at, Some(|ended.sessions| - 1));
      }
    case Offline(_) =>
    case Check(at) =>
      if IsBroadcastOver(state, at, graceMs) && !Refused(v) {
        EndingTidies(v, state.lastSegmentEndedAt.value);
      }
  }

  /** Everything one decision keeps, when none of its calls fails. */
  ghost predicate Kept(v: View) {
    && Sound(v.sessions, v.segments) && Announced(v.published, v.sessions, v.segments)
    && v.current == Some(|v.sessions| - 1) && Tidied(v)
  }

  lemma DecisionKeepsSound(v: View, event: StreamEvent, graceMs: int)
    requires Sound(v.sessions, v.segments) && graceMs >= 0
    requires event.Offline? ==> OfflineInTime(v.sessions, v.segments, event.at)
    ensures var v' := Decided(v, event, graceMs);
      && Sound(v'.sessions, v'.segments) && (Live(v.segments) && event.Check? ==> v' == v)
      && (Announced(v.published, v.sessions, v.segments) ==> Announced(v'.published, v'.sessions, v'.segments))
      && (v.current == Some(|v.sessions| - 1) || event.Online? ==> v'.current == Some(|v'.sessions| - 1))
  {
    hide Announced, InOrder, EndsMatch;
    match event
    case Online(at) =>
      if DecideOnStreamOnline(StateOf(v.sessions, v.segments), at, graceMs).Split? {
        SplitIsInTime(v, at, graceMs);
        SplittingKeepsSound(v, at);
        OpeningKeeps(Ready(v, at), at, Some(|Ready(v, at).sessions| - 2));
      } else {
        OpeningKeeps(v, at, None);
      }
    case Offline(at) =>
      CloseKeepsSound(v.sessions, v.segments, at);
      if Announced(v.published, v.sessions, v.segments) {
        CloseKeepsAnnounced(v.published, v.sessions, v.segments, at);
      }
    case Check(at) =>
      var state := StateOf(v.sessions, v.segments);
      if IsBroadcastOver(state, at, graceMs) {
        EndingKeepsSound(v, state.lastSegmentEndedAt.value);
        if Announced(v.published, v.sessions, v.segments) {
          EndingAnnounces(v, state.lastSegmentEndedAt.value);
        }
      }
  }

  lemma DecisionKeeps(v: View, event: StreamEvent, graceMs: int)
    requires Kept(v) && graceMs >= 0
    requires event.Offline? ==> OfflineInTime(v.sessions, v.segments, event.at)
    ensures Kept(Decided(v, event, graceMs))
  {
    hide Announced, Sound, Tidied, Decided;
    DecisionKeepsSound(v, event, graceMs);
    DecisionTidies(v, event, graceMs);
  }

  /** A decision to go live keeps segments grouped by gap unless, and only unless, it was delayed past a check. */
  lemma GoingLiveGroups(v: View, at: int, graceMs: int)
    requires Sound(v.sessions, v.segments) && graceMs >= 0
    ensures var v' := GoingLive(v, at, graceMs);
      Grouped(v'.segments, graceMs) <==>
        Grouped(v.segments, graceMs) && (Live(v.segments) || !DelayedPastCheck(v.sessions, v.segments, at, graceMs))
  {
    assert v.sessions != [];
    hide Grouped, GoingLive, Sound, DelayedPastCheck;
    if Live(v.segments) {
      LiveStaysSame(v, at, graceMs);
    } else {
      GoingLiveWhileDownGroups(v, at, graceMs);
    }
  }

  lemma LiveStaysSame(v: View, at: int, graceMs: int)
    requires v.sessions != [] && Live(v.segments)
    ensures GoingLive(v, at, graceMs).segments == v.segments
  {
    hide LastEnd;
  }

  lemma GoingLiveWhileDownGroups(v: View, at: int, graceMs: int)
    requires Sound(v.sessions, v.segments) && graceMs >= 0 && !Live(v.segments)
    ensures Grouped(GoingLive(v, at, graceMs).segments, graceMs) <==>
      Grouped(v.segments, graceMs) && !DelayedPastCheck(v.sessions, v.segments, at, graceMs)
  {
    hide Grouped, GoingLive, DelayedPastCheck, Live, Refused, DecideOnStreamOnline, StateOf;
    LastEndIsLastClosed(v.sessions, v.segments);
    assert v.sessions != [] && (v.segments != [] ==> v.segments[|v.segments| - 1].session <= |v.sessions| - 1);
    hide Chained, InOrder, EndsMatch, LastEnd;
    if DecideOnStreamOnline(StateOf(v.sessions, v.segments), at, graceMs).Split? {
      SplitIsInTime(v, at, graceMs);
    }
    hide Ready, Opening;
    var session := GoingLiveOpens(v, at, graceMs);
    OpenKeepsGrouped(v.sessions, v.segments, session, at, graceMs);
    OpensByTheGap(v, at, graceMs, session);
  }

  /** The segment that opens is grouped with the last one by their gap, unless the online was delayed past a check. */
  lemma OpensByTheGap(v: View, at: int, graceMs: int, session: nat)
    requires v.sessions != [] && !Live(v.segments) && graceMs >= 0
    requires var last := |v.segments| - 1;
      && (v.segments != [] ==> v.segments[last].session <= |v.sessions| - 1)
      && LastEnd(v.segments, |v.sessions| - 1)
           == (if v.segments != [] && v.segments[last].session == |v.sessions| - 1 then v.segments[last].end else None)
    requires match DecideOnStreamOnline(StateOf(v.sessions, v.segments), at, graceMs)
      case Extend => session == |v.sessions| - 1
      case Split => session > |v.sessions| - 1
    ensures !DelayedPastCheck(v.sessions, v.segments, at, graceMs) <==>
      v.segments == [] || (v.segments[|v.segments| - 1].session == session
                           <==> at - v.segments[|v.segments| - 1].end.value <= graceMs)
  {
    hide LastEnd;
  }

  /** While the stream is down, going live opens a segment, in the open session or in a new one. */
  lemma GoingLiveOpens(v: View, at: int, graceMs: int) returns (session: nat)
    requires v.sessions != [] && !Live(v.segments)
    requires DecideOnStreamOnline(StateOf(v.sessions, v.segments), at, graceMs).Split? ==> !Refused(v)
    ensures GoingLive(v, at, graceMs).segments == v.segments + [Segment(session, at, None)]
    ensures DecideOnStreamOnline(StateOf(v.sessions, v.segments), at, graceMs).Extend? ==> session == |v.sessions| - 1
    ensures DecideOnStreamOnline(StateOf(v.sessions, v.segments), at, graceMs).Split? ==> session > |v.sessions| - 1
  {
    hide LastEnd;
    session := GoingLive(v, at, graceMs).segments[|v.segments|].session;
  }

  // ----- whole runs ---------------------------------------------------------------------------------------

  function Run(v: View, events: seq<StreamEvent>, graceMs: int): (v': View)
    requires v.sessions != []
    ensures v'.sessions != []
    decreases |events|
  {
    if events == [] then v else Run(Decided(v, events[0], graceMs), events[1..], graceMs)
  }

  /** Times never run backwards, and the stream goes down only after the first session began. */
  predicate InTime(events: seq<StreamEvent>, since: int, begun: int) {
    && (forall i :: 0 <= i < |events| ==> since <= events[i].at && (events[i].Offline? ==> begun <= events[i].at))
    && forall i, j :: 0 <= i < j < |events| ==> events[i].at <= events[j].at
  }

  /** Nothing in the store is later than `now`, and an idle session only follows a broadcast that is over. */
  ghost predicate Settled(v: View, now: int, begun: int, graceMs: int) {
    && (forall i :: 0 <= i < |v.sessions| ==> v.sessions[i].startedAt <= now || v.sessions[i].startedAt <= begun)
    && (forall i :: 0 <= i < |v.segments| && v.segments[i].end.Some? ==> v.segments[i].end.value <= now)
    && (v.segments != [] && v.segments[|v.segments| - 1].end.Some? && v.segments[|v.segments| - 1].session != |v.sessions| - 1
        ==> now - v.segments[|v.segments| - 1].end.value > graceMs)
  }

  ghost predicate Timely(v: View, now: int, begun: int, graceMs: int) {
    Kept(v) && Grouped(v.segments, graceMs) && Settled(v, now, begun, graceMs)
  }

  /** The part of it that is about the store. */
  ghost predicate StoreTimely(v: View, now: int, begun: int, graceMs: int) {
    Sound(v.sessions, v.segments) && Grouped(v.segments, graceMs) && Settled(v, now, begun, graceMs)
  }

  lemma OpeningSettles(v: View, at: int, cleared: Option<nat>, begun: int, graceMs: int)
    requires v.sessions != [] && (Live(v.segments) ==> v.segments[|v.segments| - 1].session == |v.sessions| - 1)
    requires Settled(v, at, begun, graceMs)
    ensures Settled(Opening(v, at, cleared), at, begun, graceMs)
  {
  }

  /** Splitting for a broadcast settles even if no segment follows. */
  lemma ReadySettles(v: View, at: int, now: int, begun: int, graceMs: int)
    requires Sound(v.sessions, v.segments) && graceMs >= 0 && Settled(v, now, begun, graceMs) && now <= at
    requires DecideOnStreamOnline(StateOf(v.sessions, v.segments), at, graceMs).Split?
    ensures Settled(Ready(v, at), at, begun, graceMs) && Ready(v, at).segments == v.segments
    ensures LastEnd(v.segments, |v.sessions| - 1).Some?
        ==> Settled(Ending(v, LastEnd(v.segments, |v.sessions| - 1).value), at, begun, graceMs)
  {
    LastEndIsLastClosed(v.sessions, v.segments);
    hide Chained, InOrder, EndsMatch, LastEnd;
  }

  lemma GoingLiveSettles(v: View, at: int, now: int, begun: int, graceMs: int)
    requires Sound(v.sessions, v.segments) && graceMs >= 0 && Settled(v, now, begun, graceMs) && now <= at
    ensures Settled(GoingLive(v, at, graceMs), at, begun, graceMs)
  {
    assert Live(v.segments) ==> v.segments[|v.segments| - 1].session == |v.sessions| - 1;
    hide Chained, InOrder, EndsMatch, GoingLive, Opening, LastEnd, StateOf, DecideOnStreamOnline, Settled, Ready, Live;
    if DecideOnStreamOnline(StateOf(v.sessions, v.segments), at, graceMs).Split? {
      SplitIsInTime(v, at, graceMs);
      ReadySettles(v, at, now, begun, graceMs);
      OpeningSettles(Ready(v, at), at, Some(|Ready(v, at).sessions| - 2), begun, graceMs);
    } else {
      ExtendOpens(v, at, graceMs);
      SameStoreSettles(v, v, now, at, begun, graceMs);
      OpeningSettles(v, at, None, begun, graceMs);
    }
  }

  lemma ExtendOpens(v: View, at: int, graceMs: int)
    requires v.sessions != [] && DecideOnStreamOnline(StateOf(v.sessions, v.segments), at, graceMs).Extend?
    ensures GoingLive(v, at, graceMs) == Opening(v, at, None)
  {
  }

  lemma DecisionSettles(v: View, event: StreamEvent, now: int, begun: int, graceMs: int)
    requires Sound(v.sessions, v.segments) && graceMs >= 0 && Settled(v, now, begun, graceMs) && now <= event.at
    ensures Settled(Decided(v, event, graceMs), event.at, begun, graceMs)
  {
    hide EndsMatch, LastEnd;
    if event.Online? {
      GoingLiveSettles(v, event.at, now, begun, graceMs);
    } else if Live(v.segments) {
      assert v.segments[|v.segments| - 1].session == |v.sessions| - 1;
    } else {
      LastEndIsLastClosed(v.sessions, v.segments);
    }
  }

  lemma DecisionKeepsStore(v: View, event: StreamEvent, now: int, begun: int, graceMs: int)
    requires StoreTimely(v, now, begun, graceMs) && graceMs >= 0 && now <= event.at && (event.Offline? ==> begun <= event.at)
    ensures StoreTimely(Decided(v, event, graceMs), event.at, begun, graceMs)
    ensures event.Offline? ==> OfflineInTime(v.sessions, v.segments, event.at)
  {
    hide Announced, Grouped, Sound;
    DecisionSettles(v, event, now, begun, graceMs);
    SettledInTime(v, event.at, now, begun, graceMs);
    hide Settled;
    DecisionKeepsSound(v, event, graceMs);
    match event
    case Online(at) => GoingLiveGroups(v, at, graceMs);
    case Offline(at) => CloseKeepsGrouped(v.segments, at, graceMs);
    case Check(_) =>
  }

  lemma DecisionKeepsTimely(v: View, event: StreamEvent, now: int, begun: int, graceMs: int)
    requires Timely(v, now, begun, graceMs) && graceMs >= 0 && now <= event.at && (event.Offline? ==> begun <= event.at)
    ensures Timely(Decided(v, event, graceMs), event.at, begun, graceMs)
  {
    hide Announced, Grouped, Sound, Settled, Tidied, Decided;
    DecisionKeepsStore(v, event, now, begun, graceMs);
    DecisionKeeps(v, event, graceMs);
  }

  lemma SettledInTime(v: View, at: int, now: int, begun: int, graceMs: int)
    requires Settled(v, now, begun, graceMs) && Sound(v.sessions, v.segments) && now <= at
    ensures begun <= at ==> OfflineInTime(v.sessions, v.segments, at)
    ensures !Live(v.segments) ==> !DelayedPastCheck(v.sessions, v.segments, at, graceMs)
  {
  }

  lemma {:induction false} RunKeepsTimely(v: View, events: seq<StreamEvent>, now: int, begun: int, graceMs: int)
    requires Timely(v, now, begun, graceMs) && InTime(events, now, begun) && graceMs >= 0
    ensures Timely(Run(v, events, graceMs), if events == [] then now else events[|events| - 1].at, begun, graceMs)
    decreases |events|
  {
    hide Decided, Grouped, Settled, Announced, Chained, InOrder, EndsMatch;
    if events != [] {
      DecisionKeepsTimely(v, events[0], now, begun, graceMs);
      RunKeepsTimely(Decided(v, events[0], graceMs), events[1..], events[0].at, begun, graceMs);
    }
  }

  /** A process that starts on a stored timeline adopts its open session. */
  function Adopting(v: View): View
    requires v.sessions != []
  {
    var k := |v.sessions| - 1;
    v.(current := Some(k), published := v.published + [Started(k, v.sessions[k].startedAt)])
  }

  /** What the resolver starts from: one open session, adopted and announced, and no segment yet. */
  function FirstView(begun: int): View {
    View([Session(begun, None)], [], Some(0), [Started(0, begun)])
  }

  lemma FirstViewIsTidied(begun: int)
    ensures Tidied(FirstView(begun))
  {
    AnnouncedLast([], Started(0, begun));
    assert [] + [Started(0, begun)] == FirstView(begun).published;
    assert ClearedIn([]) == [] && Upto(0) == [];
    hide ClearedIn, LastStarted, Upto;
  }

  lemma FirstViewIsAnnounced(begun: int)
    ensures var v := FirstView(begun); Announced(v.published, v.sessions, v.segments)
  {
    EndedInGrows([], Started(0, begun));
    assert [] + [Started(0, begun)] == FirstView(begun).published;
    assert EndedIn([]) == [] && Broadcasts([], 0) == [];
    hide EndedIn, Broadcasts;
  }

  lemma FirstViewIsKept(begun: int)
    ensures Kept(FirstView(begun))
  {
    FirstViewIsTidied(begun);
    FirstViewIsAnnounced(begun);
    hide Tidied, Announced;
  }

  lemma FirstViewIsTimely(begun: int, now: int, graceMs: int)
    ensures Timely(FirstView(begun), now, begun, graceMs)
  {
    hide Kept;
    FirstViewIsKept(begun);
  }

  /**
   * From any start, after any events in time order with checks anywhere among
   * them, the sessions that have segments hold exactly the maximal runs of
   * segments with gaps within the grace window.
   */
  lemma SessionsAreMaximalRuns(begun: int, events: seq<StreamEvent>, since: int, graceMs: int)
    requires InTime(events, since, begun) && graceMs >= 0
    ensures var v := Run(FirstView(begun), events, graceMs);
      && Kept(v) && (forall i :: 0 <= i < |v.segments| - 1 ==> v.segments[i].end.Some?)
      && BySession(v.segments) == Runs(v.segments, graceMs)
  {
    FirstViewIsTimely(begun, since, graceMs);
    RunKeepsTimely(FirstView(begun), events, since, begun, graceMs);
    BroadcastsAreMaximalRuns(Run(FirstView(begun), events, graceMs).segments, graceMs);
  }

  /** A restart keeps the timeline and what was announced, and is back in the open session. */
  lemma RestartKeepsTimely(v: View, now: int, begun: int, graceMs: int)
    requires Timely(v, now, begun, graceMs)
    ensures Timely(Adopting(v.(current := None)), now, begun, graceMs)
  {
    hide Announced, Chained, InOrder, EndsMatch, Grouped, Settled, ClearedIn, LastStarted, Upto;
    var k := |v.sessions| - 1;
    SameStoreSettles(v, Adopting(v), now, now, begun, graceMs);
    OtherKeepsAnnounced(v.published, v.sessions, v.segments, Started(k, v.sessions[k].startedAt));
    AnnouncedLast(v.published, Started(k, v.sessions[k].startedAt));
  }

  /** The order of times is needed: an online stamped before a check, and decided after it, splits within the grace window. */
  lemma DelayedOnlineSplitsTooSoon()
    ensures var down := View([Session(0, None)], [Segment(0, 0, Some(5))], Some(0), [Started(0, 0)]);
      !Grouped(GoingLive(Checking(down, 16, 10), 15, 10).segments, 10) && Grouped(GoingLive(down, 15, 10).segments, 10)
  {
    var closed := [Segment(0, 0, Some(5))];
    assert closed[..0] == [] && LastEnd(closed, 0) == Some(5) && LastEnd(closed, 1) == None;
    var down := View([Session(0, None)], closed, Some(0), [Started(0, 0)]);
    var idle := Checking(down, 16, 10);
    assert idle.sessions == [Session(0, Some(5)), Session(5, None)] && idle.segments == closed;
    hide Checking, LastEnd, Ending;
    var late, prompt := GoingLive(idle, 15, 10).segments, GoingLive(down, 15, 10).segments;
    assert late == [closed[0], Segment(2, 15, None)];
    assert prompt == [closed[0], Segment(0, 15, None)];
    assert late[1].session != late[0].session && late[1].start - late[0].end.value == 10;
  }

  // ----- runs in which calls fail --------------------------------------------------------------------------

  /** What going live has split when it stops before its segment is stored. */
  predicate SplitOnly(v: View, at: int, v': View, graceMs: int)
    requires v.sessions != []
  {
    && DecideOnStreamOnline(StateOf(v.sessions, v.segments), at, graceMs).Split? && !Refused(v) && v'.segments == v.segments
    && var lastEnd := LastEnd(v.segments, |v.sessions| - 1);
       v'.sessions == Ready(v, at).sessions || (lastEnd.Some? && v'.sessions == Ending(v, lastEnd.value).sessions)
  }

  predicate SameStore(v: View, v': View) {
    v'.sessions == v.sessions && v'.segments == v.segments
  }

  /**
   * What a decision may leave in the store, whichever of its calls fails: all
   * of it, none of it, or the splits that go before the segment.
   */
  predicate MayLeave(v: View, event: StreamEvent, v': View, graceMs: int)
    requires v.sessions != []
  {
    SameStore(v, v') || SameStore(Decided(v, event, graceMs), v') || (event.Online? && SplitOnly(v, event.at, v', graceMs))
  }

  lemma SplitsAreSound(v: View, at: int, v': View, graceMs: int)
    requires Sound(v.sessions, v.segments) && graceMs >= 0 && SplitOnly(v, at, v', graceMs)
    ensures Sound(v'.sessions, v'.segments)
  {
    hide Announced, HasSegment, EndsMatch, InOrder, LastEnd;
    SplitIsInTime(v, at, graceMs);
    SplittingKeepsSound(v, at);
    var lastEnd := LastEnd(v.segments, |v.sessions| - 1);
    if lastEnd.Some? {
      EndingKeepsSound(v, lastEnd.value);
    }
    hide Sound;
  }

  lemma SplitsSettle(v: View, at: int, v': View, now: int, begun: int, graceMs: int)
    requires Sound(v.sessions, v.segments) && graceMs >= 0 && SplitOnly(v, at, v', graceMs)
    requires Settled(v, now, begun, graceMs) && now <= at
    ensures Settled(v', at, begun, graceMs)
  {
    ReadySettles(v, at, now, begun, graceMs);
    hide Sound, LastEnd, Settled;
    if v'.sessions == Ready(v, at).sessions {
      SameStoreSettles(Ready(v, at), v', at, at, begun, graceMs);
    } else {
      SameStoreSettles(Ending(v, LastEnd(v.segments, |v.sessions| - 1).value), v', at, at, begun, graceMs);
    }
  }

  /** Soundness needs no order of times but that of an offline. */
  lemma LeftoversAreSound(v: View, event: StreamEvent, v': View, graceMs: int)
    requires Sound(v.sessions, v.segments) && graceMs >= 0 && MayLeave(v, event, v', graceMs)
    requires event.Offline? ==> OfflineInTime(v.sessions, v.segments, event.at)
    ensures Sound(v'.sessions, v'.segments)
  {
    hide SplitOnly, Announced, Decided;
    DecisionKeepsSound(v, event, graceMs);
    if event.Online? && SplitOnly(v, event.at, v', graceMs) {
      SplitsAreSound(v, event.at, v', graceMs);
    }
    hide Sound;
  }

  lemma LeftoversAreTimely(v: View, event: StreamEvent, v': View, now: int, begun: int, graceMs: int)
    requires StoreTimely(v, now, begun, graceMs) && graceMs >= 0 && now <= event.at && (event.Offline? ==> begun <= event.at)
    requires MayLeave(v, event, v', graceMs)
    ensures StoreTimely(v', event.at, begun, graceMs)
  {
    assert SplitOnly(v, event.at, v', graceMs) ==> v'.segments == v.segments;
    hide SplitOnly, Decided, Grouped, Settled;
    DecisionKeepsStore(v, event, now, begun, graceMs);
    if event.Online? && SplitOnly(v, event.at, v', graceMs) {
      SplitsAreSound(v, event.at, v', graceMs);
      SplitsSettle(v, event.at, v', now, begun, graceMs);
    } else if SameStore(v, v') {
      SameStoreSettles(v, v', now, event.at, begun, graceMs);
    } else {
      SameStoreSettles(Decided(v, event, graceMs), v', event.at, event.at, begun, graceMs);
    }
    hide Sound;
  }

  lemma SameStoreSettles(v: View, v': View, now: int, at: int, begun: int, graceMs: int)
    requires Settled(v, now, begun, graceMs) && v'.sessions == v.sessions && v'.segments == v.segments && now <= at
    ensures Settled(v', at, begun, graceMs)
  {
  }

  /** A run in which any call of any decision may fail. */
  ghost predicate IsFaultyRun(views: seq<View>, events: seq<StreamEvent>, begun: int, graceMs: int) {
    && |views| == |events| + 1 && views[0].sessions == [Session(begun, None)] && views[0].segments == []
    && forall i :: 0 <= i < |events| ==> views[i].sessions != [] && MayLeave(views[i], events[i], views[i + 1], graceMs)
  }

  lemma {:induction false} FaultyRunsStayTimely(views: seq<View>, events: seq<StreamEvent>, n: nat, since: int, begun: int, graceMs: int)
    requires IsFaultyRun(views, events, begun, graceMs) && InTime(events, since, begun) && graceMs >= 0 && n < |views|
    ensures StoreTimely(views[n], if n == 0 then since else events[n - 1].at, begun, graceMs)
  {
    hide StoreTimely, MayLeave;
    if n == 0 {
      FirstStoreIsTimely(views[0], since, begun, graceMs);
    } else {
      FaultyRunsStayTimely(views, events, n - 1, since, begun, graceMs);
      assert MayLeave(views[n - 1], events[n - 1], views[n - 1 + 1], graceMs);
      LeftoversAreTimely(views[n - 1], events[n - 1], views[n], if n == 1 then since else events[n - 2].at, begun, graceMs);
    }
  }

  lemma FirstStoreIsTimely(v: View, now: int, begun: int, graceMs: int)
    requires v.sessions == [Session(begun, None)] && v.segments == []
    ensures StoreTimely(v, now, begun, graceMs)
  {
  }

  /**
   * Whatever calls fail, in every state the sessions that have segments hold
   * exactly the maximal runs of the segments that were stored.
   */
  lemma FailuresKeepMaximalRuns(views: seq<View>, events: seq<StreamEvent>, n: nat, since: int, begun: int, graceMs: int)
    requires IsFaultyRun(views, events, begun, graceMs) && InTime(events, since, begun) && graceMs >= 0 && n < |views|
    ensures var v := views[n];
      && Sound(v.sessions, v.segments) && (forall i :: 0 <= i < |v.segments| - 1 ==> v.segments[i].end.Some?)
      && BySession(v.segments) == Runs(v.segments, graceMs)
  {
    FaultyRunsStayTimely(views, events, n, since, begun, graceMs);
    BroadcastsAreMaximalRuns(views[n].segments, graceMs);
  }

  // ----- an offline stamped before its session began --------------------------------------------------------

  /** The stream is down, and the session it was live in cannot end. */
  predicate Wedged(v: View) {
    v.sessions != [] && !Live(v.segments) && Refused(v)
  }

  lemma SoundlyClosedIsInTime(sessions: seq<Session>, segments: seq<Segment>, at: int)
    requires sessions != [] && InOrder(sessions, segments) && Live(segments)
    requires InOrder(sessions, CloseAt(segments, at)) && EndsMatch(sessions, CloseAt(segments, at))
    ensures OfflineInTime(sessions, segments, at)
  {
    var m, closed := |segments| - 1, CloseAt(segments, at);
    assert closed[m] == segments[m].(end := Some(at)) && segments[m].session == |sessions| - 1;
    assert sessions[closed[m].session].startedAt <= closed[m].end.value by {
      hide InOrder;
    }
    hide EndsMatch;
    forall i | 0 <= i < |segments| && segments[i].end.Some? ensures segments[i].end.value <= at {
      assert i < m && closed[i] == segments[i];
    }
  }

  /**
   * Closing a segment keeps the timeline sound if and only if the stream went
   * down no earlier than its session began and than it went down before.
   */
  lemma ClosingIsSoundInTime(v: View, at: int)
    requires Sound(v.sessions, v.segments) && Live(v.segments)
    ensures Sound(v.sessions, CloseAt(v.segments, at)) <==> OfflineInTime(v.sessions, v.segments, at)
  {
    assert v.sessions != [];
    hide Chained, InOrder, EndsMatch, Live, CloseAt, OfflineInTime;
    if OfflineInTime(v.sessions, v.segments, at) {
      CloseKeepsSound(v.sessions, v.segments, at);
    } else if Sound(v.sessions, CloseAt(v.segments, at)) {
      SoundlyClosedIsInTime(v.sessions, v.segments, at);
    }
  }

  /** A wedged session never ends: no check ends it, and no online past the grace window is stored. */
  lemma WedgedStaysWedged(v: View, event: StreamEvent, graceMs: int)
    requires Wedged(v) && graceMs >= 0
    requires event.Online? ==> event.at - LastEnd(v.segments, |v.sessions| - 1).value > graceMs
    ensures Decided(v, event, graceMs) == v
  {
  }

  /** Every segment is in a session, and only the open session is live. */
  predicate Placed(v: View) {
    && v.sessions != []
    && (forall i :: 0 <= i < |v.segments| ==> v.segments[i].session < |v.sessions|)
    && (Live(v.segments) ==> v.segments[|v.segments| - 1].session == |v.sessions| - 1)
  }

  lemma DecisionKeepsPlaced(v: View, event: StreamEvent, graceMs: int)
    requires Placed(v)
    ensures Placed(Decided(v, event, graceMs))
  {
    hide LastEnd;
  }

  /**
   * The condition under which a decision leaves the open session wedged. An
   * offline does it when it is stamped before the session began, and so was
   * every other end in the session; only an online within the grace window of
   * the last end undoes it.
   */
  predicate Wedges(v: View, event: StreamEvent, graceMs: int)
    requires v.sessions != []
  {
    var startedAt, lastEnd := v.sessions[|v.sessions| - 1].startedAt, LastEnd(v.segments, |v.sessions| - 1);
    match event
    case Online(at) => Wedged(v) && at - lastEnd.value > graceMs
    case Offline(at) =>
      if Live(v.segments) then at < startedAt && (lastEnd.None? || lastEnd.value < startedAt) else Wedged(v)
    case Check(_) => Wedged(v)
  }

  lemma ClosingWedges(v: View, at: int)
    requires Placed(v) && Live(v.segments)
    ensures var lastEnd := LastEnd(v.segments, |v.sessions| - 1);
      LastEnd(CloseAt(v.segments, at), |v.sessions| - 1)
        == if lastEnd.None? || lastEnd.value < at then Some(at) else lastEnd
  {
    var m := |v.segments| - 1;
    assert CloseAt(v.segments, at)[..m] == v.segments[..m];
  }

  /** The session a check or an online makes has no end yet. */
  lemma NothingEndedYet(v: View, at: int)
    requires Placed(v)
    ensures LastEnd(Ending(v, at).segments, |Ending(v, at).sessions| - 1).None?
  {
    NoEndBefore(v.segments, |v.sessions|);
  }

  /** From any placed timeline, at any time, a decision wedges exactly on that condition. */
  lemma DecisionWedges(v: View, event: StreamEvent, graceMs: int)
    requires Placed(v) && graceMs >= 0
    ensures Wedged(Decided(v, event, graceMs)) <==> Wedges(v, event, graceMs)
  {
    match event
    case Online(at) => hide LastEnd;
    case Offline(at) =>
      if Live(v.segments) {
        ClosingWedges(v, at);
        hide LastEnd;
      }
    case Check(at) =>
      if IsBroadcastOver(StateOf(v.sessions, v.segments), at, graceMs) && !Refused(v) {
        NothingEndedYet(v, LastEnd(v.segments, |v.sessions| - 1).value);
      }
      hide LastEnd;
  }

  lemma {:induction false} RunKeepsPlaced(v: View, events: seq<StreamEvent>, graceMs: int)
    requires Placed(v)
    ensures Placed(Run(v, events, graceMs))
    decreases |events|
  {
    if events != [] {
      DecisionKeepsPlaced(v, events[0], graceMs);
      hide Placed, Decided;
      RunKeepsPlaced(Decided(v, events[0], graceMs), events[1..], graceMs);
    }
  }

  lemma {:induction false} RunEndsWith(v: View, events: seq<StreamEvent>, last: StreamEvent, graceMs: int)
    requires v.sessions != []
    ensures Run(v, events + [last], graceMs) == Decided(Run(v, events, graceMs), last, graceMs)
    decreases |events|
  {
    hide Decided;
    if events == [] {
      assert events + [last] == [last] && [last][1..] == [];
    } else {
      assert (events + [last])[0] == events[0] && (events + [last])[1..] == events[1..] + [last];
      RunEndsWith(Decided(v, events[0], graceMs), events[1..], last, graceMs);
    }
  }

  /** In every run, at whatever times, its last event leaves the open session wedged exactly on that condition. */
  lemma RunsWedgeExactly(begun: int, events: seq<StreamEvent>, last: StreamEvent, graceMs: int)
    requires graceMs >= 0
    ensures Wedged(Run(FirstView(begun), events + [last], graceMs)) <==>
      Wedges(Run(FirstView(begun), events, graceMs), last, graceMs)
  {
    RunKeepsPlaced(FirstView(begun), events, graceMs);
    RunEndsWith(FirstView(begun), events, last, graceMs);
    DecisionWedges(Run(FirstView(begun), events, graceMs), last, graceMs);
  }

  /**
   * From a sound timeline an offline wedges if and only if it is stamped before
   * the open session began and nothing of that session had ended.
   */
  lemma OfflineWedgesExactly(v: View, at: int, graceMs: int)
    requires Sound(v.sessions, v.segments) && Live(v.segments) && graceMs >= 0
    ensures Wedged(Decided(v, Offline(at), graceMs)) <==>
      at < v.sessions[|v.sessions| - 1].startedAt && LastEnd(v.segments, |v.sessions| - 1).None?
  {
    var open := |v.sessions| - 1;
    DecisionWedges(v, Offline(at), graceMs);
    LastEndBound(v.segments, open);
    hide Chained, InOrder, Decided, LastEnd;
    assert LastEnd(v.segments, open).Some? ==> v.sessions[open].startedAt <= LastEnd(v.segments, open).value;
  }

  /** An engine started mid-broadcast, an online and an offline both stamped before it, reach one. */
  lemma EarlyOfflineWedges()
    ensures Wedged(Decided(Decided(FirstView(10), Online(5), 100), Offline(7), 100))
  {
    var live := Decided(FirstView(10), Online(5), 100);
    assert live.segments == [Segment(0, 5, None)] && live.sessions == [Session(10, None)];
    hide GoingLive;
    var down := Decided(live, Offline(7), 100);
    assert down.segments == [Segment(0, 5, Some(7))] && down.segments[..0] == [];
    assert LastEnd(down.segments, 0) == Some(7);
    hide LastEnd;
  }

  // ----- checks move no boundary --------------------------------------------------------------------------

  function Spans(segments: seq<Segment>): (spans: seq<(int, Option<int>)>)
    ensures |spans| == |segments|
    ensures forall i :: 0 <= i < |segments| ==> spans[i] == (segments[i].start, segments[i].end)
  {
    if segments == [] then [] else Spans(segments[..|segments| - 1]) + [(segments[|segments| - 1].start, segments[|segments| - 1].end)]
  }

  function WithoutChecks(events: seq<StreamEvent>): seq<StreamEvent> {
    if events == [] then []
    else (if events[0].Check? then [] else [events[0]]) + WithoutChecks(events[1..])
  }

  /** A decision's segments, but for which session they are in. */
  lemma SpansAfter(v: View, event: StreamEvent, graceMs: int)
    requires Sound(v.sessions, v.segments) && graceMs >= 0
    ensures var segments, segments' := v.segments, Decided(v, event, graceMs).segments;
      match event
      case Online(at) => (if Live(segments) then segments' == segments
                          else |segments'| == |segments| + 1 && segments'[..|segments|] == segments
                               && segments'[|segments|].start == at && segments'[|segments|].end.None?)
      case Offline(at) => segments' == CloseAt(segments, at)
      case Check(at) => segments' == segments
  {
    if event.Online? && DecideOnStreamOnline(StateOf(v.sessions, v.segments), event.at, graceMs).Split? {
      SplitIsInTime(v, event.at, graceMs);
    }
    hide Sound, LastEnd;
  }

  lemma SameSpans(v: seq<Segment>, w: seq<Segment>)
    ensures Spans(v) == Spans(w)
        <==> |v| == |w| && forall i :: 0 <= i < |v| ==> v[i].start == w[i].start && v[i].end == w[i].end
  {
    var a, b := Spans(v), Spans(w);
    hide Spans;
    if a == b {
      forall i | 0 <= i < |v| ensures v[i].start == w[i].start && v[i].end == w[i].end {
        assert a[i] == b[i];
      }
    } else if |v| == |w| {
      assert exists i :: 0 <= i < |a| && a[i] != b[i];
    }
  }

  lemma SpansDecided(v: View, w: View, event: StreamEvent, graceMs: int)
    requires Sound(v.sessions, v.segments) && Sound(w.sessions, w.segments) && graceMs >= 0
    requires Spans(v.segments) == Spans(w.segments)
    ensures event.Check? ==> Decided(v, event, graceMs).segments == v.segments
    ensures Spans(Decided(v, event, graceMs).segments) == Spans(Decided(w, event, graceMs).segments)
  {
    assert v.sessions != [] && w.sessions != [];
    hide Spans, Decided, Sound;
    SpansAfter(v, event, graceMs);
    SpansAfter(w, event, graceMs);
    SameSpans(v.segments, w.segments);
    SameSpans(Decided(v, event, graceMs).segments, Decided(w, event, graceMs).segments);
  }

  lemma {:induction false} RunsHaveTheSameSpans(v: View, w: View, events: seq<StreamEvent>, now: int, begun: int, graceMs: int)
    requires StoreTimely(v, now, begun, graceMs) && StoreTimely(w, now, begun, graceMs) && graceMs >= 0
    requires InTime(events, now, begun) && Spans(v.segments) == Spans(w.segments)
    ensures v.sessions != [] && w.sessions != []
    ensures Spans(Run(v, events, graceMs).segments) == Spans(Run(w, WithoutChecks(events), graceMs).segments)
    decreases |events|
  {
    assert v.sessions != [] && w.sessions != [];
    if events != [] {
      var e, rest := events[0], events[1..];
      assert InTime(rest, e.at, begun);
      SpansDecided(v, w, e, graceMs);
      DecisionKeepsStore(v, e, now, begun, graceMs);
      hide Decided, StoreTimely, InTime, Spans;
      if e.Check? {
        assert WithoutChecks(events) == WithoutChecks(rest);
        LaterIsTimely(w, now, e.at, begun, graceMs);
        RunsHaveTheSameSpans(Decided(v, e, graceMs), w, rest, e.at, begun, graceMs);
      } else {
        assert WithoutChecks(events)[0] == e && WithoutChecks(events)[1..] == WithoutChecks(rest);
        DecisionKeepsStore(w, e, now, begun, graceMs);
        RunsHaveTheSameSpans(Decided(v, e, graceMs), Decided(w, e, graceMs), rest, e.at, begun, graceMs);
      }
    }
  }

  lemma LaterIsTimely(v: View, now: int, at: int, begun: int, graceMs: int)
    requires StoreTimely(v, now, begun, graceMs) && now <= at
    ensures StoreTimely(v, at, begun, graceMs)
  {
    SameStoreSettles(v, v, now, at, begun, graceMs);
  }

  lemma {:induction false} WithoutChecksInTime(events: seq<StreamEvent>, since: int, begun: int)
    requires InTime(events, since, begun)
    ensures InTime(WithoutChecks(events), since, begun)
  {
    if events != [] {
      WithoutChecksInTime(events[1..], events[0].at, begun);
      var rest := WithoutChecks(events[1..]);
      assert InTime(rest, since, begun);
    }
  }

  /** However often and however late checks run, the same segments come out, cut into sessions at the same places. */
  lemma ChecksMoveNoBoundary(begun: int, events: seq<StreamEvent>, since: int, graceMs: int)
    requires InTime(events, since, begun) && graceMs >= 0
    ensures var checked, unchecked := Run(FirstView(begun), events, graceMs).segments,
                                      Run(FirstView(begun), WithoutChecks(events), graceMs).segments;
      && Spans(checked) == Spans(unchecked)
      && forall i :: 0 <= i < |checked| - 1 ==>
           (checked[i].session == checked[i + 1].session <==> unchecked[i].session == unchecked[i + 1].session)
  {
    hide Run;
    FirstViewIsTimely(begun, since, graceMs);
    FirstStoreIsTimely(FirstView(begun), since, begun, graceMs);
    RunsHaveTheSameSpans(FirstView(begun), FirstView(begun), events, since, begun, graceMs);
    WithoutChecksInTime(events, since, begun);
    RunKeepsTimely(FirstView(begun), events, since, begun, graceMs);
    RunKeepsTimely(FirstView(begun), WithoutChecks(events), since, begun, graceMs);
    var checked, unchecked := Run(FirstView(begun), events, graceMs).segments,
                              Run(FirstView(begun), WithoutChecks(events), graceMs).segments;
    assert forall i :: 0 <= i < |checked| ==> Spans(checked)[i] == Spans(unchecked)[i];
  }
}
