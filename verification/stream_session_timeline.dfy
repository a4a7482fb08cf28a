/**
 * When a stream session ends (`api/src/stream-session-policy.ts`), and what
 * the stored timeline should look like: one session for each maximal run of
 * live segments whose gaps are within the grace window.
 */
module StreamSessionTimeline {
  import opened Options

  const DEFAULT_SESSION_GRACE_MS := 600_000

  datatype SessionAction = Extend | Split

  datatype OpenSessionState = OpenSessionState(startedAt: int, lastSegmentEndedAt: Option<int>, isSegmentOpen: bool)

  function DecideOnStreamOnline(state: OpenSessionState, now: int, graceMs: int): SessionAction {
    if state.isSegmentOpen then Extend
    else if state.lastSegmentEndedAt.None? then if now > state.startedAt then Split else Extend
    else
      var offlineFor := now - state.lastSegmentEndedAt.value;
      if offlineFor < 0 then Extend else if offlineFor <= graceMs then Extend else Split
  }

  predicate IsBroadcastOver(state: OpenSessionState, now: int, graceMs: int) {
    if state.isSegmentOpen || state.lastSegmentEndedAt.None? then false
    else now - state.lastSegmentEndedAt.value > graceMs
  }

  // ----- the stored timeline ------------------------------------------------------------------------------

  /** A session, known by its place in the order sessions were opened; open while `endedAt` is none. */
  datatype Session = Session(startedAt: int, endedAt: Option<int>)

  /** One live span within a session; the stream is live while `end` is none. */
  datatype Segment = Segment(session: nat, start: int, end: Option<int>)

  predicate Live(segments: seq<Segment>) {
    segments != [] && segments[|segments| - 1].end.None?
  }

  /** The latest end among the session's segments. */
  function LastEnd(segments: seq<Segment>, session: nat): Option<int> {
    if segments == [] then None
    else
      var last, before := segments[|segments| - 1], LastEnd(segments[..|segments| - 1], session);
      if last.session == session && last.end.Some? && (before.None? || before.value < last.end.value) then last.end
      else before
  }

  /** The segment at `i` closes its session's broadcast: none of a later place is in the same session. */
  predicate ClosesBroadcast(segments: seq<Segment>, i: int) {
    0 <= i < |segments| && (i + 1 == |segments| || segments[i + 1].session != segments[i].session)
  }

  /** Sessions follow one another without a gap, and only the last is open. */
  ghost predicate Chained(sessions: seq<Session>) {
    && |sessions| >= 1 && sessions[|sessions| - 1].endedAt.None?
    && forall i :: 0 <= i < |sessions| - 1 ==>
         sessions[i].endedAt == Some(sessions[i + 1].startedAt) && sessions[i].startedAt <= sessions[i + 1].startedAt
  }

  /** Segments lie in their sessions in order, each closed after the one before; only the last may be open. */
  ghost predicate InOrder(sessions: seq<Session>, segments: seq<Segment>) {
    && (forall i :: 0 <= i < |segments| ==> segments[i].session < |sessions|)
    && (forall i, j :: 0 <= i < j < |segments| ==> segments[i].session <= segments[j].session)
    && (forall i :: 0 <= i < |segments| - 1 ==> segments[i].end.Some?)
    && (forall i, j :: 0 <= i < j < |segments| && segments[i].end.Some? && segments[j].end.Some? ==>
          segments[i].end.value <= segments[j].end.value)
    && (Live(segments) ==> segments[|segments| - 1].session == |sessions| - 1)
  }

  /** A segment ends within its session, and a replaced session ends where its last segment did. */
  ghost predicate EndsMatch(sessions: seq<Session>, segments: seq<Segment>) {
    && (forall i :: 0 <= i < |segments| && segments[i].end.Some? ==>
          segments[i].session < |sessions| && sessions[segments[i].session].startedAt <= segments[i].end.value)
    && (forall i :: ClosesBroadcast(segments, i) && segments[i].session < |sessions| - 1 ==>
          sessions[segments[i].session].endedAt == segments[i].end)
  }

  ghost predicate Sound(sessions: seq<Session>, segments: seq<Segment>) {
    Chained(sessions) && InOrder(sessions, segments) && EndsMatch(sessions, segments)
  }

  /** Neighbouring segments share a session exactly when the gap between them is within the grace window. */
  ghost predicate Grouped(segments: seq<Segment>, graceMs: int) {
    forall i :: 0 <= i < |segments| - 1 && segments[i].end.Some? ==>
      (segments[i].session == segments[i + 1].session <==> segments[i + 1].start - segments[i].end.value <= graceMs)
  }

  lemma {:induction false} LastEndIsLastClosed(sessions: seq<Session>, segments: seq<Segment>)
    requires Sound(sessions, segments) && !Live(segments)
    ensures LastEnd(segments, |sessions| - 1)
         == if segments != [] && segments[|segments| - 1].session == |sessions| - 1 then segments[|segments| - 1].end
            else None
  {
    assert |sessions| >= 1;
    var open := |sessions| - 1;
    hide Chained, EndsMatch;
    if segments != [] && segments[|segments| - 1].session == open {
      LastEndBound(segments[..|segments| - 1], open);
    } else {
      NoEndBefore(segments, open);
    }
  }

  lemma {:induction false} NoEndBefore(segments: seq<Segment>, session: nat)
    ensures (forall i :: 0 <= i < |segments| ==> segments[i].session != session) ==> LastEnd(segments, session).None?
  {
    if segments != [] {
      NoEndBefore(segments[..|segments| - 1], session);
    }
  }

  lemma {:induction false} LastEndBound(segments: seq<Segment>, session: nat)
    ensures LastEnd(segments, session).Some? ==>
              exists i :: 0 <= i < |segments| && segments[i].session == session
                          && segments[i].end == LastEnd(segments, session)
  {
    if segments != [] {
      LastEndBound(segments[..|segments| - 1], session);
    }
  }

  // ----- the reference: maximal runs ----------------------------------------------------------------------

  /** Puts `last` after everything in `runs`: in its last run, or in one of its own. */
  function Join(runs: seq<seq<Segment>>, last: Segment, together: bool): seq<seq<Segment>> {
    if runs != [] && together then runs[..|runs| - 1] + [runs[|runs| - 1] + [last]] else runs + [[last]]
  }

  /** Cuts the segments wherever the gap exceeds the grace window. */
  function Runs(segments: seq<Segment>, graceMs: int): seq<seq<Segment>>
    requires forall i :: 0 <= i < |segments| - 1 ==> segments[i].end.Some?
  {
    if segments == [] then []
    else
      var init, last := segments[..|segments| - 1], segments[|segments| - 1];
      Join(Runs(init, graceMs), last, init != [] && last.start - init[|init| - 1].end.value <= graceMs)
  }

  /** The segments of each session that has any, in order. */
  function BySession(segments: seq<Segment>): seq<seq<Segment>> {
    if segments == [] then []
    else
      var init, last := segments[..|segments| - 1], segments[|segments| - 1];
      Join(BySession(init), last, init != [] && last.session == init[|init| - 1].session)
  }

  /** The sessions with segments are exactly the maximal runs. */
  lemma {:induction false} BroadcastsAreMaximalRuns(segments: seq<Segment>, graceMs: int)
    requires forall i :: 0 <= i < |segments| - 1 ==> segments[i].end.Some?
    requires Grouped(segments, graceMs)
    ensures BySession(segments) == Runs(segments, graceMs)
  {
    if segments != [] {
      var init := segments[..|segments| - 1];
      assert Grouped(init, graceMs) by {
        assert forall i :: 0 <= i < |init| ==> init[i] == segments[i];
      }
      assert init != [] ==> segments[|init| - 1].end.Some?;
      BroadcastsAreMaximalRuns(init, graceMs);
      assert init != [] ==> Runs(init, graceMs) != [];
    }
  }

  /** No gap within the run exceeds the grace window. */
  ghost predicate Tight(run: seq<Segment>, graceMs: int) {
    run != [] && forall i :: 0 <= i < |run| - 1 ==> run[i].end.Some? && run[i + 1].start - run[i].end.value <= graceMs
  }

  /** The gap from one run to the next exceeds it. */
  predicate Apart(run: seq<Segment>, next: seq<Segment>, graceMs: int)
    requires run != [] && next != []
  {
    var before := run[|run| - 1];
    before.end.Some? && next[0].start - before.end.value > graceMs
  }

  ghost predicate Maximal(runs: seq<seq<Segment>>, graceMs: int) {
    && (forall r :: 0 <= r < |runs| ==> Tight(runs[r], graceMs))
    && (forall r :: 0 < r < |runs| ==> Apart(runs[r - 1], runs[r], graceMs))
  }

  /** The runs are the segments in order, each tight, and none could be longer: the next starts past the window. */
  lemma {:induction false} RunsAreMaximal(segments: seq<Segment>, graceMs: int)
    requires forall i :: 0 <= i < |segments| - 1 ==> segments[i].end.Some?
    ensures Flat(Runs(segments, graceMs)) == segments && Maximal(Runs(segments, graceMs), graceMs)
  {
    if segments == [] {
      assert Runs(segments, graceMs) == [];
    } else {
      hide Flat, Maximal, Runs, Join;
      var init, last := segments[..|segments| - 1], segments[|segments| - 1];
      RunsOf(segments, graceMs);
      RunsAreMaximal(init, graceMs);
      JoinKeeps(Runs(init, graceMs), init, last, graceMs);
      assert segments == init + [last];
    }
  }

  lemma RunsOf(segments: seq<Segment>, graceMs: int)
    requires segments != [] && forall i :: 0 <= i < |segments| - 1 ==> segments[i].end.Some?
    ensures var init, last := segments[..|segments| - 1], segments[|segments| - 1];
      && (init != [] ==> init[|init| - 1].end.Some?)
      && Runs(segments, graceMs)
         == Join(Runs(init, graceMs), last, init != [] && last.start - init[|init| - 1].end.value <= graceMs)
  {
  }

  lemma JoinKeeps(runs: seq<seq<Segment>>, init: seq<Segment>, last: Segment, graceMs: int)
    requires Flat(runs) == init && Maximal(runs, graceMs) && (init != [] ==> init[|init| - 1].end.Some?)
    ensures var runs' := Join(runs, last, init != [] && last.start - init[|init| - 1].end.value <= graceMs);
            Flat(runs') == init + [last] && Maximal(runs', graceMs)
  {
    FlatGrows(runs, [last]);
    if runs != [] {
      var front, final := runs[..|runs| - 1], runs[|runs| - 1];
      assert runs == front + [final] && Tight(final, graceMs);
      FlatGrows(front, final);
      FlatGrows(front, final + [last]);
      assert final[|final| - 1] == init[|init| - 1];
      hide Maximal, Tight, Flat;
      if last.start - init[|init| - 1].end.value <= graceMs {
        ExtendLast(front, final, last, graceMs);
      } else {
        AddRun(front, final, last, graceMs);
      }
    }
  }

  lemma AddRun(front: seq<seq<Segment>>, final: seq<Segment>, last: Segment, graceMs: int)
    requires Maximal(front + [final], graceMs) && final != []
    requires final[|final| - 1].end.Some? && last.start - final[|final| - 1].end.value > graceMs
    ensures Maximal(front + [final] + [[last]], graceMs)
  {
    var runs := front + [final] + [[last]];
    forall r | 0 <= r < |runs| ensures Tight(runs[r], graceMs) {
      assert r <= |front| ==> runs[r] == (front + [final])[r];
    }
    forall r | 0 < r < |runs| ensures Apart(runs[r - 1], runs[r], graceMs) {
      assert r <= |front| ==> runs[r] == (front + [final])[r] && Apart((front + [final])[r - 1], runs[r], graceMs);
    }
  }

  lemma ExtendLast(front: seq<seq<Segment>>, final: seq<Segment>, last: Segment, graceMs: int)
    requires Maximal(front + [final], graceMs) && final != []
    requires final[|final| - 1].end.Some? && last.start - final[|final| - 1].end.value <= graceMs
    ensures Maximal(front + [final + [last]], graceMs)
  {
    var runs, runs' := front + [final], front + [final + [last]];
    assert Tight(runs[|front|], graceMs);
    forall r | 0 <= r < |runs'| ensures Tight(runs'[r], graceMs) {
      assert r < |front| ==> runs'[r] == runs[r];
    }
    forall r | 0 < r < |runs'| ensures Apart(runs'[r - 1], runs'[r], graceMs) {
      assert Apart(runs[r - 1], runs[r], graceMs) && runs'[r - 1] == runs[r - 1];
    }
  }

  function Flat(runs: seq<seq<Segment>>): seq<Segment> {
    if runs == [] then [] else Flat(runs[..|runs| - 1]) + runs[|runs| - 1]
  }

  lemma FlatGrows(runs: seq<seq<Segment>>, run: seq<Segment>)
    ensures Flat(runs + [run]) == Flat(runs) + run
  {
    assert (runs + [run])[..|runs|] == runs;
  }
}
