/**
 * What a stale clear leads to. In every run whose first stale clear it is, the
 * steps that can follow it without the row moving send a spent refresh token
 * exactly when the row reads as a public token.
 */
module TwitchStale {
  import opened Options
  import opened TwitchLink
  import opened TwitchSteps
  import opened TwitchTokens

  // ----- what else every run without a stale clear keeps ----------------------------------------------------

  /** A refresh token Twitch refused is not one it accepted, and is not sent again. */
  predicate RefusedUnspent(s: State) {
    && (s.refused.Some? ==> s.refused.value !in s.accepted)
    && (s.refresh.Sent? ==> s.refused != Some(s.refresh.current.refreshToken))
  }

  predicate Waits(refresh: Refresh) {
    refresh.Retrying? || refresh.Saving? || refresh.Marking?
  }

  /** A shared refresh that waits on a job has one queued. */
  ghost predicate WaitsOnAJob(s: State) {
    Waits(s.refresh) ==> exists i :: 0 <= i < |s.queue| && OwnedByRefresh(s.queue[i])
  }

  lemma StepKeepsRefusedUnspent(s: State, a: Action)
    requires Inv(s) && RefusedUnspent(s) && Enabled(s, a) && Trusted(s, a)
    ensures RefusedUnspent(Step(s, a))
  {
    hide Covered, QueueInv, WriteInv, StillFresh;
    match a
    case TwitchAnswers(_) =>
    case TwitchRefuses =>
    case WriteSucceeds(now) => WriteSucceedsAsks(s, now);
    case JobTurns(now) => JobTurnsAsks(s, now);
    case _ =>
  }

  /** Only after a saved retry does a write's success send anything, and then nothing refused. */
  lemma WriteSucceedsAsks(s: State, now: int)
    requires Enabled(s, WriteSucceeds(now))
    ensures var s' := WriteSucceedsStep(s, now);
      && s'.refused == s.refused && s'.accepted == s.accepted
      && (s'.refresh.Sent? ==> s'.refresh == s.refresh || s'.refused != Some(s'.refresh.current.refreshToken))
  {
    hide StillFresh, SameScopes;
  }

  lemma JobTurnsAsks(s: State, now: int)
    requires Enabled(s, JobTurns(now))
    ensures var s' := JobTurnsStep(s, now);
      s'.refused == s.refused && s'.accepted == s.accepted && (s'.refresh.Sent? ==> s'.refresh == s.refresh)
  {
    hide HoldsRefreshToken, Describable;
  }

  /** What a step does to the queue and to who waits on it. */
  predicate MovesOn(s: State, s': State) {
    || !Waits(s'.refresh)
    || (s'.queue != [] && OwnedByRefresh(s'.queue[|s'.queue| - 1]))
    || (s'.refresh == s.refresh && s.queue <= s'.queue)
    || (s'.refresh == s.refresh && s.queue != [] && !OwnedByRefresh(s.queue[0]) && s'.queue == s.queue[1..])
  }

  lemma MovingOnKeepsWaiting(s: State, s': State)
    requires WaitsOnAJob(s) && MovesOn(s, s')
    ensures WaitsOnAJob(s')
  {
    if Waits(s'.refresh) && s'.refresh == s.refresh {
      var i :| 0 <= i < |s.queue| && OwnedByRefresh(s.queue[i]);
      if s.queue <= s'.queue {
        assert s'.queue[i] == s.queue[i];
      } else if s'.queue == s.queue[1..] && !OwnedByRefresh(s.queue[0]) {
        assert s'.queue[i - 1] == s.queue[i];
      }
    }
  }

  lemma QueueStepMovesOn(s: State, a: Action)
    requires Enabled(s, a) && (a.JobTurns? || a.WriteSucceeds? || a.JobReadFails? || a.WriteFails?)
    ensures MovesOn(s, Step(s, a))
  {
    hide HoldsRefreshToken, Describable, StillFresh, SameScopes;
    if a.JobTurns? {
      JobTurnsMovesOn(s, a.now);
    } else if a.WriteSucceeds? {
      WriteSucceedsMovesOn(s, a.now);
    }
    hide JobTurnsStep, WriteSucceedsStep;
  }

  lemma JobTurnsMovesOn(s: State, now: int)
    requires Enabled(s, JobTurns(now))
    ensures MovesOn(s, JobTurnsStep(s, now))
  {
    hide HoldsRefreshToken, Describable;
  }

  lemma WriteSucceedsMovesOn(s: State, now: int)
    requires Enabled(s, WriteSucceeds(now))
    ensures MovesOn(s, WriteSucceedsStep(s, now))
  {
    hide StillFresh, SameScopes;
  }

  lemma OtherStepMovesOn(s: State, a: Action)
    requires Enabled(s, a) && !(a.JobTurns? || a.WriteSucceeds? || a.JobReadFails? || a.WriteFails?)
    ensures MovesOn(s, Step(s, a))
  {
    hide StillFresh, AsPublicToken;
  }

  lemma StepKeepsWaiting(s: State, a: Action)
    requires WaitsOnAJob(s) && Enabled(s, a)
    ensures WaitsOnAJob(Step(s, a))
  {
    if a.JobTurns? || a.WriteSucceeds? || a.JobReadFails? || a.WriteFails? {
      QueueStepMovesOn(s, a);
    } else {
      OtherStepMovesOn(s, a);
    }
    hide Step, MovesOn;
    MovingOnKeepsWaiting(s, Step(s, a));
  }

  lemma {:induction false} RunsKeepWaiting(states: seq<State>, actions: seq<Action>, n: nat)
    requires IsRun(states, actions) && n <= |actions|
    requires forall i :: 0 <= i < n ==> !StaleClear(states[i], actions[i])
    ensures Inv(states[n]) && RefusedUnspent(states[n]) && WaitsOnAJob(states[n])
  {
    NoTokenSentTwice(states, actions, n);
    if n > 0 {
      RunsKeepWaiting(states, actions, n - 1);
      hide Inv, RefusedUnspent, WaitsOnAJob, Step, Enabled, StaleClear;
      StepKeepsRefusedUnspent(states[n - 1], actions[n - 1]);
      StepKeepsWaiting(states[n - 1], actions[n - 1]);
    }
  }

  // ----- what can follow ------------------------------------------------------------------------------------

  /**
   * One step that makes no stale clear; when the row is to stand `still`, none
   * that moves it either, and any read is answered as it stands.
   */
  predicate Follows(s: State, a: Action, still: bool) {
    && Enabled(s, a) && Trusted(s, a) && !StaleClear(s, a)
    && (still ==> !a.WriteLands? && ReadsInOrder(s, a))
  }

  predicate CanFollow(s: State, more: seq<Action>, still: bool)
    decreases |more|
  {
    more == [] || (Follows(s, more[0], still) && CanFollow(Step(s, more[0]), more[1..], still))
  }

  function After(s: State, more: seq<Action>, still: bool): State
    requires CanFollow(s, more, still)
    decreases |more|
  {
    if more == [] then s else After(Step(s, more[0]), more[1..], still)
  }

  lemma {:induction false} AfterBoth(s: State, first: seq<Action>, second: seq<Action>, still: bool)
    requires CanFollow(s, first, still) && CanFollow(After(s, first, still), second, still)
    ensures CanFollow(s, first + second, still)
    ensures After(s, first + second, still) == After(After(s, first, still), second, still)
    decreases |first|
  {
    if first == [] {
      assert first + second == second;
    } else {
      assert (first + second)[1..] == first[1..] + second && (first + second)[0] == first[0];
      hide Follows, Step;
      AfterBoth(Step(s, first[0]), first[1..], second, still);
    }
  }

  lemma AfterOne(s: State, a: Action, still: bool)
    requires Follows(s, a, still)
    ensures CanFollow(s, [a], still) && After(s, [a], still) == Step(s, a)
  {
    assert [a][1..] == [];
    assert CanFollow(Step(s, a), [], still);
  }

  /** A row with a spent refresh token, nothing queued or in flight to move it. */
  ghost predicate Stuck(s: State, spent: string) {
    && HoldsRefreshToken(s.row, spent) && AsPublicToken(s.row.value).Usable? && spent in s.accepted
    && s.refused != Some(spent) && s.write.Unwritten? && WaitsOnAJob(s)
  }

  predicate NoSaveOf(s: State, spent: string) {
    forall i :: 0 <= i < |s.queue| && s.queue[i].Save? ==> s.queue[i].refreshed.spent != spent
  }

  /** And nothing kept to replace it, nor a save of that on its way. */
  ghost predicate Exposed(s: State, spent: string) {
    Stuck(s, spent) && NoSaveOf(s, spent) && (s.unsaved.Some? ==> s.unsaved.value.spent != spent)
  }

  lemma FailingKeepsStuck(s: State, spent: string)
    requires Stuck(s, spent) && s.queue != []
    ensures Stuck(JobFails(s), spent) && JobFails(s).queue == s.queue[1..]
  {
    var s' := JobFails(s);
    assert MovesOn(s, s');
    MovingOnKeepsWaiting(s, s');
    hide WaitsOnAJob, AsPublicToken, MovesOn;
  }

  lemma FailingKeepsExposed(s: State, spent: string)
    requires Exposed(s, spent) && s.queue != []
    ensures Exposed(JobFails(s), spent)
  {
    FailingKeepsStuck(s, spent);
    hide Stuck;
    var s' := JobFails(s);
    assert forall i :: 0 <= i < |s'.queue| ==> s'.queue[i] == s.queue[i + 1];
  }

  /** The first job fails, before anything is written. */
  lemma FirstJobFails(s: State) returns (more: seq<Action>)
    requires s.queue != [] && s.write.Unwritten?
    ensures CanFollow(s, more, true) && After(s, more, true) == JobFails(s)
  {
    if s.queue[0].Relink? || s.queue[0].Unlink? {
      var writing := Step(s, JobTurns(0));
      assert JobFails(writing) == JobFails(s) && Follows(s, JobTurns(0), true) && Follows(writing, WriteFails, true);
      assert Step(writing, WriteFails) == JobFails(s);
      hide JobFails, Step, Follows;
      AfterOne(s, JobTurns(0), true);
      AfterOne(writing, WriteFails, true);
      more := [JobTurns(0)] + [WriteFails];
      AfterBoth(s, [JobTurns(0)], [WriteFails], true);
    } else {
      more := [JobReadFails];
      AfterOne(s, JobReadFails, true);
    }
  }

  lemma {:induction false} QueueDrains(s: State, spent: string) returns (more: seq<Action>)
    requires Exposed(s, spent)
    ensures CanFollow(s, more, true) && Exposed(After(s, more, true), spent) && After(s, more, true).queue == []
    decreases |s.queue|
  {
    if s.queue == [] {
      more := [];
    } else {
      var first := FirstJobFails(s);
      FailingKeepsExposed(s, spent);
      FailingKeepsStuck(s, spent);
      hide Exposed, CanFollow, After, JobFails;
      var rest := QueueDrains(JobFails(s), spent);
      more := first + rest;
      AfterBoth(s, first, rest, true);
    }
  }

  /** With the queue empty the refresh can end, whatever phase it is in. */
  lemma RefreshEnds(s: State, spent: string) returns (more: seq<Action>)
    requires Exposed(s, spent) && s.queue == []
    ensures CanFollow(s, more, true) && Exposed(After(s, more, true), spent) && After(s, more, true).refresh.Idle?
  {
    assert !Waits(s.refresh);
    hide AsPublicToken, HoldsRefreshToken;
    match s.refresh
    case Idle => more := [];
    case Serving => more := [Served]; AfterOne(s, Served, true);
    case Reading(_) => more := [RefreshReadFails]; AfterOne(s, RefreshReadFails, true);
    case Read(_, _) => more := [RefreshReadFails]; AfterOne(s, RefreshReadFails, true);
    case Sent(_) => more := [TwitchUnreachable]; AfterOne(s, TwitchUnreachable, true);
  }

  /** A forced call then reads the row, starts a refresh and sends the spent token. */
  lemma ForcedCallSends(s: State, spent: string) returns (more: seq<Action>)
    requires Exposed(s, spent) && s.refresh.Idle?
    ensures CanFollow(s, more, true) && !Safe(After(s, more, true))
  {
    var token := AsPublicToken(s.row.value).token;
    var reading := Step(s, CallerRead(true, s.row, 0));
    assert token.refreshToken == spent && reading == s.(refresh := Reading(token));
    var read := Step(reading, RefreshReads);
    assert read == s.(refresh := Read(token, s.row));
    var sent := Step(read, RefreshResumes);
    assert sent == s.(refresh := Sent(token)) && !Safe(sent);
    hide Step, Exposed, AsPublicToken, Safe;
    AfterOne(s, CallerRead(true, s.row, 0), true);
    AfterOne(reading, RefreshReads, true);
    AfterOne(read, RefreshResumes, true);
    AfterBoth(reading, [RefreshReads], [RefreshResumes], true);
    AfterBoth(s, [CallerRead(true, s.row, 0)], [RefreshReads] + [RefreshResumes], true);
    more := [CallerRead(true, s.row, 0)] + ([RefreshReads] + [RefreshResumes]);
  }

  lemma ExposedResends(s: State, spent: string) returns (more: seq<Action>)
    requires Exposed(s, spent)
    ensures CanFollow(s, more, true) && !Safe(After(s, more, true))
  {
    hide Exposed, CanFollow, After, Safe;
    var drain := QueueDrains(s, spent);
    var end := RefreshEnds(After(s, drain, true), spent);
    AfterBoth(s, drain, end, true);
    var send := ForcedCallSends(After(s, drain + end, true), spent);
    AfterBoth(s, drain + end, send, true);
    more := drain + end + send;
  }

  lemma StaleClearExposes(s: State, now: int)
    requires Inv(s) && RefusedUnspent(s) && WaitsOnAJob(s) && StaleClear(s, JobTurns(now))
    requires AsPublicToken(s.row.value).Usable?
    ensures Exposed(JobTurnsStep(s, now), s.row.value.refreshToken.value)
  {
    var s', spent := JobTurnsStep(s, now), s.row.value.refreshToken.value;
    StepKeepsWaiting(s, JobTurns(now));
    forall i | 0 <= i < |s'.queue| && s'.queue[i].Save? ensures s'.queue[i].refreshed.spent != spent {
      assert s'.queue[i] == s.queue[i + 1] && OwnerWaits(s, s.queue[i + 1]);
    }
    hide AsPublicToken, WaitsOnAJob, Covered, WriteInv;
  }

  // ----- exactly when ---------------------------------------------------------------------------------------

  /** A row that is no public token is sent to nobody while it stays. */
  predicate Unsendable(s: State) {
    && (s.row.Some? ==> !AsPublicToken(s.row.value).Usable?) && !s.refresh.Sent? && (s.write.Writing? ==> !s.write.landed)
  }

  lemma FollowingKeepsUnsendable(s: State, a: Action)
    requires Unsendable(s) && Follows(s, a, true)
    ensures Unsendable(Step(s, a))
  {
    hide AsPublicToken, HoldsRefreshToken, StillFresh, Describable, SameScopes;
  }

  lemma {:induction false} UnsendableStaysSafe(s: State, more: seq<Action>)
    requires Unsendable(s) && CanFollow(s, more, true)
    ensures Safe(After(s, more, true))
    decreases |more|
  {
    if more != [] {
      FollowingKeepsUnsendable(s, more[0]);
      hide Unsendable, Step, Follows;
      UnsendableStaysSafe(Step(s, more[0]), more[1..]);
    }
  }

  lemma StaleClearLeavesUnsendable(s: State, now: int)
    requires Inv(s) && StaleClear(s, JobTurns(now)) && !AsPublicToken(s.row.value).Usable?
    ensures Unsendable(JobTurnsStep(s, now))
  {
    hide AsPublicToken, WriteInv;
  }

  /** Some steps that can follow, with no stale clear, send a refresh token Twitch has accepted. */
  ghost predicate CanResend(s: State, still: bool) {
    exists more :: CanFollow(s, more, still) && !Safe(After(s, more, still))
  }

  lemma UnsendableCannotResend(s: State)
    requires Unsendable(s)
    ensures !CanResend(s, true)
  {
    forall more | CanFollow(s, more, true) ensures Safe(After(s, more, true)) {
      UnsendableStaysSafe(s, more);
    }
  }

  /**
   * After the first stale clear of a run, in whatever phase the shared refresh
   * is, steps that leave the row alone and make no other can go on to send a
   * refresh token Twitch has accepted if and only if the row reads as a public
   * token.
   */
  lemma StaleClearResends(states: seq<State>, actions: seq<Action>, n: nat)
    requires IsRun(states, actions) && n < |actions| && StaleClear(states[n], actions[n])
    requires forall i :: 0 <= i < n ==> !StaleClear(states[i], actions[i])
    ensures states[n + 1].row.Some?
    ensures CanResend(states[n + 1], true) <==> AsPublicToken(states[n + 1].row.value).Usable?
  {
    RunsKeepWaiting(states, actions, n);
    var s, now := states[n], actions[n].now;
    assert states[n + 1] == JobTurnsStep(s, now) && states[n + 1].row == s.row && s.row.Some?;
    hide IsRun, Inv, RefusedUnspent, WaitsOnAJob, JobTurnsStep, CanFollow, After, Safe, Exposed, Unsendable, StaleClear;
    if AsPublicToken(s.row.value).Usable? {
      StaleClearExposes(s, now);
      var more := ExposedResends(states[n + 1], s.row.value.refreshToken.value);
    } else {
      StaleClearLeavesUnsendable(s, now);
      UnsendableCannotResend(states[n + 1]);
    }
  }
}
