/**
 * What a write that lands after it was reported as failed leads to. The source
 * never waits for such a write, and sets the row without a condition. Where no
 * other write is under way, a spent refresh token can then be sent again
 * exactly when what is kept cannot put its unspent successor back.
 */
module TwitchLate {
  import opened Options
  import opened TwitchLink
  import opened TwitchSteps
  import opened TwitchTokens
  import opened TwitchStale
  import TwitchHistory
  import TwitchFrames

  /** `value` lands outside the queue. */
  function Late(s: State, value: Option<Stored>): State {
    s.(row := value)
  }

  /** The row that lands holds a refresh token Twitch has taken. */
  predicate IsSpent(s: State, value: Option<Stored>) {
    value.Some? && value.value.refreshToken.Some? && value.value.refreshToken.value in s.accepted
  }

  /** Every retry queued of `spent` would write an unspent token. */
  predicate RetriesReplace(s: State, spent: string) {
    forall i :: 0 <= i < |s.queue| && s.queue[i].Retry? && s.queue[i].refreshed.spent == spent ==>
      s.queue[i].refreshed.token.refreshToken !in s.accepted
  }

  /** The shared refresh is going to spend another token, or was asked to refresh this one. */
  predicate Elsewhere(s: State, spent: string) {
    match s.refresh
    case Sent(_) => true
    case Reading(seen) => seen.refreshToken == spent
    case Read(seen, got) => WillSend(s, seen, got)
    case _ => false
  }

  /** What is kept puts the unspent successor of `spent` back before it is sent. */
  predicate CanReplace(s: State, spent: string) {
    && RetriesReplace(s, spent)
    && (if s.refresh.Saving? then s.refresh.refreshed.spent == spent
        else s.unsaved.Some? && s.unsaved.value.spent == spent && s.unsaved.value.token.refreshToken !in s.accepted
             && !Elsewhere(s, spent))
  }

  predicate Harmless(s: State, value: Option<Stored>) {
    IsSpent(s, value) ==> CanReplace(s, value.value.refreshToken.value)
  }

  // ----- a harmless landing ---------------------------------------------------------------------------------

  lemma HarmlessKeepsQueue(s: State, value: Option<Stored>)
    requires Inv(s) && Harmless(s, value)
    ensures QueueInv(Late(s, value))
  {
    var s' := Late(s, value);
    hide WriteInv, Covered;
    assert forall i :: 0 <= i < |s.queue| ==> OwnerWaits(s, s.queue[i]) && OwnerWaits(s', s.queue[i]);
  }

  lemma HarmlessKeepsInv(s: State, value: Option<Stored>)
    requires Inv(s) && s.write.Unwritten? && Harmless(s, value)
    ensures Inv(Late(s, value))
  {
    HarmlessKeepsQueue(s, value);
    hide QueueInv, AsPublicToken;
  }

  lemma {:induction false} InvStaysSafe(s: State, more: seq<Action>)
    requires Inv(s) && CanFollow(s, more, false)
    ensures Safe(After(s, more, false))
    decreases |more|
  {
    InvIsSafe(s);
    if more != [] {
      StepKeepsInv(s, more[0]);
      hide Inv, Step, StaleClear;
      InvStaysSafe(Step(s, more[0]), more[1..]);
    }
  }

  lemma InvCannotResend(s: State)
    requires Inv(s)
    ensures !CanResend(s, false)
  {
    forall more | CanFollow(s, more, false) ensures Safe(After(s, more, false)) {
      InvStaysSafe(s, more);
    }
  }

  // ----- a harmful one --------------------------------------------------------------------------------------

  /** Steps under which the row stands still are steps. */
  lemma {:induction false} StillOrNot(s: State, more: seq<Action>)
    requires CanFollow(s, more, true)
    ensures CanFollow(s, more, false) && After(s, more, false) == After(s, more, true)
    decreases |more|
  {
    if more != [] {
      hide Step, Enabled, Trusted, StaleClear, ReadsInOrder;
      StillOrNot(Step(s, more[0]), more[1..]);
    }
  }

  lemma ExposedCanResend(s: State, spent: string)
    requires Exposed(s, spent)
    ensures CanResend(s, false)
  {
    var more := ExposedResends(s, spent);
    StillOrNot(s, more);
  }

  lemma ResendsLater(s: State, more: seq<Action>)
    requires CanFollow(s, more, false) && CanResend(After(s, more, false), false)
    ensures CanResend(s, false)
  {
    hide CanFollow, After, Safe;
    var rest :| CanFollow(After(s, more, false), rest, false) && !Safe(After(After(s, more, false), rest, false));
    AfterBoth(s, more, rest, false);
  }

  lemma ResendsNext(s: State, a: Action)
    requires Follows(s, a, false) && CanResend(Step(s, a), false)
    ensures CanResend(s, false)
  {
    hide CanResend, Step, Follows;
    AfterOne(s, a, false);
    ResendsLater(s, [a]);
  }

  lemma ResendsAfterFailure(s: State)
    requires s.queue != [] && s.write.Unwritten? && CanResend(JobFails(s), false)
    ensures CanResend(s, false)
  {
    hide CanResend, JobFails;
    var more := FirstJobFails(s);
    StillOrNot(s, more);
    ResendsLater(s, more);
  }

  /** The save of another token's refresh fails, and takes the place of what was kept. */
  lemma {:induction false} OtherSaveFails(s: State, spent: string, k: nat)
    requires Stuck(s, spent) && NoSaveOf(s, spent) && k < |s.queue| && s.queue[k].Save?
    requires forall i :: 0 <= i < |s.queue| && i != k ==> !s.queue[i].Save?
    ensures CanResend(s, false)
    decreases |s.queue|
  {
    FailingKeepsStuck(s, spent);
    var s' := JobFails(s);
    assert forall i :: 0 <= i < |s'.queue| ==> s'.queue[i] == s.queue[i + 1];
    hide Stuck, CanResend;
    if k == 0 {
      assert Exposed(s', spent);
      ExposedCanResend(s', spent);
    } else {
      OtherSaveFails(s', spent, k - 1);
    }
    hide JobFails, NoSaveOf;
    ResendsAfterFailure(s);
  }

  lemma {:induction false} LongestOf(used: set<string>) returns (n: nat)
    ensures forall x :: x in used ==> |x| <= n
    decreases |used|
  {
    if used == {} {
      n := 0;
    } else {
      var x :| x in used;
      n := LongestOf(used - {x});
      n := if n < |x| then |x| else n;
      assert forall y :: y in used ==> y == x || y in used - {x};
    }
  }

  /** Twitch always has a new refresh token to give. */
  lemma NewToken(used: set<string>) returns (token: string)
    ensures token !in used && token != ""
  {
    var n := LongestOf(used);
    token := seq(n + 1, _ => 'x');
  }

  /** A token in flight to Twitch is answered, and its save fails. */
  lemma SentResends(s: State, spent: string)
    requires Stuck(s, spent) && s.refresh.Sent? && s.refresh.current.refreshToken != spent
    requires forall i :: 0 <= i < |s.queue| ==> !OwnedByRefresh(s.queue[i])
    ensures CanResend(s, false)
  {
    var token := NewToken(s.accepted + {s.refresh.current.refreshToken});
    var a := TwitchAnswers(Answer("a", token, None, 0, 0));
    var s' := Step(s, a);
    assert s'.queue == s.queue + [Save(s'.refresh.refreshed)] && OwnedByRefresh(s'.queue[|s.queue|]);
    assert Stuck(s', spent);
    assert Follows(s, a, false);
    hide Stuck, CanResend, Follows, Step;
    OtherSaveFails(s', spent, |s.queue|);
    ResendsNext(s, a);
  }

  lemma WillSendResends(s: State, spent: string)
    requires Stuck(s, spent) && s.refresh.Read? && WillSend(s, s.refresh.seen, s.refresh.got)
    requires s.refresh.seen.refreshToken != spent
    requires s.unsaved.Some? ==> s.unsaved.value.spent != s.refresh.seen.refreshToken
    requires forall i :: 0 <= i < |s.queue| ==> !OwnedByRefresh(s.queue[i])
    ensures CanResend(s, false)
  {
    var s' := Step(s, RefreshResumes);
    assert s' == s.(refresh := s'.refresh) && s'.refresh.Sent? && s'.refresh.current.refreshToken != spent;
    assert Stuck(s', spent) && Follows(s, RefreshResumes, false);
    hide Stuck, CanResend, Follows, Step, WillSend;
    SentResends(s', spent);
    ResendsNext(s, RefreshResumes);
  }

  // ----- a retry that goes through --------------------------------------------------------------------------

  /** The first job, a retry of the row's token, is stored. */
  lemma RetryGoesThrough(s: State) returns (s': State)
    requires s.queue != [] && s.queue[0].Retry? && s.write.Unwritten? && HoldsRefreshToken(s.row, s.queue[0].refreshed.spent)
    requires WaitsOnAJob(s)
    ensures CanResend(s', false) ==> CanResend(s, false)
    ensures s'.row == Some(PublicRow(s.queue[0].refreshed.token)) && s'.queue == s.queue[1..] && s'.write.Unwritten?
    ensures s'.unsaved.None? && s'.accepted == s.accepted && s'.refused == s.refused
    ensures WaitsOnAJob(s')
    ensures s.queue[0].asker.Caller? && !s.refresh.Idle? ==> s'.refresh == s.refresh
  {
    hide CanResend, WaitsOnAJob;
    var s1 := Step(s, JobTurns(0));
    assert s1 == s.(write := Writing(s.row, Some(PublicRow(s.queue[0].refreshed.token)), false));
    assert Follows(s, JobTurns(0), false) && Follows(s1, WriteLands, false);
    var s2 := WriteLandsStep(s1);
    assert Step(s1, WriteLands) == s2 && Follows(s2, WriteSucceeds(0), false);
    RetryStored(s2);
    hide Step, Follows, WriteLandsStep;
    s' := Step(s2, WriteSucceeds(0));
    KeepsWaitingOn(s, JobTurns(0));
    KeepsWaitingOn(s1, WriteLands);
    KeepsWaitingOn(s2, WriteSucceeds(0));
  }

  lemma KeepsWaitingOn(s: State, a: Action)
    requires Follows(s, a, false) && WaitsOnAJob(s)
    ensures WaitsOnAJob(Step(s, a)) && (CanResend(Step(s, a), false) ==> CanResend(s, false))
  {
    StepKeepsWaiting(s, a);
    hide CanResend, Follows, Step, WaitsOnAJob;
    if CanResend(Step(s, a), false) {
      ResendsNext(s, a);
    }
  }

  lemma RetryStored(s: State)
    requires Enabled(s, WriteSucceeds(0)) && s.queue[0].Retry?
    ensures var s' := Step(s, WriteSucceeds(0));
      && s'.row == s.row && s'.queue == s.queue[1..] && s'.write.Unwritten?
      && s'.unsaved.None? && s'.accepted == s.accepted && s'.refused == s.refused
      && (s.queue[0].asker.Caller? && !s.refresh.Idle? ==> s'.refresh == s.refresh)
  {
    hide SameScopes, StillFresh;
  }

  /** A queued retry puts a spent successor in the row, once the jobs before it have failed. */
  lemma {:induction false} SpentSuccessorResends(s: State, spent: string, k: nat)
    requires Stuck(s, spent) && (s.refused.Some? ==> s.refused.value !in s.accepted)
    requires k < |s.queue| && s.queue[k].Retry? && s.queue[k].refreshed.spent == spent
    requires s.queue[k].refreshed.token.refreshToken in s.accepted && Proper(s.queue[k].refreshed)
    requires forall i :: 0 <= i < |s.queue| && s.queue[i].Save? ==> s.queue[i].refreshed.spent == spent
    ensures CanResend(s, false)
    decreases k
  {
    hide CanResend;
    if k == 0 {
      var s' := RetryGoesThrough(s);
      var successor := s.queue[0].refreshed.token.refreshToken;
      assert forall i :: 0 <= i < |s'.queue| ==> s'.queue[i] == s.queue[i + 1];
      assert Exposed(s', successor);
      hide Exposed, Stuck;
      ExposedCanResend(s', successor);
    } else {
      FailingKeepsStuck(s, spent);
      var s' := JobFails(s);
      assert forall i :: 0 <= i < |s'.queue| ==> s'.queue[i] == s.queue[i + 1];
      assert s'.refused == s.refused && s'.accepted == s.accepted;
      hide Stuck;
      SpentSuccessorResends(s', spent, k - 1);
      hide JobFails;
      ResendsAfterFailure(s);
    }
  }

  /** A caller queues a retry of what is kept, whose successor is spent. */
  lemma SpentUnsavedResends(s: State, spent: string)
    requires Stuck(s, spent) && (s.refused.Some? ==> s.refused.value !in s.accepted)
    requires s.unsaved.Some? && s.unsaved.value.spent == spent
    requires s.unsaved.value.token.refreshToken in s.accepted && Proper(s.unsaved.value)
    requires forall i :: 0 <= i < |s.queue| && s.queue[i].Save? ==> s.queue[i].refreshed.spent == spent
    ensures CanResend(s, false)
  {
    var a := CallerRead(true, s.row, 0);
    var s' := Step(s, a);
    assert s' == s.(queue := s.queue + [Retry(Caller(true), s.unsaved.value)]) && Follows(s, a, false);
    StepKeepsWaiting(s, a);
    assert Stuck(s', spent);
    hide Stuck, CanResend, Step, Follows;
    SpentSuccessorResends(s', spent, |s.queue|);
    ResendsNext(s, a);
  }

  // ----- a refresh asked of the token that comes back -------------------------------------------------------

  lemma {:induction false} UnownedQueueDrains(s: State)
    requires s.write.Unwritten? && forall i :: 0 <= i < |s.queue| ==> !OwnedByRefresh(s.queue[i])
    ensures CanResend(s.(queue := []), false) ==> CanResend(s, false)
    decreases |s.queue|
  {
    hide CanResend;
    if s.queue == [] {
      assert s.(queue := []) == s;
    } else if CanResend(s.(queue := []), false) {
      var s' := JobFails(s);
      assert s' == s.(queue := s.queue[1..]) && s'.(queue := []) == s.(queue := []);
      UnownedQueueDrains(s');
      hide JobFails, OwnedByRefresh;
      ResendsAfterFailure(s);
    }
  }

  /** It has read the row when a caller's retry goes through, and sends what it read. */
  lemma ReadBeforeRetryResends(s: State, spent: string)
    requires Stuck(s, spent) && s.queue == [] && s.refresh.Read?
    requires s.refresh.seen.refreshToken == spent && s.refresh.got == s.row
    requires s.unsaved.Some? && s.unsaved.value.spent == spent
    ensures CanResend(s, false)
  {
    var a := CallerRead(true, s.row, 0);
    var asked := Step(s, a);
    assert asked == s.(queue := [Retry(Caller(true), s.unsaved.value)]) && Follows(s, a, false);
    hide CanResend;
    var stored := RetryGoesThrough(asked);
    assert stored.refresh == s.refresh && Follows(stored, RefreshResumes, false);
    var sent := Step(stored, RefreshResumes);
    assert sent.refresh == Sent(AsPublicToken(s.row.value).token) && !Safe(sent);
    hide Step, Follows, AsPublicToken;
    UnsafeNow(sent);
    ResendsNext(stored, RefreshResumes);
    ResendsNext(s, a);
  }

  lemma UnsafeNow(s: State)
    requires !Safe(s)
    ensures CanResend(s, false)
  {
    assert CanFollow(s, [], false) && After(s, [], false) == s;
  }

  lemma ReadingResends(s: State, spent: string)
    requires Stuck(s, spent) && s.refresh.Reading? && s.refresh.seen.refreshToken == spent
    requires s.unsaved.Some? && s.unsaved.value.spent == spent
    requires forall i :: 0 <= i < |s.queue| ==> !OwnedByRefresh(s.queue[i])
    ensures CanResend(s, false)
  {
    var drained := s.(queue := []);
    var read := Step(drained, RefreshReads);
    assert Stuck(read, spent) && read.refresh == Read(s.refresh.seen, s.row) && Follows(drained, RefreshReads, false);
    hide CanResend, Stuck, Follows, Step;
    ReadBeforeRetryResends(read, spent);
    ResendsNext(drained, RefreshReads);
    UnownedQueueDrains(s);
  }

  // ----- what runs keep of the tokens Twitch gave -----------------------------------------------------------

  /** Twitch answers with another refresh token, and the answer reads back from the row. */
  predicate Proper(r: Refreshed) {
    r.token.refreshToken != r.spent && AsPublicToken(PublicRow(r.token)).Usable?
  }

  ghost predicate AnswersProper(s: State) {
    && (forall r :: r in s.answers ==> Proper(r))
    && (s.refresh.Sent? ==> AsPublicToken(PublicRow(s.refresh.current)).Usable?)
  }

  lemma ReadTokenReadsBack(stored: Stored)
    requires AsPublicToken(stored).Usable?
    ensures AsPublicToken(PublicRow(AsPublicToken(stored).token)).Usable?
  {
  }

  lemma AnswerIsProper(s: State, answer: Answer)
    requires AnswersProper(s) && Enabled(s, TwitchAnswers(answer)) && Trusted(s, TwitchAnswers(answer))
    ensures AnswersProper(TwitchAnswersStep(s, answer))
  {
  }

  /** Whatever a step newly sends to Twitch, it read from a row or has just written from an answer. */
  lemma SendsWhatReadsBack(s: State, a: Action)
    requires AnswersProper(s) && TwitchHistory.Genuine(s) && Enabled(s, a) && !a.TwitchAnswers?
    ensures Step(s, a).refresh.Sent? ==> AsPublicToken(PublicRow(Step(s, a).refresh.current)).Usable?
    ensures Step(s, a).answers == s.answers
  {
    match a
    case RefreshResumes =>
      var got := s.refresh.got;
      if got.Some? && AsPublicToken(got.value).Usable? {
        ReadTokenReadsBack(got.value);
      }
      hide AsPublicToken;
    case JobTurns(now) => TwitchFrames.JobTurnsFrame(s, now); hide JobTurnsStep;
    case WriteSucceeds(now) =>
      assert !s.queue[0].MarkFailed? && !s.queue[0].ReadLink? && TwitchHistory.JobIsGenuine(s, s.queue[0]);
      TwitchFrames.WriteSucceedsFrame(s, now);
      hide WriteSucceedsStep;
    case WriteFails => TwitchFrames.JobFailsFrame(s); hide JobFails;
    case JobReadFails => TwitchFrames.JobFailsFrame(s); hide JobFails;
    case _ => hide AsPublicToken;
  }

  lemma StepKeepsAnswersProper(s: State, a: Action)
    requires AnswersProper(s) && TwitchHistory.Genuine(s) && Enabled(s, a) && Trusted(s, a)
    ensures AnswersProper(Step(s, a))
  {
    if a.TwitchAnswers? {
      AnswerIsProper(s, a.answer);
    } else {
      SendsWhatReadsBack(s, a);
      hide Step, TwitchHistory.Genuine;
    }
  }

  lemma {:induction false} RunsKeepAnswersProper(states: seq<State>, actions: seq<Action>, n: nat)
    requires IsRun(states, actions) && n <= |actions|
    ensures AnswersProper(states[n])
  {
    if n > 0 {
      hide AnswersProper, Step, Enabled, Trusted;
      RunsKeepAnswersProper(states, actions, n - 1);
      TwitchHistory.EveryRunRenewsOnlyTheLastLink(states, actions, n - 1);
      StepKeepsAnswersProper(states[n - 1], actions[n - 1]);
    }
  }

  // ----- exactly when ---------------------------------------------------------------------------------------

  /** A spent refresh token that lands is in a row that reads as a public token. */
  predicate Sendable(s: State, value: Option<Stored>) {
    IsSpent(s, value) ==> AsPublicToken(value.value).Usable?
  }

  ghost predicate Reached(s: State) {
    && Inv(s) && RefusedUnspent(s) && WaitsOnAJob(s) && TwitchHistory.Genuine(s) && AnswersProper(s)
  }

  /** What the shared refresh waits on tells which of the queued jobs are saves. */
  lemma QueuedSaves(s: State)
    requires QueueInv(s) && WaitsOnAJob(s)
    ensures forall i :: 0 <= i < |s.queue| && s.queue[i].Save? ==> s.refresh == Saving(s.queue[i].refreshed)
    ensures forall i, j :: 0 <= i < j < |s.queue| && s.queue[i].Save? ==> !s.queue[j].Save?
    ensures s.refresh.Saving? ==> exists i :: 0 <= i < |s.queue| && s.queue[i].Save?
  {
    hide TwitchTokens.Usable;
    forall i | 0 <= i < |s.queue| && s.queue[i].Save? ensures s.refresh == Saving(s.queue[i].refreshed) {
      assert OwnerWaits(s, s.queue[i]);
    }
    if s.refresh.Saving? {
      var i :| 0 <= i < |s.queue| && OwnedByRefresh(s.queue[i]);
      assert OwnerWaits(s, s.queue[i]);
    }
  }

  lemma LandingSticks(s: State, value: Option<Stored>)
    requires RefusedUnspent(s) && WaitsOnAJob(s) && s.write.Unwritten? && IsSpent(s, value) && Sendable(s, value)
    ensures Stuck(Late(s, value), value.value.refreshToken.value)
  {
    hide AsPublicToken;
  }

  /** What is queued or on its way brings the token out, whatever is kept for it. */
  lemma BusyResends(s: State, value: Option<Stored>)
    requires Reached(s) && s.write.Unwritten? && IsSpent(s, value) && Sendable(s, value)
    requires var spent := value.value.refreshToken.value;
      || (s.refresh.Saving? && s.refresh.refreshed.spent != spent) || s.refresh.Sent?
      || (s.refresh.Read? && WillSend(s, s.refresh.seen, s.refresh.got))
    ensures CanResend(Late(s, value), false)
  {
    var late, spent := Late(s, value), value.value.refreshToken.value;
    LandingSticks(s, value);
    QueuedSaves(s);
    hide CanResend, Stuck, WaitsOnAJob, AsPublicToken, TwitchHistory.Genuine, AnswersProper;
    if s.refresh.Saving? {
      var k :| 0 <= k < |s.queue| && s.queue[k].Save?;
      OtherSaveFails(late, spent, k);
    } else {
      NoneOwned(s);
      if s.refresh.Sent? {
        SentResends(late, spent);
      } else {
        WillSendResends(late, spent);
      }
    }
  }

  lemma RetryIsProper(s: State, k: nat)
    requires TwitchHistory.Genuine(s) && AnswersProper(s) && k < |s.queue| && s.queue[k].Retry?
    ensures Proper(s.queue[k].refreshed)
  {
    assert TwitchHistory.JobIsGenuine(s, s.queue[k]);
  }

  lemma HarmfulResends(s: State, value: Option<Stored>)
    requires Reached(s) && s.write.Unwritten? && Sendable(s, value) && !Harmless(s, value)
    ensures CanResend(Late(s, value), false)
  {
    var late, spent := Late(s, value), value.value.refreshToken.value;
    LandingSticks(s, value);
    QueuedSaves(s);
    hide CanResend, Stuck, WaitsOnAJob, AsPublicToken, WillSend;
    if (s.refresh.Saving? && s.refresh.refreshed.spent != spent) || s.refresh.Sent?
       || (s.refresh.Read? && WillSend(s, s.refresh.seen, s.refresh.got)) {
      BusyResends(s, value);
    } else if !RetriesReplace(s, spent) {
      var k :| 0 <= k < |s.queue| && s.queue[k].Retry? && s.queue[k].refreshed.spent == spent
               && s.queue[k].refreshed.token.refreshToken in s.accepted;
      RetryIsProper(s, k);
      hide Inv, TwitchHistory.Genuine, AnswersProper, Proper;
      SpentSuccessorResends(late, spent, k);
    } else if s.unsaved.None? || s.unsaved.value.spent != spent {
      hide Inv, TwitchHistory.Genuine, AnswersProper;
      assert Exposed(late, spent);
      ExposedCanResend(late, spent);
    } else if s.unsaved.value.token.refreshToken in s.accepted {
      assert Proper(s.unsaved.value);
      hide Inv, TwitchHistory.Genuine, AnswersProper, Proper;
      SpentUnsavedResends(late, spent);
    } else {
      NoneOwned(s);
      hide Inv, TwitchHistory.Genuine, AnswersProper;
      ReadingResends(late, spent);
    }
  }

  /**
   * From a state that runs reach, with no write under way: a row that lands
   * late keeps the invariant, and no steps without a stale clear send a spent
   * token, if and only if what is kept can replace it.
   */
  lemma LandingResendsExactly(s: State, value: Option<Stored>)
    requires Reached(s) && s.write.Unwritten? && Sendable(s, value)
    ensures Inv(Late(s, value)) <==> Harmless(s, value)
    ensures CanResend(Late(s, value), false) <==> !Harmless(s, value)
  {
    if Harmless(s, value) {
      HarmlessKeepsInv(s, value);
      InvCannotResend(Late(s, value));
    } else {
      HarmfulResends(s, value);
      if Inv(Late(s, value)) {
        InvCannotResend(Late(s, value));
      }
    }
    hide Reached, Inv, Harmless;
  }

  lemma RunsReach(states: seq<State>, actions: seq<Action>, n: nat)
    requires IsRun(states, actions) && n <= |actions|
    requires forall i :: 0 <= i < n ==> !StaleClear(states[i], actions[i])
    ensures Reached(states[n]) && TwitchHistory.RowIsLastLinkRenewed(states[n])
  {
    RunsKeepWaiting(states, actions, n);
    RunsKeepAnswersProper(states, actions, n);
    TwitchHistory.EveryRunRenewsOnlyTheLastLink(states, actions, n);
  }

  /** A refreshed token reads back; no other job but a relink writes a refresh token. */
  lemma WrittenIsSendable(s: State, s': State)
    requires TwitchHistory.Genuine(s) && AnswersProper(s) && s.queue != [] && s.write.Writing? && !s.queue[0].Relink?
    ensures Sendable(s', s.write.value)
  {
    assert TwitchHistory.JobIsGenuine(s, s.queue[0]);
  }

  /**
   * In every run without a stale clear: a write reported as failed at step `i`
   * that lands in state `n`, between two writes and in whatever phase the shared
   * refresh is, leads to an accepted refresh token being sent again if and only
   * if its own is spent and what is kept cannot replace it; and the row is then
   * the last link renewed only if the write changes nothing. A relink's value is
   * taken to read as a public token if its refresh token is spent.
   */
  lemma LateWritesResendExactly(states: seq<State>, actions: seq<Action>, i: nat, n: nat)
    requires IsRun(states, actions) && i < n <= |actions| && actions[i] == WriteFails && states[n].write.Unwritten?
    requires forall k :: 0 <= k < n ==> !StaleClear(states[k], actions[k])
    requires states[i].queue[0].Relink? ==> Sendable(states[n], states[i].write.value)
    ensures var s, value := states[n], states[i].write.value;
      && (CanResend(Late(s, value), false) <==> !Harmless(s, value)) && (Inv(Late(s, value)) <==> Harmless(s, value))
      && (TwitchHistory.RowIsLastLinkRenewed(Late(s, value)) <==> value == s.row)
  {
    RunsReach(states, actions, n);
    RunsReach(states, actions, i);
    hide IsRun, StaleClear, Inv, CanResend, Harmless, Sendable;
    if !states[i].queue[0].Relink? {
      WrittenIsSendable(states[i], states[n]);
    }
    LandingResendsExactly(states[n], states[i].write.value);
    hide Reached;
    LandingKeepsLineage(states[n], states[i].write.value);
  }

  lemma LandingKeepsLineage(s: State, value: Option<Stored>)
    requires TwitchHistory.RowIsLastLinkRenewed(s)
    ensures TwitchHistory.RowIsLastLinkRenewed(Late(s, value)) <==> value == s.row
  {
    if value == s.row {
      assert Late(s, value) == s;
    }
  }
}
