/**
 * A run in which a refresh token Twitch has accepted is sent to it again. It
 * needs one read of the row to be answered after a later write landed, and one
 * failed write; every read still returns a row the setting really held.
 */
module TwitchOvertaken {
  import opened Options
  import opened TwitchLink
  import opened TwitchSteps
  import opened TwitchTokens

  /** Every row a caller was given is one an earlier state held. */
  ghost predicate ReadsAreReal(states: seq<State>, actions: seq<Action>)
    requires |states| == |actions| + 1
  {
    forall i :: 0 <= i < |actions| && actions[i].CallerRead? ==>
      exists j :: 0 <= j <= i && states[j].row == actions[i].got
  }

  function TokenWith(access: string, refresh: string): PublicToken {
    PublicToken("streamer", access, refresh, [], 3600, 0, "app")
  }

  const T1 := TokenWith("a1", "r1")
  const T2 := TokenWith("a2", "r2")
  const T3 := TokenWith("a3", "r3")

  /** `states` and `actions` are a run so far, whose callers were given only rows it held. */
  ghost predicate RealRun(states: seq<State>, actions: seq<Action>) {
    IsRun(states, actions) && ReadsAreReal(states, actions)
  }

  /** The run extended by `a`; a caller's read is answered with the row of state `at`. */
  lemma Then(states: seq<State>, actions: seq<Action>, a: Action, at: nat)
    returns (states': seq<State>, actions': seq<Action>)
    requires RealRun(states, actions) && at <= |actions| && |states| == |actions| + 1
    requires Can(states[|actions|], a)
    requires a.CallerRead? ==> states[at].row == a.got
    ensures RealRun(states', actions') && actions' == actions + [a]
    ensures states' == states + [Step(states[|actions|], a)] && |states'| == |actions'| + 1
  {
    states', actions' := states + [Step(states[|actions|], a)], actions + [a];
    forall i | 0 <= i < |actions'| && actions'[i].CallerRead?
      ensures exists j :: 0 <= j <= i && states'[j].row == actions'[i].got
    {
      if i < |actions| {
        var j :| 0 <= j <= i && states[j].row == actions[i].got;
        assert states'[j].row == actions'[i].got;
      } else {
        assert states'[at].row == actions'[i].got;
      }
    }
  }

  /** The step may be taken. */
  predicate Can(s: State, a: Action) { Enabled(s, a) && Trusted(s, a) }

  /** Three steps, any read among them answered with the first row or the last. */
  predicate CanThree(s: State, a: Action, b: Action, c: Action) {
    Can(s, a) && Can(Step(s, a), b) && Can(Step(Step(s, a), b), c)
  }

  function AfterThree(s: State, a: Action, b: Action, c: Action): State
    requires CanThree(s, a, b, c)
  {
    Step(Step(Step(s, a), b), c)
  }

  /** The run extended by three steps of which only the first may be a caller's read. */
  lemma ThenThree(states: seq<State>, actions: seq<Action>, a: Action, at: nat, b: Action, c: Action)
    returns (states': seq<State>, actions': seq<Action>)
    requires RealRun(states, actions) && at <= |actions| && |states| == |actions| + 1
    requires CanThree(states[|actions|], a, b, c) && (a.CallerRead? ==> states[at].row == a.got)
    requires !b.CallerRead? && !c.CallerRead?
    ensures RealRun(states', actions') && actions' == actions + [a, b, c] && |states'| == |actions'| + 1 && states <= states'
    ensures states'[|actions| + 1] == Step(states[|actions|], a)
    ensures states'[|actions| + 2] == Step(states'[|actions| + 1], b)
    ensures states'[|actions'|] == AfterThree(states[|actions|], a, b, c)
  {
    hide RealRun, Can, Step;
    states', actions' := Then(states, actions, a, at);
    states', actions' := Then(states', actions', b, 0);
    states', actions' := Then(states', actions', c, 0);
  }

  function Row(token: PublicToken): Option<Stored> {
    Some(PublicRow(token))
  }

  const U1 := Refreshed("r1", T2)
  const U2 := Refreshed("r2", T3)

  function At(row: PublicToken, unsaved: Option<Refreshed>, queue: seq<Job>, refresh: Refresh,
              accepted: set<string>, s: State): State {
    s.(row := Row(row), unsaved := unsaved, queue := queue, write := Unwritten, refresh := refresh, accepted := accepted,
       refused := None)
  }

  lemma Begins() returns (ss: seq<State>, aa: seq<Action>)
    ensures RealRun(ss, aa) && |aa| == 0 && |ss| == 1 && ss[0] == At(T1, None, [], Idle, {}, ss[0])
  {
    ss := [State(Row(T1), None, None, None, 0, [], Unwritten, Idle, {}, {}, {}, [PublicRow(T1)], [], [])];
    aa := [];
  }

  /** From an idle state on `token`, a forced call has Twitch answer its refresh with `next`. */
  lemma RefreshedTo(ss: seq<State>, aa: seq<Action>, token: PublicToken, next: Answer)
    returns (ss': seq<State>, aa': seq<Action>)
    requires RealRun(ss, aa) && |ss| == |aa| + 1 && token.refreshToken != "" && AsPublicToken(PublicRow(token)) == Usable(token)
    requires var s := ss[|aa|];
      s.row == Row(token) && s.refresh.Idle? && s.refused.None?
      && (s.unsaved.Some? ==> s.unsaved.value.spent != token.refreshToken)
      && next.refreshToken !in s.accepted && next.refreshToken != token.refreshToken
      && next.accessToken != "" && next.refreshToken != ""
    ensures RealRun(ss', aa') && |aa'| == |aa| + 4 && |ss'| == |aa'| + 1 && ss <= ss' && aa <= aa'
    ensures ss'[|aa'|] == TwitchAnswersStep(ss[|aa|].(refresh := Sent(token)), next)
  {
    hide RealRun, AsPublicToken;
    var s := ss[|aa|];
    ss', aa' := Then(ss, aa, CallerRead(true, Row(token), 0), |aa|);
    assert ss'[|aa'|] == s.(refresh := Reading(token));
    ss', aa' := Then(ss', aa', RefreshReads, 0);
    assert ss'[|aa'|] == s.(refresh := Read(token, Row(token)));
    ss', aa' := Then(ss', aa', RefreshResumes, 0);
    assert ss'[|aa'|] == s.(refresh := Sent(token));
    hide RefreshResumesStep, CallerReadStep;
    ss', aa' := Then(ss', aa', TwitchAnswers(next), 0);
  }

  lemma RefreshIsAccepted() returns (ss: seq<State>, aa: seq<Action>)
    ensures RealRun(ss, aa) && |aa| == 4 && |ss| == 5 && ss[0].row == Row(T1)
    ensures ss[4] == At(T1, None, [Save(U1)], Saving(U1), {"r1"}, ss[4])
  {
    hide RealRun;
    ss, aa := Begins();
    ss, aa := RefreshedTo(ss, aa, T1, Answer("a2", "r2", None, 3600, 0));
  }

  /** The write of T2 fails before it lands, so it is kept unsaved. */
  lemma FirstWriteFails() returns (ss: seq<State>, aa: seq<Action>)
    ensures RealRun(ss, aa) && |aa| == 6 && |ss| == 7 && ss[0].row == Row(T1)
    ensures aa[5] == WriteFails && ss[5].write == Writing(Row(T1), Row(T2), false)
    ensures ss[6] == At(T1, Some(U1), [], Idle, {"r1"}, ss[6])
  {
    hide RealRun;
    ss, aa := RefreshIsAccepted();
    var s := ss[4];
    ss, aa := Then(ss, aa, JobTurns(0), 0);
    assert ss[5] == s.(write := Writing(Row(T1), Row(T2), false));
    hide JobTurnsStep;
    ss, aa := Then(ss, aa, WriteFails, 0);
  }

  lemma AsksToRetry(s: State)
    requires s == At(T1, Some(U1), [], Idle, {"r1"}, s)
    ensures Can(s, CallerRead(false, Row(T1), 0)) && Step(s, CallerRead(false, Row(T1), 0)) == s.(queue := [Retry(Caller(false), U1)])
  {
  }

  lemma RetryWrites(s: State)
    requires s == At(T1, Some(U1), [Retry(Caller(false), U1)], Idle, {"r1"}, s)
    ensures Can(s, JobTurns(0)) && Step(s, JobTurns(0)) == s.(write := Writing(Row(T1), Row(T2), false))
  {
  }

  lemma RetrySteps(s: State)
    requires s == At(T1, Some(U1), [], Idle, {"r1"}, s)
    ensures CanThree(s, CallerRead(false, Row(T1), 0), JobTurns(0), WriteLands)
    ensures var s' := AfterThree(s, CallerRead(false, Row(T1), 0), JobTurns(0), WriteLands);
      s' == At(T2, Some(U1), [Retry(Caller(false), U1)], Idle, {"r1"}, s').(write := Writing(Row(T1), Row(T2), true))
  {
    AsksToRetry(s);
    RetryWrites(s.(queue := [Retry(Caller(false), U1)]));
    hide CallerReadStep, JobTurnsStep;
  }

  /** A later caller's retry of it lands, and is not answered yet. */
  lemma RetryLands() returns (ss: seq<State>, aa: seq<Action>)
    ensures RealRun(ss, aa) && |aa| == 9 && |ss| == 10 && ss[0].row == Row(T1)
    ensures aa[5] == WriteFails && ss[5].write == Writing(Row(T1), Row(T2), false)
    ensures ss[9] == At(T2, Some(U1), [Retry(Caller(false), U1)], Idle, {"r1"}, ss[9]).(
                       write := Writing(Row(T1), Row(T2), true))
  {
    ss, aa := FirstWriteFails();
    hide RealRun, At, CanThree, AfterThree, Step;
    RetrySteps(ss[6]);
    ss, aa := ThenThree(ss, aa, CallerRead(false, Row(T1), 0), 0, JobTurns(0), WriteLands);
  }

  /** Meanwhile T2 is refreshed. */
  lemma RetriedTokenIsRefreshed() returns (ss: seq<State>, aa: seq<Action>)
    ensures RealRun(ss, aa) && |aa| == 13 && |ss| == 14 && ss[0].row == Row(T1)
    ensures ss[13] == At(T2, Some(U1), [Retry(Caller(false), U1), Save(U2)], Saving(U2), {"r1", "r2"}, ss[13]).(
                        write := Writing(Row(T1), Row(T2), true))
  {
    hide RealRun;
    ss, aa := RetryLands();
    ss, aa := RefreshedTo(ss, aa, T2, Answer("a3", "r3", None, 3600, 0));
  }

  /** Then a caller's read of T1 arrives late and queues a second retry. */
  lemma LateReadQueuesARetry() returns (ss: seq<State>, aa: seq<Action>)
    ensures RealRun(ss, aa) && |aa| == 15 && |ss| == 16
    ensures ss[15] == At(T2, None, [Save(U2), Retry(Caller(true), U1)], Saving(U2), {"r1", "r2"}, ss[15])
  {
    hide RealRun;
    ss, aa := RetriedTokenIsRefreshed();
    var s := ss[13];
    ss, aa := Then(ss, aa, CallerRead(true, Row(T1), 0), 0);
    assert ss[14] == s.(queue := [Retry(Caller(false), U1), Save(U2), Retry(Caller(true), U1)]);
    hide CallerReadStep;
    ss, aa := Then(ss, aa, WriteSucceeds(0), 0);
  }

  lemma DroppingSteps(s: State)
    requires s == At(T2, None, [Save(U2), Retry(Caller(true), U1)], Saving(U2), {"r1", "r2"}, s)
    ensures CanThree(s, JobTurns(0), WriteFails, JobTurns(0)) && StaleClear(Step(Step(s, JobTurns(0)), WriteFails), JobTurns(0))
    ensures var s' := AfterThree(s, JobTurns(0), WriteFails, JobTurns(0)); s' == At(T2, None, [], Idle, {"r1", "r2"}, s')
  {
    var writing := s.(write := Writing(Row(T2), Row(T3), false));
    assert Step(s, JobTurns(0)) == writing;
    assert Step(writing, WriteFails) == At(T2, Some(U2), [Retry(Caller(true), U1)], Idle, {"r1", "r2"}, s);
    hide JobFails;
  }

  /** T3's write fails, and the late retry drops the record of it. */
  lemma RecordIsDropped() returns (ss: seq<State>, aa: seq<Action>)
    ensures RealRun(ss, aa) && |aa| == 18 && |ss| == 19 && StaleClear(ss[17], aa[17])
    ensures ss[18] == At(T2, None, [], Idle, {"r1", "r2"}, ss[18])
  {
    ss, aa := LateReadQueuesARetry();
    hide RealRun, At, CanThree, AfterThree, Step, StaleClear;
    DroppingSteps(ss[15]);
    ss, aa := ThenThree(ss, aa, JobTurns(0), 0, WriteFails, JobTurns(0));
  }

  /** The next forced call sends T2's refresh token, which Twitch has taken, again. */
  lemma OutOfOrderReadResends()
    ensures exists states, actions :: RealRun(states, actions) && !Safe(states[|actions|])
  {
    hide RealRun;
    var ss, aa := RecordIsDropped();
    var s := ss[18];
    ss, aa := Then(ss, aa, CallerRead(true, Row(T2), 0), 18);
    assert ss[19] == s.(refresh := Reading(T2));
    hide CallerReadStep;
    ss, aa := Then(ss, aa, RefreshReads, 0);
    assert ss[20] == s.(refresh := Read(T2, Row(T2)));
    ss, aa := Then(ss, aa, RefreshResumes, 0);
    assert ss[21] == s.(refresh := Sent(T2));
    assert !Safe(ss[|aa|]);
  }

  // ----- a write that lands after its failure was reported ----------------------------------------------------

  /** The retry of T2 is stored, after a first write of it was reported as failed. */
  lemma RetryIsStored() returns (ss: seq<State>, aa: seq<Action>)
    ensures RealRun(ss, aa) && |aa| == 10 && |ss| == 11
    ensures aa[5] == WriteFails && ss[5].write == Writing(Row(T1), Row(T2), false)
    ensures ss[10] == At(T2, None, [], Idle, {"r1"}, ss[10])
  {
    hide RealRun;
    ss, aa := RetryLands();
    ss, aa := Then(ss, aa, WriteSucceeds(0), 0);
  }

  /** T2 is then refreshed to T3. */
  lemma SuccessorIsQueued() returns (ss: seq<State>, aa: seq<Action>)
    ensures RealRun(ss, aa) && |aa| == 14 && |ss| == 15
    ensures aa[5] == WriteFails && ss[5].write == Writing(Row(T1), Row(T2), false)
    ensures ss[14] == At(T2, None, [Save(U2)], Saving(U2), {"r1", "r2"}, ss[14])
  {
    hide RealRun;
    ss, aa := RetryIsStored();
    ss, aa := RefreshedTo(ss, aa, T2, Answer("a3", "r3", None, 3600, 0));
  }

  lemma StoringSteps(s: State)
    requires s == At(T2, None, [Save(U2)], Saving(U2), {"r1", "r2"}, s)
    ensures CanThree(s, JobTurns(0), WriteLands, WriteSucceeds(0))
    ensures var s' := AfterThree(s, JobTurns(0), WriteLands, WriteSucceeds(0)); s' == At(T3, None, [], Idle, {"r1", "r2"}, s')
  {
    var writing := s.(write := Writing(Row(T2), Row(T3), false));
    assert Step(s, JobTurns(0)) == writing;
    hide JobTurnsStep, SameScopes;
  }

  /** And T3 is stored. */
  lemma SuccessorIsStored() returns (ss: seq<State>, aa: seq<Action>)
    ensures RealRun(ss, aa) && |aa| == 17 && |ss| == 18
    ensures aa[5] == WriteFails && ss[5].write == Writing(Row(T1), Row(T2), false)
    ensures ss[17] == At(T3, None, [], Idle, {"r1", "r2"}, ss[17])
  {
    ss, aa := SuccessorIsQueued();
    hide RealRun, At, CanThree, AfterThree, Step;
    StoringSteps(ss[14]);
    ss, aa := ThenThree(ss, aa, JobTurns(0), 0, WriteLands, WriteSucceeds(0));
  }

  function ForcedCall(s: State): State {
    var read := Step(s, CallerRead(true, s.row, 0));
    if !read.refresh.Reading? then read else Step(Step(read, RefreshReads), RefreshResumes)
  }

  /**
   * What the machine's writes rule out: should the write reported as failed at
   * step 5 land only now, over its own successor, the next forced call sends
   * T2's refresh token, which Twitch has taken, again.
   */
  lemma LateWriteResends() returns (ss: seq<State>, aa: seq<Action>)
    ensures RealRun(ss, aa) && |aa| == 17 && |ss| == 18
    ensures aa[5] == WriteFails && ss[5].write.Writing? && !ss[5].write.landed
    ensures !Safe(ForcedCall(ss[17].(row := ss[5].write.value)))
  {
    ss, aa := SuccessorIsStored();
    hide RealRun;
    var late := ss[17].(row := ss[5].write.value);
    assert Step(late, CallerRead(true, late.row, 0)) == late.(refresh := Reading(T2));
    assert Step(late.(refresh := Reading(T2)), RefreshReads) == late.(refresh := Read(T2, late.row));
  }
}
