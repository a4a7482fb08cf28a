/**
 * Whether a refresh token Twitch has accepted is ever sent to Twitch again.
 * It is not, as long as no retry of an unsaved refresh clears the record of a
 * later one; and a read answered out of order can make one do so.
 */
module TwitchTokens {
  import opened Options
  import opened TwitchLink
  import opened TwitchSteps
  import opened TwitchFrames

  /** What the source promises: the refresh token in flight to Twitch is not one it has already taken. */
  predicate Safe(s: State) {
    s.refresh.Sent? ==> s.refresh.current.refreshToken !in s.accepted
  }

  /** A spent refresh token in the row is one whose successor is still at hand. */
  predicate Covered(s: State) {
    s.row.Some? && s.row.value.refreshToken.Some? && s.row.value.refreshToken.value in s.accepted ==>
      || (s.unsaved.Some? && s.unsaved.value.spent == s.row.value.refreshToken.value)
      || (s.refresh.Saving? && s.refresh.refreshed.spent == s.row.value.refreshToken.value)
  }

  /** A step that finds its retry overtaken, and drops an `unsaved` that still covers the row. */
  predicate StaleClear(s: State, a: Action) {
    && a.JobTurns? && s.queue != [] && s.write.Unwritten?
    && s.queue[0].Retry? && !HoldsRefreshToken(s.row, s.queue[0].refreshed.spent)
    && s.unsaved.Some? && HoldsRefreshToken(s.row, s.unsaved.value.spent)
  }

  /** The row's refresh token is not spent. */
  predicate RowUnspent(s: State) {
    s.row.Some? && s.row.value.refreshToken.Some? ==> s.row.value.refreshToken.value !in s.accepted
  }

  /** A refresh kept for writing is Twitch's answer, and stays unspent until the row holds it. */
  predicate Usable(s: State, r: Refreshed) {
    && r.spent in s.accepted
    && (HoldsRefreshToken(s.row, r.spent) ==> r.token.refreshToken !in s.accepted)
  }

  predicate OwnedByRefresh(job: Job) {
    || job.Save?
    || (job.Retry? && job.asker.SharedRefresh?)
    || (job.MarkFailed? && job.byRefresh)
  }

  /** The shared refresh waits on exactly the queued job its phase names. */
  predicate OwnerWaits(s: State, job: Job) {
    match job
    case Save(refreshed) => s.refresh == Saving(refreshed)
    case Retry(SharedRefresh(seen), _) => s.refresh == Retrying(seen)
    case MarkFailed(_, _, true) => s.refresh == Marking
    case _ => true
  }

  ghost predicate QueueInv(s: State) {
    && (forall i :: 0 <= i < |s.queue| ==> OwnerWaits(s, s.queue[i]))
    && (forall i, j :: 0 <= i < j < |s.queue| ==> !(OwnedByRefresh(s.queue[i]) && OwnedByRefresh(s.queue[j])))
    && (forall i :: 0 <= i < |s.queue| && s.queue[i].Retry? ==> Usable(s, s.queue[i].refreshed))
    && (s.unsaved.Some? ==> Usable(s, s.unsaved.value))
  }

  /** The write in flight is its job's, and until it lands the row is what the job saw. */
  predicate WriteInv(s: State) {
    s.write.Writing? ==>
      && s.queue != []
      && s.row == (if s.write.landed then s.write.value else s.write.before)
      && (match s.queue[0]
          case Relink(stored) => s.write.value == Some(stored)
          case Unlink => s.write.value == None
          case Retry(_, refreshed) => RefreshWrite(s, refreshed)
          case Save(refreshed) => RefreshWrite(s, refreshed)
          case SaveGrant(_, granted) => s.write.value == Some(DashboardRow(granted))
          case _ => false)
  }

  predicate RefreshWrite(s: State, r: Refreshed)
    requires s.write.Writing?
  {
    && s.write.value == Some(PublicRow(r.token))
    && HoldsRefreshToken(s.write.before, r.spent)
    && (s.write.landed && r.token.refreshToken in s.accepted ==>
          s.refresh.Saving? && s.refresh.refreshed.spent == r.token.refreshToken)
  }

  /** What each phase of the shared refresh knows about the row it will act on. */
  predicate RefreshInv(s: State) {
    match s.refresh
    case Reading(seen) => SeenUnlessMoved(s, seen)
    case Read(seen, got) => WillSend(s, seen, got) ==> seen.refreshToken !in s.accepted && RowUnspent(s)
    case Sent(current) => current.refreshToken !in s.accepted && RowUnspent(s)
    case Saving(r) =>
      && r.spent in s.accepted && r.token.refreshToken !in s.accepted
      && (RowUnspent(s) || HoldsRefreshToken(s.row, r.spent))
      && (s.unsaved.Some? ==> s.unsaved.value.spent != r.spent)
    case _ => true
  }

  /** What the shared refresh read is what it was asked to refresh, and not a token Twitch refused. */
  predicate WillSend(s: State, seen: PublicToken, got: Option<Stored>) {
    && HoldsRefreshToken(got, seen.refreshToken) && AsPublicToken(got.value).Usable?
    && s.refused != Some(seen.refreshToken)
  }

  /** A token read before an earlier refresh finished is one the row no longer holds. */
  predicate SeenUnlessMoved(s: State, seen: PublicToken) {
    seen.refreshToken in s.accepted ==> !HoldsRefreshToken(s.row, seen.refreshToken)
  }

  ghost predicate Inv(s: State) {
    Covered(s) && QueueInv(s) && WriteInv(s) && RefreshInv(s)
  }

  lemma InvIsSafe(s: State)
    requires Inv(s)
    ensures Safe(s)
  {
  }

  lemma RetrySavedKeepsInv(s: State, now: int)
    requires Inv(s) && s.queue != [] && s.queue[0].Retry? && s.write.Writing? && s.write.landed
    ensures Inv(RetrySaved(s, now))
    ensures HoldsRefreshToken(RetrySaved(s, now).row, s.queue[0].refreshed.token.refreshToken)
    ensures forall i :: 0 < i < |s.queue| && s.queue[0].asker.SharedRefresh? ==> !OwnedByRefresh(s.queue[i])
  {
    var s' := RetrySaved(s, now);
    assert forall i :: 0 <= i < |s'.queue| ==> s'.queue[i] == s.queue[i + 1];
  }

  lemma RetryContinuesKeepsInv(s: State, asker: Asker, token: PublicToken, now: int)
    requires Inv(s) && s.unsaved.None? && HoldsRefreshToken(s.row, token.refreshToken)
    requires asker.SharedRefresh? ==> s.refresh == Retrying(asker.seen)
    requires asker.SharedRefresh? ==> forall i :: 0 <= i < |s.queue| ==> !OwnedByRefresh(s.queue[i])
    ensures Inv(RetryContinues(s, asker, token, now))
  {
  }

  /** The branch that drops `unsaved`: safe because what it drops does not cover the row. */
  lemma RetryFoundRelinkKeepsInv(s: State)
    requires Inv(s) && s.queue != [] && s.queue[0].Retry? && s.write.Unwritten?
    requires !HoldsRefreshToken(s.row, s.queue[0].refreshed.spent)
    requires s.unsaved.Some? ==> !HoldsRefreshToken(s.row, s.unsaved.value.spent)
    ensures Inv(RetryFoundRelink(s))
  {
  }

  /** What is announced, and what was, has no part in the invariant. */
  predicate SameTokens(s: State, s': State) {
    && s'.row == s.row && s'.unsaved == s.unsaved && s'.refused == s.refused && s'.queue == s.queue && s'.write == s.write
    && s'.refresh == s.refresh && s'.accepted == s.accepted
  }

  lemma SameTokensKeepInv(s: State, s': State)
    requires Inv(s) && SameTokens(s, s')
    ensures Inv(s')
  {
    hide HoldsRefreshToken;
    assert Covered(s') && RefreshInv(s') && WriteInv(s');
    hide Covered, RefreshInv, WriteInv;
    forall i | 0 <= i < |s'.queue| ensures OwnerWaits(s', s'.queue[i]) {
      assert OwnerWaits(s, s.queue[i]);
    }
    assert QueueInv(s');
  }

  /** A job the shared refresh does not wait on leaves the queue. */
  lemma PopKeepsInv(s: State)
    requires Inv(s) && s.queue != [] && !OwnedByRefresh(s.queue[0])
    ensures Inv(Popped(s))
  {
    var s' := Popped(s);
    assert QueueInv(s') by {
      hide Covered, WriteInv, RefreshInv, HoldsRefreshToken;
      assert forall i :: 0 <= i < |s'.queue| ==> s'.queue[i] == s.queue[i + 1];
    }
    hide QueueInv, WriteInv;
    assert WriteInv(s') by {
      assert s'.write.Unwritten?;
    }
  }

  /** The job it waits on leaves, and it waits no more. */
  lemma OwnedPopKeepsQueue(s: State, refresh: Refresh, unsaved: Option<Refreshed>)
    requires QueueInv(s) && s.queue != [] && OwnedByRefresh(s.queue[0]) && (unsaved.Some? ==> Usable(s, unsaved.value))
    ensures QueueInv(Popped(s).(refresh := refresh, unsaved := unsaved))
  {
    var s' := Popped(s).(refresh := refresh, unsaved := unsaved);
    hide HoldsRefreshToken;
    assert forall i :: 0 <= i < |s'.queue| ==> s'.queue[i] == s.queue[i + 1] && !OwnedByRefresh(s'.queue[i]);
  }

  lemma OwnedPopKeepsInv(s: State, refresh: Refresh, unsaved: Option<Refreshed>)
    requires Inv(s) && s.queue != [] && OwnedByRefresh(s.queue[0]) && (refresh.Idle? || refresh.Serving?)
    requires (unsaved.Some? ==> Usable(s, unsaved.value)) && Covered(Popped(s).(refresh := refresh, unsaved := unsaved))
    ensures Inv(Popped(s).(refresh := refresh, unsaved := unsaved))
  {
    OwnedPopKeepsQueue(s, refresh, unsaved);
    hide QueueInv, Covered, HoldsRefreshToken, Usable;
  }

  lemma JobTurnsKeepsInv(s: State, now: int)
    requires Inv(s) && Enabled(s, JobTurns(now)) && !StaleClear(s, JobTurns(now))
    ensures Inv(JobTurnsStep(s, now))
  {
    match s.queue[0]
    case Retry(_, refreshed) =>
      if HoldsRefreshToken(s.row, refreshed.spent) {
        TokenWriteStarts(s, refreshed);
        hide Inv;
      } else {
        RetryFoundRelinkKeepsInv(s);
        hide Inv;
      }
    case Save(refreshed) =>
      if HoldsRefreshToken(s.row, refreshed.spent) {
        TokenWriteStarts(s, refreshed);
        hide Inv;
      } else {
        SaveFoundRelinkKeepsInv(s);
        hide Inv;
      }
    case SaveGrant(_, granted) =>
      OtherWriteStarts(s, Some(DashboardRow(granted)));
      PopKeepsInv(s);
      hide Inv;
    case Relink(stored) => OtherWriteStarts(s, Some(stored)); hide Inv;
    case Unlink => OtherWriteStarts(s, None); hide Inv;
    case MarkFailed(_, _, _) => MarkFailedKeepsInv(s, now); hide Inv;
    case ReadLink =>
      PopKeepsInv(s);
      hide Inv, Describable, ViewOf;
      SameTokensKeepInv(Popped(s), JobTurnsStep(s, now));
  }

  lemma WriteStartsKeepsInv(s: State, value: Option<Stored>)
    requires Inv(s) && s.queue != [] && s.write.Unwritten? && WriteInv(s.(write := Writing(s.row, value, false)))
    ensures Inv(s.(write := Writing(s.row, value, false)))
  {
    var s' := s.(write := Writing(s.row, value, false));
    hide WriteInv, HoldsRefreshToken;
    assert Covered(s') && RefreshInv(s');
    hide Covered, RefreshInv;
    forall i | 0 <= i < |s'.queue| ensures OwnerWaits(s', s'.queue[i]) {
      assert OwnerWaits(s, s.queue[i]);
    }
    assert QueueInv(s');
  }

  lemma TokenWriteStarts(s: State, r: Refreshed)
    requires Inv(s) && s.queue != [] && s.write.Unwritten? && HoldsRefreshToken(s.row, r.spent)
    requires (s.queue[0].Retry? || s.queue[0].Save?) && s.queue[0].refreshed == r
    ensures Inv(s.(write := Writing(s.row, Some(PublicRow(r.token)), false)))
  {
    hide QueueInv, Covered, RefreshInv;
    assert WriteInv(s.(write := Writing(s.row, Some(PublicRow(r.token)), false)));
    hide WriteInv, Inv;
    WriteStartsKeepsInv(s, Some(PublicRow(r.token)));
  }

  lemma OtherWriteStarts(s: State, value: Option<Stored>)
    requires Inv(s) && s.queue != [] && s.write.Unwritten?
    requires match s.queue[0]
      case Relink(stored) => value == Some(stored)
      case Unlink => value == None
      case SaveGrant(_, granted) => value == Some(DashboardRow(granted))
      case _ => false
    ensures Inv(s.(write := Writing(s.row, value, false)))
  {
    hide QueueInv, Covered, RefreshInv;
    assert WriteInv(s.(write := Writing(s.row, value, false)));
    hide WriteInv, Inv;
    WriteStartsKeepsInv(s, value);
  }

  /** The refreshed token's row was replaced: the refresh serves what is there. */
  lemma SaveFoundRelinkKeepsInv(s: State)
    requires Inv(s) && s.queue != [] && s.queue[0].Save? && !HoldsRefreshToken(s.row, s.queue[0].refreshed.spent)
    ensures Inv(Popped(s).(refresh := Serving))
  {
    assert OwnerWaits(s, s.queue[0]);
    assert Popped(s).(refresh := Serving) == Popped(s).(refresh := Serving, unsaved := s.unsaved);
    assert Covered(Popped(s).(refresh := Serving, unsaved := s.unsaved));
    OwnedPopKeepsInv(s, Serving, s.unsaved);
    hide Inv, Covered;
  }

  /** A refusal or a dashboard's answer that the link has stopped working changes no token. */
  lemma MarkFailedKeepsInv(s: State, now: int)
    requires Inv(s) && s.queue != [] && s.write.Unwritten? && s.queue[0].MarkFailed?
    ensures Inv(JobTurnsStep(s, now))
  {
    var popped := if s.queue[0].byRefresh then Popped(s).(refresh := Idle) else Popped(s);
    if s.queue[0].byRefresh {
      assert OwnerWaits(s, s.queue[0]);
      assert popped == Popped(s).(refresh := Idle, unsaved := s.unsaved);
      OwnedPopKeepsInv(s, Idle, s.unsaved);
    } else {
      PopKeepsInv(s);
    }
    hide Inv, Covered;
    SameTokensKeepInv(popped, JobTurnsStep(s, now));
  }

  lemma WriteSucceedsKeepsInv(s: State, now: int)
    requires Inv(s) && Enabled(s, WriteSucceeds(now))
    ensures Inv(WriteSucceedsStep(s, now))
  {
    if s.queue[0].Retry? {
      RetrySavedKeepsInv(s, now);
      var s' := RetrySaved(s, now);
      assert forall i :: 0 <= i < |s'.queue| ==> s'.queue[i] == s.queue[i + 1];
      RetryContinuesKeepsInv(s', s.queue[0].asker, s.queue[0].refreshed.token, now);
    } else {
      OtherWriteSucceedsKeepsInv(s, now);
    }
  }

  lemma OtherWriteSucceedsKeepsInv(s: State, now: int)
    requires Inv(s) && Enabled(s, WriteSucceeds(now)) && !s.queue[0].Retry?
    ensures Inv(WriteSucceedsStep(s, now))
  {
    var s' := WriteSucceedsStep(s, now);
    if s.queue[0].Save? {
      assert OwnerWaits(s, s.queue[0]);
      assert Covered(Popped(s).(refresh := Idle, unsaved := s.unsaved));
      OwnedPopKeepsInv(s, Idle, s.unsaved);
      hide Inv, Covered, SameScopes;
      SameTokensKeepInv(Popped(s).(refresh := Idle, unsaved := s.unsaved), s');
    } else {
      assert !OwnedByRefresh(s.queue[0]);
      PopKeepsInv(s);
      assert s.queue[0].Relink? || s.queue[0].Unlink? || s.queue[0].SaveGrant?;
      hide Inv, SameScopes;
      SameTokensKeepInv(Popped(s), s');
    }
  }

  lemma WriteLandsKeepsInv(s: State)
    requires Inv(s) && Enabled(s, WriteLands) && Trusted(s, WriteLands)
    ensures Inv(WriteLandsStep(s))
  {
  }

  lemma OwnedJobFailsKeepsInv(s: State)
    requires Inv(s) && s.queue != [] && OwnedByRefresh(s.queue[0])
    ensures Inv(JobFails(s))
  {
    var s' := JobFails(s);
    assert OwnerWaits(s, s.queue[0]);
    assert s' == Popped(s).(refresh := Idle, unsaved := s'.unsaved);
    assert Covered(s') && (s'.unsaved.Some? ==> Usable(s, s'.unsaved.value));
    OwnedPopKeepsInv(s, Idle, s'.unsaved);
    hide Inv, Covered;
  }

  lemma JobFailsKeepsInv(s: State)
    requires Inv(s) && s.queue != []
    ensures Inv(JobFails(s))
  {
    if OwnedByRefresh(s.queue[0]) {
      OwnedJobFailsKeepsInv(s);
    } else {
      PopKeepsInv(s);
      hide Inv;
    }
  }

  lemma TwitchAnswersKeepsInv(s: State, answer: Answer)
    requires Inv(s) && Enabled(s, TwitchAnswers(answer)) && Trusted(s, TwitchAnswers(answer))
    ensures Inv(TwitchAnswersStep(s, answer))
  {
  }

  predicate IsWaiting(refresh: Refresh) {
    refresh.Retrying? || refresh.Saving? || refresh.Marking?
  }

  /** While the shared refresh waits on no job, none of the queued ones is its own. */
  lemma NoneOwned(s: State)
    requires QueueInv(s) && !IsWaiting(s.refresh)
    ensures forall i :: 0 <= i < |s.queue| ==> !OwnedByRefresh(s.queue[i])
  {
    forall i | 0 <= i < |s.queue| ensures !OwnedByRefresh(s.queue[i]) {
      assert OwnerWaits(s, s.queue[i]);
    }
  }

  /** The shared refresh goes from one phase that waits on no job to another. */
  lemma RefreshMovesKeepsInv(s: State, refresh: Refresh)
    requires Inv(s) && !IsWaiting(s.refresh) && !IsWaiting(refresh) && RefreshInv(s.(refresh := refresh))
    ensures Inv(s.(refresh := refresh))
  {
    var s' := s.(refresh := refresh);
    NoneOwned(s);
    hide RefreshInv, HoldsRefreshToken;
    assert Covered(s') && WriteInv(s');
    hide Covered, WriteInv;
    assert QueueInv(s');
  }

  /** It queues a job of its own and waits on it. */
  lemma OwnedEnqueueKeepsInv(s: State, refresh: Refresh, job: Job, refused: Option<string>)
    requires Inv(s) && !IsWaiting(s.refresh) && IsWaiting(refresh) && !refresh.Saving? && OwnedByRefresh(job)
    requires (job.Retry? ==> Usable(s, job.refreshed)) && RefreshInv(s.(refresh := refresh))
    requires OwnerWaits(s.(refresh := refresh), job)
    ensures Inv(s.(refresh := refresh, queue := s.queue + [job], refused := refused))
  {
    var s' := s.(refresh := refresh, queue := s.queue + [job], refused := refused);
    NoneOwned(s);
    assert RefreshInv(s');
    hide RefreshInv, HoldsRefreshToken;
    assert Covered(s');
    assert WriteInv(s') by {
      assert s.queue != [] ==> s'.queue[0] == s.queue[0];
    }
    hide Covered, WriteInv;
    forall i | 0 <= i < |s'.queue| ensures OwnerWaits(s', s'.queue[i]) {
      assert i < |s.queue| ==> s'.queue[i] == s.queue[i] && !OwnedByRefresh(s.queue[i]);
    }
    assert QueueInv(s');
  }

  lemma IdleKeepsInv(s: State)
    requires Inv(s) && !IsWaiting(s.refresh)
    ensures Inv(s.(refresh := Idle))
  {
    hide Inv;
    assert RefreshInv(s.(refresh := Idle));
    RefreshMovesKeepsInv(s, Idle);
  }

  lemma RefreshResumesKeepsInv(s: State)
    requires Inv(s) && s.refresh.Read?
    ensures Inv(RefreshResumesStep(s))
  {
    var Read(seen, got) := s.refresh;
    var s' := RefreshResumesStep(s);
    if s'.refresh.Idle? {
      IdleKeepsInv(s);
      hide Inv;
    } else if s'.refresh.Retrying? {
      assert Usable(s, s.unsaved.value);
      assert s' == s.(refresh := Retrying(seen), queue := s.queue + [Retry(SharedRefresh(seen), s.unsaved.value)], refused := s.refused);
      hide RefreshResumesStep;
      OwnedEnqueueKeepsInv(s, Retrying(seen), Retry(SharedRefresh(seen), s.unsaved.value), s.refused);
      hide Inv;
    } else {
      assert s' == s.(refresh := s'.refresh) && s'.refresh.Sent?;
      assert RefreshInv(s');
      hide RefreshResumesStep;
      RefreshMovesKeepsInv(s, s'.refresh);
      hide Inv;
    }
  }

  lemma OtherRefreshStepKeepsInv(s: State, a: Action)
    requires Inv(s) && Enabled(s, a)
    requires a.RefreshReads? || a.RefreshReadFails? || a.Served? || a.TwitchRefuses? || a.TwitchUnreachable?
    ensures Inv(Step(s, a))
  {
    match a
    case RefreshReads =>
      assert RefreshInv(s.(refresh := Read(s.refresh.seen, s.row)));
      hide Inv;
      RefreshMovesKeepsInv(s, Read(s.refresh.seen, s.row));
    case TwitchRefuses =>
      hide Inv;
      var current := s.refresh.current;
      OwnedEnqueueKeepsInv(s, Marking, MarkFailed(current.accessToken, current.userId, true), Some(current.refreshToken));
    case _ =>
      hide Inv;
      IdleKeepsInv(s);
  }

  /** A job nobody's refresh waits on joins the queue. */
  lemma EnqueueKeepsInv(s: State, job: Job, grants: set<(DashboardToken, DashboardToken)>)
    requires Inv(s) && !OwnedByRefresh(job) && (job.Retry? ==> Usable(s, job.refreshed))
    ensures Inv(s.(queue := s.queue + [job], grants := grants))
  {
    var s' := s.(queue := s.queue + [job], grants := grants);
    assert QueueInv(s') by {
      hide Covered, WriteInv, RefreshInv, HoldsRefreshToken;
      assert forall i :: 0 <= i < |s.queue| ==> s'.queue[i] == s.queue[i];
    }
    hide QueueInv;
    assert WriteInv(s') by {
      assert s.queue != [] ==> s'.queue[0] == s.queue[0];
    }
    hide WriteInv;
  }

  /** A caller's read, however stale, retries what is unsaved, or starts the shared refresh on a token that is not spent. */
  lemma CallerReadKeepsInv(s: State, force: bool, got: Option<Stored>, now: int)
    requires Inv(s)
    ensures Inv(CallerReadStep(s, force, got, now))
  {
    var s' := CallerReadStep(s, force, got, now);
    if s'.queue != s.queue {
      assert Usable(s, s.unsaved.value);
      EnqueueKeepsInv(s, Retry(Caller(force), s.unsaved.value), s.grants);
      hide Inv;
    } else if s' != s {
      assert s' == s.(refresh := s'.refresh) && s'.refresh.Reading? && s.refresh.Idle?;
      assert SeenUnlessMoved(s, s'.refresh.seen);
      hide CallerReadStep;
      StartingKeepsInv(s, s'.refresh.seen);
    }
  }

  lemma StartingKeepsInv(s: State, seen: PublicToken)
    requires Inv(s) && s.refresh.Idle? && SeenUnlessMoved(s, seen)
    ensures Inv(s.(refresh := Reading(seen)))
  {
    var s' := s.(refresh := Reading(seen));
    assert QueueInv(s') by {
      assert forall i :: 0 <= i < |s.queue| ==> OwnerWaits(s, s.queue[i]);
    }
    hide QueueInv;
  }

  /** A caller's read, and every job queued from outside. */
  lemma CallKeepsInv(s: State, a: Action)
    requires Inv(s) && Enabled(s, a)
    requires a.CallerRead? || a.StoreCalled? || a.ClearCalled? || a.LinkCalled? || a.DashboardGranted? || a.DashboardRefused?
    ensures Inv(Step(s, a))
  {
    hide Inv;
    match a
    case CallerRead(force, got, now) => CallerReadKeepsInv(s, force, got, now);
    case StoreCalled(stored) => EnqueueKeepsInv(s, Relink(stored), s.grants);
    case ClearCalled => EnqueueKeepsInv(s, Unlink, s.grants);
    case LinkCalled => EnqueueKeepsInv(s, ReadLink, s.grants);
    case DashboardGranted(from, granted) => EnqueueKeepsInv(s, SaveGrant(from, granted), s.grants + {(from, granted)});
    case DashboardRefused(from) => EnqueueKeepsInv(s, MarkFailed(from.accessToken, from.userId, false), s.grants);
  }

  lemma StepKeepsInv(s: State, a: Action)
    requires Inv(s) && Enabled(s, a) && Trusted(s, a) && !StaleClear(s, a)
    ensures Inv(Step(s, a))
  {
    match a
    case JobTurns(now) => JobTurnsKeepsInv(s, now);
    case WriteSucceeds(now) => WriteSucceedsKeepsInv(s, now);
    case WriteLands => WriteLandsKeepsInv(s);
    case WriteFails => JobFailsKeepsInv(s);
    case JobReadFails => JobFailsKeepsInv(s);
    case TwitchAnswers(answer) => TwitchAnswersKeepsInv(s, answer);
    case RefreshResumes => RefreshResumesKeepsInv(s);
    case RefreshReads => OtherRefreshStepKeepsInv(s, a);
    case RefreshReadFails => OtherRefreshStepKeepsInv(s, a);
    case Served => OtherRefreshStepKeepsInv(s, a);
    case TwitchRefuses => OtherRefreshStepKeepsInv(s, a);
    case TwitchUnreachable => OtherRefreshStepKeepsInv(s, a);
    case _ => CallKeepsInv(s, a);
  }

  /** Exactly one kind of step breaks what keeps refresh tokens from being spent twice. */
  lemma OnlyAStaleClearBreaksInv(s: State, a: Action)
    requires Inv(s) && Enabled(s, a) && Trusted(s, a)
    ensures Inv(Step(s, a)) <==> !StaleClear(s, a)
  {
    if !StaleClear(s, a) {
      StepKeepsInv(s, a);
    }
  }

  /**
   * In a run with no stale clear, a refresh token Twitch has accepted is never
   * sent to it again, whatever the order of callers, relinks, refusals and
   * failed writes, and whether or not a failed write landed.
   */
  lemma {:induction false} NoTokenSentTwice(states: seq<State>, actions: seq<Action>, n: nat)
    requires IsRun(states, actions) && n <= |actions|
    requires forall i :: 0 <= i < n ==> !StaleClear(states[i], actions[i])
    ensures Inv(states[n]) && Safe(states[n])
  {
    if n > 0 {
      hide Inv, StaleClear, Step, Enabled, Trusted;
      NoTokenSentTwice(states, actions, n - 1);
      StepKeepsInv(states[n - 1], actions[n - 1]);
    }
  }

  // ----- when a stale clear can happen --------------------------------------------------------------------

  /** A step that queues a retry does so while the row still holds the spent token. */
  predicate RetriesInTime(s: State, a: Action)
    requires Enabled(s, a)
  {
    |Step(s, a).queue| == |s.queue| + 1 && Step(s, a).queue[|s.queue|].Retry? ==>
      HoldsRefreshToken(s.row, Step(s, a).queue[|s.queue|].refreshed.spent)
  }

  /** A read is answered with the row as it stands when the answer is acted on. */
  predicate ReadsInOrder(s: State, a: Action) {
    && (a.CallerRead? ==> a.got == s.row)
    && (a.RefreshResumes? && s.refresh.Read? ==> s.refresh.got == s.row)
  }

  lemma InOrderReadsRetryInTime(s: State, a: Action)
    requires Enabled(s, a) && ReadsInOrder(s, a)
    ensures RetriesInTime(s, a)
  {
  }

  /** Every queued retry is of the record now unsaved, and none waits behind a save. */
  ghost predicate RetriesFirst(s: State) {
    && (forall i :: 0 <= i < |s.queue| && s.queue[i].Retry? ==> s.unsaved in {None, Some(s.queue[i].refreshed)})
    && (forall i, j :: 0 <= i < j < |s.queue| && s.queue[i].Save? ==> !s.queue[j].Retry?)
  }

  lemma StepKeepsRetriesFirst(s: State, a: Action)
    requires Inv(s) && RetriesFirst(s) && Enabled(s, a) && RetriesInTime(s, a)
    ensures RetriesFirst(Step(s, a)) && !StaleClear(s, a)
  {
    if a.JobTurns? || a.WriteSucceeds? || a.JobReadFails? || a.WriteFails? {
      QueueStepKeepsRetriesFirst(s, a);
    } else {
      CallKeepsRetriesFirst(s, a);
    }
  }

  lemma PopKeepsRetriesFirst(s: State, s': State)
    requires RetriesFirst(s) && s.queue != [] && s'.queue == s.queue[1..]
    requires s'.unsaved in {s.unsaved, None} || (s.queue[0].Save? && s'.unsaved == Some(s.queue[0].refreshed))
    ensures RetriesFirst(s')
  {
    assert forall i :: 0 <= i < |s'.queue| ==> s'.queue[i] == s.queue[i + 1];
  }

  lemma QueueStepKeepsRetriesFirst(s: State, a: Action)
    requires Inv(s) && RetriesFirst(s) && Enabled(s, a)
    requires a.JobTurns? || a.WriteSucceeds? || a.JobReadFails? || a.WriteFails?
    ensures RetriesFirst(Step(s, a))
  {
    assert a.WriteSucceeds? ==> !s.queue[0].MarkFailed? && !s.queue[0].ReadLink?;
    hide Inv;
    match a
    case JobTurns(now) =>
      JobTurnsFrame(s, now);
      hide JobTurnsStep, RetriesFirst;
      if JobTurnsStep(s, now).write.Writing? {
        SameQueueKeepsRetriesFirst(s, JobTurnsStep(s, now));
      } else {
        PopKeepsRetriesFirst(s, JobTurnsStep(s, now));
      }
    case WriteSucceeds(now) =>
      WriteSucceedsFrame(s, now);
      hide WriteSucceedsStep, RetriesFirst;
      PopKeepsRetriesFirst(s, WriteSucceedsStep(s, now));
    case JobReadFails => JobFailsFrame(s); hide JobFails, RetriesFirst; PopKeepsRetriesFirst(s, JobFails(s));
    case WriteFails => JobFailsFrame(s); hide JobFails, RetriesFirst; PopKeepsRetriesFirst(s, JobFails(s));
  }

  lemma SameQueueKeepsRetriesFirst(s: State, s': State)
    requires RetriesFirst(s) && s'.queue == s.queue && s'.unsaved == s.unsaved
    ensures RetriesFirst(s')
  {
  }

  lemma CallKeepsRetriesFirst(s: State, a: Action)
    requires Inv(s) && RetriesFirst(s) && Enabled(s, a) && RetriesInTime(s, a)
    requires !(a.JobTurns? || a.WriteSucceeds? || a.JobReadFails? || a.WriteFails?)
    ensures RetriesFirst(Step(s, a))
  {
    var s' := Step(s, a);
    assert s'.unsaved == s.unsaved;
    assert s'.queue == s.queue || s'.queue == s.queue[..] + [s'.queue[|s.queue|]];
  }

  /** With retries queued in time there is no stale clear, so no accepted token is sent again. */
  lemma {:induction false} NoTokenSentTwiceInOrder(states: seq<State>, actions: seq<Action>, n: nat)
    requires IsRun(states, actions) && n <= |actions|
    requires forall i :: 0 <= i < n ==> RetriesInTime(states[i], actions[i])
    ensures Inv(states[n]) && RetriesFirst(states[n]) && Safe(states[n])
  {
    if n > 0 {
      hide Inv, RetriesFirst, RetriesInTime, Step, Enabled, Trusted;
      NoTokenSentTwiceInOrder(states, actions, n - 1);
      StepKeepsRetriesFirst(states[n - 1], actions[n - 1]);
      StepKeepsInv(states[n - 1], actions[n - 1]);
    }
  }
}
