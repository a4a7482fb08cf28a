/**
 * What each kind of step of `TwitchSteps` leaves alone, so that what a lemma
 * is about can be told from the rest of the state.
 */
module TwitchFrames {
  import opened Options
  import opened TwitchLink
  import opened TwitchSteps

  predicate IsQueueStep(a: Action) {
    a.JobTurns? || a.JobReadFails? || a.WriteSucceeds? || a.WriteFails?
  }

  /** The row, what was ever written since it was linked, and what tokens there have been. */
  predicate LeavesRow(s: State, s': State) {
    s'.row == s.row && s'.lineage == s.lineage && s'.answers == s.answers && s'.grants == s.grants
  }

  /** Nothing is announced, or one change under a higher revision. */
  predicate AnnouncesAtMostOne(s: State, s': State) {
    || (s'.announced == s.announced && s'.revision == s.revision)
    || (|s'.announced| == |s.announced| + 1 && s'.announced[..|s.announced|] == s.announced
        && s'.announced[|s.announced|].revision == s'.revision > s.revision)
  }

  /** The first job starts its write, and that is all; or it is done. */
  predicate TurnsFirstJob(s: State, s': State) {
    && s.queue != []
    && ((s' == s.(write := s'.write) && s'.write.Writing? && s'.write.before == s.row && !s'.write.landed)
        || (s'.queue == s.queue[1..] && s'.write.Unwritten?))
  }

  lemma JobTurnsFrame(s: State, now: int)
    requires s.queue != [] && s.write.Unwritten?
    ensures var s' := JobTurnsStep(s, now);
      && LeavesRow(s, s') && TurnsFirstJob(s, s') && s'.unsaved in {s.unsaved, None}
      && (s'.refresh == s.refresh || s'.refresh.Idle? || s'.refresh.Serving? || s'.refresh.Reading?)
  {
    hide HoldsRefreshToken, Describable, PublicRow, DashboardRow;
  }

  /** Besides what it announces, a job's turn can only answer one read of the link. */
  predicate ReadsAtMostOne(s: State, s': State) {
    || (s'.linkReads == s.linkReads && (s'.revision > s.revision || s'.authFailedAt == s.authFailedAt))
    || (Describable(s.row) && s'.linkReads == s.linkReads + [LinkRead(s.revision, ViewOf(s.row, s.authFailedAt))]
        && s'.revision == s.revision && s'.authFailedAt == s.authFailedAt && s'.row == s.row && s'.write.Unwritten?)
  }

  lemma JobTurnsReads(s: State, now: int)
    requires s.queue != [] && s.write.Unwritten?
    ensures ReadsAtMostOne(s, JobTurnsStep(s, now)) && AnnouncesAtMostOne(s, JobTurnsStep(s, now))
  {
    hide HoldsRefreshToken, PublicRow, DashboardRow, ViewOf, Describable;
  }

  lemma WriteSucceedsFrame(s: State, now: int)
    requires s.queue != [] && s.write.Writing?
    requires !s.queue[0].MarkFailed? && !s.queue[0].ReadLink?
    ensures var s' := WriteSucceedsStep(s, now);
      && LeavesRow(s, s') && s'.queue == s.queue[1..] && s'.write.Unwritten? && s'.linkReads == s.linkReads
      && s'.unsaved in {None, s.unsaved}
      && (s'.refresh == s.refresh || s'.refresh.Idle? || s'.refresh.Reading?
          || (s.queue[0].Retry? && s'.refresh == Sent(s.queue[0].refreshed.token)))
  {
    hide SameScopes, StillFresh;
    if s.queue[0].Retry? {
      RetrySavedFrame(s, now);
      hide RetrySaved;
    }
  }

  lemma RetrySavedFrame(s: State, now: int)
    requires s.queue != [] && s.queue[0].Retry? && s.write.Writing?
    ensures var s' := RetrySaved(s, now);
      && LeavesRow(s, s') && s'.queue == s.queue[1..] && s'.write.Unwritten? && s'.linkReads == s.linkReads
      && s'.unsaved.None? && s'.refresh == s.refresh
  {
    hide SameScopes;
  }

  lemma WriteSucceedsAnnounces(s: State, now: int)
    requires s.queue != [] && s.write.Writing?
    ensures AnnouncesAtMostOne(s, WriteSucceedsStep(s, now))
  {
    hide SameScopes, StillFresh;
  }

  lemma JobFailsFrame(s: State)
    requires s.queue != []
    ensures var s' := JobFails(s);
      && LeavesRow(s, s') && s'.queue == s.queue[1..] && s'.write.Unwritten? && s'.linkReads == s.linkReads
      && s'.revision == s.revision && s'.announced == s.announced && s'.authFailedAt == s.authFailedAt
      && (s'.refresh == s.refresh || s'.refresh.Idle?)
      && (s'.unsaved == s.unsaved || (s.queue[0].Save? && s'.unsaved == Some(s.queue[0].refreshed)))
  {
  }

  /** The job that joins the queue, if one does. */
  predicate Queues(s: State, s': State) {
    s'.queue == s.queue || (s'.queue != [] && s'.queue == s.queue + [s'.queue[|s'.queue| - 1]])
  }

  predicate IsCall(a: Action) {
    !IsQueueStep(a) && !a.WriteLands?
  }

  lemma CallFrame(s: State, a: Action)
    requires Enabled(s, a) && IsCall(a)
    ensures var s' := Step(s, a);
      && s'.row == s.row && s'.lineage == s.lineage && s.answers <= s'.answers && s.grants <= s'.grants
      && s'.write == s.write && s'.unsaved == s.unsaved && s'.linkReads == s.linkReads
      && s'.revision == s.revision && s'.announced == s.announced && s'.authFailedAt == s.authFailedAt && Queues(s, s')
  {
    hide AsPublicToken, StillFresh, NextToken;
  }
}
