/**
 * What the write queue keeps about the stored link: it is the last link stored
 * and renewals of it, and its revision tells readers of the link apart.
 */
module TwitchHistory {
  import opened Options
  import opened TwitchLink
  import opened TwitchSteps
  import opened TwitchFrames

  // ----- the row is the last link, renewed ----------------------------------------------------------------

  /** `after` renews `before`: Twitch's answer to its refresh token, or its own dashboard's grant for it. */
  ghost predicate Renews(s: State, before: Stored, after: Stored) {
    || (exists r :: r in s.answers && before.refreshToken == Some(r.spent) && after == PublicRow(r.token))
    || (exists g :: g in s.grants && MatchesGrant(Some(before), g.0) && after == DashboardRow(g.1))
  }

  predicate MatchesGrant(row: Option<Stored>, from: DashboardToken) {
    row.Some? && row.value.accessToken == Some(from.accessToken)
    && row.value.dashboardClientId == Some(from.dashboardClientId)
  }

  /** `lineage` restarts at each `store` and `clear`, so a renewal in it never replaced a newer link. */
  ghost predicate RowIsLastLinkRenewed(s: State) {
    && s.row == (if s.lineage == [] then None else Some(s.lineage[|s.lineage| - 1]))
    && forall i :: 0 < i < |s.lineage| ==> Renews(s, s.lineage[i - 1], s.lineage[i])
  }

  /** Announcements carry rising revisions, in the order of the writes they follow. */
  ghost predicate RevisionsRise(s: State) {
    && (forall i, j :: 0 <= i < j < |s.announced| ==> s.announced[i].revision < s.announced[j].revision)
    && (forall i :: 0 <= i < |s.announced| ==> s.announced[i].revision <= s.revision)
  }

  predicate JobIsGenuine(s: State, job: Job) {
    match job
    case Retry(_, refreshed) => refreshed in s.answers
    case Save(refreshed) => refreshed in s.answers
    case SaveGrant(from, granted) => (from, granted) in s.grants
    case _ => true
  }

  /** What the first job writes, and over what. */
  predicate WriteMatchesJob(s: State) {
    s.write.Writing? ==>
      && s.queue != []
      && s.row == (if s.write.landed then s.write.value else s.write.before)
      && (match s.queue[0]
          case Relink(stored) => s.write.value == Some(stored)
          case Unlink => s.write.value == None
          case Retry(_, r) => s.write.value == Some(PublicRow(r.token)) && HoldsRefreshToken(s.write.before, r.spent)
          case Save(r) => s.write.value == Some(PublicRow(r.token)) && HoldsRefreshToken(s.write.before, r.spent)
          case SaveGrant(from, granted) =>
            s.write.value == Some(DashboardRow(granted)) && MatchesGrant(s.write.before, from)
          case _ => false)
  }

  ghost predicate Genuine(s: State) {
    && (forall i :: 0 <= i < |s.queue| ==> JobIsGenuine(s, s.queue[i]))
    && (s.unsaved.Some? ==> s.unsaved.value in s.answers)
    && (s.refresh.Saving? ==> s.refresh.refreshed in s.answers)
    && WriteMatchesJob(s)
  }

  // ----- every step keeps what is genuine -----------------------------------------------------------------

  lemma JobTurnsWrites(s: State, now: int)
    requires s.queue != [] && s.write.Unwritten?
    ensures WriteMatchesJob(JobTurnsStep(s, now))
  {
    hide Describable, PublicRow, DashboardRow;
  }

  lemma QueueShrinks(s: State, s': State)
    requires Genuine(s) && s.queue != [] && (s'.queue == s.queue || s'.queue == s.queue[1..])
    requires s'.answers == s.answers && s'.grants == s.grants
    ensures forall i :: 0 <= i < |s'.queue| ==> JobIsGenuine(s', s'.queue[i])
  {
    forall i | 0 <= i < |s'.queue| ensures JobIsGenuine(s', s'.queue[i]) {
      assert JobIsGenuine(s, s'.queue[i]) by {
        assert s'.queue[i] == s.queue[if s'.queue == s.queue then i else i + 1];
      }
    }
  }

  lemma JobTurnsKeepsGenuine(s: State, now: int)
    requires Genuine(s) && Enabled(s, JobTurns(now))
    ensures Genuine(JobTurnsStep(s, now))
  {
    JobTurnsFrame(s, now);
    JobTurnsWrites(s, now);
    hide JobTurnsStep, WriteMatchesJob;
    QueueShrinks(s, JobTurnsStep(s, now));
    hide JobIsGenuine;
  }

  lemma JobFailsKeepsGenuine(s: State)
    requires Genuine(s) && s.queue != []
    ensures Genuine(JobFails(s))
  {
    JobFailsFrame(s);
    assert JobIsGenuine(s, s.queue[0]);
    hide JobFails;
    QueueShrinks(s, JobFails(s));
  }

  lemma WriteSucceedsKeepsGenuine(s: State, now: int)
    requires Genuine(s) && Enabled(s, WriteSucceeds(now))
    ensures Genuine(WriteSucceedsStep(s, now))
  {
    assert !s.queue[0].MarkFailed? && !s.queue[0].ReadLink?;
    WriteSucceedsFrame(s, now);
    hide WriteSucceedsStep;
    QueueShrinks(s, WriteSucceedsStep(s, now));
    hide JobIsGenuine;
  }

  lemma QueueStepKeepsGenuine(s: State, a: Action)
    requires Genuine(s) && Enabled(s, a) && IsQueueStep(a)
    ensures Genuine(Step(s, a))
  {
    hide Genuine;
    match a
    case JobTurns(now) => JobTurnsKeepsGenuine(s, now);
    case WriteSucceeds(now) => WriteSucceedsKeepsGenuine(s, now);
    case JobReadFails => JobFailsKeepsGenuine(s);
    case WriteFails => JobFailsKeepsGenuine(s);
  }

  /** What a call queues is genuine: Twitch's answer, a dashboard's, or the unsaved refresh. */
  lemma CallQueuesGenuine(s: State, a: Action)
    requires (s.unsaved.Some? ==> s.unsaved.value in s.answers) && Enabled(s, a) && IsCall(a)
    ensures var s' := Step(s, a);
      && (s'.queue != s.queue ==> JobIsGenuine(s', s'.queue[|s'.queue| - 1]))
      && (s'.refresh.Saving? ==> s'.refresh == s.refresh || s'.refresh.refreshed in s'.answers)
  {
    hide AsPublicToken, StillFresh, NextToken;
  }

  lemma CallKeepsGenuine(s: State, a: Action)
    requires Genuine(s) && Enabled(s, a) && IsCall(a)
    ensures Genuine(Step(s, a))
  {
    CallFrame(s, a);
    CallQueuesGenuine(s, a);
    hide Step;
    GenuineGrows(s, Step(s, a));
  }

  lemma GenuineGrows(s: State, s': State)
    requires Genuine(s) && Queues(s, s') && s'.write == s.write && s'.row == s.row && s'.unsaved == s.unsaved
    requires s.answers <= s'.answers && s.grants <= s'.grants
    requires s'.queue != s.queue ==> JobIsGenuine(s', s'.queue[|s'.queue| - 1])
    requires s'.refresh.Saving? ==> s'.refresh == s.refresh || s'.refresh.refreshed in s'.answers
    ensures Genuine(s')
  {
    forall i | 0 <= i < |s'.queue| ensures JobIsGenuine(s', s'.queue[i]) {
      assert i < |s.queue| ==> s'.queue[i] == s.queue[i] && JobIsGenuine(s, s.queue[i]);
    }
    assert s.queue != [] ==> s'.queue[0] == s.queue[0];
  }

  lemma WriteLandsKeepsGenuine(s: State)
    requires Genuine(s) && Enabled(s, WriteLands)
    ensures Genuine(WriteLandsStep(s))
  {
  }

  lemma StepKeepsGenuine(s: State, a: Action)
    requires Genuine(s) && Enabled(s, a)
    ensures Genuine(Step(s, a))
  {
    hide Genuine;
    if IsQueueStep(a) {
      QueueStepKeepsGenuine(s, a);
    } else if a.WriteLands? {
      WriteLandsKeepsGenuine(s);
    } else {
      CallKeepsGenuine(s, a);
    }
  }

  lemma OnlyALandedWriteMovesTheRow(s: State, a: Action)
    requires Genuine(s) && Enabled(s, a)
    ensures var s' := Step(s, a); s.answers <= s'.answers && s.grants <= s'.grants
    ensures !a.WriteLands? ==> Step(s, a).row == s.row && Step(s, a).lineage == s.lineage
  {
    assert a.WriteSucceeds? ==> !s.queue[0].MarkFailed? && !s.queue[0].ReadLink?;
    hide Genuine;
    match a
    case JobTurns(now) => JobTurnsFrame(s, now);
    case WriteSucceeds(now) => WriteSucceedsFrame(s, now);
    case JobReadFails => JobFailsFrame(s);
    case WriteFails => JobFailsFrame(s);
    case WriteLands =>
    case _ => CallFrame(s, a);
  }

  lemma StepKeepsLineage(s: State, a: Action)
    requires Genuine(s) && RowIsLastLinkRenewed(s) && Enabled(s, a)
    ensures RowIsLastLinkRenewed(Step(s, a))
  {
    OnlyALandedWriteMovesTheRow(s, a);
    var s' := Step(s, a);
    if a.WriteLands? && (s.queue[0].Retry? || s.queue[0].Save? || s.queue[0].SaveGrant?) {
      var last := s.lineage[|s.lineage| - 1];
      if s.queue[0].SaveGrant? {
        var g := (s.queue[0].from, s.queue[0].granted);
        assert g in s'.grants && MatchesGrant(Some(last), g.0) && s'.row.value == DashboardRow(g.1);
      } else {
        var r := s.queue[0].refreshed;
        assert r in s'.answers && last.refreshToken == Some(r.spent) && s'.row.value == PublicRow(r.token);
      }
    }
    forall i | 0 < i < |s'.lineage| ensures Renews(s', s'.lineage[i - 1], s'.lineage[i]) {
      if i < |s.lineage| {
        assert Renews(s, s.lineage[i - 1], s.lineage[i]);
      }
    }
  }

  lemma StepAnnouncesAtMostOne(s: State, a: Action)
    requires Enabled(s, a)
    ensures AnnouncesAtMostOne(s, Step(s, a))
  {
    match a
    case JobTurns(now) => JobTurnsReads(s, now);
    case WriteSucceeds(now) => WriteSucceedsAnnounces(s, now);
    case JobReadFails => JobFailsFrame(s);
    case WriteFails => JobFailsFrame(s);
    case WriteLands =>
    case _ => CallFrame(s, a);
  }

  lemma StepRaisesRevisions(s: State, a: Action)
    requires RevisionsRise(s) && Enabled(s, a)
    ensures RevisionsRise(Step(s, a))
  {
    StepAnnouncesAtMostOne(s, a);
    hide Step, Enabled;
    AnnouncingRaises(s, Step(s, a));
  }

  lemma AnnouncingRaises(s: State, s': State)
    requires RevisionsRise(s) && AnnouncesAtMostOne(s, s')
    ensures RevisionsRise(s')
  {
    if s'.announced != s.announced {
      forall i | 0 <= i < |s.announced| ensures s'.announced[i] == s.announced[i] {
        assert s'.announced[..|s.announced|][i] == s'.announced[i];
      }
    }
  }

  /**
   * In every reachable state the row is the last link stored, or a chain of
   * renewals of it, and the announced revisions rise in write order.
   */
  lemma {:induction false} EveryRunRenewsOnlyTheLastLink(states: seq<State>, actions: seq<Action>, n: nat)
    requires IsRun(states, actions) && n <= |actions|
    ensures Genuine(states[n]) && RowIsLastLinkRenewed(states[n]) && RevisionsRise(states[n])
  {
    if n > 0 {
      hide Genuine, RowIsLastLinkRenewed, RevisionsRise, Step, Enabled, Trusted;
      EveryRunRenewsOnlyTheLastLink(states, actions, n - 1);
      StepKeepsGenuine(states[n - 1], actions[n - 1]);
      StepKeepsLineage(states[n - 1], actions[n - 1]);
      StepRaisesRevisions(states[n - 1], actions[n - 1]);
    }
  }

  // ----- equal revisions, equal links ---------------------------------------------------------------------

  predicate SameView(v: View, w: View) {
    match v
    case Unlinked => w.Unlinked?
    case Linked(userId, scopes, authFailedAt) =>
      w.Linked? && w.userId == userId && Elements(w.scopes) == Elements(scopes) && w.authFailedAt == authFailedAt
  }

  /** No scope list repeats a scope, wherever a step could store it from. */
  ghost predicate ScopesDistinct(s: State) {
    && RowScopes(s.row)
    && (s.refresh.Read? ==> RowScopes(s.refresh.got))
    && (s.refresh.Sent? ==> Distinct(s.refresh.current.scope))
    && (s.unsaved.Some? ==> Distinct(s.unsaved.value.token.scope))
    && (s.refresh.Saving? ==> Distinct(s.refresh.refreshed.token.scope))
    && (forall i :: 0 <= i < |s.queue| ==> JobScopes(s.queue[i]))
    && (s.write.Writing? ==> RowScopes(s.write.before))
  }

  ghost predicate RowScopes(row: Option<Stored>) {
    row.Some? && row.value.scope.Some? ==> Distinct(row.value.scope.value)
  }

  ghost predicate JobScopes(job: Job) {
    match job
    case Retry(_, r) => Distinct(r.token.scope)
    case Save(r) => Distinct(r.token.scope)
    case Relink(stored) => RowScopes(Some(stored))
    case SaveGrant(_, granted) => Distinct(granted.scope)
    case _ => true
  }

  /** The scope lists that enter from outside repeat no scope, and a failed write leaves the row as it was. */
  ghost predicate Tidy(s: State, a: Action) {
    match a
    case StoreCalled(stored) => RowScopes(Some(stored))
    case DashboardGranted(_, granted) => Distinct(granted.scope)
    case TwitchAnswers(answer) => answer.scope.Some? ==> Distinct(answer.scope.value)
    case WriteFails => s.write.Writing? ==> !s.write.landed
    case _ => true
  }

  lemma ScopesAfterPop(s: State, s': State)
    requires ScopesDistinct(s) && s.queue != [] && (s'.queue == s.queue || s'.queue == s.queue[1..])
    ensures forall i :: 0 <= i < |s'.queue| ==> JobScopes(s'.queue[i])
  {
    forall i | 0 <= i < |s'.queue| ensures JobScopes(s'.queue[i]) {
      assert s'.queue[i] == s.queue[if s'.queue == s.queue then i else i + 1];
    }
  }

  lemma WriteSucceedsKeepsScopesDistinct(s: State, now: int)
    requires WriteMatchesJob(s) && ScopesDistinct(s) && Enabled(s, WriteSucceeds(now))
    ensures ScopesDistinct(WriteSucceedsStep(s, now))
  {
    assert JobScopes(s.queue[0]);
    assert !s.queue[0].MarkFailed? && !s.queue[0].ReadLink?;
    WriteSucceedsFrame(s, now);
    hide WriteSucceedsStep, WriteMatchesJob;
    ScopesAfterPop(s, WriteSucceedsStep(s, now));
    hide RowScopes;
  }

  lemma JobTurnsKeepsScopesDistinct(s: State, now: int)
    requires ScopesDistinct(s) && Enabled(s, JobTurns(now))
    ensures ScopesDistinct(JobTurnsStep(s, now))
  {
    JobTurnsFrame(s, now);
    hide JobTurnsStep;
    ScopesAfterPop(s, JobTurnsStep(s, now));
    hide RowScopes, JobScopes;
  }

  lemma JobFailsKeepsScopesDistinct(s: State)
    requires ScopesDistinct(s) && s.queue != []
    ensures ScopesDistinct(JobFails(s))
  {
    assert JobScopes(s.queue[0]);
    JobFailsFrame(s);
    hide JobFails;
    ScopesAfterPop(s, JobFails(s));
    hide RowScopes;
  }

  /** What a call queues, reads and sends repeats no scope either. */
  lemma CallScopes(s: State, a: Action)
    requires ScopesDistinct(s) && Enabled(s, a) && IsCall(a) && Tidy(s, a)
    ensures var s' := Step(s, a);
      && (s'.queue != s.queue ==> JobScopes(s'.queue[|s'.queue| - 1]))
      && (s'.refresh.Read? ==> RowScopes(s'.refresh.got)) && (s'.refresh.Sent? ==> Distinct(s'.refresh.current.scope))
      && (s'.refresh.Saving? ==> Distinct(s'.refresh.refreshed.token.scope))
  {
    hide StillFresh, Distinct;
  }

  lemma StepKeepsScopesDistinct(s: State, a: Action)
    requires Genuine(s) && ScopesDistinct(s) && Enabled(s, a) && Tidy(s, a)
    ensures ScopesDistinct(Step(s, a))
  {
    match a
    case JobTurns(now) => JobTurnsKeepsScopesDistinct(s, now);
    case WriteSucceeds(now) => WriteSucceedsKeepsScopesDistinct(s, now);
    case JobReadFails => JobFailsKeepsScopesDistinct(s);
    case WriteFails => JobFailsKeepsScopesDistinct(s);
    case WriteLands => WriteLandsKeepsScopesDistinct(s);
    case _ => CallKeepsScopesDistinct(s, a);
  }

  lemma WriteLandsKeepsScopesDistinct(s: State)
    requires WriteMatchesJob(s) && ScopesDistinct(s) && Enabled(s, WriteLands)
    ensures ScopesDistinct(WriteLandsStep(s))
  {
    assert JobScopes(s.queue[0]);
    assert RowScopes(s.write.value);
    hide JobScopes, RowScopes, WriteMatchesJob;
  }

  lemma CallKeepsScopesDistinct(s: State, a: Action)
    requires ScopesDistinct(s) && Enabled(s, a) && IsCall(a) && Tidy(s, a)
    ensures ScopesDistinct(Step(s, a))
  {
    CallFrame(s, a);
    CallScopes(s, a);
    hide Step, JobScopes, RowScopes, Tidy;
    var s' := Step(s, a);
    forall i | 0 <= i < |s'.queue| ensures JobScopes(s'.queue[i]) {
      assert i < |s.queue| ==> s'.queue[i] == s.queue[i];
    }
  }

  /** The row as far as the revision knows it: a landed write is announced only when it is answered. */
  function SettledRow(s: State): Option<Stored> {
    if s.write.Writing? then s.write.before else s.row
  }

  /** A link read at the current revision is still what the row says. */
  ghost predicate ReadsAgree(s: State) {
    && (forall i :: 0 <= i < |s.linkReads| ==>
          s.linkReads[i].revision <= s.revision
          && (s.linkReads[i].revision == s.revision ==>
                Describable(SettledRow(s)) && SameView(s.linkReads[i].view, ViewOf(SettledRow(s), s.authFailedAt))))
    && (forall i, j :: 0 <= i < |s.linkReads| && 0 <= j < |s.linkReads|
                       && s.linkReads[i].revision == s.linkReads[j].revision ==>
          SameView(s.linkReads[i].view, s.linkReads[j].view))
  }

  /** A renewal that is not announced leaves the link's account, scopes and standing as they were. */
  lemma QuietRenewalKeepsView(s: State, before: Stored, after: Stored, userId: string, scope: seq<string>, now: int)
    requires after.userId == Some(userId) && after.scope == Some(scope) && Distinct(scope)
    requires NoteRenewal(s, Some(before), userId, scope, now).revision == s.revision
    requires Describable(Some(before))
    ensures Describable(Some(after)) && NoteRenewal(s, Some(before), userId, scope, now) == s
    ensures SameView(ViewOf(Some(before), s.authFailedAt), ViewOf(Some(after), s.authFailedAt))
  {
    SameScopesIsSetEquality(before.scope.value, scope);
  }

  /** A step that answers no read keeps them in agreement if it raises the revision or leaves what they saw. */
  lemma ReadsStillAgree(s: State, s': State)
    requires ReadsAgree(s) && s'.linkReads == s.linkReads && s'.revision >= s.revision
    requires s'.revision == s.revision && Describable(SettledRow(s)) ==>
      && Describable(SettledRow(s'))
      && SameView(ViewOf(SettledRow(s), s.authFailedAt), ViewOf(SettledRow(s'), s'.authFailedAt))
    ensures ReadsAgree(s')
  {
    hide ViewOf, Describable, SettledRow;
  }

  lemma OneMoreReadAgrees(s: State, s': State)
    requires ReadsAgree(s) && Describable(SettledRow(s)) && SettledRow(s') == SettledRow(s)
    requires s'.revision == s.revision && s'.authFailedAt == s.authFailedAt
    requires s'.linkReads == s.linkReads + [LinkRead(s.revision, ViewOf(SettledRow(s), s.authFailedAt))]
    ensures ReadsAgree(s')
  {
    hide ViewOf, Describable, SettledRow;
  }

  /** A renewal that announces nothing settles on a row whose view is the one before it. */
  lemma QuietWriteKeepsView(s: State, now: int)
    requires WriteMatchesJob(s) && ScopesDistinct(s) && Enabled(s, WriteSucceeds(now))
    ensures var s' := WriteSucceedsStep(s, now);
      && s'.revision >= s.revision
      && (s'.revision == s.revision && Describable(s.write.before) ==>
            && s'.authFailedAt == s.authFailedAt && Describable(s.row)
            && SameView(ViewOf(s.write.before, s.authFailedAt), ViewOf(s.row, s.authFailedAt)))
  {
    assert JobScopes(s.queue[0]);
    var s' := WriteSucceedsStep(s, now);
    if s'.revision == s.revision && Describable(s.write.before) {
      match s.queue[0]
      case Retry(_, r) =>
        QuietRenewalKeepsView(Popped(s), s.write.before.value, PublicRow(r.token), r.token.userId, r.token.scope, now);
      case Save(r) =>
        QuietRenewalKeepsView(Popped(s), s.write.before.value, PublicRow(r.token), r.token.userId, r.token.scope, now);
      case SaveGrant(_, g) =>
        QuietRenewalKeepsView(Popped(s), s.write.before.value, DashboardRow(g), g.userId, g.scope, now);
    }
    hide SameView, ViewOf, Describable, SameScopes, StillFresh;
  }

  lemma WriteSucceedsKeepsReadsAgree(s: State, now: int)
    requires WriteMatchesJob(s) && ScopesDistinct(s) && ReadsAgree(s) && Enabled(s, WriteSucceeds(now))
    ensures ReadsAgree(WriteSucceedsStep(s, now))
  {
    assert !s.queue[0].MarkFailed? && !s.queue[0].ReadLink?;
    WriteSucceedsFrame(s, now);
    QuietWriteKeepsView(s, now);
    hide WriteSucceedsStep, WriteMatchesJob, ScopesDistinct, SameView, ViewOf, Describable, ReadsAgree;
    ReadsStillAgree(s, WriteSucceedsStep(s, now));
  }

  lemma SameViewAsItself(v: View)
    ensures SameView(v, v)
  {
  }

  lemma JobTurnsKeepsReadsAgree(s: State, now: int)
    requires ReadsAgree(s) && Enabled(s, JobTurns(now))
    ensures ReadsAgree(JobTurnsStep(s, now))
  {
    JobTurnsFrame(s, now);
    JobTurnsReads(s, now);
    hide JobTurnsStep, ReadsAgree, ViewOf, Describable, SameView;
    var s' := JobTurnsStep(s, now);
    assert SettledRow(s') == s.row == SettledRow(s);
    if s'.linkReads == s.linkReads {
      if Describable(s.row) {
        SameViewAsItself(ViewOf(s.row, s.authFailedAt));
      }
      ReadsStillAgree(s, s');
    } else {
      OneMoreReadAgrees(s, s');
    }
  }

  /** Every other step answers no read, announces nothing, and leaves the settled row as it was. */
  lemma OtherStepSettles(s: State, a: Action)
    requires Genuine(s) && Enabled(s, a) && Tidy(s, a) && !a.JobTurns? && !a.WriteSucceeds?
    ensures var s' := Step(s, a);
      && s'.linkReads == s.linkReads && s'.revision == s.revision && s'.authFailedAt == s.authFailedAt
      && SettledRow(s') == SettledRow(s)
  {
    match a
    case JobReadFails => JobFailsFrame(s);
    case WriteFails => JobFailsFrame(s);
    case WriteLands =>
    case _ => CallFrame(s, a); hide Step;
  }

  lemma StepKeepsReadsAgree(s: State, a: Action)
    requires Genuine(s) && ScopesDistinct(s) && ReadsAgree(s) && Enabled(s, a) && Tidy(s, a)
    ensures ReadsAgree(Step(s, a))
  {
    if a.WriteSucceeds? {
      WriteSucceedsKeepsReadsAgree(s, a.now);
    } else if a.JobTurns? {
      JobTurnsKeepsReadsAgree(s, a.now);
    } else {
      OtherStepSettles(s, a);
      hide Step, Genuine, ScopesDistinct, Tidy, ReadsAgree, ViewOf, Describable, SettledRow, SameView;
      if Describable(SettledRow(s)) {
        SameViewAsItself(ViewOf(SettledRow(s), s.authFailedAt));
      }
      ReadsStillAgree(s, Step(s, a));
    }
  }

  /** Two reads of the link at one revision agree on the account, its scopes and when it stopped working. */
  lemma {:induction false} EqualRevisionsEqualLinks(states: seq<State>, actions: seq<Action>, n: nat)
    requires IsRun(states, actions) && n <= |actions| && RowScopes(states[0].row)
    requires forall i :: 0 <= i < n ==> Tidy(states[i], actions[i])
    ensures Genuine(states[n]) && ScopesDistinct(states[n]) && ReadsAgree(states[n])
  {
    if n > 0 {
      hide Genuine, ScopesDistinct, ReadsAgree, Tidy, Step, Enabled, Trusted;
      EqualRevisionsEqualLinks(states, actions, n - 1);
      StepKeepsGenuine(states[n - 1], actions[n - 1]);
      StepKeepsScopesDistinct(states[n - 1], actions[n - 1]);
      StepKeepsReadsAgree(states[n - 1], actions[n - 1]);
    }
  }
}
