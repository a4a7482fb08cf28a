/**
 * `TwitchTokenSource` as a machine: one function per stretch of code between
 * two awaited calls, over the process's own fields, the stored row, and what
 * Twitch and the readers of the link have been told.
 *
 * The reads and writes of the row are split where another stretch can run in
 * between: a read outside the write queue may be answered with a row that has
 * moved on since, and a write takes effect some time before its answer arrives
 * or although its answer is a failure.
 */
module TwitchSteps {
  import opened Options
  import opened TwitchLink

  const EXPIRY_MARGIN_MS := 60_000

  /** A refreshed token and the refresh token Twitch took for it. */
  datatype Refreshed = Refreshed(spent: string, token: PublicToken)

  /** Who is retrying an unsaved refresh: a `publicToken` caller, or the shared refresh itself. */
  datatype Asker = Caller(force: bool) | SharedRefresh(seen: PublicToken)

  /** One entry of the write queue. */
  datatype Job =
    | Retry(asker: Asker, refreshed: Refreshed)
    | Save(refreshed: Refreshed)
    | Relink(stored: Stored)
    | Unlink
    | ReadLink
    | MarkFailed(accessToken: string, userId: string, byRefresh: bool)
    | SaveGrant(from: DashboardToken, granted: DashboardToken)

  /** What the queue's first job is doing: its own read, or a write of `value` over `before`. */
  datatype Write = Unwritten | Writing(before: Option<Stored>, value: Option<Stored>, landed: bool)

  /** The shared refresh (`publicPending`), by the call it awaits. */
  datatype Refresh =
    | Idle
    | Reading(seen: PublicToken)
    | Read(seen: PublicToken, got: Option<Stored>)
    | Retrying(seen: PublicToken)
    | Sent(current: PublicToken)
    | Saving(refreshed: Refreshed)
    | Marking
    | Serving

  datatype Change = Change(revision: int, userId: Option<string>, authFailedAt: Option<int>)

  datatype View = Unlinked | Linked(userId: string, scopes: seq<string>, authFailedAt: Option<int>)

  datatype LinkRead = LinkRead(revision: int, view: View)

  /** What Twitch answers to a refresh; no scope list means the token kept its scopes. */
  datatype Answer = Answer(accessToken: string, refreshToken: string, scope: Option<seq<string>>,
                           expiresIn: int, obtainedAt: int)

  /**
   * `accepted` holds every refresh token Twitch answered with a new one, and
   * `answers` the pairs; `grants` the tokens dashboards gave for another;
   * `lineage` the rows written since the last `store` or `clear`.
   */
  datatype State = State(
    row: Option<Stored>,
    unsaved: Option<Refreshed>,
    refused: Option<string>,
    authFailedAt: Option<int>,
    revision: int,
    queue: seq<Job>,
    write: Write,
    refresh: Refresh,
    accepted: set<string>,
    answers: set<Refreshed>,
    grants: set<(DashboardToken, DashboardToken)>,
    lineage: seq<Stored>,
    announced: seq<Change>,
    linkReads: seq<LinkRead>)

  datatype Action =
    | CallerRead(force: bool, got: Option<Stored>, now: int)
    | RefreshReads
    | RefreshResumes
    | RefreshReadFails
    | TwitchAnswers(answer: Answer)
    | TwitchRefuses
    | TwitchUnreachable
    | Served
    | StoreCalled(stored: Stored)
    | ClearCalled
    | LinkCalled
    | DashboardGranted(from: DashboardToken, granted: DashboardToken)
    | DashboardRefused(from: DashboardToken)
    | JobTurns(now: int)
    | JobReadFails
    | WriteLands
    | WriteSucceeds(now: int)
    | WriteFails

  predicate HoldsRefreshToken(row: Option<Stored>, refreshToken: string) {
    row.Some? && row.value.refreshToken == Some(refreshToken)
  }

  predicate StillFresh(token: PublicToken, now: int) {
    token.obtainedAt + token.expiresIn * 1000 - EXPIRY_MARGIN_MS > now
  }

  function Max(a: int, b: int): int {
    if a < b then b else a
  }

  function Announce(s: State, userId: Option<string>, authFailedAt: Option<int>, now: int): State {
    var revision := Max(s.revision + 1, now);
    s.(revision := revision, announced := s.announced + [Change(revision, userId, authFailedAt)])
  }

  // ----- publicToken and the shared refresh ---------------------------------------------------------------

  /** A caller's read of the row is answered with `got`. */
  function CallerReadStep(s: State, force: bool, got: Option<Stored>, now: int): State {
    if got.None? || !AsPublicToken(got.value).Usable? then s
    else
      var token := AsPublicToken(got.value).token;
      if s.unsaved.Some? && s.unsaved.value.spent == token.refreshToken then
        s.(queue := s.queue + [Retry(Caller(force), s.unsaved.value)])
      else CallerDecides(s, force, token, now)
  }

  function CallerDecides(s: State, force: bool, current: PublicToken, now: int): State {
    if !force && StillFresh(current, now) then s
    else if s.refresh.Idle? then s.(refresh := Reading(current))
    else s
  }

  /** The shared refresh resumes with the row it read. */
  function RefreshResumesStep(s: State): State
    requires s.refresh.Read?
  {
    var Read(seen, got) := s.refresh;
    if got.None? || !AsPublicToken(got.value).Usable? then s.(refresh := Idle)
    else
      var token := AsPublicToken(got.value).token;
      if s.unsaved.Some? && s.unsaved.value.spent == token.refreshToken then
        s.(queue := s.queue + [Retry(SharedRefresh(seen), s.unsaved.value)], refresh := Retrying(seen))
      else RefreshDecides(s, seen, token)
  }

  /** Sends `current`'s refresh token to Twitch unless the row moved on or Twitch refused it before. */
  function RefreshDecides(s: State, seen: PublicToken, current: PublicToken): State {
    if current.refreshToken != seen.refreshToken || s.refused == Some(current.refreshToken) then s.(refresh := Idle)
    else s.(refresh := Sent(current))
  }

  function NextToken(current: PublicToken, answer: Answer): PublicToken {
    PublicToken(current.userId, answer.accessToken, answer.refreshToken,
                if answer.scope.Some? then answer.scope.value else current.scope,
                answer.expiresIn, answer.obtainedAt, current.publicClientId)
  }

  function TwitchAnswersStep(s: State, answer: Answer): State
    requires s.refresh.Sent?
  {
    var current := s.refresh.current;
    var refreshed := Refreshed(current.refreshToken, NextToken(current, answer));
    s.(refresh := Saving(refreshed), queue := s.queue + [Save(refreshed)],
       accepted := s.accepted + {current.refreshToken}, answers := s.answers + {refreshed})
  }

  function TwitchRefusesStep(s: State): State
    requires s.refresh.Sent?
  {
    var current := s.refresh.current;
    s.(refresh := Marking, refused := Some(current.refreshToken),
       queue := s.queue + [MarkFailed(current.accessToken, current.userId, true)])
  }

  // ----- the write queue ----------------------------------------------------------------------------------

  function Popped(s: State): State
    requires s.queue != []
  {
    s.(queue := s.queue[1..], write := Unwritten)
  }

  /** The queue's first job starts: a relink writes; any other job first reads the row, with no write in between. */
  function JobTurnsStep(s: State, now: int): State
    requires s.queue != [] && s.write.Unwritten?
  {
    match s.queue[0]
    case Relink(stored) => s.(write := Writing(s.row, Some(stored), false))
    case Unlink => s.(write := Writing(s.row, None, false))
    case Retry(asker, refreshed) =>
      if HoldsRefreshToken(s.row, refreshed.spent) then
        s.(write := Writing(s.row, Some(PublicRow(refreshed.token)), false))
      else RetryFoundRelink(s)
    case Save(refreshed) =>
      if HoldsRefreshToken(s.row, refreshed.spent) then
        s.(write := Writing(s.row, Some(PublicRow(refreshed.token)), false))
      else Popped(s).(refresh := Serving)
    case SaveGrant(from, granted) =>
      if s.row.Some? && s.row.value.accessToken == Some(from.accessToken)
         && s.row.value.dashboardClientId == Some(from.dashboardClientId) then
        s.(write := Writing(s.row, Some(DashboardRow(granted)), false))
      else Popped(s)
    case MarkFailed(accessToken, userId, byRefresh) =>
      var s' := Popped(s).(refresh := if byRefresh then Idle else s.refresh);
      if s.row.Some? && s.row.value.accessToken == Some(accessToken) && s.authFailedAt.None? then
        Announce(s'.(authFailedAt := Some(now)), Some(userId), Some(now), now)
      else s'
    case ReadLink =>
      if Describable(s.row) then
        Popped(s).(linkReads := s.linkReads + [LinkRead(s.revision, ViewOf(s.row, s.authFailedAt))])
      else Popped(s)
  }

  /** The retried token's row was replaced: whatever `unsaved` holds now is dropped, and the asker reads again. */
  function RetryFoundRelink(s: State): State
    requires s.queue != [] && s.queue[0].Retry?
  {
    var s' := Popped(s).(unsaved := None);
    match s.queue[0].asker
    case Caller(_) => s'
    case SharedRefresh(seen) => s'.(refresh := Reading(seen))
  }

  /** The first job's read or write is answered with a failure, its caller with the error. */
  function JobFails(s: State): State
    requires s.queue != []
  {
    match s.queue[0]
    case Save(refreshed) => Popped(s).(unsaved := Some(refreshed), refresh := Idle)
    case Retry(SharedRefresh(_), _) => Popped(s).(refresh := Idle)
    case MarkFailed(_, _, true) => Popped(s).(refresh := Idle)
    case _ => Popped(s)
  }

  function WriteLandsStep(s: State): State
    requires s.queue != [] && s.write.Writing? && !s.write.landed
  {
    var value := s.write.value;
    s.(row := value, write := s.write.(landed := true),
       lineage := if value.None? then [] else if s.queue[0].Relink? then [value.value] else s.lineage + [value.value])
  }

  /** The first job's write is answered with success. */
  function WriteSucceedsStep(s: State, now: int): State
    requires s.queue != [] && s.write.Writing?
  {
    match s.queue[0]
    case Relink(stored) => Announce(Popped(s).(authFailedAt := None), stored.userId, None, now)
    case Unlink => Announce(Popped(s).(authFailedAt := None), None, None, now)
    case Save(refreshed) =>
      NoteRenewal(Popped(s), s.write.before, refreshed.token.userId, refreshed.token.scope, now).(refresh := Idle)
    case SaveGrant(_, granted) => NoteRenewal(Popped(s), s.write.before, granted.userId, granted.scope, now)
    case Retry(asker, refreshed) => RetryContinues(RetrySaved(s, now), asker, refreshed.token, now)
    case _ => s
  }

  /** The unsaved token is in the row at last. */
  function RetrySaved(s: State, now: int): State
    requires s.queue != [] && s.queue[0].Retry? && s.write.Writing?
  {
    var token := s.queue[0].refreshed.token;
    NoteRenewal(Popped(s), s.write.before, token.userId, token.scope, now).(unsaved := None)
  }

  /** Whoever retried goes on with the token it wrote. */
  function RetryContinues(s: State, asker: Asker, token: PublicToken, now: int): State {
    match asker
    case Caller(force) => CallerDecides(s, force, token, now)
    case SharedRefresh(seen) => RefreshDecides(s, seen, token)
  }

  /** A renewal is announced when it changed the account or its scopes, or brought a refused link back. */
  function NoteRenewal(s: State, before: Option<Stored>, userId: string, scope: seq<string>, now: int): State {
    var sameAccount := before.Some? && before.value.userId == Some(userId) && SameScopes(before.value.scope, scope);
    if sameAccount && s.authFailedAt.None? then s
    else Announce(s.(authFailedAt := None), Some(userId), None, now)
  }

  /** Whether `link` can describe the row, rather than throw. */
  predicate Describable(row: Option<Stored>) {
    row.Some? ==> Named(row.value.userId) && row.value.scope.Some?
  }

  function ViewOf(row: Option<Stored>, authFailedAt: Option<int>): View
    requires Describable(row)
  {
    if row.None? then Unlinked else Linked(row.value.userId.value, row.value.scope.value, authFailedAt)
  }

  // ----- runs ---------------------------------------------------------------------------------------------

  /** A refresh's answer without its tokens is an error of the client's (`TwitchUnreachable`). */
  predicate Enabled(s: State, a: Action) {
    match a
    case RefreshReads => s.refresh.Reading?
    case RefreshResumes => s.refresh.Read?
    case RefreshReadFails => s.refresh.Reading? || s.refresh.Read?
    case TwitchAnswers(answer) => s.refresh.Sent? && answer.accessToken != "" && answer.refreshToken != ""
    case TwitchRefuses => s.refresh.Sent?
    case TwitchUnreachable => s.refresh.Sent?
    case Served => s.refresh.Serving?
    case StoreCalled(stored) => Named(stored.userId)
    case DashboardGranted(from, granted) => granted.dashboardClientId == from.dashboardClientId
    case JobTurns(_) => s.queue != [] && s.write.Unwritten?
    case JobReadFails => s.queue != [] && s.write.Unwritten? && !s.queue[0].Relink? && !s.queue[0].Unlink?
    case WriteLands => s.queue != [] && s.write.Writing? && !s.write.landed
    case WriteSucceeds(_) => s.queue != [] && s.write.Writing? && s.write.landed
    case WriteFails => s.queue != [] && s.write.Writing?
    case _ => true
  }

  function Step(s: State, a: Action): State
    requires Enabled(s, a)
  {
    match a
    case CallerRead(force, got, now) => CallerReadStep(s, force, got, now)
    case RefreshReads => s.(refresh := Read(s.refresh.seen, s.row))
    case RefreshResumes => RefreshResumesStep(s)
    case RefreshReadFails => s.(refresh := Idle)
    case TwitchAnswers(answer) => TwitchAnswersStep(s, answer)
    case TwitchRefuses => TwitchRefusesStep(s)
    case TwitchUnreachable => s.(refresh := Idle)
    case Served => s.(refresh := Idle)
    case StoreCalled(stored) => s.(queue := s.queue + [Relink(stored)])
    case ClearCalled => s.(queue := s.queue + [Unlink])
    case LinkCalled => s.(queue := s.queue + [ReadLink])
    case DashboardGranted(from, granted) =>
      s.(queue := s.queue + [SaveGrant(from, granted)], grants := s.grants + {(from, granted)})
    case DashboardRefused(from) => s.(queue := s.queue + [MarkFailed(from.accessToken, from.userId, false)])
    case JobTurns(now) => JobTurnsStep(s, now)
    case JobReadFails => JobFails(s)
    case WriteLands => WriteLandsStep(s)
    case WriteSucceeds(now) => WriteSucceedsStep(s, now)
    case WriteFails => JobFails(s)
  }

  /**
   * What the rest of the world is trusted for. Twitch answers a refresh with a
   * refresh token that is new, and a relink never brings back a refresh token
   * Twitch has accepted.
   */
  predicate Trusted(s: State, a: Action) {
    match a
    case TwitchAnswers(answer) =>
      s.refresh.Sent? ==> answer.refreshToken !in s.accepted && answer.refreshToken != s.refresh.current.refreshToken
    case WriteLands =>
      s.queue != [] && s.queue[0].Relink? && s.queue[0].stored.refreshToken.Some?
      ==> s.queue[0].stored.refreshToken.value !in s.accepted
    case _ => true
  }

  predicate Initial(s: State) {
    && s.unsaved.None? && s.refused.None? && s.authFailedAt.None?
    && s.queue == [] && s.write.Unwritten? && s.refresh.Idle?
    && s.accepted == {} && s.answers == {} && s.grants == {}
    && s.lineage == (if s.row.None? then [] else [s.row.value])
    && s.announced == [] && s.linkReads == []
  }

  /** A run: `states[i + 1]` is `states[i]` after `actions[i]`, whatever order the callers' steps came in. */
  ghost predicate IsRun(states: seq<State>, actions: seq<Action>) {
    && |states| == |actions| + 1
    && Initial(states[0])
    && forall i :: 0 <= i < |actions| ==>
         Enabled(states[i], actions[i]) && Trusted(states[i], actions[i])
         && states[i + 1] == Step(states[i], actions[i])
  }
}
