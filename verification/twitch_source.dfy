/**
 * `TwitchTokenSource` in its own form: an object whose methods are the
 * stretches of code between two awaited calls. Each is proved to be the step
 * of `TwitchSteps` it implements and to keep the object valid: no refresh
 * token Twitch has accepted is at hand to be sent again, the row is the last
 * link or renewals of it, and announced revisions rise. `JobResumes` alone
 * may not, exactly when it makes a stale clear.
 */
module TwitchSource {
  import opened Options
  import opened TwitchLink
  import opened TwitchSteps
  import TwitchTokens
  import TwitchHistory
  import TwitchFrames

  /** What the object keeps. */
  ghost predicate Sound(s: State) {
    && TwitchTokens.Inv(s) && TwitchHistory.Genuine(s)
    && TwitchHistory.RowIsLastLinkRenewed(s) && TwitchHistory.RevisionsRise(s)
  }

  lemma InitialIsSound(s: State)
    requires Initial(s)
    ensures Sound(s)
  {
  }

  lemma StepKeepsSound(s: State, a: Action)
    requires Sound(s) && Enabled(s, a) && Trusted(s, a) && !TwitchTokens.StaleClear(s, a)
    ensures Sound(Step(s, a))
    ensures TwitchTokens.Safe(Step(s, a))
  {
    hide TwitchTokens.Inv, TwitchHistory.Genuine, TwitchHistory.RowIsLastLinkRenewed, TwitchHistory.RevisionsRise, Step,
         Enabled, Trusted, TwitchTokens.StaleClear;
    TwitchTokens.StepKeepsInv(s, a);
    TwitchTokens.InvIsSafe(Step(s, a));
    TwitchHistory.StepKeepsGenuine(s, a);
    TwitchHistory.StepKeepsLineage(s, a);
    TwitchHistory.StepRaisesRevisions(s, a);
  }

  lemma RelinkKeepsSound(s: State, stored: Stored)
    requires Sound(s)
    ensures Enabled(s, StoreCalled(stored)) <==> Named(stored.userId)
    ensures Named(stored.userId) ==>
      var s' := s.(queue := s.queue + [Relink(stored)]); Sound(s') && Step(s, StoreCalled(stored)) == s'
  {
    if Named(stored.userId) {
      StepKeepsSound(s, StoreCalled(stored));
      hide Sound;
    }
  }

  /** A turn of the queue keeps the object valid exactly when it makes no stale clear. */
  lemma TurnKeepsSound(s: State, now: int)
    requires Sound(s) && Enabled(s, JobTurns(now))
    ensures Sound(Step(s, JobTurns(now))) <==> !TwitchTokens.StaleClear(s, JobTurns(now))
  {
    TwitchTokens.OnlyAStaleClearBreaksInv(s, JobTurns(now));
    if !TwitchTokens.StaleClear(s, JobTurns(now)) {
      StepKeepsSound(s, JobTurns(now));
    }
    hide TwitchTokens.Inv, TwitchHistory.Genuine, TwitchHistory.RowIsLastLinkRenewed, TwitchHistory.RevisionsRise, Step,
         TwitchTokens.StaleClear;
  }

  lemma FailureKeepsSound(s: State)
    requires Sound(s) && s.queue != []
    ensures Sound(JobFails(s))
  {
    hide TwitchTokens.Inv, TwitchHistory.Genuine, TwitchHistory.RowIsLastLinkRenewed, TwitchHistory.RevisionsRise;
    TwitchTokens.JobFailsKeepsInv(s);
    TwitchHistory.JobFailsKeepsGenuine(s);
    TwitchFrames.JobFailsFrame(s);
    hide JobFails;
    SameRowKeepsHistory(s, JobFails(s));
  }

  lemma SameRowKeepsHistory(s: State, s': State)
    requires TwitchHistory.RowIsLastLinkRenewed(s) && TwitchHistory.RevisionsRise(s)
    requires s'.row == s.row && s'.lineage == s.lineage && s'.answers == s.answers && s'.grants == s.grants
    requires s'.announced == s.announced && s'.revision == s.revision
    ensures TwitchHistory.RowIsLastLinkRenewed(s') && TwitchHistory.RevisionsRise(s')
  {
    forall i | 0 < i < |s'.lineage| ensures TwitchHistory.Renews(s', s'.lineage[i - 1], s'.lineage[i]) {
      assert TwitchHistory.Renews(s, s.lineage[i - 1], s.lineage[i]);
    }
  }

  class TwitchTokenSource {
    /** The `twitch_token` setting, as db-proxy holds it. */
    var row: Option<Stored>
    var unsaved: Option<Refreshed>
    var refusedRefreshToken: Option<string>
    var authFailedAt: Option<int>
    var revision: int
    /** The `writes` chain: the jobs not yet settled, and what the first is doing. */
    var writes: seq<Job>
    var write: Write
    /** `publicPending`, by the call it awaits; null when idle. */
    var publicPending: Refresh
    /** The changes the listener was told of, and the answers of `link`. */
    var announced: seq<Change>
    var linkReads: seq<LinkRead>

    ghost var accepted: set<string>
    ghost var answers: set<Refreshed>
    ghost var grants: set<(DashboardToken, DashboardToken)>
    ghost var lineage: seq<Stored>

    ghost function Abstract(): State
      reads this
    {
      State(row, unsaved, refusedRefreshToken, authFailedAt, revision, writes, write, publicPending,
            accepted, answers, grants, lineage, announced, linkReads)
    }

    ghost predicate Valid()
      reads this
    {
      Sound(Abstract())
    }

    constructor (stored: Option<Stored>, now: int)
      ensures Valid() && Initial(Abstract()) && row == stored && revision == now
    {
      row, revision := stored, now;
      unsaved, refusedRefreshToken, authFailedAt := None, None, None;
      writes, write, publicPending := [], Unwritten, Idle;
      announced, linkReads := [], [];
      accepted, answers, grants := {}, {}, {};
      lineage := if stored.None? then [] else [stored.value];
      new;
      InitialIsSound(Abstract());
    }

    // ----- publicToken and refreshPublic ------------------------------------------------------------------

    /** `publicToken` once its read of the row is answered with `got`. */
    method PublicTokenResumes(force: bool, got: Option<Stored>, now: int)
      requires Valid()
      modifies this
      ensures Valid() && Abstract() == Step(old(Abstract()), CallerRead(force, got, now))
    {
      StepKeepsSound(Abstract(), CallerRead(force, got, now));
      hide Sound;
      if got.Some? {
        var read := AsPublicToken(got.value);
        if read.Usable? {
          if unsaved.Some? && unsaved.value.spent == read.token.refreshToken {
            writes := writes + [Retry(Caller(force), unsaved.value)];
          } else {
            ServeOrRefresh(force, read.token, now);
          }
        }
      }
    }

    /** The rest of `publicToken`: the current token, or the shared refresh. */
    method ServeOrRefresh(force: bool, current: PublicToken, now: int)
      modifies this`publicPending
      ensures Abstract() == CallerDecides(old(Abstract()), force, current, now)
    {
      if !force && current.obtainedAt + current.expiresIn * 1000 - EXPIRY_MARGIN_MS > now {
        return;
      }
      if publicPending.Idle? {
        publicPending := Reading(current);
      }
    }

    method RefreshRowRead()
      requires Valid()
      requires publicPending.Reading?
      modifies this
      ensures Valid() && Abstract() == Step(old(Abstract()), RefreshReads)
    {
      StepKeepsSound(Abstract(), RefreshReads);
      hide Sound;
      publicPending := Read(publicPending.seen, row);
    }

    /** `refreshPublic` once its own read of the row is answered. */
    method RefreshPublicResumes()
      requires Valid()
      requires publicPending.Read?
      modifies this
      ensures Valid() && Abstract() == Step(old(Abstract()), RefreshResumes)
      ensures publicPending.Sent? ==> publicPending.current.refreshToken !in accepted
    {
      StepKeepsSound(Abstract(), RefreshResumes);
      hide Sound;
      var seen, got := publicPending.seen, publicPending.got;
      if got.None? {
        publicPending := Idle;
        return;
      }
      var read := AsPublicToken(got.value);
      if !read.Usable? {
        publicPending := Idle;
      } else if unsaved.Some? && unsaved.value.spent == read.token.refreshToken {
        writes := writes + [Retry(SharedRefresh(seen), unsaved.value)];
        publicPending := Retrying(seen);
      } else {
        SendUnlessMovedOn(seen, read.token);
      }
    }

    method SendUnlessMovedOn(seen: PublicToken, current: PublicToken)
      modifies this`publicPending
      ensures Abstract() == RefreshDecides(old(Abstract()), seen, current)
    {
      if current.refreshToken != seen.refreshToken {
        publicPending := Idle;
      } else if refusedRefreshToken == Some(current.refreshToken) {
        publicPending := Idle;
      } else {
        publicPending := Sent(current);
      }
    }

    method RefreshFails()
      requires Valid()
      requires publicPending.Reading? || publicPending.Read?
      modifies this
      ensures Valid() && Abstract() == Step(old(Abstract()), RefreshReadFails)
    {
      StepKeepsSound(Abstract(), RefreshReadFails);
      hide Sound;
      publicPending := Idle;
    }

    method RefreshAnswered(answer: Answer)
      requires Valid()
      requires Enabled(Abstract(), TwitchAnswers(answer)) && Trusted(Abstract(), TwitchAnswers(answer))
      modifies this
      ensures Valid() && Abstract() == Step(old(Abstract()), TwitchAnswers(answer))
    {
      StepKeepsSound(Abstract(), TwitchAnswers(answer));
      hide Sound;
      var current := publicPending.current;
      var scope := if answer.scope.Some? then answer.scope.value else current.scope;
      var next := PublicToken(current.userId, answer.accessToken, answer.refreshToken, scope,
                              answer.expiresIn, answer.obtainedAt, current.publicClientId);
      var refreshed := Refreshed(current.refreshToken, next);
      writes := writes + [Save(refreshed)];
      publicPending := Saving(refreshed);
      accepted, answers := accepted + {current.refreshToken}, answers + {refreshed};
    }

    method RefreshRefused()
      requires Valid()
      requires publicPending.Sent?
      modifies this
      ensures Valid() && Abstract() == Step(old(Abstract()), TwitchRefuses)
    {
      StepKeepsSound(Abstract(), TwitchRefuses);
      hide Sound;
      var current := publicPending.current;
      refusedRefreshToken := Some(current.refreshToken);
      writes := writes + [MarkFailed(current.accessToken, current.userId, true)];
      publicPending := Marking;
    }

    method RefreshUnanswered()
      requires Valid()
      requires publicPending.Sent?
      modifies this
      ensures Valid() && Abstract() == Step(old(Abstract()), TwitchUnreachable)
    {
      StepKeepsSound(Abstract(), TwitchUnreachable);
      hide Sound;
      publicPending := Idle;
    }

    method ServedAfterRelink()
      requires Valid()
      requires publicPending.Serving?
      modifies this
      ensures Valid() && Abstract() == Step(old(Abstract()), Served)
    {
      StepKeepsSound(Abstract(), Served);
      hide Sound;
      publicPending := Idle;
    }

    // ----- what joins the write queue ---------------------------------------------------------------------

    /** `store`: refused before it queues anything when the token names no user. */
    method Store(stored: Stored) returns (queued: bool)
      requires Valid()
      modifies this
      ensures Valid()
      ensures queued == Enabled(old(Abstract()), StoreCalled(stored))
      ensures Abstract() == if queued then Step(old(Abstract()), StoreCalled(stored)) else old(Abstract())
    {
      hide Sound, Step, Enabled;
      RelinkKeepsSound(Abstract(), stored);
      queued := stored.userId.Some? && stored.userId.value != "";
      if queued {
        writes := writes + [Relink(stored)];
      }
    }

    method Clear()
      requires Valid()
      modifies this
      ensures Valid() && Abstract() == Step(old(Abstract()), ClearCalled)
    {
      StepKeepsSound(Abstract(), ClearCalled);
      hide Sound;
      writes := writes + [Unlink];
    }

    method Link()
      requires Valid()
      modifies this
      ensures Valid() && Abstract() == Step(old(Abstract()), LinkCalled)
    {
      StepKeepsSound(Abstract(), LinkCalled);
      hide Sound;
      writes := writes + [ReadLink];
    }

    /** `renew` once the dashboard that sent `from` answered with a grant. */
    method RenewGranted(from: DashboardToken, granted: DashboardToken)
      requires Valid()
      requires granted.dashboardClientId == from.dashboardClientId
      modifies this
      ensures Valid() && Abstract() == Step(old(Abstract()), DashboardGranted(from, granted))
    {
      StepKeepsSound(Abstract(), DashboardGranted(from, granted));
      hide Sound;
      writes := writes + [SaveGrant(from, granted)];
      grants := grants + {(from, granted)};
    }

    /** `renew` once the dashboard answered that it has no token to give. */
    method RenewRefused(from: DashboardToken)
      requires Valid()
      modifies this
      ensures Valid() && Abstract() == Step(old(Abstract()), DashboardRefused(from))
    {
      StepKeepsSound(Abstract(), DashboardRefused(from));
      hide Sound;
      writes := writes + [MarkFailed(from.accessToken, from.userId, false)];
    }

    // ----- the write queue --------------------------------------------------------------------------------

    /** The first job starts, or, when it reads the row first, goes on once that read is answered. */
    method JobResumes(now: int)
      requires Valid()
      requires writes != [] && write.Unwritten?
      modifies this
      ensures Abstract() == Step(old(Abstract()), JobTurns(now))
      ensures Valid() <==> !TwitchTokens.StaleClear(old(Abstract()), JobTurns(now))
    {
      TurnKeepsSound(Abstract(), now);
      hide Sound, JobTurnsStep, TwitchTokens.StaleClear;
      TakeTurn(now);
    }

    /** What each kind of job does on its turn. */
    method TakeTurn(now: int)
      requires writes != [] && write.Unwritten?
      modifies this
      ensures Abstract() == JobTurnsStep(old(Abstract()), now)
    {
      match writes[0]
      case Relink(stored) => write := Writing(row, Some(stored), false);
      case Unlink => write := Writing(row, None, false);
      case Retry(asker, refreshed) => RetryResumes(asker, refreshed);
      case Save(refreshed) => SaveResumes(refreshed);
      case SaveGrant(from, granted) => GrantResumes(from, granted);
      case MarkFailed(accessToken, userId, byRefresh) => MarkResumes(accessToken, userId, byRefresh, now);
      case ReadLink => LinkResumes();
    }

    /** `savePublicToken` for an unsaved refresh; a row that moved on drops what is unsaved, whatever that is by now. */
    method RetryResumes(asker: Asker, refreshed: Refreshed)
      requires writes != [] && write.Unwritten? && writes[0] == Retry(asker, refreshed)
      modifies this`write, this`writes, this`unsaved, this`publicPending
      ensures Abstract() == JobTurnsStep(old(Abstract()), 0)
    {
      if row.Some? && row.value.refreshToken == Some(refreshed.spent) {
        write := Writing(row, Some(PublicRow(refreshed.token)), false);
        return;
      }
      Settle();
      unsaved := None;
      if asker.SharedRefresh? {
        publicPending := Reading(asker.seen);
      }
    }

    method SaveResumes(refreshed: Refreshed)
      requires writes != [] && write.Unwritten? && writes[0] == Save(refreshed)
      modifies this`write, this`writes, this`publicPending
      ensures Abstract() == JobTurnsStep(old(Abstract()), 0)
    {
      if row.Some? && row.value.refreshToken == Some(refreshed.spent) {
        write := Writing(row, Some(PublicRow(refreshed.token)), false);
        return;
      }
      Settle();
      publicPending := Serving;
    }

    method GrantResumes(from: DashboardToken, granted: DashboardToken)
      requires writes != [] && write.Unwritten? && writes[0] == SaveGrant(from, granted)
      modifies this`write, this`writes
      ensures Abstract() == JobTurnsStep(old(Abstract()), 0)
    {
      if row.Some? && row.value.accessToken == Some(from.accessToken)
         && row.value.dashboardClientId == Some(from.dashboardClientId) {
        write := Writing(row, Some(DashboardRow(granted)), false);
        return;
      }
      Settle();
    }

    method MarkResumes(accessToken: string, userId: string, byRefresh: bool, now: int)
      requires writes != [] && write.Unwritten? && writes[0] == MarkFailed(accessToken, userId, byRefresh)
      modifies this`write, this`writes, this`publicPending, this`authFailedAt, this`revision, this`announced
      ensures Abstract() == JobTurnsStep(old(Abstract()), now)
    {
      hide Announce;
      Settle();
      if byRefresh {
        publicPending := Idle;
      }
      if row.Some? && row.value.accessToken == Some(accessToken) && authFailedAt.None? {
        authFailedAt := Some(now);
        Announces(Some(userId), authFailedAt, now);
      }
    }

    method LinkResumes()
      requires writes != [] && write.Unwritten? && writes[0].ReadLink?
      modifies this`write, this`writes, this`linkReads
      ensures Abstract() == JobTurnsStep(old(Abstract()), 0)
    {
      Settle();
      if row.None? {
        linkReads := linkReads + [LinkRead(revision, Unlinked)];
      } else if Named(row.value.userId) && row.value.scope.Some? {
        linkReads := linkReads
          + [LinkRead(revision, Linked(row.value.userId.value, row.value.scope.value, authFailedAt))];
      }
    }

    /** The first job's read or write failed. A refresh that could not be written is kept. */
    method JobRejected()
      requires Valid() && writes != []
      modifies this
      ensures Valid() && Abstract() == JobFails(old(Abstract()))
    {
      FailureKeepsSound(Abstract());
      hide Sound;
      var job := writes[0];
      Settle();
      match job
      case Save(refreshed) =>
        unsaved := Some(refreshed);
        publicPending := Idle;
      case Retry(asker, _) =>
        if asker.SharedRefresh? {
          publicPending := Idle;
        }
      case MarkFailed(_, _, byRefresh) =>
        if byRefresh {
          publicPending := Idle;
        }
      case _ =>
    }

    /** db-proxy carries out the first job's write; its answer is still to come. */
    method RowWritten()
      requires Valid()
      requires writes != [] && write.Writing? && !write.landed
      requires Trusted(Abstract(), WriteLands)
      modifies this
      ensures Valid() && Abstract() == Step(old(Abstract()), WriteLands)
    {
      StepKeepsSound(Abstract(), WriteLands);
      hide Sound;
      row := write.value;
      write := write.(landed := true);
      lineage := if row.None? then [] else if writes[0].Relink? then [row.value] else lineage + [row.value];
    }

    /** The first job's write succeeded. */
    method JobWritten(now: int)
      requires Valid()
      requires writes != [] && write.Writing? && write.landed
      requires !writes[0].MarkFailed? && !writes[0].ReadLink?
      modifies this
      ensures Valid() && Abstract() == Step(old(Abstract()), WriteSucceeds(now))
      ensures publicPending.Sent? ==> publicPending.current.refreshToken !in accepted
    {
      StepKeepsSound(Abstract(), WriteSucceeds(now));
      hide Sound, WriteSucceedsStep;
      FinishWrite(now);
    }

    /** What each kind of job does once its write is answered. */
    method FinishWrite(now: int)
      requires writes != [] && write.Writing? && !writes[0].MarkFailed? && !writes[0].ReadLink?
      modifies this
      ensures Abstract() == WriteSucceedsStep(old(Abstract()), now)
    {
      hide Announce, NoteRenewal, RetrySaved, RetryContinues;
      match writes[0]
      case Relink(stored) => LinkWritten(stored.userId, now);
      case Unlink => LinkWritten(None, now);
      case Save(refreshed) =>
        RenewalWritten(refreshed.token.userId, refreshed.token.scope, now);
        publicPending := Idle;
      case SaveGrant(_, granted) => RenewalWritten(granted.userId, granted.scope, now);
      case Retry(asker, refreshed) => RetryWritten(asker, refreshed, now);
    }

    method LinkWritten(userId: Option<string>, now: int)
      requires writes != []
      modifies this`write, this`writes, this`authFailedAt, this`revision, this`announced
      ensures Abstract() == Announce(Popped(old(Abstract())).(authFailedAt := None), userId, None, now)
    {
      hide Announce;
      Settle();
      authFailedAt := None;
      Announces(userId, None, now);
    }

    method RenewalWritten(userId: string, scope: seq<string>, now: int)
      requires writes != [] && write.Writing?
      modifies this`write, this`writes, this`authFailedAt, this`revision, this`announced
      ensures Abstract() == NoteRenewal(Popped(old(Abstract())), old(write.before), userId, scope, now)
    {
      hide NoteRenewal;
      var before := write.before;
      Settle();
      NotesRenewal(before, userId, scope, now);
    }

    /** The unsaved refresh is stored at last, and whoever retried it goes on with it. */
    method RetryWritten(asker: Asker, refreshed: Refreshed, now: int)
      requires writes != [] && write.Writing? && writes[0] == Retry(asker, refreshed)
      modifies this
      ensures Abstract() == RetryContinues(RetrySaved(old(Abstract()), now), asker, refreshed.token, now)
    {
      hide NoteRenewal, CallerDecides, RefreshDecides;
      RenewalWritten(refreshed.token.userId, refreshed.token.scope, now);
      unsaved := None;
      match asker {
        case Caller(force) => ServeOrRefresh(force, refreshed.token, now);
        case SharedRefresh(seen) => SendUnlessMovedOn(seen, refreshed.token);
      }
    }

    /** `serialized`: the settled job leaves, and the next may start. */
    method Settle()
      requires writes != []
      modifies this`writes, this`write
      ensures Abstract() == Popped(old(Abstract()))
    {
      writes := writes[1..];
      write := Unwritten;
    }

    method Announces(userId: Option<string>, failedAt: Option<int>, now: int)
      modifies this`revision, this`announced
      ensures Abstract() == Announce(old(Abstract()), userId, failedAt, now)
    {
      revision := if revision + 1 < now then now else revision + 1;
      announced := announced + [Change(revision, userId, failedAt)];
    }

    method NotesRenewal(before: Option<Stored>, userId: string, scope: seq<string>, now: int)
      modifies this`revision, this`announced, this`authFailedAt
      ensures Abstract() == NoteRenewal(old(Abstract()), before, userId, scope, now)
    {
      var sameAccount := before.Some? && before.value.userId == Some(userId) && SameScopes(before.value.scope, scope);
      if sameAccount && authFailedAt.None? {
        return;
      }
      authFailedAt := None;
      Announces(Some(userId), None, now);
    }
  }
}
