# Proofs of the engine's concurrent protocols

Models, in Dafny 4.11, of the small protocols in `api/src` and `workflow` that keep state across awaits or
goroutines, with proofs of what every run of them keeps. `dafny verify dfyconfig.toml` checks everything.

Each protocol comes in up to three layers:

- a **machine**: the object's fields as a datatype, one function for each stretch of code between two awaits (or
  between two lock operations), and `Step`, which picks one. Callers, timers, replies and failures interleave freely,
  because a run is any sequence of enabled steps. Inputs the program does not control (what Twitch, db-proxy, the bus
  or a subscriber answers, clock readings, random draws, the order a Go map gives its keys) are arguments of a step;
- **lemmas** over that machine: invariants kept by every step, and statements about every state of every run;
- a **class** in the source's own form, with its mutable fields and loops. Every method is proved to be its step of
  the machine (`Now() == Step(old(Now()), ...)`), so what is proved of runs holds of the object.

| protocol | files |
|---|---|
| Twitch token source | `twitch_link`, `twitch_steps`, `twitch_frames`, `twitch_tokens`, `twitch_stale`, `twitch_history`, `twitch_overtaken`, `twitch_late`, `twitch_source` |
| stream session resolver and policy | `stream_session_timeline`, `stream_session_steps`, `stream_session_resolver` |
| engine event stream | `event_stream_steps`, `event_stream_runs`, `event_stream` |
| event shipper | `event_shipper_lane`, `event_shipper` |
| client revocation | `client_auth`, `client_sessions`, `client_revocation`, `session_registry` |
| browser pairing | `pairing_windows`, `pairing_steps`, `pairing_runs`, `pairing_registry` |
| run recorder | `run_recorder` |
| workflow health and reconciling | `workflow_health`, `workflow_reconcile`, `workflow_manager` |
| repeated deliveries | `recent_deliveries` |

## Findings

- **A spent refresh token can be sent again.** `currentPublicToken` clears `unsaved` after a failed compare-and-set
  even when another save has put a newer token there since (`api/src/twitch-token-source.ts:328-332`).
  `OutOfOrderReadResends` is a whole run in which a row read overtaken by later work leads to that, with every read a
  value the row really had. `OnlyAStaleClearBreaksInv` shows that clear is the only step that can break the invariant,
  and always does; `StaleClearResends` that after a run's first one, whatever the shared refresh is doing, steps that
  leave the row alone can send a spent token if and only if the row reads as a public token (a queued save may still
  repair the row first); `NoTokenSentTwiceInOrder` that it cannot happen while each read's reply still matches the row.
- **A write that lands after it was reported as failed can send a spent token again.** The source never waits for such
  a write, and sets the row without a condition (`api/src/twitch-token-source.ts:384-395`). The machine's writes land at
  or before the report; `LateWritesResendExactly` adds a landing to any state of any run without a stale clear, with no
  other write under way and in whatever phase the shared refresh is. An accepted token can then be sent again if and
  only if the token that lands is spent and what is kept cannot replace it: neither `unsaved` nor the save under way has
  an unspent successor of it, or a queued retry would write a spent one, or the shared refresh is about to spend another
  token or was asked to refresh this one. So landing over its own successor is harmless while `unsaved` still holds that
  successor; `LateWriteResends` is a run that ends where it is not. A late landing that changes the row also undoes
  whatever replaced it, a newer link included.
- **A delayed online splits too soon.** An online decided after a check that ran past its own time starts a session
  within the grace window. `GoingLiveGroups` shows that is the only way grouping is lost; `DelayedOnlineSplitsTooSoon`
  is an instance. With times in processing order it cannot happen (`SessionsAreMaximalRuns`).
- **An offline stamped before its session began can leave a session that cannot end.** In every run, at whatever times,
  it does so if and only if every other end in that session is stamped before its start too (`RunsWedgeExactly`); from a
  sound timeline, if and only if nothing of the session had ended (`OfflineWedgesExactly`). The store then refuses the
  split at the last end (`ErrSplitBeforeSessionStart`, `db/database/repository/stream_session_repository.go:89`), so no
  check ends the session, and no online is stored except one within the grace window of that end, which is also the
  only way out (`WedgedStaysWedged`, `RunsWedgeExactly`). `EarlyOfflineWedges` is an instance; `ClosingIsSoundInTime`
  says exactly which offline times keep the timeline sound.
- **A session registered on an ended connection leaves the two indexes disagreeing**, and nothing else does
  (`OnlyALateRegistrationParts`, `OtherStepsKeepSameLeases`); `LateRegistrationParts` is a run that ends so.
  Revocation still reaches it.
- **A reconcile pass relies on removals that do not fail.** It gives no health to a workflow that is stored and has
  none, but in every run only a workflow whose removal failed comes to be so (`UntrackedWereNotRemoved`), and the
  engine's registry fails none (`workflow/internal/engine/registry.go:165-189`), so with it every pass whose
  registrations succeed converges (`OnePassConverges`). `UntrackedStaysUntracked` is a run over a registry that does fail one.
- **A recorder stopped without being started** keeps queued writes in neither count. The comment at
  `workflow/async_run_recorder.go:151` says nothing was queued, but `enqueue` does not check `started`
  (`StopAccountsForAll`, `UnstartedLosesCount`).

## Model

| member | source | states |
|---|---|---|
| TwitchTokens.NoTokenSentTwice | api/src/twitch-token-source.ts:299-395 | in every run without a stale clear, no refresh token Twitch accepted is ever sent again: any order of callers, relinks, refusals and failed writes, landed or not |
| TwitchTokens.OnlyAStaleClearBreaksInv | api/src/twitch-token-source.ts:313-333 | from any state the invariant allows, a step keeps it if and only if it is not a clear of an `unsaved` copy newer than the retried one |
| TwitchTokens.NoTokenSentTwiceInOrder | api/src/twitch-token-source.ts:313-377 | when a retry is only queued while the row still holds the spent token, no stale clear happens and no accepted token is sent again |
| TwitchTokens.InOrderReadsRetryInTime | api/src/twitch-token-source.ts:313-333 | reads whose reply matches the row when it arrives queue retries in time |
| TwitchStale.StaleClearResends | api/src/twitch-token-source.ts:313-377 | after the first stale clear of a run, in whatever phase the shared refresh is, steps that leave the row alone and make no other stale clear can go on to send an accepted refresh token if and only if the row reads as a public token |
| TwitchOvertaken.OutOfOrderReadResends | api/src/twitch-token-source.ts:313-395 | a run from an ordinary link, with every read a value the row had, in which a spent token is sent again |
| TwitchOvertaken.LateWriteResends | api/src/twitch-token-source.ts:339-377 | a run in which a write is reported as failed, retried and renewed, and after which that write landing makes the next forced call send a spent token: an instance of the condition below |
| TwitchLate.LateWritesResendExactly | api/src/twitch-token-source.ts:299-395 | in every run without a stale clear, a write reported as failed that lands in any later state with no write under way breaks the invariant, and lets steps without a stale clear send an accepted refresh token, if and only if its token is spent and what is kept cannot replace it; and the row stays the last link renewed only if it changes nothing |
| TwitchLate.LandingResendsExactly | api/src/twitch-token-source.ts:299-395 | the same of any row that lands on a state with what runs keep |
| TwitchHistory.EveryRunRenewsOnlyTheLastLink | api/src/twitch-token-source.ts:166-250 | in every state the row is the last store or clear, or a chain of renewals of that store each made from the row before it; announced revisions strictly increase |
| TwitchHistory.EqualRevisionsEqualLinks | api/src/twitch-token-source.ts:191-250 | two `link()` reads with equal revision agree on account, scopes and failure time, when failed writes leave the row unchanged and scope lists hold no duplicates |
| TwitchHistory.QuietRenewalKeepsView | api/src/twitch-token-source.ts:243-250 | a renewal that announces nothing leaves what `link()` describes the same |
| TwitchLink.SameScopesIsSetEquality | api/src/twitch-token-source.ts:565-571 | with no duplicates, equal length and membership is equality as sets |
| TwitchLink.PublicRowReadsBack | api/src/twitch-token-source.ts:596-617 | a stored public token reads back as itself exactly when none of its names is empty, and never as a dashboard token |
| TwitchLink.DashboardRowReadsBack | api/src/twitch-token-source.ts:546-558 | the same for a dashboard token |
| TwitchSource.TwitchTokenSource.PublicTokenResumes | api/src/twitch-token-source.ts:299-333 | a caller goes on from its read: retry, serve, or the shared refresh, as its step, keeping the object valid: no accepted refresh token at hand, the row the last link or renewals of it, revisions rising |
| TwitchSource.TwitchTokenSource.RefreshPublicResumes | api/src/twitch-token-source.ts:339-377 | the shared refresh goes on from its read, as its step, stays valid, and sends Twitch no refresh token it has accepted |
| TwitchSource.TwitchTokenSource.JobResumes | api/src/twitch-token-source.ts:384-395 | the first queued job compares and sets, as its step, and stays valid exactly when that is not a stale clear |
| TwitchSource.TwitchTokenSource.JobWritten | api/src/twitch-token-source.ts:488-527 | a write's success announces, clears and goes on, as its step, stays valid, and sends Twitch no refresh token it has accepted |
| StreamSessionSteps.SessionsAreMaximalRuns | api/src/stream-session-resolver.ts:110-290 | after any events in time order with checks anywhere among them, the sessions with segments hold exactly the maximal runs of segments with gaps within the grace window; boundaries are shared, and `session.ended` named each replaced broadcast once, in order, and no idle session |
| StreamSessionSteps.ChecksMoveNoBoundary | api/src/stream-session-resolver.ts:21-26 | runs with and without checks store the same segments cut into sessions at the same places |
| StreamSessionSteps.GoingLiveGroups | api/src/stream-session-resolver.ts:217-269 | going live keeps segments grouped by gap if and only if it was not delayed past a check |
| StreamSessionSteps.DelayedOnlineSplitsTooSoon | api/src/stream-session-resolver.ts:217-247 | an online stamped before a check and decided after it splits within the grace window |
| StreamSessionSteps.DecisionKeeps | api/src/stream-session-resolver.ts:110-153 | one decision keeps the timeline sound, every announced end real and in order, every replaced session's storage asked to be cleared once and in order, idle ones included, and the process in the open session it last announced |
| StreamSessionSteps.DecisionTidies | api/src/stream-session-resolver.ts:140-153 | the storage of each replaced session is asked to be cleared exactly once, in order, before the next session's start is announced |
| StreamSessionSteps.RestartKeepsTimely | api/src/stream-session-resolver.ts:67-96 | a restart keeps all of that |
| StreamSessionSteps.FailuresKeepMaximalRuns | api/src/stream-session-resolver.ts:110-290 | whatever calls fail in whatever decisions, in every state of a run in time order the timeline is sound and the sessions with segments hold exactly the maximal runs of the segments that were stored |
| StreamSessionSteps.ClosingIsSoundInTime | api/src/stream-session-resolver.ts:271-290 | closing a segment keeps the timeline sound if and only if the stream went down no earlier than its session began and than it went down before |
| StreamSessionSteps.WedgedStaysWedged | api/src/stream-session-resolver.ts:110-153 | a session the store refuses to split at its last segment's end is ended by no check, and no online past the grace window is stored |
| StreamSessionSteps.RunsWedgeExactly | api/src/stream-session-resolver.ts:110-290 | in every run, at whatever times, the last event leaves a session that cannot end if and only if there was one and no online within the grace window came, or an offline stamped before the open session began closes its segment while every other end in it is stamped so too |
| StreamSessionSteps.OfflineWedgesExactly | api/src/stream-session-resolver.ts:271-290 | from a sound timeline with a live segment, an offline leaves one if and only if it is stamped before the open session began and nothing of that session had ended |
| StreamSessionSteps.EarlyOfflineWedges | api/src/stream-session-resolver.ts:271-290 | an online and an offline both stamped before the session the engine opened at start leave one |
| StreamSessionTimeline.RunsAreMaximal | api/src/stream-session-policy.ts:51-80 | the reference: runs are the segments in order, each tight, and none could be longer |
| StreamSessionTimeline.BroadcastsAreMaximalRuns | api/src/stream-session-policy.ts:51-80 | segments grouped gap by gap are the maximal runs |
| StreamSessionResolver.Resolver.Start | api/src/stream-session-resolver.ts:67-96 | adopts and announces the open session, and then checks whether or not that succeeded, with every failure point of both |
| StreamSessionResolver.Resolver.EndBroadcast | api/src/stream-session-resolver.ts:140-153 | splits at the last segment's end unless the store refuses, clears, announces, adopts; stops at the first call that fails |
| StreamSessionResolver.Resolver.EndBroadcastIfOver | api/src/stream-session-resolver.ts:110-128 | the check, as its step, with every failure point |
| StreamSessionResolver.Resolver.DecideOnLive | api/src/stream-session-resolver.ts:217-269 | going live as its step; whatever fails, a segment is stored only with the sessions the whole decision would have made |
| StreamSessionResolver.Resolver.CloseSegment | api/src/stream-session-resolver.ts:271-290 | only the open segment closes, at whatever time |
| EventStreamRuns.EveryStateIsSound | api/src/engine-event-stream.ts:103-395 | in every state every number handed out is exactly one of pushed, dropped, skipped, discarded or queued; pushes strictly increase with one in flight; queues stay within the limit; a non-empty queue has a pump |
| EventStreamRuns.GapIsWhatWasLost | api/src/engine-event-stream.ts:260-308 | the gap between consecutive pushes equals the number of frames lost between them |
| EventStreamRuns.PendingIsOnItsOwnSubscription | api/src/engine-event-stream.ts:214-248 | in every state a pending request is on an open, registered subscription of the client it was sent to |
| EventStreamRuns.SettlesOnce | api/src/engine-event-stream.ts:382-394 | once settled, a request never waits again and keeps its outcome |
| EventStreamRuns.StopCloses | api/src/engine-event-stream.ts:158-172 | stopping leaves no subscription open and no request pending |
| EventStream.EngineEventStream.Stop | api/src/engine-event-stream.ts:158-172 | the number of requests that outlived their subscriptions is 0, so the throw is unreachable |
| EventStream.EngineEventStream.Subscribe | api/src/engine-event-stream.ts:103-141 | as its step: one subscription for each session, refused after stop |
| EventStream.EngineEventStream.Publish | api/src/engine-event-stream.ts:193-211 | queues for every subscription that wants the event, and returns how many |
| EventStream.EngineEventStream.Request | api/src/engine-event-stream.ts:214-236 | taken for the client's newest subscription, or refused |
| EventStream.EngineEventStream.EnqueueFrame | api/src/engine-event-stream.ts:260-279 | makes room, numbers, queues, and starts the pump |
| EventStream.EngineEventStream.RunPump | api/src/engine-event-stream.ts:281-308 | hands over frames until one push is awaited, skipping settled requests |
| EventStream.EngineEventStream.CloseSubscription | api/src/engine-event-stream.ts:367-380 | discards the queue and fails the requests on it |
| EventShipper.EveryStateIsKept | api/src/event-shipper.ts:88-179 | in every state each lane's line is in ship order with nothing twice, and its buffer is within `maxBuffered` |
| EventShipper.StopAccountsForAll | api/src/event-shipper.ts:108-123 | after `stop`, shipped equals delivered plus refused plus dropped plus the abandoned count |
| EventShipperLane.RetryStartsWithTheRest | api/src/event-shipper.ts:158-170 | a POST after a retry starts with what is left of the failed batch, and what is not left was dropped |
| EventShipperLane.AcknowledgedInShipOrder | api/src/event-shipper.ts:158-179 | acknowledged envelopes are in ship order, each once, each shipped, none dropped |
| EventShipperLane.NothingUnaccounted | api/src/event-shipper.ts:143-179 | shipped equals acknowledged plus refused plus lost plus in flight plus buffered |
| EventShipper.Shipper.Take | api/src/event-shipper.ts:88-106 | `ship`, as its step |
| EventShipper.Shipper.PostSettled | api/src/event-shipper.ts:158-179 | the pump goes on from a POST's outcome, as its step |
| EventShipper.Shipper.FinishStop | api/src/event-shipper.ts:108-123 | counts what was left |
| ClientRevocation.RevokedClientStaysOut | api/src/gateway.ts:129-160 | after db-proxy's delete and then `revoke`, in every later state of every run no lease of the client admits a call, its credentials are not cached, and no call for it that finishes gets a session |
| ClientRevocation.GoneFinishesRefused | api/src/gateway.ts:129-160 | a call already waiting, or answered from the cache, finishes without a lease once its client is gone |
| ClientRevocation.CacheRefinesAsking | api/src/auth.ts:81-133 | a cached success is db-proxy's own answer for exactly those credentials, which it held at some moment since the client's last invalidation, expiring `ttlMs` after the answer |
| ClientRevocation.ServedAnswersAreFresh | api/src/auth.ts:81-95 | in every run, an answer served from the cache is one db-proxy gave to a question about exactly those credentials less than `ttlMs` before it is served |
| ClientRevocation.EveryStateSatisfiesInv | api/src/auth.ts:86-186 | in every state the cache and the key index agree, and so do generations, calls and leases |
| ClientRevocation.IndexesNeverPart | api/src/client-sessions.ts:124-177 | while sessions are registered on live connections only, both indexes hold the same leases in every state |
| ClientSessions.OnlyALateRegistrationParts | api/src/client-sessions.ts:124-146 | registering keeps the indexes equal if and only if it issues no lease on an ended connection |
| ClientRevocation.LateRegistrationParts | api/src/gateway.ts:131-160 | a run of six steps in which a call's connection ends while it waits, and registering it leaves the indexes apart |
| ClientSessions.OtherStepsKeepSameLeases | api/src/client-sessions.ts:155-218 | releases, revocations, connection ends and deferred closes keep them equal |
| ClientSessions.ClosesWhatNoLeaseHolds | api/src/client-sessions.ts:167-186 | a deferred close closes exactly the still-open sockets it waited for on which no lease of any client is live |
| ClientSessions.RevokedKeeps | api/src/client-sessions.ts:38-61 | revoking stops every lease of the client, tracked or not, and no lease of another |
| ClientSessions.RevokedDefersEveryClose | api/src/client-sessions.ts:161-175 | every connection the client held a session on is in the close its revocation defers |
| ClientAuth.RememberedKeepsTheRest | api/src/auth.ts:158-174 | caching a success drops this client's expired entries and nothing else |
| ClientAuth.CredentialChecks.BeginValidate | api/src/auth.ts:81-95 | a cached answer or a question under the current generation, keeping the two indexes in agreement |
| ClientAuth.CredentialChecks.EndValidate | api/src/auth.ts:97-133 | the verdict for each answer, cached only if the generation is unchanged |
| ClientAuth.CredentialChecks.Remember | api/src/auth.ts:158-174 | the expiry loop, as the function it computes |
| ClientAuth.CredentialChecks.InvalidateCache | api/src/auth.ts:136-147 | every entry of the client goes and its generation rises |
| SessionRegistry.SessionTable.Register | api/src/client-sessions.ts:124-146 | as its step, ended connections included |
| SessionRegistry.SessionTable.Revoke | api/src/client-sessions.ts:155-177 | the loop over a client's leases, as its step |
| SessionRegistry.SessionTable.RunDeferred | api/src/client-sessions.ts:169-186 | the deferred close, as its step |
| SessionRegistry.SessionTable.ConnectionEnds | api/src/client-sessions.ts:202-207 | the loop over a connection's leases, as its step |
| SessionRegistry.ConnectionLifetime.OnEnd | api/src/gateway-connection.ts:39-45 | a listener takes the next place in line, at once when the connection has ended |
| SessionRegistry.ConnectionLifetime.End | api/src/gateway-connection.ts:48-62 | every listener runs once, in line, those that throw included, whose errors are reported in line; ending again runs none |
| SessionRegistry.ApiGateway.FinishAuthenticate | api/src/gateway.ts:131-160 | a session only for an admitted client, from its own origin, not revoked since it began; each refusal as the source names it |
| SessionRegistry.ApiGateway.RevokeClient | api/src/client-sessions.ts:238-246 | credentials and sessions both go |
| PairingRuns.AtMostOneClientPerPairing | api/src/pairing.ts:358-391 | in every state of every run, two calls that are creating or have created a pairing's client are one call |
| PairingRuns.ClientsNeedAnApproval | api/src/pairing.ts:409-438 | a client being created or created has an earlier approval of that pairing, made while it waited, was held and had not expired |
| PairingRuns.EveryStateSatisfiesInv | api/src/pairing.ts:307-606 | in every state the registry holds at most `maxPending` pairings, `maxPendingPerOrigin` of one origin and `maxDeniedRemembered` denials, pairing and denial ids are apart, and user codes differ |
| PairingRuns.StartsStayWithinLimits | api/src/pairing.ts:195-224 | in every state of every run any minute, wherever it begins, holds at most the configured starts in all, per origin and per address, and each window map at most `startsPerMinute` + 1 entries |
| PairingRuns.RateAnswerIsExact | api/src/pairing.ts:290-306 | a start is refused for its rate exactly when some limit does not admit it now, and `retryAfterMs` is the least delay after which all three do |
| PairingRuns.PendingAreShown | api/src/pairing.ts:441-444 | `listPending` shows exactly the held, unexpired pairings not being claimed |
| PairingRuns.LookupFindsTheOne | api/src/pairing.ts:394-406 | `lookup` finds a pairing if and only if it is shown and has the code |
| PairingWindows.AnyWindowHoldsTheLimit | api/src/pairing.ts:191-224 | times spaced as the window keeps them put at most the limit in any minute |
| PairingWindows.WaitIsLeast | api/src/pairing.ts:201-207 | `waitAt` is the least delay after which the window admits |
| PairingWindows.SweptWindowsAreFew | api/src/pairing.ts:574-580 | just swept, there are no more windows than the global limit |
| PairingWindows.CountingKeeps | api/src/pairing.ts:313-315 | a start admitted with nothing to wait for keeps every limit over every window |
| PairingRegistry.StartWindow.WaitAt | api/src/pairing.ts:201-207 | the prune loop and the wait, as the functions they compute |
| PairingRegistry.Registry.StartPairing | api/src/pairing.ts:268-351 | `start` as its step, with each refusal |
| PairingRegistry.Registry.BeginCall | api/src/pairing.ts:455-466 | a claim or cancel up to its hash, as its step |
| PairingRegistry.Registry.FindOwner | api/src/pairing.ts:467-509 | `ownPairing` from the hash on: denials, wrong origins, wrong verifiers and expiry |
| PairingRegistry.Registry.ContinueCall | api/src/pairing.ts:364-391 | the rest of a claim or cancel, on a pairing that may have left the registry |
| PairingRegistry.Registry.CreationEnds | api/src/pairing.ts:516-537 | a creation succeeds or fails, as its step |
| PairingRegistry.Registry.Decide | api/src/pairing.ts:409-438 | approve, deny, or say why not |
| PairingRegistry.Registry.PruneExpired | api/src/pairing.ts:565-581 | the three loops, as the function they compute |
| PairingRegistry.Registry.RememberDenial | api/src/pairing.ts:549-563 | past the bound the oldest denials go |
| PairingRegistry.Registry.NewUserCode | api/src/pairing.ts:587-605 | the first code drawn that no waiting pairing has |
| RunRecorder.AppliedInOrder | workflow/async_run_recorder.go:199-249 | in every state of every interleaving nothing was sent on the closed queue, which was closed at most once, and what the db was given is a prefix of what was accepted |
| RunRecorder.StopAccountsForAll | workflow/async_run_recorder.go:148-174 | once `Stop` has returned and nobody is inside `enqueue`, captured equals attempted plus `Dropped()`, if and only if the recorder was started or nothing was ever queued |
| RunRecorder.UnstartedLosesCount | workflow/async_run_recorder.go:148-156 | a run of a recorder never started that loses a write from both counts |
| RunRecorder.AsyncRunRecorder.Send | workflow/async_run_recorder.go:209-213 | the send under the read lock, where the queue is never closed |
| RunRecorder.AsyncRunRecorder.Receive | workflow/async_run_recorder.go:238-243 | one turn of the writer: written, or counted once the context has ended |
| RunRecorder.AsyncRunRecorder.BeginStop | workflow/async_run_recorder.go:148-163 | closes flag and queue under the write lock |
| WorkflowReconcile.ClientsHoldTheErrors | workflow/manager.go:66-204 | in every run of loads, changes, deletes and passes, a client that takes the snapshot as whole truth and applies each change holds exactly the tracker's errors and reasons |
| WorkflowReconcile.OnePassConverges | workflow/reconcile.go:62-141 | in every run, a pass whose registrations and removals succeed, over a list no workflow of which had a removal fail before, leaves the registry holding exactly the enabled readable workflows and the tracker exactly the enabled ones with their outcomes |
| WorkflowReconcile.UntrackedWereNotRemoved | workflow/manager.go:66-204 | in every state of every run, what is stored without its health is what some removal failed on |
| WorkflowReconcile.PassReflectsIfTracked | workflow/reconcile.go:62-141 | from any state, reachable or not, such a pass leaves the registry right, and the tracker right if and only if every enabled stored workflow was tracked |
| WorkflowReconcile.PassSettles | workflow/reconcile.go:107-131 | with removals succeeding and whatever registrations do, a pass over tracked workflows leaves each running and ok, or in error for the engine's own reason, stored only if just its trigger was refused |
| WorkflowReconcile.SettledPassIsSilent | workflow/reconcile.go:107-131 | trying such a list again with the same answers changes and publishes nothing |
| WorkflowReconcile.SecondPassIsSilent | workflow/reconcile.go:107-131 | a pass over the same list changes and publishes nothing, whatever the engine would answer |
| WorkflowReconcile.TwoPassesAreOne | workflow/reconcile.go:62-141 | in every run, of two passes over one list, no workflow of which had a removal fail, the second changes and publishes nothing, if the engine answers alike or registered all the first time |
| WorkflowReconcile.UntrackedStaysUntracked | workflow/reconcile.go:123-130 | a run over a registry that fails one removal, after which every pass leaves the workflow stored and without health |
| WorkflowHealth.RepeatsAreSilent | workflow/health.go:78-111 | a repeated outcome changes and publishes nothing; once the snapshot is out an outcome is published exactly when it changes the errors |
| WorkflowHealth.ForgetKeepsMirror | workflow/health.go:203-225 | forgetting, in any order, keeps the client's mirror exact |
| WorkflowHealth.HealthTracker.Record | workflow/health.go:78-111 | as the function, and says whether anything changed |
| WorkflowHealth.HealthTracker.ForgetAll | workflow/health.go:203-225 | drops the chosen workflows and announces those in error as ok, each once |
| WorkflowHealth.HealthTracker.AnnounceSnapshot | workflow/health.go:149-177 | publishes the errors once |
| WorkflowManager.Manager.Load | workflow/manager.go:66-76 | whatever comes of a load reaches the health, and a refused definition takes what was registered under its id with it |
| WorkflowManager.Manager.LoadWorkflowsFromDB | workflow/manager.go:79-123 | the start-up load, as its step |
| WorkflowManager.Manager.HandleWorkflowCreateOrUpdate | workflow/manager.go:128-185 | as its step, disabled workflows included |
| WorkflowManager.Manager.HandleWorkflowDelete | workflow/manager.go:188-204 | as its step |
| WorkflowManager.Manager.ReconcileOnce | workflow/reconcile.go:62-141 | the pass and its loops, as its step, in whatever order the maps give their keys |
| RecentDeliveries.Deliveries.First | workflow/trigger_deliveries.go:50-64 | true exactly when no event with this key is among the last `capacity` accepted, which it then joins |
| RecentDeliveries.RingAndSetAgree | workflow/trigger_deliveries.go:29-36 | the set is the ring's filled slots, which are distinct, and never exceeds its capacity |
| RecentDeliveries.SlotOverwritten | workflow/trigger_deliveries.go:57-62 | writing the next slot keeps the ring and the set standing for the list of the last accepted keys |
| RecentDeliveries.CopiesAreFarApart | workflow/trigger_deliveries.go:11-28 | two accepted events with one key are more than `capacity` acceptances apart |
| RecentDeliveries.KeysAreDistinct | workflow/trigger_deliveries.go:51 | two events share a key only if they are one event, when sources hold no NUL |

## Assumptions

- Twitch: an accepted refresh answers with a refresh token that is new; a relink never brings back an accepted one;
  nothing else writes the row. "Accepted" means Twitch's answer reached the process. A write reported as failed may
  have landed, at or before the report (after it, see `LateWritesResendExactly`). An answer without its tokens is the
  client's error (`shared/clients/typescript/twitch/oauth.ts:249-267`), as if Twitch had not been reached.
- Sessions: times are positive and in processing order for the whole-run results, and the stream goes offline no
  earlier than the first session began (earlier, see `RunsWedgeExactly`). A late `stream.online`, older than the session the engine opened at start, is
  covered. What the store does is read from `api/src/db-client.ts:606-642` and
  `db/database/repository/stream_session_repository.go`.
- Event stream: request ids are fresh.
- Event shipper: one `start`, then one `stop`.
- Revocation: db-proxy never gives out a client id twice; no two secrets share a hash.
- Pairing: pairing ids are fresh; the clock does not run backwards.
- Recorder: `Start` and `Stop` are called once each, and `Stop` may come without `Start`.
- Workflows: ids in a list are distinct where a result says so, and none is empty (`Record` panics on one).

## Left out

- Wire formats, HTTP, WebSocket, NATS and Twirp: each exchange is an outcome.
- Hashing, UUIDs, random bytes and the user code's rejection sampling: codes drawn are inputs of a start.
- Logging, and the rate limit on drop warnings.
- `admitPairingOrigin` and `isDescription`: a start is given the admitted origin, if any, and whether its fields are well formed.
- `helix`, `dashboardHelix`, `linkedDashboardClientId` and the renewal request to the dashboard: the dashboard's answer is an input.
- `registerClient` and its queue, and what revocation does to webhooks and subscriptions beyond the event stream.
- The health tracker's timestamps (`since`) and the sorting of its lists; a lost publish, which a client recovers by asking.
- The engine behind `Register` and `Remove`: it answers loaded, trigger refused (stored) or refused (removed), and a removal may fail.
- SessionRegistry.SessionTable.Register: leases are numbered entries of a table rather than objects; their two callbacks are called by number.
- PairingRegistry.Registry.PruneExpired: per-origin and per-address windows are held as values in their maps, without the aliasing of `StartWindow` objects.
- StreamSessionResolver.Resolver.Start: subscriptions, the timer itself and the status request are not modelled; `syncCalls` and `checkCalls` count how many database and bus calls of each succeed before one fails.
- TwitchLate.LateWritesResendExactly: a late landing between another write's own read and its landing or answer is not modelled, and a relink that lands late with a spent token is taken to read as a public token.
- StreamSessionSteps.DecisionTidies: a clearing that fails is logged and swallowed (`api/src/stream-session-resolver.ts:342-353`), so the request is what is counted.
- RunRecorder.AsyncRunRecorder.Send: the lock is the step's guard; a goroutine blocked on it has not taken its step.
