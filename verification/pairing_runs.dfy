/**
 * What every reachable state of the pairing registry satisfies: its bounds,
 * its rate limits, and at most one client for each pairing, only once that
 * pairing was approved.
 */
module PairingRuns {
  import opened Options
  import opened PairingWindows
  import opened PairingSteps

  // ----- what is held -------------------------------------------------------------------------------------

  predicate Distinct(ids: seq<Id>) {
    forall i, j :: 0 <= i < j < |ids| ==> ids[i] != ids[j]
  }

  lemma {:induction false} KeepKeeps(ids: seq<Id>, gone: set<Id>)
    ensures forall id :: id in Keep(ids, gone) <==> id in ids && id !in gone
    ensures |Keep(ids, gone)| <= |ids| && (Distinct(ids) ==> Distinct(Keep(ids, gone)))
  {
    if ids != [] {
      KeepKeeps(ids[..|ids| - 1], gone);
      assert ids == ids[..|ids| - 1] + [ids[|ids| - 1]];
    }
  }

  lemma {:induction false} KeepCounts(pairings: map<Id, Pairing>, ids: seq<Id>, gone: set<Id>, origin: string)
    ensures CountFrom(pairings, Keep(ids, gone), origin) <= CountFrom(pairings, ids, origin)
  {
    if ids != [] {
      var init, last := ids[..|ids| - 1], ids[|ids| - 1];
      KeepCounts(pairings, init, gone, origin);
      CountGrows(pairings, Keep(init, gone), last, origin);
    }
  }

  lemma CountGrows(pairings: map<Id, Pairing>, ids: seq<Id>, id: Id, origin: string)
    ensures CountFrom(pairings, ids + [id], origin)
         == CountFrom(pairings, ids, origin) + (if id in pairings && pairings[id].origin == origin then 1 else 0)
  {
    assert (ids + [id])[..|ids|] == ids;
  }

  /** Pairings may change, and be added, as long as those counted keep their origin. */
  lemma {:induction false} CountSame(before: map<Id, Pairing>, after: map<Id, Pairing>, ids: seq<Id>, origin: string)
    requires forall id :: id in ids ==> id in before && id in after && before[id].origin == after[id].origin
    ensures CountFrom(before, ids, origin) == CountFrom(after, ids, origin)
  {
    if ids != [] {
      CountSame(before, after, ids[..|ids| - 1], origin);
    }
  }

  lemma {:induction false} KeepDenialsKeeps(denials: seq<Denial>, gone: set<Id>)
    ensures Ids(KeepDenials(denials, gone)) == Keep(Ids(denials), gone) && |KeepDenials(denials, gone)| <= |denials|
    ensures |Ids(denials)| == |denials|
  {
    if denials != [] {
      var init, last := denials[..|denials| - 1], denials[|denials| - 1];
      KeepDenialsKeeps(init, gone);
      IdsGrow(KeepDenials(init, gone), last);
      assert Ids(denials)[..|Ids(denials)| - 1] == Ids(init);
    }
  }

  lemma IdsGrow(denials: seq<Denial>, denial: Denial)
    ensures Ids(denials + [denial]) == Ids(denials) + [denial.id]
  {
    assert (denials + [denial])[..|denials|] == denials;
  }

  lemma {:induction false} IdsAre(denials: seq<Denial>)
    ensures |Ids(denials)| == |denials| && forall i :: 0 <= i < |denials| ==> Ids(denials)[i] == denials[i].id
  {
    if denials != [] {
      IdsAre(denials[..|denials| - 1]);
    }
  }

  /** The oldest denials go. */
  lemma LastFewAre(denials: seq<Denial>, n: nat)
    ensures |LastFew(denials, n)| <= n || n > |denials|
    ensures |LastFew(denials, n)| <= |denials|
    ensures forall id :: id in Ids(LastFew(denials, n)) ==> id in Ids(denials)
    ensures Distinct(Ids(denials)) ==> Distinct(Ids(LastFew(denials, n)))
  {
    IdsAre(denials);
    IdsAre(LastFew(denials, n));
    var few := LastFew(denials, n);
    forall i | 0 <= i < |few| ensures Ids(few)[i] == Ids(denials)[|denials| - |few| + i] {
    }
  }

  ghost predicate CodesDiffer(s: State) {
    forall a, b :: a in s.held && b in s.held && a != b && a in s.pairings && b in s.pairings ==>
      s.pairings[a].userCode != s.pairings[b].userCode
  }

  ghost predicate Bounded(s: State) {
    && |s.held| <= s.config.maxPending && |s.denials| <= s.config.maxDeniedRemembered
    && forall origin :: CountFrom(s.pairings, s.held, origin) <= s.config.maxPendingPerOrigin
  }

  /** Pairing ids and denial ids are distinct, and no id is both. */
  ghost predicate Apart(s: State) {
    && Distinct(s.held) && Distinct(Ids(s.denials))
    && (forall id :: id in s.held ==> id in s.pairings)
    && (forall id :: id in Ids(s.denials) ==> id in s.pairings && id !in s.held)
  }

  ghost predicate Registry(s: State) {
    ValidConfig(s.config) && Bounded(s) && Apart(s) && CodesDiffer(s)
  }

  // ----- who may create -----------------------------------------------------------------------------------

  /** The call is creating the pairing's client, or has created it. */
  predicate Spent(call: Call, id: Id) {
    call.stage == Creating(id) || call.stage == Answered(Paired(id))
  }

  ghost predicate SpentAt(s: State, i: nat, id: Id) {
    i < |s.calls| && Spent(s.calls[i], id)
  }

  ghost predicate PairedAt(s: State, i: nat, id: Id) {
    i < |s.calls| && s.calls[i].stage == Answered(Paired(id))
  }

  ghost predicate SpentAreClaiming(s: State) {
    forall i, id :: SpentAt(s, i, id) ==> id in s.pairings && s.pairings[id].status.Claiming?
  }

  ghost predicate SpentOnce(s: State) {
    forall i, j, id :: SpentAt(s, i, id) && SpentAt(s, j, id) ==> i == j
  }

  ghost predicate ClaimingAreSpent(s: State) {
    forall id :: id in s.pairings && s.pairings[id].status.Claiming? ==> exists i :: SpentAt(s, i, id)
  }

  /** An approval stands behind every pairing that is no longer waiting, and is of a pairing there was. */
  ghost predicate ApprovalsStand(s: State) {
    && (forall id :: id in s.pairings && !s.pairings[id].status.Pending? ==> id in s.approvedBy)
    && (forall id :: id in s.approvedBy ==> id in s.pairings)
  }

  ghost predicate FindingsKnown(s: State) {
    forall i :: 0 <= i < |s.calls| && s.calls[i].stage.Owned? && s.calls[i].stage.finding.Own? ==>
      s.calls[i].stage.finding.id in s.pairings
  }

  /** A pairing whose client exists has left the registry. */
  ghost predicate PairedLeft(s: State) {
    forall i: nat, id :: PairedAt(s, i, id) ==> id !in s.held
  }

  ghost predicate Creations(s: State) {
    && SpentAreClaiming(s) && SpentOnce(s) && ClaimingAreSpent(s) && ApprovalsStand(s) && FindingsKnown(s) && PairedLeft(s)
  }

  ghost predicate Paced(s: State) {
    Kept(s.rates, s.log, s.config.limits, s.now)
  }

  ghost predicate Inv(s: State) {
    Registry(s) && Creations(s) && Paced(s)
  }

  // ----- keeping the registry's bounds ----------------------------------------------------------------------

  /** Pairings keep their origin and code, whatever else changes in them. */
  predicate SamePages(before: map<Id, Pairing>, after: map<Id, Pairing>) {
    forall id :: id in before ==>
      id in after && after[id].origin == before[id].origin && after[id].userCode == before[id].userCode
  }

  /** Nothing in the registry but what was there. */
  ghost predicate Shrinks(s: State, s': State) {
    && s'.config == s.config && SamePages(s.pairings, s'.pairings)
    && (exists gone :: s'.held == Keep(s.held, gone)) && (exists gone :: s'.denials == KeepDenials(s.denials, gone))
  }

  lemma PageKept(pairings: map<Id, Pairing>, id: Id, p: Pairing)
    requires id in pairings && p.origin == pairings[id].origin && p.userCode == pairings[id].userCode
    ensures SamePages(pairings, pairings[id := p])
  {
  }

  lemma ShrinkingKeeps(s: State, s': State)
    requires Registry(s) && Shrinks(s, s')
    ensures Registry(s')
  {
    var gone :| s'.held == Keep(s.held, gone);
    var over :| s'.denials == KeepDenials(s.denials, over);
    KeepKeeps(s.held, gone);
    KeepDenialsKeeps(s.denials, over);
    KeepKeeps(Ids(s.denials), over);
    forall origin ensures CountFrom(s'.pairings, s'.held, origin) <= s'.config.maxPendingPerOrigin {
      KeepCounts(s.pairings, s.held, gone, origin);
      CountSame(s.pairings, s'.pairings, s'.held, origin);
    }
  }

  lemma KeepNothing(s: State)
    ensures Keep(s.held, {}) == s.held && KeepDenials(s.denials, {}) == s.denials
  {
    KeepAll(s.held);
    KeepAllDenials(s.denials);
  }

  lemma {:induction false} KeepAll(ids: seq<Id>)
    ensures Keep(ids, {}) == ids
  {
    if ids != [] {
      KeepAll(ids[..|ids| - 1]);
    }
  }

  lemma {:induction false} KeepAllDenials(denials: seq<Denial>)
    ensures KeepDenials(denials, {}) == denials
  {
    if denials != [] {
      KeepAllDenials(denials[..|denials| - 1]);
    }
  }

  lemma SweepingShrinks(s: State)
    ensures Shrinks(s, PairingSteps.Swept(s)) && PairingSteps.Swept(s).pairings == s.pairings
  {
  }

  lemma FindingKeepsPages(s: State, call: Call)
    ensures SamePages(s.pairings, FindOwn(s, call).0.pairings) && FindOwn(s, call).0.config == s.config
  {
    if call.id in s.pairings {
      var p := s.pairings[call.id];
      PageKept(s.pairings, call.id, p.(failedClaims := p.failedClaims + 1));
    }
    hide Keep, KeepDenials;
  }

  lemma FindingShrinks(s: State, call: Call)
    ensures Shrinks(s, FindOwn(s, call).0)
  {
    FindingKeepsPages(s, call);
    KeepNothing(s);
    hide SamePages, Keep, KeepDenials;
    var s' := FindOwn(s, call).0;
    assert s'.held == Keep(s.held, {}) || s'.held == Keep(s.held, {call.id});
    assert s'.denials == KeepDenials(s.denials, {}) || s'.denials == KeepDenials(s.denials, {call.id});
    hide FindOwn;
  }

  lemma ClaimingKeepsPages(s: State, call: Call)
    requires call.stage.Owned?
    ensures var s' := Claimed(s, call).0;
      SamePages(s.pairings, s'.pairings) && s'.config == s.config && s'.held == s.held && s'.denials == s.denials
  {
  }

  lemma ClaimingShrinks(s: State, call: Call)
    requires call.stage.Owned?
    ensures Shrinks(s, Claimed(s, call).0)
  {
    ClaimingKeepsPages(s, call);
    KeepNothing(s);
    hide SamePages, Keep, KeepDenials, Claimed;
    var s' := Claimed(s, call).0;
    assert s'.held == Keep(s.held, {}) && s'.denials == KeepDenials(s.denials, {});
  }

  lemma CancellingShrinks(s: State, call: Call)
    requires call.stage.Owned?
    ensures Shrinks(s, CancelledBy(s, call).0)
  {
    KeepNothing(s);
    hide Keep, KeepDenials;
  }

  lemma SettlingShrinks(s: State, i: nat, ok: bool)
    requires i < |s.calls| && s.calls[i].stage.Creating? && s.calls[i].stage.id in s.pairings
    ensures Shrinks(s, CreationSettled(s, i, ok))
  {
    KeepNothing(s);
  }

  lemma CallsDoNotMatter(s: State, s': State)
    requires Registry(s) && s'.(calls := s.calls) == s
    ensures Registry(s')
  {
  }

  lemma {:induction false} FirstUnusedIsUnused(draws: seq<string>, pairings: map<Id, Pairing>, held: seq<Id>)
    ensures var code := FirstUnused(draws, pairings, held);
            code.Some? ==> code.value in draws && !CodeInUse(pairings, held, code.value)
  {
    if draws != [] {
      FirstUnusedIsUnused(draws[1..], pairings, held);
    }
  }

  lemma OpeningKeepsRegistry(s: State, r: Request, id: Id, draws: seq<string>)
    requires Registry(s) && r.origin.Some? && id !in s.pairings
    ensures Registry(Opening(s, r, id, draws).0)
  {
    var (s', answer) := Opening(s, r, id, draws);
    if answer.Started? {
      FirstUnusedIsUnused(draws, s.pairings, s.held);
      assert id !in s.held && id !in Ids(s.denials);
      forall origin ensures CountFrom(s'.pairings, s'.held, origin) <= s'.config.maxPendingPerOrigin {
        CountGrows(s'.pairings, s.held, id, origin);
        CountSame(s.pairings, s'.pairings, s.held, origin);
      }
      forall a | a in s.held ensures s'.pairings[a].userCode != s'.pairings[id].userCode {
        assert s.pairings[a].userCode == s'.pairings[a].userCode;
      }
    }
  }

  lemma StartingKeepsRegistry(s: State, r: Request, id: Id, draws: seq<string>)
    requires Registry(s) && id !in s.pairings
    ensures Registry(Starting(s, r, id, draws).0)
  {
    if r.origin.Some? && r.wellFormed {
      var swept := PairingSteps.Swept(s);
      SweepingShrinks(s);
      ShrinkingKeeps(s, swept);
      var met := swept.(rates := Asked(swept.rates, r.origin.value, r.address, s.now));
      assert Registry(met);
      OpeningKeepsRegistry(met, r, id, draws);
    }
  }

  lemma DenyingKeepsRegistry(s: State, id: Id)
    requires Registry(s) && id in s.held
    ensures var p := s.pairings[id];
      Registry(Dropped(s, id).(denials := LastFew(s.denials + [Denial(id, p.origin, p.verifierHash, p.expiresAtMs)],
                                                  s.config.maxDeniedRemembered)))
  {
    KeepNothing(s);
    ShrinkingKeeps(s, Dropped(s, id));
    KeepKeeps(s.held, {id});
    var p := s.pairings[id];
    DenialAdded(Dropped(s, id), Denial(id, p.origin, p.verifierHash, p.expiresAtMs));
  }

  lemma DenialAdded(s: State, denial: Denial)
    requires Registry(s) && denial.id in s.pairings && denial.id !in s.held && denial.id !in Ids(s.denials)
    ensures Registry(s.(denials := LastFew(s.denials + [denial], s.config.maxDeniedRemembered)))
  {
    IdsGrow(s.denials, denial);
    LastFewAre(s.denials + [denial], s.config.maxDeniedRemembered);
    hide LastFew, Ids, CountFrom;
  }

  lemma ApprovingKeepsRegistry(s: State, id: Id, approver: string)
    requires Registry(s) && id in s.held
    ensures Registry(s.(pairings := s.pairings[id := s.pairings[id].(status := Approved)], approvedBy := s.approvedBy[id := approver]))
  {
    KeepNothing(s);
    PageKept(s.pairings, id, s.pairings[id].(status := Approved));
    hide SamePages, Keep, KeepDenials;
    ShrinkingKeeps(s, s.(pairings := s.pairings[id := s.pairings[id].(status := Approved)],
                         approvedBy := s.approvedBy[id := approver]));
  }

  lemma DroppingKeepsRegistry(s: State, id: Id)
    requires Registry(s)
    ensures Registry(Dropped(s, id))
  {
    KeepNothing(s);
    hide Keep, KeepDenials;
    ShrinkingKeeps(s, Dropped(s, id));
  }

  lemma DecidingKeepsRegistry(s: State, id: Id, approve: Option<bool>, approver: string)
    requires Registry(s)
    ensures Registry(Deciding(s, id, approve, approver).0)
  {
    if id in s.held {
      assert id in s.pairings;
      hide Registry;
      DenyingKeepsRegistry(s, id);
      ApprovingKeepsRegistry(s, id, approver);
      DroppingKeepsRegistry(s, id);
      hide Dropped;
    } else {
      SweepingShrinks(s);
      ShrinkingKeeps(s, PairingSteps.Swept(s));
      hide Registry;
    }
  }

  lemma CallingKeepsRegistry(s: State, kind: Kind, of: Id, hash: Option<string>, origin: Option<string>)
    requires Registry(s)
    ensures Registry(Called(s, kind, of, hash, origin))
  {
    var denial, found := DenialOf(s.denials, of), of in s.held;
    var call := Call(kind, of, hash, origin, s.now, found, denial, if found || denial.Some? then Hashing else Owned(Missing));
    var s' := s.(calls := s.calls + [call]);
    CallsDoNotMatter(s, s');
    ResumingKeepsRegistry(s', |s.calls|);
  }

  lemma ResumingKeepsRegistry(s: State, i: nat)
    requires Registry(s) && i < |s.calls|
    ensures Registry(Resumed(s, i))
  {
    FindingShrinks(s, s.calls[i]);
    ShrinkingKeeps(s, FindOwn(s, s.calls[i]).0);
  }

  lemma ContinuingKeepsRegistry(s: State, i: nat)
    requires Registry(s) && i < |s.calls| && s.calls[i].stage.Owned?
    ensures Registry(Continued(s, i))
  {
    hide Registry, Shrinks, Claimed, CancelledBy;
    ClaimingShrinks(s, s.calls[i]);
    CancellingShrinks(s, s.calls[i]);
    var mid := if s.calls[i].kind.Claim? then Claimed(s, s.calls[i]).0 else CancelledBy(s, s.calls[i]).0;
    ShrinkingKeeps(s, mid);
    OnlyCallsChange(mid, Continued(s, i).calls);
  }

  lemma OnlyCallsChange(s: State, calls: seq<Call>)
    requires Registry(s)
    ensures Registry(s.(calls := calls))
  {
  }

  lemma StepKeepsRegistry(s: State, a: Action)
    requires Registry(s) && Enabled(s, a)
    ensures Registry(Step(s, a))
  {
    match a
    case Tick(_) =>
    case Begins(request, id, draws) => StartingKeepsRegistry(s, request, id, draws);
    case Calls(kind, of, hash, origin) => CallingKeepsRegistry(s, kind, of, hash, origin);
    case Hashed(i) => ResumingKeepsRegistry(s, i);
    case Continues(i) => ContinuingKeepsRegistry(s, i);
    case Created(i, ok) => SettlingShrinks(s, i, ok); ShrinkingKeeps(s, CreationSettled(s, i, ok));
    case Decides(id, approve, approver) => DecidingKeepsRegistry(s, id, approve, approver);
    case Looks => SweepingShrinks(s); ShrinkingKeeps(s, PairingSteps.Swept(s));
  }

  // ----- keeping the rate limits ----------------------------------------------------------------------------

  lemma StepKeepsPaced(s: State, a: Action)
    requires Paced(s) && Enabled(s, a)
    ensures Paced(Step(s, a))
  {
    assert LimitsSet(s.config.limits);
    hide Kept, Opening, FindOwn, Claimed, CancelledBy, Asked, RetryAfter, Counting, NonEmpty, Keep, KeepDenials, FirstUnused;
    SweptKeeps(s.rates, s.log, s.config.limits, s.now, s.now);
    match a
    case Tick(ms) => LaterKeeps(s.rates, s.log, s.config.limits, s.now, s.now + ms);
    case Begins(request, id, draws) =>
      if request.origin.Some? {
        StartingIsPaced(s, request, id, draws);
      }
    case _ => PacingStands(s, a);
  }

  predicate PacesAsBefore(s: State, s': State) {
    && s'.log == s.log && s'.config == s.config && s'.now == s.now
    && (s'.rates == s.rates || s'.rates == PairingWindows.Swept(s.rates, s.now))
  }

  lemma FindingPaces(s: State, call: Call)
    ensures PacesAsBefore(s, FindOwn(s, call).0)
    ensures call.stage.Owned? ==> PacesAsBefore(s, Claimed(s, call).0) && PacesAsBefore(s, CancelledBy(s, call).0)
  {
    hide Keep, KeepDenials, PairingWindows.Swept;
  }

  lemma PacingStands(s: State, a: Action)
    requires Enabled(s, a) && LimitsSet(s.config.limits) && !a.Tick? && !a.Begins?
    ensures PacesAsBefore(s, Step(s, a))
  {
    if (a.Hashed? || a.Continues?) && a.call < |s.calls| {
      FindingPaces(s, s.calls[a.call]);
    } else if a.Calls? {
      var s' := s.(calls := s.calls + [Call(a.kind, a.of, a.hash, a.origin, s.now, a.of in s.held, DenialOf(s.denials, a.of),
                                            Hashing)]);
      FindingPaces(s', s'.calls[|s.calls|]);
    }
    hide Keep, KeepDenials, OverdueIn, OverdueDenials, PairingWindows.Swept, LastFew, FindOwn, Claimed, CancelledBy, DenialOf;
  }

  lemma StartingIsPaced(s: State, r: Request, id: Id, draws: seq<string>)
    requires Paced(s) && r.origin.Some?
    ensures Paced(Starting(s, r, id, draws).0)
  {
    var origin := r.origin.value;
    MetKeeps(s.rates, s.log, s.config.limits, origin, r.address, s.now, s.now);
    if RetryAfter(Met(s.rates, origin, r.address, s.now), s.config.limits, origin, r.address, s.now) <= 0 {
      CountingKeeps(s.rates, s.log, s.config.limits, origin, r.address, s.now, s.now);
    }
    hide Kept, Keep, KeepDenials, FirstUnused, RetryAfter, Counting, Asked, PairingWindows.Swept, OverdueIn, OverdueDenials, CountFrom;
  }

  lemma LaterKeeps(r: Rates, log: seq<Start>, limits: Limits, before: int, now: int)
    requires Kept(r, log, limits, before) && before <= now
    ensures Kept(r, log, limits, now)
  {
    forall c ensures Tracks(WindowFor(r, c), Times(log, c), now) && Limited(log, c, limits, now) {
      TracksLater(WindowFor(r, c), Times(log, c), before, now);
      assert Limited(log, c, limits, before);
    }
  }

  // ----- keeping one client for each pairing ----------------------------------------------------------------

  /** Statuses and approvals as they were, nothing new in the registry, and only `call` changed, to something harmless. */
  ghost predicate LeavesCreations(s: State, s': State, i: nat) {
    && s'.approvedBy == s.approvedBy
    && (forall id :: id in s.pairings <==> id in s'.pairings)
    && (forall id :: id in s.pairings ==> s'.pairings[id].status == s.pairings[id].status)
    && (forall id :: id in s'.held ==> id in s.held)
    && |s.calls| <= |s'.calls| <= |s.calls| + 1
    && (forall k :: 0 <= k < |s'.calls| && k != i ==> k < |s.calls| && s'.calls[k] == s.calls[k])
    && (i < |s.calls| ==> !s.calls[i].stage.Creating? && !s.calls[i].stage.Answered?)
    && (i < |s'.calls| ==> Harmless(s', s'.calls[i]))
  }

  predicate Harmless(s: State, call: Call) {
    match call.stage
    case Hashing => true
    case Owned(finding) => finding.Own? ==> finding.id in s.pairings
    case Creating(_) => false
    case Answered(answer) => !answer.Paired?
  }

  lemma LeavingSpends(s: State, s': State, i: nat)
    requires LeavesCreations(s, s', i)
    ensures forall k, id :: SpentAt(s', k, id) <==> SpentAt(s, k, id)
    ensures forall k, id :: PairedAt(s', k, id) <==> PairedAt(s, k, id)
  {
    forall k: nat, id
      ensures SpentAt(s', k, id) <==> SpentAt(s, k, id)
      ensures PairedAt(s', k, id) <==> PairedAt(s, k, id)
    {
      if k != i && k < |s'.calls| {
        var call := s'.calls[k];
        assert k < |s.calls| && call == s.calls[k];
      }
    }
  }

  lemma LeavingKnowsFindings(s: State, s': State, i: nat)
    requires FindingsKnown(s) && LeavesCreations(s, s', i)
    ensures FindingsKnown(s')
  {
    forall k | 0 <= k < |s'.calls| && s'.calls[k].stage.Owned? && s'.calls[k].stage.finding.Own?
      ensures s'.calls[k].stage.finding.id in s'.pairings
    {
      if k == i {
        assert Harmless(s', s'.calls[i]);
      } else {
        assert s'.calls[k] == s.calls[k];
      }
    }
  }

  lemma LeavingKeepsApprovals(s: State, s': State, i: nat)
    requires ApprovalsStand(s) && LeavesCreations(s, s', i)
    ensures ApprovalsStand(s')
  {
  }

  lemma LeavingKeepsClaims(s: State, s': State, i: nat)
    requires ClaimingAreSpent(s) && LeavesCreations(s, s', i)
    ensures ClaimingAreSpent(s')
  {
    LeavingSpends(s, s', i);
    forall id | id in s'.pairings && s'.pairings[id].status.Claiming? ensures exists k :: SpentAt(s', k, id) {
      assert s.pairings[id].status.Claiming?;
      var k :| SpentAt(s, k, id);
      assert SpentAt(s', k, id);
    }
  }

  lemma LeavingKeepsCreations(s: State, s': State, i: nat)
    requires Creations(s) && LeavesCreations(s, s', i)
    ensures Creations(s')
  {
    LeavingKnowsFindings(s, s', i);
    LeavingKeepsApprovals(s, s', i);
    LeavingKeepsClaims(s, s', i);
    LeavingSpends(s, s', i);
    hide SpentAt, PairedAt, FindingsKnown, ApprovalsStand, ClaimingAreSpent;
  }

  // ----- each step ----------------------------------------------------------------------------------------

  lemma HeldAfterDrop(s: State, gone: set<Id>)
    ensures forall id :: id in Keep(s.held, gone) ==> id in s.held
  {
    KeepKeeps(s.held, gone);
  }

  /** A start changes no pairing there was; what it may add waits for a decision. */
  lemma StartingAdds(s: State, r: Request, id: Id, draws: seq<string>)
    requires LimitsSet(s.config.limits)
    ensures var s' := Starting(s, r, id, draws).0;
      && s'.calls == s.calls && s'.approvedBy == s.approvedBy
      && (s'.pairings == s.pairings
          || (id in s'.pairings && s'.pairings == s.pairings[id := s'.pairings[id]] && s'.pairings[id].status.Pending?))
      && (forall k :: k in s'.held ==> k in s.held || k == id)
  {
    HeldAfterDrop(s, OverdueIn(s.pairings, s.held, s.now));
    hide Keep, KeepDenials, OverdueIn, OverdueDenials, FirstUnused, CountFrom, Asked, Counting, RetryAfter, PairingWindows.Swept;
  }

  lemma StartingKeepsCreations(s: State, r: Request, id: Id, draws: seq<string>)
    requires Creations(s) && id !in s.pairings && LimitsSet(s.config.limits)
    ensures Creations(Starting(s, r, id, draws).0)
  {
    StartingAdds(s, r, id, draws);
    hide Starting;
    FreshKeepsCreations(s, Starting(s, r, id, draws).0, id);
  }

  /** When the calls are as they were, nobody has spent anything more. */
  lemma SameCallsSpend(s: State, s': State)
    requires s'.calls == s.calls
    ensures forall k, id :: SpentAt(s', k, id) <==> SpentAt(s, k, id)
    ensures forall k, id :: PairedAt(s', k, id) <==> PairedAt(s, k, id)
  {
  }

  /** A pairing that has just started is nobody's claim yet. */
  lemma FreshKeepsCreations(s: State, s': State, id: Id)
    requires Creations(s) && id !in s.pairings && s'.calls == s.calls && s'.approvedBy == s.approvedBy
    requires s'.pairings == s.pairings
             || (id in s'.pairings && s'.pairings == s.pairings[id := s'.pairings[id]] && s'.pairings[id].status.Pending?)
    requires forall k :: k in s'.held ==> k in s.held || k == id
    ensures Creations(s')
  {
    SameCallsSpend(s, s');
    assert forall k, p :: PairedAt(s, k, p) ==> SpentAt(s, k, p);
    hide SpentAt, PairedAt;
    assert ClaimingAreSpent(s') by {
      forall p | p in s'.pairings && s'.pairings[p].status.Claiming? ensures exists k :: SpentAt(s', k, p) {
        var k :| SpentAt(s, k, p);
        assert SpentAt(s', k, p);
      }
    }
    hide ClaimingAreSpent;
  }

  lemma FindingLeaves(s: State, call: Call)
    ensures var (s', finding) := FindOwn(s, call);
      && s'.calls == s.calls && s'.approvedBy == s.approvedBy && (finding.Own? ==> finding.id in s.pairings)
      && (forall id :: id in s.pairings <==> id in s'.pairings)
      && (forall id :: id in s.pairings ==> s'.pairings[id].status == s.pairings[id].status)
      && (forall id :: id in s'.held ==> id in s.held)
  {
    HeldAfterDrop(s, {call.id});
    hide Keep, KeepDenials;
  }

  lemma ResumingKeepsCreations(s: State, i: nat)
    requires Creations(s) && i < |s.calls| && s.calls[i].stage.Hashing?
    ensures Creations(Resumed(s, i))
  {
    FindingLeaves(s, s.calls[i]);
    hide FindOwn;
    LeavingKeepsCreations(s, Resumed(s, i), i);
  }

  lemma CallingKeepsCreations(s: State, kind: Kind, of: Id, hash: Option<string>, origin: Option<string>)
    requires Creations(s)
    ensures Creations(Called(s, kind, of, hash, origin))
  {
    var denial, found := DenialOf(s.denials, of), of in s.held;
    var call := Call(kind, of, hash, origin, s.now, found, denial, if found || denial.Some? then Hashing else Owned(Missing));
    var s' := s.(calls := s.calls + [call]);
    LeavingKeepsCreations(s, s', |s.calls|);
    if call.stage.Hashing? {
      ResumingKeepsCreations(s', |s.calls|);
    }
  }

  /** The claim that finds its pairing approved is the one that creates its client. */
  lemma ClaimingKeepsCreations(s: State, i: nat)
    requires Creations(s) && i < |s.calls| && s.calls[i].stage.Owned? && Continued(s, i).calls[i].stage.Creating?
    ensures Creations(Continued(s, i))
  {
    var s', id := Continued(s, i), Continued(s, i).calls[i].stage.id;
    assert s.calls[i].kind.Claim? && s.pairings[id].status.Approved?;
    assert s'.pairings == s.pairings[id := s'.pairings[id]] && s'.pairings[id].status.Claiming?;
    assert s'.calls == s.calls[i := s.calls[i].(stage := Creating(id))] && s'.held == s.held && s'.approvedBy == s.approvedBy;
    hide Continued, Claimed;
    SpendingKeepsCreations(s, s', i, id);
  }

  lemma SpendingKeepsStatuses(s: State, s': State, i: nat, id: Id)
    requires Creations(s) && i < |s.calls| && s.calls[i].stage.Owned? && s'.calls == s.calls[i := s.calls[i].(stage := Creating(id))]
    requires id in s.pairings && s.pairings[id].status.Approved? && id in s'.pairings && s'.pairings[id].status.Claiming?
    requires s'.pairings == s.pairings[id := s'.pairings[id]] && s'.held == s.held && s'.approvedBy == s.approvedBy
    ensures FindingsKnown(s') && ApprovalsStand(s')
  {
    hide SpentAt, SpentOnce, SpentAreClaiming, ClaimingAreSpent, PairedLeft;
    forall k | 0 <= k < |s'.calls| && s'.calls[k].stage.Owned? && s'.calls[k].stage.finding.Own?
      ensures s'.calls[k].stage.finding.id in s'.pairings
    {
      assert s'.calls[k] == s.calls[k];
    }
  }

  lemma SpendingKeepsCreations(s: State, s': State, i: nat, id: Id)
    requires Creations(s) && i < |s.calls| && s.calls[i].stage.Owned?
    requires id in s.pairings && s.pairings[id].status.Approved? && id in s'.pairings && s'.pairings[id].status.Claiming?
    requires s'.pairings == s.pairings[id := s'.pairings[id]] && s'.held == s.held && s'.approvedBy == s.approvedBy
    requires s'.calls == s.calls[i := s.calls[i].(stage := Creating(id))]
    ensures Creations(s')
  {
    SpendingKeepsStatuses(s, s', i, id);
    SpendingSpends(s, s', i, id);
    hide SpentAt, PairedAt, FindingsKnown, ApprovalsStand;
    assert forall k :: !SpentAt(s, k, id);
    forall p | p in s'.pairings && s'.pairings[p].status.Claiming? ensures exists k :: SpentAt(s', k, p) {
      if p == id {
        assert SpentAt(s', i, id);
      } else {
        assert s.pairings[p].status.Claiming?;
        var k :| SpentAt(s, k, p);
        assert SpentAt(s', k, p);
      }
    }
  }

  lemma SpendingSpends(s: State, s': State, i: nat, id: Id)
    requires i < |s.calls| && s.calls[i].stage.Owned? && s'.calls == s.calls[i := s.calls[i].(stage := Creating(id))]
    ensures forall k, p :: SpentAt(s', k, p) <==> SpentAt(s, k, p) || (k == i && p == id)
    ensures forall k, p :: PairedAt(s', k, p) <==> PairedAt(s, k, p)
    ensures forall p :: !SpentAt(s, i, p)
  {
  }

  /** Statuses, approvals and calls as they were, and nothing new in the registry. */
  predicate LeavesStatuses(s: State, s': State) {
    && s'.approvedBy == s.approvedBy && s'.calls == s.calls && s'.pairings.Keys == s.pairings.Keys
    && (forall id :: id in s.pairings ==> s'.pairings[id].status == s.pairings[id].status)
    && (forall id :: id in s'.held ==> id in s.held)
  }

  /** A claim that does not start a creation leaves every status as it was. */
  lemma ClaimedLeaves(s: State, call: Call)
    requires call.stage.Owned? && !Claimed(s, call).1.Creating?
    ensures LeavesStatuses(s, Claimed(s, call).0) && Claimed(s, call).1.Answered? && !Claimed(s, call).1.answer.Paired?
  {
  }

  lemma CancelledLeaves(s: State, call: Call)
    requires call.stage.Owned?
    ensures LeavesStatuses(s, CancelledBy(s, call).0) && CancelledBy(s, call).1.Answered? && !CancelledBy(s, call).1.answer.Paired?
  {
    if call.stage.finding.Own? {
      HeldAfterDrop(s, {call.stage.finding.id});
    }
    hide Keep, KeepDenials;
  }

  lemma ContinuingLeaves(s: State, i: nat)
    requires i < |s.calls| && s.calls[i].stage.Owned? && !Continued(s, i).calls[i].stage.Creating?
    ensures LeavesCreations(s, Continued(s, i), i)
  {
    if s.calls[i].kind.Claim? {
      ClaimedLeaves(s, s.calls[i]);
    } else {
      CancelledLeaves(s, s.calls[i]);
    }
    hide Claimed, CancelledBy;
  }

  /** The settled call stays spent if it paired, and no other call changes. */
  lemma SettlingSpends(s: State, i: nat, ok: bool)
    requires SpentOnce(s) && i < |s.calls| && s.calls[i].stage.Creating? && s.calls[i].stage.id in s.pairings
    ensures var s', id := CreationSettled(s, i, ok), s.calls[i].stage.id;
      && SpentAt(s, i, id) && (forall p :: SpentAt(s, i, p) ==> p == id) && (forall k :: SpentAt(s, k, id) ==> k == i)
      && (forall k, p :: SpentAt(s', k, p) <==> SpentAt(s, k, p) && (ok || k != i))
      && (forall k, p :: PairedAt(s', k, p) <==> PairedAt(s, k, p) || (ok && k == i && p == id))
  {
    assert SpentAt(s, i, s.calls[i].stage.id);
  }

  lemma SettlingKeepsStatuses(s: State, i: nat, ok: bool)
    requires Creations(s) && i < |s.calls| && s.calls[i].stage.Creating? && s.calls[i].stage.id in s.pairings
    ensures FindingsKnown(CreationSettled(s, i, ok)) && ApprovalsStand(CreationSettled(s, i, ok))
    ensures PairedLeft(CreationSettled(s, i, ok))
  {
    var s', id := CreationSettled(s, i, ok), s.calls[i].stage.id;
    SettlingSpends(s, i, ok);
    assert s.pairings[id].status.Claiming? by {
      assert SpentAt(s, i, id);
    }
    KeepKeeps(s.held, {id});
    hide SpentAt, PairedAt, Keep;
    forall k | 0 <= k < |s'.calls| && s'.calls[k].stage.Owned? && s'.calls[k].stage.finding.Own?
      ensures s'.calls[k].stage.finding.id in s'.pairings
    {
      assert s'.calls[k] == s.calls[k];
    }
  }

  lemma SettlingKeepsCreations(s: State, i: nat, ok: bool)
    requires Creations(s) && i < |s.calls| && s.calls[i].stage.Creating? && s.calls[i].stage.id in s.pairings
    ensures Creations(CreationSettled(s, i, ok))
  {
    var s', id := CreationSettled(s, i, ok), s.calls[i].stage.id;
    SettlingKeepsStatuses(s, i, ok);
    SettlingSpends(s, i, ok);
    hide SpentAt, PairedAt, FindingsKnown, ApprovalsStand, PairedLeft, Dropped;
    forall p | p in s'.pairings && s'.pairings[p].status.Claiming? ensures exists k :: SpentAt(s', k, p) {
      assert s.pairings[p].status.Claiming?;
      var k :| SpentAt(s, k, p);
      assert SpentAt(s', k, p);
    }
  }

  lemma DecidingKeepsCreations(s: State, id: Id, approve: Option<bool>, approver: string)
    requires Creations(s)
    ensures Creations(Deciding(s, id, approve, approver).0)
  {
    var s' := Deciding(s, id, approve, approver).0;
    HeldAfterDrop(s, {id});
    HeldAfterDrop(s, OverdueIn(s.pairings, s.held, s.now));
    hide Keep, KeepDenials, LastFew;
    if s'.approvedBy == s.approvedBy && s'.pairings == s.pairings {
      LeavingKeepsCreations(s, s', |s.calls|);
    } else {
      ApprovingKeepsCreations(s, s', id);
    }
  }

  lemma ApprovingKeepsCreations(s: State, s': State, id: Id)
    requires Creations(s) && id in s.pairings && s.pairings[id].status.Pending? && id in s'.approvedBy
    requires s' == s.(pairings := s.pairings[id := s.pairings[id].(status := Approved)],
                      approvedBy := s.approvedBy[id := s'.approvedBy[id]])
    ensures Creations(s')
  {
    SameCallsSpend(s, s');
    hide SpentAt;
    assert forall k :: !SpentAt(s, k, id);
    assert ClaimingAreSpent(s') by {
      forall p | p in s'.pairings && s'.pairings[p].status.Claiming? ensures exists k :: SpentAt(s', k, p) {
        var k :| SpentAt(s, k, p);
        assert SpentAt(s', k, p);
      }
    }
    hide ClaimingAreSpent;
  }

  lemma StepKeepsCreations(s: State, a: Action)
    requires Creations(s) && Enabled(s, a) && LimitsSet(s.config.limits)
    ensures Creations(Step(s, a))
  {
    match a
    case Tick(_) => LeavingKeepsCreations(s, Step(s, a), |s.calls|);
    case Begins(request, id, draws) => StartingKeepsCreations(s, request, id, draws);
    case Calls(kind, of, hash, origin) => CallingKeepsCreations(s, kind, of, hash, origin);
    case Hashed(i) => ResumingKeepsCreations(s, i);
    case Continues(i) =>
      if Continued(s, i).calls[i].stage.Creating? {
        ClaimingKeepsCreations(s, i);
      } else {
        ContinuingLeaves(s, i);
        hide Continued, Creations;
        LeavingKeepsCreations(s, Continued(s, i), i);
      }
    case Created(i, ok) => SettlingKeepsCreations(s, i, ok);
    case Decides(id, approve, approver) => DecidingKeepsCreations(s, id, approve, approver);
    case Looks =>
      HeldAfterDrop(s, OverdueIn(s.pairings, s.held, s.now));
      LeavingKeepsCreations(s, Step(s, a), |s.calls|);
  }

  // ----- whole runs ---------------------------------------------------------------------------------------

  lemma InitialSatisfiesInv(s: State)
    requires Initial(s)
    ensures Inv(s)
  {
    assert Pruned([], s.now) == [];
    forall c ensures Tracks(WindowFor(s.rates, c), Times(s.log, c), s.now) {
      assert WindowFor(s.rates, c) == Pruned(Times(s.log, c), s.now);
    }
  }

  lemma {:induction false} EveryStateSatisfiesInv(states: seq<State>, actions: seq<Action>, n: nat)
    requires IsRun(states, actions) && n < |states|
    ensures Inv(states[n]) && LimitsSet(states[n].config.limits)
  {
    hide Registry, Creations, Paced;
    if n == 0 {
      InitialSatisfiesInv(states[0]);
    } else {
      var s, a := states[n - 1], actions[n - 1];
      EveryStateSatisfiesInv(states, actions, n - 1);
      assert states[n - 1 + 1] == Step(s, a);
      hide Step, Enabled;
      StepKeepsRegistry(s, a);
      StepKeepsCreations(s, a);
      StepKeepsPaced(s, a);
    }
    LimitsOfRegistry(states[n]);
  }

  lemma LimitsOfRegistry(s: State)
    requires Registry(s)
    ensures LimitsSet(s.config.limits)
  {
  }

  /** No two calls are ever creating, or have ever created, the same pairing's client. */
  lemma AtMostOneClientPerPairing(states: seq<State>, actions: seq<Action>, n: nat, i: nat, j: nat, id: Id)
    requires IsRun(states, actions) && n < |states| && i < |states[n].calls| && j < |states[n].calls|
    requires Spent(states[n].calls[i], id) && Spent(states[n].calls[j], id)
    ensures i == j
  {
    EveryStateSatisfiesInv(states, actions, n);
    assert SpentAt(states[n], i, id) && SpentAt(states[n], j, id);
  }

  /** Someone approved the pairing at an earlier step, while it was waiting, in the registry and not overdue. */
  predicate ApprovedAt(s: State, a: Action, id: Id, approver: string) {
    a == Decides(id, Some(true), approver) && id in s.held && id in s.pairings && s.pairings[id].status.Pending?
    && s.now < s.pairings[id].expiresAtMs
  }

  lemma FindingApprovesNone(s: State, call: Call)
    ensures FindOwn(s, call).0.approvedBy == s.approvedBy
    ensures call.stage.Owned? ==> Claimed(s, call).0.approvedBy == s.approvedBy && CancelledBy(s, call).0.approvedBy == s.approvedBy
  {
    hide Keep, KeepDenials;
  }

  lemma ApprovalsComeFromDecisions(s: State, a: Action, id: Id)
    requires Enabled(s, a) && LimitsSet(s.config.limits) && id in Step(s, a).approvedBy
    ensures (id in s.approvedBy && Step(s, a).approvedBy[id] == s.approvedBy[id]) || ApprovedAt(s, a, id, Step(s, a).approvedBy[id])
  {
    if (a.Hashed? || a.Continues?) && a.call < |s.calls| {
      FindingApprovesNone(s, s.calls[a.call]);
    } else if a.Calls? {
      var s' := s.(calls := s.calls + [Call(a.kind, a.of, a.hash, a.origin, s.now, a.of in s.held, DenialOf(s.denials, a.of),
                                            Hashing)]);
      FindingApprovesNone(s', s'.calls[|s.calls|]);
    } else if a.Begins? {
      StartingAdds(s, a.request, a.id, a.draws);
    }
    hide Keep, KeepDenials, OverdueIn, OverdueDenials, LastFew, PairingWindows.Swept, FindOwn, Claimed, CancelledBy, DenialOf,
         Starting;
  }

  lemma LastApproval(states: seq<State>, actions: seq<Action>, n: nat, id: Id)
    requires IsRun(states, actions) && n < |states| && id in states[n].approvedBy
    ensures n > 0 && n - 1 < |actions|
    ensures (id in states[n - 1].approvedBy && states[n].approvedBy[id] == states[n - 1].approvedBy[id])
            || ApprovedAt(states[n - 1], actions[n - 1], id, states[n].approvedBy[id])
  {
    assert n > 0;
    assert states[n - 1 + 1] == Step(states[n - 1], actions[n - 1]);
    ApprovalsComeFromDecisions(states[n - 1], actions[n - 1], id);
    hide Step, Enabled, ApprovedAt;
  }

  lemma {:induction false} ApprovalsWereMade(states: seq<State>, actions: seq<Action>, n: nat, id: Id)
    requires IsRun(states, actions) && n < |states| && id in states[n].approvedBy
    ensures exists k :: 0 <= k < n && k < |actions| && ApprovedAt(states[k], actions[k], id, states[n].approvedBy[id])
  {
    hide IsRun, ApprovedAt;
    LastApproval(states, actions, n, id);
    if !ApprovedAt(states[n - 1], actions[n - 1], id, states[n].approvedBy[id]) {
      ApprovalsWereMade(states, actions, n - 1, id);
    }
  }

  /** A client is only ever created, or being created, for a pairing someone approved. */
  lemma ClientsNeedAnApproval(states: seq<State>, actions: seq<Action>, n: nat, i: nat, id: Id)
    requires IsRun(states, actions) && n < |states| && i < |states[n].calls| && Spent(states[n].calls[i], id)
    ensures exists k, approver :: 0 <= k < n && k < |actions| && ApprovedAt(states[k], actions[k], id, approver)
  {
    EveryStateSatisfiesInv(states, actions, n);
    assert SpentAt(states[n], i, id);
    ApprovalsWereMade(states, actions, n, id);
  }

  // ----- what callers and approvers are told ----------------------------------------------------------------

  /**
   * A start is refused for its rate exactly when some limit does not admit it
   * now, and `retryAfterMs` is then the least delay after which all three do.
   */
  lemma RateAnswerIsExact(s: State, r: Request, id: Id, draws: seq<string>, delay: nat)
    requires Paced(s) && r.origin.Some? && r.wellFormed
    ensures var answer := Starting(s, r, id, draws).1;
      && (answer.RateLimited? <==> !AdmitsAfter(s.log, s.config.limits, r.origin.value, r.address, s.now, 0))
      && (answer.RateLimited? ==>
            (AdmitsAfter(s.log, s.config.limits, r.origin.value, r.address, s.now, delay) <==> answer.retryAfterMs <= delay))
  {
    RetryAfterIsLeast(s.rates, s.log, s.config.limits, r.origin.value, r.address, s.now, s.now, 0);
    RetryAfterIsLeast(s.rates, s.log, s.config.limits, r.origin.value, r.address, s.now, s.now, delay);
    hide AdmitsAfter, RetryAfter, Kept, Asked, PairingWindows.Swept, Keep, KeepDenials, Counting, FirstUnused, CountFrom;
  }

  /** In every state of every run, any minute holds at most the configured starts, and the maps of windows stay small. */
  lemma StartsStayWithinLimits(states: seq<State>, actions: seq<Action>, n: nat, c: Counted, from: int)
    requires IsRun(states, actions) && n < |states|
    ensures var s := states[n];
      && |Within(Times(s.log, c), from)| <= LimitOf(s.config.limits, c)
      && |s.rates.origins| <= s.config.limits.total + 1 && |s.rates.addresses| <= s.config.limits.total + 1
  {
    EveryStateSatisfiesInv(states, actions, n);
    EveryMinuteWithinLimits(states[n].rates, states[n].log, states[n].config.limits, states[n].now, c, from);
  }

  predicate Shown(s: State, id: Id) {
    id in s.held && id in s.pairings && s.now < s.pairings[id].expiresAtMs && !s.pairings[id].status.Claiming?
  }

  lemma {:induction false} ListedAre(pairings: map<Id, Pairing>, held: seq<Id>)
    ensures forall id :: id in Listed(pairings, held) <==> id in held && id in pairings && IsListed(pairings[id])
  {
    if held != [] {
      ListedAre(pairings, held[..|held| - 1]);
      assert held == held[..|held| - 1] + [held[|held| - 1]];
    }
  }

  /** `listPending` shows exactly the registry's unexpired pairings that are not being claimed. */
  lemma PendingAreShown(s: State)
    ensures forall id :: id in PendingIds(s) <==> Shown(s, id)
  {
    KeepKeeps(s.held, OverdueIn(s.pairings, s.held, s.now));
    ListedAre(s.pairings, PairingSteps.Swept(s).held);
  }

  lemma {:induction false} FirstWithCodeIs(pairings: map<Id, Pairing>, ids: seq<Id>, code: string)
    ensures match FirstWithCode(pairings, ids, code)
      case Some(id) => id in ids && id in pairings && pairings[id].userCode == code && IsListed(pairings[id])
      case None => forall id :: id in ids && id in pairings && IsListed(pairings[id]) ==> pairings[id].userCode != code
  {
    if ids != [] {
      FirstWithCodeIs(pairings, ids[1..], code);
    }
  }

  /** `lookup` finds the one shown pairing with the code, and nothing when there is none. */
  lemma LookupFindsTheOne(s: State, code: string, id: Id)
    requires Registry(s)
    ensures Lookup(s, code) == Some(id) <==> Shown(s, id) && s.pairings[id].userCode == code
  {
    KeepKeeps(s.held, OverdueIn(s.pairings, s.held, s.now));
    FirstWithCodeIs(s.pairings, PairingSteps.Swept(s).held, code);
    if Shown(s, id) && s.pairings[id].userCode == code {
      assert id in PairingSteps.Swept(s).held && IsListed(s.pairings[id]);
    }
  }
}
