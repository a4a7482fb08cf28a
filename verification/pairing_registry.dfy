/**
 * `PairingRegistry` and its windows (`api/src/pairing.ts`) in their own form:
 * the maps and lists they change in place and the loops that walk them, each
 * call proved to be its step of `PairingSteps`.
 */
module PairingRegistry {
  import opened Options
  import opened PairingWindows
  import opened PairingSteps
  import PairingRuns

  /** `StartWindow`. */
  class StartWindow {
    const limit: nat
    var starts: seq<int>

    constructor (limit: nat)
      ensures this.limit == limit && starts == []
    {
      this.limit := limit;
      starts := [];
    }

    method WaitAt(now: int) returns (wait: int)
      requires limit >= 1
      modifies this
      ensures starts == Pruned(old(starts), now) && wait == WaitOf(starts, limit, now)
    {
      Prune(now);
      if |starts| < limit {
        return 0;
      }
      wait := starts[0] + RATE_WINDOW_MS - now;
    }

    method Record(now: int)
      modifies this
      ensures starts == old(starts) + [now]
    {
      starts := starts + [now];
    }

    method EmptyAt(now: int) returns (empty: bool)
      modifies this
      ensures starts == Pruned(old(starts), now) && empty == (starts == [])
    {
      Prune(now);
      empty := |starts| == 0;
    }

    method Prune(now: int)
      modifies this
      ensures starts == Pruned(old(starts), now)
    {
      while |starts| > 0 && starts[0] + RATE_WINDOW_MS <= now
        invariant Pruned(starts, now) == Pruned(old(starts), now)
        decreases |starts|
      {
        starts := starts[1..];
      }
    }
  }

  lemma {:induction false} KeepMore(ids: seq<Id>, gone: set<Id>, more: set<Id>)
    ensures Keep(Keep(ids, gone), more) == Keep(ids, gone + more)
  {
    if ids != [] {
      var init, last := ids[..|ids| - 1], ids[|ids| - 1];
      KeepMore(init, gone, more);
      assert Keep(init, gone) + [last] != [] && (Keep(init, gone) + [last])[..|Keep(init, gone)|] == Keep(init, gone);
    }
  }

  lemma {:induction false} KeepMoreDenials(denials: seq<Denial>, gone: set<Id>, more: set<Id>)
    ensures KeepDenials(KeepDenials(denials, gone), more) == KeepDenials(denials, gone + more)
  {
    if denials != [] {
      var init, last := denials[..|denials| - 1], denials[|denials| - 1];
      KeepMoreDenials(init, gone, more);
      assert (KeepDenials(init, gone) + [last])[..|KeepDenials(init, gone)|] == KeepDenials(init, gone);
    }
  }

  lemma OverdueNext(pairings: map<Id, Pairing>, ids: seq<Id>, n: nat, now: int)
    requires n < |ids|
    ensures OverdueIn(pairings, ids[..n + 1], now)
         == OverdueIn(pairings, ids[..n], now) + (if ids[n] in pairings && IsOverdue(pairings[ids[n]], now) then {ids[n]} else {})
  {
    assert ids[..n + 1] == ids[..n] + [ids[n]];
  }

  lemma {:induction false} KeepOnlyThose(ids: seq<Id>, gone: set<Id>, gone': set<Id>)
    requires forall id :: id in ids ==> (id in gone <==> id in gone')
    ensures Keep(ids, gone) == Keep(ids, gone')
  {
    if ids != [] {
      KeepOnlyThose(ids[..|ids| - 1], gone, gone');
    }
  }

  class Registry {
    const config: Config
    var clock: int
    var pairings: map<Id, Pairing>
    var held: seq<Id>
    var denials: seq<Denial>
    var rates: Rates
    var calls: seq<Call>
    /** Every admitted start, and who approved each pairing. */
    ghost var log: seq<Start>
    var approvedBy: map<Id, string>

    ghost function Now(): State
      reads this
    {
      State(config, clock, pairings, held, denials, rates, log, calls, approvedBy)
    }

    ghost predicate Valid()
      reads this
    {
      LimitsSet(config.limits) && PairingRuns.Inv(Now())
    }

    constructor (config: Config, now: int)
      requires ValidConfig(config)
      ensures Valid() && Initial(Now())
    {
      this.config, clock := config, now;
      pairings, held, denials, rates, calls, log, approvedBy := map[], [], [], Rates([], map[], map[]), [], [], map[];
      new;
      PairingRuns.InitialSatisfiesInv(Now());
    }

    method Tick(ms: nat)
      requires Valid()
      modifies this
      ensures Valid() && Now() == Step(old(Now()), Action.Tick(ms))
    {
      StepKept(Now(), Action.Tick(ms));
      hide PairingRuns.Inv;
      clock := clock + ms;
    }

    /** `pruneExpired`: overdue pairings, expired denials and empty windows go. */
    method PruneExpired()
      modifies this`held, this`denials, this`rates
      ensures Now() == PairingSteps.Swept(old(Now()))
    {
      PruneHeld();
      PruneDenials();
      var origins := PruneWindows(rates.origins);
      var addresses := PruneWindows(rates.addresses);
      rates := Rates(rates.total, origins, addresses);
    }

    method PruneHeld()
      modifies this`held
      ensures held == Keep(old(held), OverdueIn(pairings, old(held), clock))
    {
      var all, i := held, 0;
      PairingRuns.KeepAll(all);
      assert OverdueIn(pairings, all[..0], clock) == {};
      while i < |all|
        invariant 0 <= i <= |all| && held == Keep(all, OverdueIn(pairings, all[..i], clock))
      {
        OverdueNext(pairings, all, i, clock);
        assert OverdueIn(pairings, all[..i], clock) + {} == OverdueIn(pairings, all[..i], clock);
        if all[i] in pairings && IsOverdue(pairings[all[i]], clock) {
          KeepMore(all, OverdueIn(pairings, all[..i], clock), {all[i]});
          Drop(all[i]);
        }
        i := i + 1;
      }
      assert all[..i] == all;
    }

    /** `this.pairings.delete(id)`. */
    method Drop(id: Id)
      modifies this`held
      ensures held == Keep(old(held), {id})
    {
      var rest: seq<Id>, i := [], 0;
      while i < |held|
        invariant 0 <= i <= |held| && rest == Keep(held[..i], {id}) && held == old(held)
      {
        assert held[..i + 1][..i] == held[..i];
        if held[i] != id {
          rest := rest + [held[i]];
        }
        i := i + 1;
      }
      assert held[..i] == held;
      held := rest;
    }

    method PruneDenials()
      modifies this`denials
      ensures denials == KeepDenials(old(denials), OverdueDenials(old(denials), clock))
    {
      var all, i := denials, 0;
      PairingRuns.KeepAllDenials(all);
      hide KeepDenials;
      while i < |all|
        invariant 0 <= i <= |all| && denials == KeepDenials(all, OverdueDenials(all[..i], clock))
      {
        assert all[..i + 1][..i] == all[..i];
        assert OverdueDenials(all[..i], clock) + {} == OverdueDenials(all[..i], clock);
        if all[i].expiresAtMs <= clock {
          KeepMoreDenials(all, OverdueDenials(all[..i], clock), {all[i].id});
          ForgetDenial(all[i].id);
        }
        i := i + 1;
      }
      assert all[..i] == all;
    }

    method ForgetDenial(id: Id)
      modifies this`denials
      ensures denials == KeepDenials(old(denials), {id})
    {
      var rest: seq<Denial>, i := [], 0;
      while i < |denials|
        invariant 0 <= i <= |denials| && rest == KeepDenials(denials[..i], {id}) && denials == old(denials)
      {
        assert denials[..i + 1][..i] == denials[..i];
        if denials[i].id != id {
          rest := rest + [denials[i]];
        }
        i := i + 1;
      }
      assert denials[..i] == denials;
      denials := rest;
    }

    method PruneWindow(starts: seq<int>) returns (kept: seq<int>)
      ensures kept == Pruned(starts, clock)
    {
      kept := starts;
      while |kept| > 0 && kept[0] + RATE_WINDOW_MS <= clock
        invariant Pruned(kept, clock) == Pruned(starts, clock)
        decreases |kept|
      {
        kept := kept[1..];
      }
    }

    method PruneWindows(windows: map<string, seq<int>>) returns (rest: map<string, seq<int>>)
      ensures rest == NonEmpty(windows, clock)
    {
      var todo := windows.Keys;
      rest := windows;
      while todo != {}
        invariant todo <= windows.Keys
        invariant forall key :: key in todo ==> key in rest && rest[key] == windows[key]
        invariant forall key :: key in windows.Keys - todo ==>
          (key in rest <==> Pruned(windows[key], clock) != []) && (key in rest ==> rest[key] == Pruned(windows[key], clock))
        invariant rest.Keys <= windows.Keys
        decreases todo
      {
        var key :| key in todo;
        var kept := PruneWindow(windows[key]);
        rest := if |kept| == 0 then rest - {key} else rest[key := kept];
        todo := todo - {key};
      }
    }

    /** `newUserCode`: the first of the codes drawn that no waiting pairing has. */
    method NewUserCode(draws: seq<string>) returns (code: Option<string>)
      ensures code == FirstUnused(draws, pairings, held)
    {
      var attempt := 0;
      while attempt < |draws|
        invariant 0 <= attempt <= |draws|
        invariant FirstUnused(draws, pairings, held) == FirstUnused(draws[attempt..], pairings, held)
      {
        var i, used := 0, false;
        while i < |held| && !used
          invariant 0 <= i <= |held| && used == CodeInUse(pairings, held[..i], draws[attempt])
        {
          assert held[..i + 1] == held[..i] + [held[i]];
          used := held[i] in pairings && pairings[held[i]].userCode == draws[attempt];
          i := i + 1;
        }
        assert used ==> CodeInUse(pairings, held, draws[attempt]);
        assert !used ==> held[..i] == held;
        if !used {
          return Some(draws[attempt]);
        }
        attempt := attempt + 1;
      }
      code := None;
    }

    method CountOrigin(origin: string) returns (count: nat)
      ensures count == CountFrom(pairings, held, origin)
    {
      var i := 0;
      count := 0;
      while i < |held|
        invariant 0 <= i <= |held| && count == CountFrom(pairings, held[..i], origin)
      {
        assert held[..i + 1][..i] == held[..i];
        if held[i] in pairings && pairings[held[i]].origin == origin {
          count := count + 1;
        }
        i := i + 1;
      }
      assert held[..i] == held;
    }

    method StartPairing(request: Request, id: Id, draws: seq<string>) returns (answer: StartAnswer)
      requires Valid() && Enabled(Now(), Begins(request, id, draws))
      modifies this
      ensures Valid() && (Now(), answer) == Starting(old(Now()), request, id, draws)
    {
      StepKept(Now(), Begins(request, id, draws));
      hide PairingRuns.Inv;
      if request.origin.None? {
        return OriginRefused;
      }
      if !request.wellFormed {
        return InvalidRequest;
      }
      hide PairingSteps.Swept, Opening;
      PruneExpired();
      var wait := AskWindows(request.origin.value, request.address);
      if wait > 0 {
        return RateLimited(wait);
      }
      answer := Admit(request, id, draws);
    }

    /** `windowFor` and `waitAt` of each of the three limits. */
    method AskWindows(origin: string, address: string) returns (wait: int)
      requires LimitsSet(config.limits)
      modifies this`rates
      ensures rates == Asked(old(rates), origin, address, clock)
      ensures wait == RetryAfter(rates, config.limits, origin, address, clock)
    {
      var total := PruneWindow(rates.total);
      var fromOrigin := PruneWindow(if origin in rates.origins then rates.origins[origin] else []);
      var fromAddress := PruneWindow(if address in rates.addresses then rates.addresses[address] else []);
      rates := Rates(total, rates.origins[origin := fromOrigin], rates.addresses[address := fromAddress]);
      wait := Max(WaitOf(total, config.limits.total, clock),
                  Max(WaitOf(fromOrigin, config.limits.perOrigin, clock), WaitOf(fromAddress, config.limits.perAddress, clock)));
    }

    method Admit(request: Request, id: Id, draws: seq<string>) returns (answer: StartAnswer)
      requires request.origin.Some?
      modifies this
      ensures (Now(), answer) == Opening(old(Now()), request, id, draws)
    {
      var origin := request.origin.value;
      var fromOrigin := CountOrigin(origin);
      if |held| >= config.maxPending || fromOrigin >= config.maxPendingPerOrigin {
        return TooManyPending;
      }
      rates := Counting(rates, origin, request.address, clock);
      log := log + [Start(clock, origin, request.address)];
      var code := NewUserCode(draws);
      if code.None? {
        return NoCode;
      }
      var pairing := Pairing(code.value, origin, request.description, request.verifierHash, clock, clock + config.ttlMs, Pending,
                             config.pollIntervalMs, None, 0);
      pairings := pairings[id := pairing];
      held := held + [id];
      answer := Started(id, code.value, pairing.expiresAtMs, pairing.pollIntervalMs);
    }

    method FindDenial(id: Id) returns (denial: Option<Denial>)
      ensures denial == DenialOf(denials, id)
    {
      var i := |denials|;
      assert denials[..i] == denials;
      while i > 0
        invariant 0 <= i <= |denials| && DenialOf(denials, id) == DenialOf(denials[..i], id)
      {
        assert denials[..i][..i - 1] == denials[..i - 1];
        if denials[i - 1].id == id {
          return Some(denials[i - 1]);
        }
        i := i - 1;
      }
      denial := None;
    }

    /** A claim or cancel comes in. */
    method BeginCall(kind: Kind, of: Id, hash: Option<string>, origin: Option<string>) returns (i: nat)
      requires Valid()
      modifies this
      ensures Valid() && i == |old(calls)| && Now() == Step(old(Now()), Calls(kind, of, hash, origin))
    {
      StepKept(Now(), Calls(kind, of, hash, origin));
      hide PairingRuns.Inv, FindOwn;
      i := |calls|;
      var found := of in held;
      var denial := FindDenial(of);
      var waits := found || denial.Some?;
      calls := calls + [Call(kind, of, hash, origin, clock, found, denial, if waits then Hashing else Owned(Missing))];
      if waits && hash.None? {
        FinishOwn(i);
      }
    }

    method HashReady(i: nat)
      requires Valid() && Enabled(Now(), Hashed(i))
      modifies this
      ensures Valid() && Now() == Step(old(Now()), Hashed(i))
    {
      StepKept(Now(), Hashed(i));
      hide PairingRuns.Inv, FindOwn;
      FinishOwn(i);
    }

    /** `ownPairing` from the hash on. */
    method FinishOwn(i: nat)
      requires i < |calls|
      modifies this`calls, this`held, this`denials, this`pairings
      ensures Now() == Resumed(old(Now()), i)
    {
      var finding := FindOwner(calls[i]);
      calls := calls[i := calls[i].(stage := Owned(finding))];
    }

    method FindOwner(call: Call) returns (finding: Finding)
      modifies this`held, this`denials, this`pairings
      ensures (Now(), finding) == FindOwn(old(Now()), call)
    {
      if call.denial.Some? {
        var denial := call.denial.value;
        if call.origin != Some(denial.origin) || call.hash != Some(denial.verifierHash) {
          return Missing;
        }
        ForgetDenial(call.id);
        return if call.now < denial.expiresAtMs then WasDenied else Overdue;
      }
      if !call.pairing || call.id !in held || call.id !in pairings {
        return Missing;
      }
      var pairing := pairings[call.id];
      if call.origin != Some(pairing.origin) {
        return Missing;
      }
      if call.hash != Some(pairing.verifierHash) {
        pairings := pairings[call.id := pairing.(failedClaims := pairing.failedClaims + 1)];
        if pairing.failedClaims + 1 >= config.claimFailuresBeforeCancel && !pairing.status.Claiming? {
          Drop(call.id);
        }
        return Missing;
      }
      if IsOverdue(pairing, call.now) {
        Drop(call.id);
        return Overdue;
      }
      finding := Own(call.id);
    }

    /** A claim or cancel goes on from what it found. */
    method ContinueCall(i: nat)
      requires Valid() && Enabled(Now(), Continues(i))
      modifies this
      ensures Valid() && Now() == Step(old(Now()), Continues(i))
    {
      StepKept(Now(), Continues(i));
      hide PairingRuns.Inv, Claimed, CancelledBy;
      var stage;
      if calls[i].kind.Claim? {
        stage := ClaimFound(calls[i]);
      } else {
        stage := CancelFound(calls[i]);
      }
      calls := calls[i := calls[i].(stage := stage)];
    }

    method ClaimFound(call: Call) returns (stage: Stage)
      requires call.stage.Owned?
      modifies this`pairings
      ensures (Now(), stage) == Claimed(old(Now()), call)
    {
      match call.stage.finding
      case Missing => return Answered(NotFound);
      case Overdue => return Answered(Expired);
      case WasDenied => return Answered(Denied);
      case Own(id) =>
        if id !in pairings {
          return Answered(NotFound);
        }
        var pairing := pairings[id];
        if pairing.lastPollAtMs.Some? && call.now - pairing.lastPollAtMs.value < pairing.pollIntervalMs {
          pairings := pairings[id := pairing.(pollIntervalMs := pairing.pollIntervalMs + config.slowDownStepMs,
                                              lastPollAtMs := Some(call.now))];
          return Answered(SlowDown(pairings[id].pollIntervalMs));
        }
        pairings := pairings[id := pairing.(lastPollAtMs := Some(call.now))];
        if !pairing.status.Approved? {
          return Answered(StillPending);
        }
        pairings := pairings[id := pairings[id].(status := Claiming)];
        assert pairings == old(pairings)[id := pairings[id]];
        return Creating(id);
    }

    method CancelFound(call: Call) returns (stage: Stage)
      requires call.stage.Owned?
      modifies this`held
      ensures (Now(), stage) == CancelledBy(old(Now()), call)
    {
      if !call.stage.finding.Own? {
        return Answered(NotFound);
      }
      var id := call.stage.finding.id;
      if id in pairings && pairings[id].status.Claiming? {
        return Answered(NotFound);
      }
      Drop(id);
      stage := Answered(Cancelled);
    }

    /** db-proxy created the client, or did not. */
    method CreationEnds(i: nat, ok: bool)
      requires Valid() && Enabled(Now(), Created(i, ok))
      modifies this
      ensures Valid() && Now() == Step(old(Now()), Created(i, ok))
    {
      StepKept(Now(), Created(i, ok));
      hide PairingRuns.Inv;
      var id := calls[i].stage.id;
      if !ok {
        pairings := pairings[id := pairings[id].(status := Approved)];
        calls := calls[i := calls[i].(stage := Answered(Failed))];
        return;
      }
      Drop(id);
      calls := calls[i := calls[i].(stage := Answered(Paired(id)))];
    }

    method Decide(id: Id, approve: Option<bool>, approver: string) returns (answer: DecideAnswer)
      requires Valid()
      modifies this
      ensures Valid() && (Now(), answer) == Deciding(old(Now()), id, approve, approver)
    {
      StepKept(Now(), Decides(id, approve, approver));
      hide PairingRuns.Inv, PairingSteps.Swept;
      if approve.None? {
        return DecideNotFound;
      }
      if id !in held || id !in pairings {
        PruneExpired();
        var denial := FindDenial(id);
        return if denial.Some? then AlreadyDecided else DecideNotFound;
      }
      var pairing := pairings[id];
      if IsOverdue(pairing, clock) {
        Drop(id);
        return DecideExpired;
      }
      if !pairing.status.Pending? {
        return AlreadyDecided;
      }
      if approve.value {
        pairings := pairings[id := pairing.(status := Approved)];
        approvedBy := approvedBy[id := approver];
      } else {
        Drop(id);
        RememberDenial(Denial(id, pairing.origin, pairing.verifierHash, pairing.expiresAtMs));
      }
      answer := Decided;
    }

    /** Past the bound the oldest denials are forgotten. */
    method RememberDenial(denial: Denial)
      modifies this`denials
      ensures denials == LastFew(old(denials) + [denial], config.maxDeniedRemembered)
    {
      var all := denials + [denial];
      denials := all;
      while |denials| > config.maxDeniedRemembered
        invariant |denials| <= |all| && denials == all[|all| - |denials|..]
        invariant |all| >= config.maxDeniedRemembered ==> |denials| >= config.maxDeniedRemembered
        invariant |all| < config.maxDeniedRemembered ==> denials == all
        decreases |denials|
      {
        denials := denials[1..];
      }
    }

    /** `listPending`. */
    method ListPending() returns (ids: seq<Id>)
      requires Valid()
      modifies this
      ensures Valid() && Now() == Step(old(Now()), Looks) && ids == PendingIds(old(Now()))
    {
      StepKept(Now(), Looks);
      hide PairingRuns.Inv, PairingSteps.Swept;
      PruneExpired();
      ids := ListHeld();
    }

    method ListHeld() returns (ids: seq<Id>)
      ensures ids == Listed(pairings, held)
    {
      var i := 0;
      ids := [];
      while i < |held|
        invariant 0 <= i <= |held| && ids == Listed(pairings, held[..i])
      {
        assert held[..i + 1][..i] == held[..i];
        if held[i] in pairings && IsListed(pairings[held[i]]) {
          ids := ids + [held[i]];
        }
        i := i + 1;
      }
      assert held[..i] == held;
    }

    /** `lookup` of a code already normalised. */
    method LookupCode(code: string) returns (found: Option<Id>)
      requires Valid()
      modifies this
      ensures Valid() && Now() == Step(old(Now()), Looks) && found == Lookup(old(Now()), code)
    {
      StepKept(Now(), Looks);
      hide PairingRuns.Inv, PairingSteps.Swept;
      PruneExpired();
      found := FindCode(code);
    }

    method FindCode(code: string) returns (found: Option<Id>)
      ensures found == FirstWithCode(pairings, held, code)
    {
      var i := 0;
      while i < |held|
        invariant 0 <= i <= |held| && FirstWithCode(pairings, held, code) == FirstWithCode(pairings, held[i..], code)
      {
        if held[i] in pairings && pairings[held[i]].userCode == code && IsListed(pairings[held[i]]) {
          return Some(held[i]);
        }
        i := i + 1;
      }
      found := None;
    }
  }

  lemma StepKept(s: State, a: Action)
    requires PairingRuns.Inv(s) && LimitsSet(s.config.limits) && Enabled(s, a)
    ensures PairingRuns.Inv(Step(s, a)) && Step(s, a).config == s.config
  {
    hide PairingRuns.Registry, PairingRuns.Creations, PairingRuns.Paced, Enabled;
    PairingRuns.StepKeepsRegistry(s, a);
    PairingRuns.StepKeepsCreations(s, a);
    PairingRuns.StepKeepsPaced(s, a);
    ConfigStays(s, a);
    hide Step;
  }

  lemma ConfigStays(s: State, a: Action)
    requires LimitsSet(s.config.limits) && Enabled(s, a)
    ensures Step(s, a).config == s.config
  {
    hide Keep, KeepDenials, OverdueIn, OverdueDenials, LastFew, Asked, Counting, PairingWindows.Swept, RetryAfter;
  }
}
