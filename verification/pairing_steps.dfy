/**
 * `PairingRegistry` (`api/src/pairing.ts`) as a state machine. A browser's
 * claim or cancel is a call that stops at the hash of its verifier and again
 * before it acts on the pairing found; a claim that creates a client stops
 * once more. Everything else runs between two of those stops.
 */
module PairingSteps {
  import opened Options
  import opened PairingWindows

  type Id = string

  datatype Config = Config(
    ttlMs: int, pollIntervalMs: int, slowDownStepMs: int, maxPending: nat, maxPendingPerOrigin: nat, limits: Limits,
    claimFailuresBeforeCancel: nat, maxDeniedRemembered: nat)

  const USER_CODE_ATTEMPTS := 16

  datatype Status = Pending | Approved | Claiming

  datatype Pairing = Pairing(
    userCode: string, origin: string, description: string, verifierHash: string, startedAtMs: int, expiresAtMs: int,
    status: Status, pollIntervalMs: int, lastPollAtMs: Option<int>, failedClaims: nat)

  datatype Denial = Denial(id: Id, origin: string, verifierHash: string, expiresAtMs: int)

  datatype Kind = Claim | Cancel

  datatype Finding = Own(id: Id) | Missing | Overdue | WasDenied

  datatype Answer =
    | NotFound | Expired | Denied | StillPending | SlowDown(pollIntervalMs: int) | Failed | Paired(id: Id) | Cancelled

  datatype Stage = Hashing | Owned(finding: Finding) | Creating(id: Id) | Answered(answer: Answer)

  /** `pairing` and `denial` are what the call read before the hash; `hash` is none for a malformed verifier. */
  datatype Call = Call(
    kind: Kind, id: Id, hash: Option<string>, origin: Option<string>, now: int, pairing: bool, denial: Option<Denial>, stage: Stage)

  /**
   * `pairings` is every pairing there has been; `held` are those in the
   * registry and `denials` those remembered, both oldest first. `log` is every
   * admitted start, `approvedBy` who approved what.
   */
  datatype State = State(
    config: Config, now: int, pairings: map<Id, Pairing>, held: seq<Id>, denials: seq<Denial>, rates: Rates,
    log: seq<Start>, calls: seq<Call>, approvedBy: map<Id, string>)

  datatype Request = Request(origin: Option<string>, wellFormed: bool, address: string, description: string, verifierHash: string)

  datatype StartAnswer =
    | OriginRefused | InvalidRequest | RateLimited(retryAfterMs: int) | TooManyPending
    | Started(id: Id, userCode: string, expiresAtMs: int, pollIntervalMs: int) | NoCode

  datatype DecideAnswer = Decided | AlreadyDecided | DecideExpired | DecideNotFound

  /** A start's `id` is fresh and `draws` are its random codes; a decision is none when it is neither of the two. */
  datatype Action =
    | Tick(ms: nat)
    | Begins(request: Request, id: Id, draws: seq<string>)
    | Calls(kind: Kind, of: Id, hash: Option<string>, origin: Option<string>)
    | Hashed(call: nat)
    | Continues(call: nat)
    | Created(call: nat, ok: bool)
    | Decides(pairing: Id, approve: Option<bool>, approver: string)
    | Looks

  // ----- what the registry holds --------------------------------------------------------------------------

  function Keep(ids: seq<Id>, gone: set<Id>): seq<Id> {
    if ids == [] then []
    else
      var last := ids[|ids| - 1];
      if last in gone then Keep(ids[..|ids| - 1], gone) else Keep(ids[..|ids| - 1], gone) + [last]
  }

  function KeepDenials(denials: seq<Denial>, gone: set<Id>): seq<Denial> {
    if denials == [] then []
    else
      var last := denials[|denials| - 1];
      if last.id in gone then KeepDenials(denials[..|denials| - 1], gone) else KeepDenials(denials[..|denials| - 1], gone) + [last]
  }

  function Ids(denials: seq<Denial>): seq<Id> {
    if denials == [] then [] else Ids(denials[..|denials| - 1]) + [denials[|denials| - 1].id]
  }

  function DenialOf(denials: seq<Denial>, id: Id): Option<Denial> {
    if denials == [] then None
    else if denials[|denials| - 1].id == id then Some(denials[|denials| - 1])
    else DenialOf(denials[..|denials| - 1], id)
  }

  function CountFrom(pairings: map<Id, Pairing>, ids: seq<Id>, origin: string): nat {
    if ids == [] then 0
    else
      var last := ids[|ids| - 1];
      CountFrom(pairings, ids[..|ids| - 1], origin) + (if last in pairings && pairings[last].origin == origin then 1 else 0)
  }

  /** One being claimed finishes its claim. */
  predicate IsOverdue(pairing: Pairing, now: int) {
    !(now < pairing.expiresAtMs || pairing.status.Claiming?)
  }

  function OverdueIn(pairings: map<Id, Pairing>, held: seq<Id>, now: int): set<Id> {
    set id | id in held && id in pairings && IsOverdue(pairings[id], now)
  }

  function OverdueDenials(denials: seq<Denial>, now: int): set<Id> {
    if denials == [] then {}
    else
      var last := denials[|denials| - 1];
      OverdueDenials(denials[..|denials| - 1], now) + (if last.expiresAtMs <= now then {last.id} else {})
  }

  function Swept(s: State): State {
    s.(held := Keep(s.held, OverdueIn(s.pairings, s.held, s.now)),
       denials := KeepDenials(s.denials, OverdueDenials(s.denials, s.now)),
       rates := PairingWindows.Swept(s.rates, s.now))
  }

  function Dropped(s: State, id: Id): State { s.(held := Keep(s.held, {id})) }

  // ----- starting -----------------------------------------------------------------------------------------

  predicate CodeInUse(pairings: map<Id, Pairing>, held: seq<Id>, code: string) {
    exists id :: id in held && id in pairings && pairings[id].userCode == code
  }

  function FirstUnused(draws: seq<string>, pairings: map<Id, Pairing>, held: seq<Id>): Option<string> {
    if draws == [] then None
    else if !CodeInUse(pairings, held, draws[0]) then Some(draws[0])
    else FirstUnused(draws[1..], pairings, held)
  }

  function NewPairing(s: State, r: Request, code: string): Pairing
    requires r.origin.Some?
  {
    Pairing(code, r.origin.value, r.description, r.verifierHash, s.now, s.now + s.config.ttlMs, Pending,
            s.config.pollIntervalMs, None, 0)
  }

  predicate LimitsSet(limits: Limits) { limits.total >= 1 && limits.perOrigin >= 1 && limits.perAddress >= 1 }

  /** Past the rate limits: the registry's own bounds, and then the start is counted. */
  function Opening(s: State, r: Request, id: Id, draws: seq<string>): (State, StartAnswer)
    requires r.origin.Some?
  {
    var origin := r.origin.value;
    if |s.held| >= s.config.maxPending || CountFrom(s.pairings, s.held, origin) >= s.config.maxPendingPerOrigin
    then (s, TooManyPending)
    else
      var counted := s.(rates := Counting(s.rates, origin, r.address, s.now), log := s.log + [Start(s.now, origin, r.address)]);
      match FirstUnused(draws, s.pairings, s.held)
      case None => (counted, NoCode)
      case Some(code) =>
        var pairing := NewPairing(s, r, code);
        (counted.(pairings := s.pairings[id := pairing], held := s.held + [id]),
         Started(id, code, pairing.expiresAtMs, pairing.pollIntervalMs))
  }

  function Starting(s: State, r: Request, id: Id, draws: seq<string>): (State, StartAnswer)
    requires LimitsSet(s.config.limits)
  {
    if r.origin.None? then (s, OriginRefused)
    else if !r.wellFormed then (s, InvalidRequest)
    else
      var swept := Swept(s);
      var met := swept.(rates := Asked(swept.rates, r.origin.value, r.address, s.now));
      var retry := RetryAfter(met.rates, s.config.limits, r.origin.value, r.address, s.now);
      if retry > 0 then (met, RateLimited(retry)) else Opening(met, r, id, draws)
  }

  // ----- claiming and cancelling --------------------------------------------------------------------------

  /** `ownPairing` from the hash on. */
  function FindOwn(s: State, call: Call): (State, Finding) {
    if call.denial.Some? then
      var d := call.denial.value;
      if call.origin != Some(d.origin) || call.hash != Some(d.verifierHash) then (s, Missing)
      else (s.(denials := KeepDenials(s.denials, {call.id})), if call.now < d.expiresAtMs then WasDenied else Overdue)
    else if !call.pairing || call.id !in s.held || call.id !in s.pairings then (s, Missing)
    else
      var p := s.pairings[call.id];
      if call.origin != Some(p.origin) then (s, Missing)
      else if call.hash != Some(p.verifierHash) then
        var s' := s.(pairings := s.pairings[call.id := p.(failedClaims := p.failedClaims + 1)]);
        (if p.failedClaims + 1 >= s.config.claimFailuresBeforeCancel && !p.status.Claiming? then Dropped(s', call.id) else s', Missing)
      else if IsOverdue(p, call.now) then (Dropped(s, call.id), Overdue)
      else (s, Own(call.id))
  }

  function Resumed(s: State, i: nat): State
    requires i < |s.calls|
  {
    var (s', finding) := FindOwn(s, s.calls[i]);
    s'.(calls := s.calls[i := s.calls[i].(stage := Owned(finding))])
  }

  /** A call reads what its id names; only a well-formed verifier is hashed, and nothing is when the id names nothing. */
  function Called(s: State, kind: Kind, of: Id, hash: Option<string>, origin: Option<string>): State {
    var denial := DenialOf(s.denials, of);
    var found := of in s.held;
    var call := Call(kind, of, hash, origin, s.now, found, denial, if found || denial.Some? then Hashing else Owned(Missing));
    var s' := s.(calls := s.calls + [call]);
    if call.stage.Hashing? && hash.None? then Resumed(s', |s.calls|) else s'
  }

  /** The rest of a claim. A pairing that left the registry since it was found is still acted on. */
  function Claimed(s: State, call: Call): (State, Stage)
    requires call.stage.Owned?
  {
    match call.stage.finding
    case Missing => (s, Answered(NotFound))
    case Overdue => (s, Answered(Expired))
    case WasDenied => (s, Answered(Denied))
    case Own(id) =>
      if id !in s.pairings then (s, Answered(NotFound))
      else
        var p := s.pairings[id];
        if p.lastPollAtMs.Some? && call.now - p.lastPollAtMs.value < p.pollIntervalMs then
          var interval := p.pollIntervalMs + s.config.slowDownStepMs;
          (s.(pairings := s.pairings[id := p.(pollIntervalMs := interval, lastPollAtMs := Some(call.now))]),
           Answered(SlowDown(interval)))
        else
          var polled := p.(lastPollAtMs := Some(call.now));
          if p.status.Approved? then (s.(pairings := s.pairings[id := polled.(status := Claiming)]), Creating(id))
          else (s.(pairings := s.pairings[id := polled]), Answered(StillPending))
  }

  function CancelledBy(s: State, call: Call): (State, Stage)
    requires call.stage.Owned?
  {
    var finding := call.stage.finding;
    if !finding.Own? || (finding.id in s.pairings && s.pairings[finding.id].status.Claiming?) then (s, Answered(NotFound))
    else (Dropped(s, finding.id), Answered(Cancelled))
  }

  function Continued(s: State, i: nat): State
    requires i < |s.calls| && s.calls[i].stage.Owned?
  {
    var (s', stage) := if s.calls[i].kind.Claim? then Claimed(s, s.calls[i]) else CancelledBy(s, s.calls[i]);
    s'.(calls := s.calls[i := s.calls[i].(stage := stage)])
  }

  function CreationSettled(s: State, i: nat, ok: bool): State
    requires i < |s.calls| && s.calls[i].stage.Creating? && s.calls[i].stage.id in s.pairings
  {
    var id := s.calls[i].stage.id;
    if ok then Dropped(s, id).(calls := s.calls[i := s.calls[i].(stage := Answered(Paired(id)))])
    else
      s.(pairings := s.pairings[id := s.pairings[id].(status := Approved)],
         calls := s.calls[i := s.calls[i].(stage := Answered(Failed))])
  }

  // ----- deciding -----------------------------------------------------------------------------------------

  function LastFew(denials: seq<Denial>, n: nat): seq<Denial> {
    if |denials| <= n then denials else denials[|denials| - n..]
  }

  function Deciding(s: State, id: Id, approve: Option<bool>, approver: string): (State, DecideAnswer) {
    if approve.None? then (s, DecideNotFound)
    else if id !in s.held || id !in s.pairings then
      (Swept(s), if DenialOf(Swept(s).denials, id).Some? then AlreadyDecided else DecideNotFound)
    else
      var p := s.pairings[id];
      if IsOverdue(p, s.now) then (Dropped(s, id), DecideExpired)
      else if !p.status.Pending? then (s, AlreadyDecided)
      else if approve.value then
        (s.(pairings := s.pairings[id := p.(status := Approved)], approvedBy := s.approvedBy[id := approver]), Decided)
      else
        (Dropped(s, id).(denials := LastFew(s.denials + [Denial(id, p.origin, p.verifierHash, p.expiresAtMs)],
                                            s.config.maxDeniedRemembered)), Decided)
  }

  // ----- listing ------------------------------------------------------------------------------------------

  predicate IsListed(p: Pairing) { !p.status.Claiming? }

  function Listed(pairings: map<Id, Pairing>, held: seq<Id>): seq<Id> {
    if held == [] then []
    else
      var last := held[|held| - 1];
      var before := Listed(pairings, held[..|held| - 1]);
      if last in pairings && IsListed(pairings[last]) then before + [last] else before
  }

  /** `listPending`: what is listed once the registry is swept. */
  function PendingIds(s: State): seq<Id> { Listed(s.pairings, Swept(s).held) }

  function FirstWithCode(pairings: map<Id, Pairing>, ids: seq<Id>, code: string): Option<Id> {
    if ids == [] then None
    else if ids[0] in pairings && pairings[ids[0]].userCode == code && IsListed(pairings[ids[0]]) then Some(ids[0])
    else FirstWithCode(pairings, ids[1..], code)
  }

  function Lookup(s: State, code: string): Option<Id> { FirstWithCode(s.pairings, Swept(s).held, code) }

  // ----- steps --------------------------------------------------------------------------------------------

  predicate Enabled(s: State, a: Action) {
    match a
    case Begins(_, id, draws) => id !in s.pairings && |draws| == USER_CODE_ATTEMPTS
    case Hashed(i) => i < |s.calls| && s.calls[i].stage.Hashing?
    case Continues(i) => i < |s.calls| && s.calls[i].stage.Owned?
    case Created(i, _) => i < |s.calls| && s.calls[i].stage.Creating? && s.calls[i].stage.id in s.pairings
    case _ => true
  }

  function Step(s: State, a: Action): State
    requires Enabled(s, a) && LimitsSet(s.config.limits)
  {
    match a
    case Tick(ms) => s.(now := s.now + ms)
    case Begins(request, id, draws) => Starting(s, request, id, draws).0
    case Calls(kind, of, hash, origin) => Called(s, kind, of, hash, origin)
    case Hashed(i) => Resumed(s, i)
    case Continues(i) => Continued(s, i)
    case Created(i, ok) => CreationSettled(s, i, ok)
    case Decides(id, approve, approver) => Deciding(s, id, approve, approver).0
    case Looks => Swept(s)
  }

  predicate ValidConfig(c: Config) {
    && c.ttlMs >= 1 && c.pollIntervalMs >= 1 && c.slowDownStepMs >= 1 && c.maxPending >= 1 && c.maxPendingPerOrigin >= 1
    && c.claimFailuresBeforeCancel >= 1 && c.maxDeniedRemembered >= 1 && LimitsSet(c.limits)
    && c.maxPendingPerOrigin <= c.maxPending && c.limits.perAddress <= c.limits.total && c.limits.perOrigin <= c.limits.total
  }

  ghost predicate Initial(s: State) {
    && ValidConfig(s.config) && s.pairings == map[] && s.held == [] && s.denials == [] && s.log == [] && s.calls == []
    && s.rates == Rates([], map[], map[]) && s.approvedBy == map[]
  }

  ghost predicate IsRun(states: seq<State>, actions: seq<Action>) {
    && |states| == |actions| + 1 && Initial(states[0])
    && forall i :: 0 <= i < |actions| ==>
         && LimitsSet(states[i].config.limits) && Enabled(states[i], actions[i])
         && states[i + 1] == Step(states[i], actions[i])
  }
}
