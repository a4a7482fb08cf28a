/**
 * `EngineEventStream` (`api/src/engine-event-stream.ts`) as a machine. Each
 * step is one public call, one timer, or one push settling; nothing in it is
 * interrupted. A subscription is known by a number, as the source knows it by
 * object identity, and keeps the numbers its frames left the queue with.
 */
module EventStreamSteps {
  import opened Options

  type SubId = nat
  type Session = nat

  datatype Message = Event(eventType: string) | Request(id: string)

  datatype Frame = Frame(no: nat, message: Message)

  /** Pushed; dropped for overflow; skipped as a settled request; discarded by the close. */
  datatype Fate = Pushed | Dropped | Skipped | Discarded

  /**
   * `inFlight` is the push being awaited and `pushed` the frames handed to the
   * subscriber, in order. `fates` says, for each number that has left the
   * queue, how it left: number `n` at `fates[n - 1]`.
   */
  datatype Subscription = Subscription(
    session: Session,
    client: string,
    types: Option<set<string>>,
    queue: seq<Frame>,
    lastNo: nat,
    pumping: bool,
    closed: bool,
    inFlight: Option<Frame>,
    pushed: seq<Frame>,
    fates: seq<Fate>)

  datatype Pending = Pending(client: string, sub: SubId)

  datatype Outcome = Answered(client: string) | Refused(client: string) | TimedOut | Overflowed | SubscriptionClosed

  /**
   * `registered` lists the subscription map's values in insertion order. `asked` holds every
   * request taken and the client it was for, `settled` how its promise settled.
   */
  datatype State = State(
    limit: nat,
    subs: map<SubId, Subscription>,
    registered: seq<SubId>,
    pending: map<string, Pending>,
    stopped: bool,
    asked: map<string, string>,
    settled: map<string, Outcome>)

  datatype Action =
    | Subscribe(session: Session, client: string, types: Option<set<string>>, sub: SubId)
    | SessionBreaks(sub: SubId)
    | DropClient(client: string)
    | Stop
    | Publish(eventType: string, target: Option<string>)
    | Ask(id: string, client: string)
    | Answer(client: string, id: string, ok: bool)
    | Timeout(id: string)
    | PushSettles(sub: SubId, failed: bool)

  // ----- requests -----------------------------------------------------------------------------------------

  function Settle(s: State, id: string, outcome: Outcome): State {
    if id !in s.pending then s
    else s.(pending := s.pending - {id}, settled := s.settled[id := outcome])
  }

  /** The requests still waiting on subscription `k`. */
  function WaitingOn(s: State, k: SubId): set<string> {
    set id | id in s.pending && s.pending[id].sub == k
  }

  // ----- one subscription's queue -------------------------------------------------------------------------

  function LoseOldest(sub: Subscription): Subscription
    requires sub.queue != []
  {
    sub.(queue := sub.queue[1..], fates := sub.fates + [Dropped])
  }

  /** Hands over queued frames until one push is awaited or the queue is empty. */
  function Pump(sub: Subscription, waiting: set<string>): (sub': Subscription)
    ensures sub'.session == sub.session && sub'.client == sub.client && sub'.types == sub.types
    ensures sub'.closed == sub.closed
    decreases |sub.queue|
  {
    if sub.queue == [] || sub.closed then sub.(pumping := false, inFlight := None)
    else
      var frame := sub.queue[0];
      var rest := sub.(queue := sub.queue[1..]);
      if frame.message.Request? && frame.message.id !in waiting then
        Pump(rest.(fates := rest.fates + [Skipped]), waiting)
      else rest.(pumping := true, inFlight := Some(frame), pushed := rest.pushed + [frame],
                fates := rest.fates + [Pushed])
  }

  function Append(sub: Subscription, message: Message): Subscription {
    sub.(lastNo := sub.lastNo + 1, queue := sub.queue + [Frame(sub.lastNo + 1, message)])
  }

  /** Queues `message` under the next number, and starts the pump unless one runs. */
  function Push(sub: Subscription, message: Message, waiting: set<string>): Subscription {
    var sub' := Append(sub, message);
    if sub'.pumping then sub' else Pump(sub', waiting)
  }

  /** Makes room: past the limit the oldest frame goes, and its request, if it was one, fails. */
  function MakeRoom(s: State, k: SubId): (s': State)
    requires k in s.subs
    ensures s'.subs.Keys == s.subs.Keys
  {
    var sub := s.subs[k];
    if |sub.queue| < s.limit || sub.queue == [] then s
    else
      var s' := if sub.queue[0].message.Request? then Settle(s, sub.queue[0].message.id, Overflowed) else s;
      s'.(subs := s'.subs[k := LoseOldest(sub)])
  }

  function Enqueue(s: State, k: SubId, message: Message): (s': State)
    requires k in s.subs
    ensures s'.subs.Keys == s.subs.Keys
  {
    var s1 := MakeRoom(s, k);
    s1.(subs := s1.subs[k := Push(s1.subs[k], message, WaitingOn(s1, k))])
  }

  // ----- closing ------------------------------------------------------------------------------------------

  function ClosedBy(ids: set<string>): map<string, Outcome> {
    map id | id in ids :: SubscriptionClosed
  }

  function Discards(n: nat): seq<Fate> {
    if n == 0 then [] else Discards(n - 1) + [Discarded]
  }

  function Close(s: State, k: SubId): (s': State)
    requires k in s.subs
    ensures s'.subs.Keys == s.subs.Keys
  {
    if s.subs[k].closed then s
    else
      var sub := s.subs[k].(closed := true, queue := [], fates := s.subs[k].fates + Discards(|s.subs[k].queue|));
      var failing := WaitingOn(s, k);
      s.(subs := s.subs[k := sub], pending := s.pending - failing,
         settled := s.settled + ClosedBy(failing))
  }

  function Without(registered: seq<SubId>, k: SubId): seq<SubId> {
    if registered == [] then []
    else (if registered[0] == k then [] else [registered[0]]) + Without(registered[1..], k)
  }

  /** Takes subscription `k` out of the map, if it is there, and closes it. */
  function Drop(s: State, k: SubId): (s': State)
    requires k in s.subs
    ensures s'.subs.Keys == s.subs.Keys
  {
    Close(s.(registered := Without(s.registered, k)), k)
  }

  function DropEach(s: State, ks: seq<SubId>): (s': State)
    requires forall k :: k in ks ==> k in s.subs
    ensures s'.subs.Keys == s.subs.Keys
    decreases |ks|
  {
    if ks == [] then s else DropEach(Drop(s, ks[0]), ks[1..])
  }

  function CloseEach(s: State, ks: seq<SubId>): (s': State)
    requires forall k :: k in ks ==> k in s.subs
    ensures s'.subs.Keys == s.subs.Keys
    decreases |ks|
  {
    if ks == [] then s else CloseEach(Close(s, ks[0]), ks[1..])
  }

  // ----- the calls ----------------------------------------------------------------------------------------

  /** Every subscription the machine lists exists. */
  predicate Listed(s: State) {
    forall k :: k in s.registered ==> k in s.subs
  }

  /** Those of `ks` that belong to `client`, in order. */
  function OwnedBy(subs: map<SubId, Subscription>, ks: seq<SubId>, client: string): (own: seq<SubId>)
    requires forall k :: k in ks ==> k in subs
    ensures forall k :: k in own <==> k in ks && subs[k].client == client
  {
    if ks == [] then []
    else (if subs[ks[0]].client == client then [ks[0]] else []) + OwnedBy(subs, ks[1..], client)
  }

  /** The registered subscription of `session`. */
  function HeldBy(subs: map<SubId, Subscription>, ks: seq<SubId>, session: Session): (held: Option<SubId>)
    requires forall k :: k in ks ==> k in subs
    ensures held.Some? ==> held.value in ks && subs[held.value].session == session
    ensures held.None? ==> forall k :: k in ks ==> subs[k].session != session
  {
    if ks == [] then None
    else if subs[ks[0]].session == session then Some(ks[0])
    else HeldBy(subs, ks[1..], session)
  }

  function NewSubscription(session: Session, client: string, types: Option<set<string>>): Subscription {
    Subscription(session, client, types, [], 0, false, false, None, [], [])
  }

  function SubscribeStep(s: State, session: Session, client: string, types: Option<set<string>>, k: SubId): State
    requires Listed(s)
  {
    if s.stopped then s
    else
      var held := HeldBy(s.subs, s.registered, session);
      var s' := if held.Some? then Drop(s, held.value) else s;
      s'.(subs := s'.subs[k := NewSubscription(session, client, types)], registered := s'.registered + [k])
  }

  predicate Wants(sub: Subscription, eventType: string, target: Option<string>) {
    && (target.None? || sub.client == target.value)
    && (sub.types.None? || eventType in sub.types.value)
  }

  /** How many of `ks` want the event. */
  function Wanting(subs: map<SubId, Subscription>, ks: seq<SubId>, eventType: string, target: Option<string>): nat
    requires forall k :: k in ks ==> k in subs
  {
    if ks == [] then 0
    else (if Wants(subs[ks[0]], eventType, target) then 1 else 0) + Wanting(subs, ks[1..], eventType, target)
  }

  /** Queues the event for each of `ks` that wants it. */
  function PublishTo(s: State, ks: seq<SubId>, eventType: string, target: Option<string>): (s': State)
    requires forall k :: k in ks ==> k in s.subs
    ensures s'.subs.Keys == s.subs.Keys
    decreases |ks|
  {
    if ks == [] then s
    else
      var s' := if Wants(s.subs[ks[0]], eventType, target) then Enqueue(s, ks[0], Event(eventType)) else s;
      PublishTo(s', ks[1..], eventType, target)
  }

  /** A request goes to the client's newest subscription. */
  function NewestFor(s: State, client: string): (newest: Option<SubId>)
    requires Listed(s)
    ensures newest.Some? ==> newest.value in s.registered && s.subs[newest.value].client == client
    ensures newest.None? ==> forall k :: k in s.registered ==> s.subs[k].client != client
  {
    var own := OwnedBy(s.subs, s.registered, client);
    if own == [] then None else assert own[|own| - 1] in own; Some(own[|own| - 1])
  }

  /** Whether `request` takes the request, rather than reject it at once. */
  predicate Takes(s: State, id: string, client: string)
    requires Listed(s)
  {
    !s.stopped && NewestFor(s, client).Some? && id !in s.pending
  }

  function AskStep(s: State, id: string, client: string): State
    requires Listed(s)
  {
    if !Takes(s, id, client) then s
    else
      var k := NewestFor(s, client).value;
      Enqueue(s.(pending := s.pending[id := Pending(client, k)], asked := s.asked[id := client]), k, Request(id))
  }

  function AnswerStep(s: State, client: string, id: string, ok: bool): State {
    if id in s.pending && s.pending[id].client == client then
      Settle(s, id, if ok then Answered(client) else Refused(client))
    else s
  }

  /** The awaited push of `k` settled; a failure drops the subscription, anything else goes on with the queue. */
  function PushSettlesStep(s: State, k: SubId, failed: bool): State
    requires k in s.subs
  {
    if failed then
      var s' := Drop(s, k);
      s'.(subs := s'.subs[k := s'.subs[k].(pumping := false, inFlight := None)])
    else s.(subs := s.subs[k := Pump(s.subs[k], WaitingOn(s, k))])
  }

  function StopStep(s: State): State
    requires Listed(s)
  {
    if s.stopped then s else CloseEach(s.(stopped := true, registered := []), s.registered)
  }

  // ----- runs ---------------------------------------------------------------------------------------------

  /** Subscriptions are new objects and request ids are fresh; a push settles once, after it was made. */
  predicate Enabled(s: State, a: Action) {
    match a
    case Subscribe(_, _, _, k) => k !in s.subs
    case SessionBreaks(k) => k in s.subs
    case Ask(id, _) => id !in s.asked
    case PushSettles(k, _) => k in s.subs && s.subs[k].inFlight.Some?
    case _ => true
  }

  function Step(s: State, a: Action): State
    requires Listed(s) && Enabled(s, a)
  {
    match a
    case Subscribe(session, client, types, k) => SubscribeStep(s, session, client, types, k)
    case SessionBreaks(k) => Drop(s, k)
    case DropClient(client) => DropEach(s, OwnedBy(s.subs, s.registered, client))
    case Stop => StopStep(s)
    case Publish(eventType, target) => PublishTo(s, s.registered, eventType, target)
    case Ask(id, client) => AskStep(s, id, client)
    case Answer(client, id, ok) => AnswerStep(s, client, id, ok)
    case Timeout(id) => Settle(s, id, TimedOut)
    case PushSettles(k, failed) => PushSettlesStep(s, k, failed)
  }

  predicate Initial(s: State) {
    s.limit >= 1 && s.subs == map[] && s.registered == [] && s.pending == map[] && !s.stopped
    && s.asked == map[] && s.settled == map[]
  }
}
