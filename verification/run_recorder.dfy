/**
 * `asyncRunRecorder` (`workflow/async_run_recorder.go`): goroutines that queue
 * writes under a read lock, one writer, and a stop that closes the queue under
 * the write lock. A step is what one goroutine does between two points where
 * another may run; a read lock keeps out only the write lock.
 */
module RunRecorder {
  import opened Options

  type Write = nat

  /** A goroutine inside `enqueue`, which holds the read lock until it leaves. */
  datatype Enqueuer = Entered(w: Write) | SawOpen(w: Write)

  /** The writer's goroutine; `Took` has not yet looked at its context. */
  datatype Writer = Off | Waiting | Took(w: Write) | Writing(w: Write) | Gone

  /** Where the call to `Stop` that closed the recorder is. */
  datatype Stopping = NotStopped | Draining | Cancelled | Returned

  /**
   * `queueClosed` is the channel's state, `closed` the flag enqueuers read.
   * `captured` counts the writes `enqueue` was given; `accepted` are those
   * queued, `attempted` those handed to the db, `abandoned` those the writer
   * counted instead; `panicked` is a send on a closed channel, or closing one.
   */
  datatype State = State(
    capacity: nat, queue: seq<Write>, queueClosed: bool, started: bool, closed: bool, cancelled: bool,
    enqueuers: map<nat, Enqueuer>, writer: Writer, stopping: Stopping, dropped: nat,
    captured: nat, refused: nat, accepted: seq<Write>, attempted: seq<Write>, abandoned: seq<Write>, panicked: bool)

  datatype Action =
    | Start
    | Enter(g: nat, w: Write)
    | LookAtClosed(g: nat)
    | SendOrDrop(g: nat)
    | Take
    | LookAtContext
    | WriteEnds
    | Exit
    | Stop
    | DrainExpires
    | StopReturns

  /** The write lock waits for every reader, and `Start` and `Stop` are called once. */
  predicate Enabled(s: State, a: Action) {
    match a
    case Start => s.enqueuers == map[] && !s.started && !s.closed
    case Enter(g, _) => g !in s.enqueuers
    case LookAtClosed(g) => g in s.enqueuers && s.enqueuers[g].Entered?
    case SendOrDrop(g) => g in s.enqueuers && s.enqueuers[g].SawOpen?
    case Take => s.writer.Waiting? && s.queue != []
    case LookAtContext => s.writer.Took?
    case WriteEnds => s.writer.Writing?
    case Exit => s.writer.Waiting? && s.queue == [] && s.queueClosed
    case Stop => s.enqueuers == map[] && s.stopping.NotStopped?
    case DrainExpires => s.stopping.Draining?
    case StopReturns => (s.stopping.Draining? || s.stopping.Cancelled?) && s.writer.Gone?
  }

  function Sending(s: State, g: nat): State
    requires g in s.enqueuers
  {
    var left := s.(enqueuers := s.enqueuers - {g});
    if s.queueClosed then left.(panicked := true)
    else if |s.queue| < s.capacity then
      left.(queue := s.queue + [s.enqueuers[g].w], accepted := s.accepted + [s.enqueuers[g].w])
    else left.(dropped := s.dropped + 1, refused := s.refused + 1)
  }

  /** A recorder that was never started has no writer to wait for, and its queue stays open. */
  function Closing(s: State): State {
    if !s.started then s.(closed := true, cancelled := true, stopping := Returned)
    else s.(closed := true, queueClosed := true, panicked := s.panicked || s.queueClosed, stopping := Draining)
  }

  function Step(s: State, a: Action): State
    requires Enabled(s, a)
  {
    match a
    case Start => s.(started := true, writer := Waiting)
    case Enter(g, w) => s.(enqueuers := s.enqueuers[g := Entered(w)], captured := s.captured + 1)
    case LookAtClosed(g) =>
      if s.closed then s.(enqueuers := s.enqueuers - {g}, dropped := s.dropped + 1, refused := s.refused + 1)
      else s.(enqueuers := s.enqueuers[g := SawOpen(s.enqueuers[g].w)])
    case SendOrDrop(g) => Sending(s, g)
    case Take => s.(queue := s.queue[1..], writer := Took(s.queue[0]))
    case LookAtContext =>
      if s.cancelled then s.(writer := Waiting, abandoned := s.abandoned + [s.writer.w])
      else s.(writer := Writing(s.writer.w), attempted := s.attempted + [s.writer.w])
    case WriteEnds => s.(writer := Waiting)
    case Exit => s.(writer := Gone, dropped := s.dropped + |s.abandoned|)
    case Stop => Closing(s)
    case DrainExpires => s.(cancelled := true, stopping := Cancelled)
    case StopReturns => s.(cancelled := true, stopping := Returned)
  }

  ghost predicate Initial(s: State) {
    && s.capacity > 0
    && s == State(s.capacity, [], false, false, false, false, map[], Off, NotStopped, 0, 0, 0, [], [], [], false)
  }

  ghost predicate IsRun(states: seq<State>, actions: seq<Action>) {
    && |states| == |actions| + 1 && Initial(states[0])
    && forall i :: 0 <= i < |actions| ==> Enabled(states[i], actions[i]) && states[i + 1] == Step(states[i], actions[i])
  }

  // ----- what every reachable state satisfies ---------------------------------------------------------------

  function InHand(writer: Writer): seq<Write> {
    if writer.Took? then [writer.w] else []
  }

  /** Everything accepted, in order: handed to the db, then given up on, then in hand, then still queued. */
  ghost predicate InOrder(s: State) {
    s.accepted == s.attempted + s.abandoned + InHand(s.writer) + s.queue
  }

  /** Every write captured is accepted, refused at the door, or still on its way in; the count of drops is exact. */
  ghost predicate Counted(s: State) {
    && s.captured == |s.accepted| + s.refused + |s.enqueuers|
    && s.dropped == s.refused + (if s.writer.Gone? then |s.abandoned| else 0)
  }

  ghost predicate Shape(s: State) {
    && !s.panicked && |s.queue| <= s.capacity && (s.queueClosed ==> s.closed && s.started)
    && (s.closed ==> forall g :: g in s.enqueuers ==> s.enqueuers[g].Entered?)
    && (s.started <==> !s.writer.Off?) && (s.started && s.closed ==> s.queueClosed)
    && (s.writer.Gone? ==> s.queueClosed && s.queue == [])
    && (s.abandoned != [] ==> s.cancelled)
    && (s.stopping.NotStopped? <==> !s.closed) && (s.stopping.NotStopped? || s.stopping.Draining? ==> !s.cancelled)
    && (s.stopping.Draining? || s.stopping.Cancelled? ==> s.started)
    && (s.stopping.Returned? && s.started ==> s.writer.Gone?)
  }

  ghost predicate Inv(s: State) {
    InOrder(s) && Counted(s) && Shape(s)
  }

  lemma StepKeepsShape(s: State, a: Action)
    requires Shape(s) && Enabled(s, a)
    ensures Shape(Step(s, a))
  {
  }

  lemma StepKeepsOrder(s: State, a: Action)
    requires Inv(s) && Enabled(s, a)
    ensures InOrder(Step(s, a))
  {
    hide Counted;
    match a
    case SendOrDrop(g) =>
      var w := s.enqueuers[g].w;
      assert s.attempted + s.abandoned + InHand(s.writer) + (s.queue + [w])
          == s.attempted + s.abandoned + InHand(s.writer) + s.queue + [w];
    case Take => assert s.queue == [s.queue[0]] + s.queue[1..];
    case LookAtContext =>
      assert !s.cancelled ==> s.abandoned == [];
    case _ =>
  }

  lemma EnteringCounts(enqueuers: map<nat, Enqueuer>, g: nat, w: Write)
    requires g !in enqueuers
    ensures |enqueuers[g := Entered(w)]| == |enqueuers| + 1
  {
    assert enqueuers[g := Entered(w)].Keys == enqueuers.Keys + {g};
  }

  lemma LeavingOrStaying(enqueuers: map<nat, Enqueuer>, g: nat)
    requires g in enqueuers
    ensures |enqueuers - {g}| == |enqueuers| - 1 && |enqueuers[g := SawOpen(enqueuers[g].w)]| == |enqueuers|
  {
    assert (enqueuers - {g}).Keys == enqueuers.Keys - {g};
    assert enqueuers[g := SawOpen(enqueuers[g].w)].Keys == enqueuers.Keys;
  }

  /** What a step adds to each count. */
  predicate Adds(s: State, s': State, captured: int, accepted: int, refused: int, dropped: int, inside: int) {
    && s'.captured == s.captured + captured && |s'.accepted| == |s.accepted| + accepted && s'.refused == s.refused + refused
    && s'.dropped == s.dropped + dropped && |s'.enqueuers| == |s.enqueuers| + inside
  }

  lemma EnqueueingAdds(s: State, a: Action)
    requires Shape(s) && Enabled(s, a) && (a.Enter? || a.LookAtClosed? || a.SendOrDrop?)
    ensures var s' := Step(s, a);
      && s'.writer == s.writer && s'.abandoned == s.abandoned
      && (Adds(s, s', 1, 0, 0, 0, 1) || Adds(s, s', 0, 0, 1, 1, -1) || Adds(s, s', 0, 1, 0, 0, -1) || Adds(s, s', 0, 0, 0, 0, 0))
  {
    match a
    case Enter(g, w) => EnteringCounts(s.enqueuers, g, w);
    case LookAtClosed(g) => LeavingOrStaying(s.enqueuers, g);
    case SendOrDrop(g) => LeavingOrStaying(s.enqueuers, g);
  }

  lemma OtherStepAdds(s: State, a: Action)
    requires Shape(s) && Enabled(s, a) && !(a.Enter? || a.LookAtClosed? || a.SendOrDrop?)
    ensures var s' := Step(s, a);
      && Adds(s, s', 0, 0, 0, if a.Exit? then |s.abandoned| else 0, 0) && s'.writer.Gone? == (s.writer.Gone? || a.Exit?)
      && (a.Exit? ==> !s.writer.Gone?) && (s'.abandoned == s.abandoned || !s.writer.Gone?)
      && (a.Exit? ==> s'.abandoned == s.abandoned)
  {
  }

  lemma StepKeepsCount(s: State, a: Action)
    requires Inv(s) && Enabled(s, a)
    ensures Counted(Step(s, a))
  {
    hide InOrder;
    if a.Enter? || a.LookAtClosed? || a.SendOrDrop? {
      EnqueueingAdds(s, a);
    } else {
      OtherStepAdds(s, a);
    }
    hide Step, Enabled, Shape;
  }

  lemma StepKeepsInv(s: State, a: Action)
    requires Inv(s) && Enabled(s, a)
    ensures Inv(Step(s, a))
  {
    StepKeepsOrder(s, a);
    StepKeepsCount(s, a);
    StepKeepsShape(s, a);
    hide InOrder, Counted, Shape;
  }

  lemma {:induction false} EveryStateSatisfiesInv(states: seq<State>, actions: seq<Action>, n: nat)
    requires IsRun(states, actions) && n < |states|
    ensures Inv(states[n])
  {
    if n > 0 {
      hide Inv, Step, Enabled;
      EveryStateSatisfiesInv(states, actions, n - 1);
      assert states[n - 1 + 1] == Step(states[n - 1], actions[n - 1]);
      StepKeepsInv(states[n - 1], actions[n - 1]);
    }
  }

  /** Nothing is ever sent on the closed queue, which is closed once, and what the db is given is a prefix of what was accepted. */
  lemma AppliedInOrder(states: seq<State>, actions: seq<Action>, n: nat)
    requires IsRun(states, actions) && n < |states|
    ensures !states[n].panicked && states[n].attempted <= states[n].accepted && |states[n].queue| <= states[n].capacity
  {
    EveryStateSatisfiesInv(states, actions, n);
    var s := states[n];
    assert s.accepted[..|s.attempted|] == s.attempted;
  }

  /**
   * Once `Stop` has returned and nobody is inside `enqueue`, every write
   * captured was given to the db or is in `Dropped()`, and none is both; for a
   * recorder never started, exactly when nothing was ever queued.
   */
  lemma StopAccountsForAll(states: seq<State>, actions: seq<Action>, n: nat)
    requires IsRun(states, actions) && n < |states| && states[n].stopping.Returned? && states[n].enqueuers == map[]
    ensures states[n].captured == |states[n].attempted| + states[n].dropped <==> states[n].started || states[n].accepted == []
  {
    EveryStateSatisfiesInv(states, actions, n);
    var s := states[n];
    if !s.started {
      NothingRuns(states, actions, n);
    }
  }

  /** Without a writer nothing is attempted. */
  lemma {:induction false} NothingRuns(states: seq<State>, actions: seq<Action>, n: nat)
    requires IsRun(states, actions) && n < |states| && !states[n].started
    ensures states[n].attempted == [] && states[n].abandoned == []
  {
    hide Inv, Step, Enabled;
    if n > 0 {
      assert Enabled(states[n - 1], actions[n - 1]) && states[n - 1 + 1] == Step(states[n - 1], actions[n - 1]);
      EveryStateSatisfiesInv(states, actions, n - 1);
      UnstartedStepRunsNothing(states[n - 1], actions[n - 1]);
      NothingRuns(states, actions, n - 1);
    }
  }

  lemma UnstartedStepRunsNothing(s: State, a: Action)
    requires Inv(s) && Enabled(s, a) && !Step(s, a).started
    ensures !s.started && Step(s, a).attempted == s.attempted && Step(s, a).abandoned == s.abandoned
  {
  }

  /** A recorder stopped without being started may leave a queued write in neither count. */
  lemma UnstartedLosesCount()
    ensures var s := Step(Step(Step(Step(Fresh(1), Enter(0, 7)), LookAtClosed(0)), SendOrDrop(0)), Stop);
      s.stopping.Returned? && s.captured == 1 && s.attempted == [] && s.dropped == 0
  {
    var entered := Step(Fresh(1), Enter(0, 7));
    var looked := Step(entered, LookAtClosed(0));
    var sent := Step(looked, SendOrDrop(0));
    assert sent.enqueuers == map[];
  }

  function Fresh(capacity: nat): State {
    State(capacity, [], false, false, false, false, map[], Off, NotStopped, 0, 0, 0, [], [], [], false)
  }

  // ----- the object ---------------------------------------------------------------------------------------

  class AsyncRunRecorder {
    const queueSize: nat
    var queue: seq<Write>
    var queueClosed: bool
    var started: bool
    var closed: bool
    var cancelled: bool
    var enqueuers: map<nat, Enqueuer>
    var writer: Writer
    var stopping: Stopping
    var dropped: nat
    /** The writer's own count, added to `dropped` when it exits. */
    var givenUp: nat
    ghost var captured: nat
    ghost var refused: nat
    ghost var accepted: seq<Write>
    ghost var attempted: seq<Write>
    ghost var abandoned: seq<Write>

    ghost function Now(): State
      reads this
    {
      State(queueSize, queue, queueClosed, started, closed, cancelled, enqueuers, writer, stopping, dropped,
            captured, refused, accepted, attempted, abandoned, false)
    }

    ghost predicate Valid()
      reads this
    {
      Inv(Now()) && givenUp == |abandoned|
    }

    constructor (queueSize: nat)
      requires queueSize > 0
      ensures Valid() && Initial(Now())
    {
      this.queueSize := queueSize;
      queue, queueClosed, started, closed, cancelled := [], false, false, false, false;
      enqueuers, writer, stopping, dropped, givenUp := map[], Off, NotStopped, 0, 0;
      captured, refused, accepted, attempted, abandoned := 0, 0, [], [], [];
    }

    method StartWriter()
      requires Valid() && Enabled(Now(), Start)
      modifies this
      ensures Valid() && Now() == Step(old(Now()), Start)
    {
      StepKeepsInv(Now(), Start);
      hide InOrder, Counted, Shape;
      started, writer := true, Waiting;
    }

    /** `enqueue` takes the read lock. */
    method BeginEnqueue(g: nat, w: Write)
      requires Valid() && Enabled(Now(), Enter(g, w))
      modifies this
      ensures Valid() && Now() == Step(old(Now()), Enter(g, w))
    {
      StepKeepsInv(Now(), Enter(g, w));
      hide InOrder, Counted, Shape;
      enqueuers := enqueuers[g := Entered(w)];
      captured := captured + 1;
    }

    method CheckClosed(g: nat)
      requires Valid() && Enabled(Now(), LookAtClosed(g))
      modifies this
      ensures Valid() && Now() == Step(old(Now()), LookAtClosed(g))
    {
      StepKeepsInv(Now(), LookAtClosed(g));
      hide InOrder, Counted, Shape;
      if closed {
        Drop();
        enqueuers := enqueuers - {g};
      } else {
        enqueuers := enqueuers[g := SawOpen(enqueuers[g].w)];
      }
    }

    /** The send: the channel cannot be closed here, since the read lock is held. */
    method Send(g: nat)
      requires Valid() && Enabled(Now(), SendOrDrop(g))
      modifies this
      ensures Valid() && Now() == Step(old(Now()), SendOrDrop(g))
    {
      StepKeepsInv(Now(), SendOrDrop(g));
      assert !queueClosed;
      hide InOrder, Counted, Shape, Sending;
      SendNow(g);
    }

    method SendNow(g: nat)
      requires g in enqueuers && !queueClosed
      modifies this`queue, this`accepted, this`dropped, this`refused, this`enqueuers
      ensures Now() == Sending(old(Now()), g)
    {
      if |queue| < queueSize {
        queue := queue + [enqueuers[g].w];
        accepted := accepted + [enqueuers[g].w];
      } else {
        Drop();
      }
      enqueuers := enqueuers - {g};
    }

    method Drop()
      modifies this`dropped, this`refused
      ensures dropped == old(dropped) + 1 && refused == old(refused) + 1
    {
      dropped := dropped + 1;
      refused := refused + 1;
    }

    /** One turn of the writer's loop, up to the write it makes. */
    method Receive() returns (write: Option<Write>)
      requires Valid() && Enabled(Now(), Take)
      modifies this
      ensures Valid() && Now() == Step(Step(old(Now()), Take), LookAtContext)
      ensures write == if cancelled then None else Some(old(queue)[0])
    {
      StepKeepsInv(Now(), Take);
      StepKeepsInv(Step(Now(), Take), LookAtContext);
      hide InOrder, Counted, Shape;
      var w := queue[0];
      queue := queue[1..];
      if cancelled {
        givenUp := givenUp + 1;
        abandoned := abandoned + [w];
        return None;
      }
      writer := Writing(w);
      attempted := attempted + [w];
      write := Some(w);
    }

    method WriteDone()
      requires Valid() && Enabled(Now(), WriteEnds)
      modifies this
      ensures Valid() && Now() == Step(old(Now()), WriteEnds)
    {
      StepKeepsInv(Now(), WriteEnds);
      hide InOrder, Counted, Shape;
      writer := Waiting;
    }

    /** The queue is closed and empty: the writer adds what it gave up on to the drops, and is done. */
    method WriterExits()
      requires Valid() && Enabled(Now(), Exit)
      modifies this
      ensures Valid() && Now() == Step(old(Now()), Exit)
    {
      StepKeepsInv(Now(), Exit);
      hide InOrder, Counted, Shape;
      if givenUp > 0 {
        dropped := dropped + givenUp;
      }
      writer := Gone;
    }

    /** `Stop` up to its wait; the close cannot be the second. */
    method BeginStop()
      requires Valid() && Enabled(Now(), Stop)
      modifies this
      ensures Valid() && Now() == Step(old(Now()), Stop)
    {
      StepKeepsInv(Now(), Stop);
      assert !queueClosed;
      hide InOrder, Counted, Shape;
      closed := true;
      if !started {
        cancelled, stopping := true, Returned;
        return;
      }
      queueClosed, stopping := true, Draining;
    }

    method DrainTimesOut()
      requires Valid() && Enabled(Now(), DrainExpires)
      modifies this
      ensures Valid() && Now() == Step(old(Now()), DrainExpires)
    {
      StepKeepsInv(Now(), DrainExpires);
      hide InOrder, Counted, Shape;
      cancelled, stopping := true, Cancelled;
    }

    method EndStop()
      requires Valid() && Enabled(Now(), StopReturns)
      modifies this
      ensures Valid() && Now() == Step(old(Now()), StopReturns)
    {
      StepKeepsInv(Now(), StopReturns);
      hide InOrder, Counted, Shape;
      cancelled, stopping := true, Returned;
    }
  }
}
