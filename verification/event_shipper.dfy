/**
 * `EventShipper` over all its lanes: runs of one `start` and one `stop`, and
 * the object whose methods they are.
 */
module EventShipper {
  import opened EventShipperLane

  /** `stop` waits for the pumps, then aborts them, then counts what is left. */
  datatype Phase = Unstarted | Running | Draining | Aborting | Stopped(abandoned: nat)

  /** The lanes by target, and the order they were made in. */
  datatype State = State(limits: Limits, lanes: map<string, Lane>, order: seq<string>, phase: Phase)

  datatype Action =
    | Start
    | Ship(target: string, payload: string)
    | PostSettles(target: string, outcome: Outcome)
    | BackoffEnds(target: string)
    | Stop
    | DrainEnds
    | StopEnds

  predicate Aborted(phase: Phase) {
    phase.Aborting? || phase.Stopped?
  }

  predicate AllIdle(lanes: map<string, Lane>) {
    forall t :: t in lanes ==> lanes[t].pump.Idle?
  }

  function Buffered(lanes: map<string, Lane>, order: seq<string>): nat
    requires forall t :: t in order ==> t in lanes
  {
    if order == [] then 0 else |lanes[order[0]].buffer| + Buffered(lanes, order[1..])
  }

  ghost predicate Ordered(s: State) {
    && (forall t :: t in s.order <==> t in s.lanes)
    && (forall i, j :: 0 <= i < j < |s.order| ==> s.order[i] != s.order[j])
  }

  predicate Enabled(s: State, a: Action) {
    match a
    case Start => s.phase.Unstarted?
    case Ship(_, _) => true
    case PostSettles(t, _) => t in s.lanes && s.lanes[t].pump.Posting?
    case BackoffEnds(t) => t in s.lanes && s.lanes[t].pump.BackingOff?
    case Stop => s.phase.Running?
    case DrainEnds => s.phase.Draining?
    case StopEnds => s.phase.Aborting? && AllIdle(s.lanes)
  }

  function WithLane(s: State, target: string): State {
    if target in s.lanes then s
    else s.(lanes := s.lanes[target := NewLane(target)], order := s.order + [target])
  }

  function Step(s: State, a: Action): State
    requires Enabled(s, a) && Ordered(s)
  {
    var aborted := Aborted(s.phase);
    match a
    case Start => s.(phase := Running)
    case Ship(t, payload) =>
      if !s.phase.Running? then s
      else
        var s' := WithLane(s, t);
        s'.(lanes := s'.lanes[t := EventShipperLane.Ship(s'.lanes[t], payload, s.limits, aborted)])
    case PostSettles(t, outcome) =>
      s.(lanes := s.lanes[t := EventShipperLane.PostSettles(s.lanes[t], outcome, s.limits, aborted)])
    case BackoffEnds(t) => s.(lanes := s.lanes[t := Turn(s.lanes[t], s.limits, aborted)])
    case Stop => s.(phase := Draining)
    case DrainEnds => s.(phase := Aborting)
    case StopEnds => s.(phase := Stopped(Buffered(s.lanes, s.order)))
  }

  // ----- runs ---------------------------------------------------------------------------------------------

  ghost predicate LanesKept(s: State) {
    Ordered(s) && Sensible(s.limits)
    && (forall t :: t in s.lanes ==> Inv(s.lanes[t], s.limits, Aborted(s.phase)))
    && (s.phase.Stopped? ==> AllIdle(s.lanes) && s.phase.abandoned == Buffered(s.lanes, s.order))
  }

  ghost predicate IsRun(states: seq<State>, actions: seq<Action>) {
    && |states| == |actions| + 1
    && states[0].lanes == map[] && states[0].order == [] && states[0].phase.Unstarted? && Sensible(states[0].limits)
    && forall i :: 0 <= i < |actions| ==>
         Ordered(states[i]) && Enabled(states[i], actions[i]) && states[i + 1] == Step(states[i], actions[i])
  }

  /** Aborting only loosens what an idle lane may hold. */
  lemma AbortLoosens(lane: Lane, limits: Limits)
    requires Inv(lane, limits, false)
    ensures Inv(lane, limits, true)
  {
  }

  lemma LaneReplaced(s: State, t: string, lane: Lane)
    requires LanesKept(s) && t in s.lanes && !s.phase.Stopped? && Inv(lane, s.limits, Aborted(s.phase))
    ensures LanesKept(s.(lanes := s.lanes[t := lane]))
  {
    hide Inv;
  }

  lemma LaneMade(s: State, t: string)
    requires LanesKept(s) && !s.phase.Stopped?
    ensures LanesKept(WithLane(s, t))
  {
    NewLaneInv(t, s.limits, Aborted(s.phase));
    hide Inv;
  }

  lemma PhaseMoves(s: State, a: Action)
    requires LanesKept(s) && Enabled(s, a) && !a.Ship? && !a.PostSettles? && !a.BackoffEnds?
    ensures LanesKept(Step(s, a))
  {
    hide Inv, EventShipperLane.PostSettles, EventShipperLane.Ship, Turn;
    LanesLoosen(s.lanes, s.limits, Aborted(s.phase));
  }

  lemma LanesLoosen(lanes: map<string, Lane>, limits: Limits, aborted: bool)
    requires forall t :: t in lanes ==> Inv(lanes[t], limits, aborted)
    ensures forall t :: t in lanes ==> Inv(lanes[t], limits, true)
  {
    hide Inv;
    forall t | t in lanes && !aborted ensures Inv(lanes[t], limits, true) {
      AbortLoosens(lanes[t], limits);
    }
  }

  lemma StepKeeps(s: State, a: Action)
    requires LanesKept(s) && Enabled(s, a)
    ensures LanesKept(Step(s, a))
  {
    var aborted := Aborted(s.phase);
    hide Inv, EventShipperLane.PostSettles, EventShipperLane.Ship, Turn;
    match a
    case Ship(t, payload) =>
      if s.phase.Running? {
        LaneMade(s, t);
        var s' := WithLane(s, t);
        ShipKeeps(s'.lanes[t], payload, s.limits, aborted);
        LaneReplaced(s', t, EventShipperLane.Ship(s'.lanes[t], payload, s.limits, aborted));
      }
    case PostSettles(t, outcome) =>
      PostSettlesKeeps(s.lanes[t], outcome, s.limits, aborted);
      LaneReplaced(s, t, EventShipperLane.PostSettles(s.lanes[t], outcome, s.limits, aborted));
    case BackoffEnds(t) =>
      BackoffKeeps(s.lanes[t], s.limits, aborted);
      LaneReplaced(s, t, Turn(s.lanes[t], s.limits, aborted));
    case _ => PhaseMoves(s, a);
  }

  lemma BackoffKeeps(lane: Lane, limits: Limits, aborted: bool)
    requires Inv(lane, limits, aborted) && Sensible(limits) && lane.pump.BackingOff?
    ensures Inv(Turn(lane, limits, aborted), limits, aborted)
  {
    TurnKeeps(lane, limits, aborted);
  }

  lemma {:induction false} EveryStateIsKept(states: seq<State>, actions: seq<Action>, n: nat)
    requires IsRun(states, actions) && n <= |actions|
    ensures LanesKept(states[n])
  {
    if n > 0 {
      hide LanesKept, Step, Enabled, Ordered;
      EveryStateIsKept(states, actions, n - 1);
      StepKeeps(states[n - 1], actions[n - 1]);
    }
  }

  /** The lanes' totals, over the order they were made in. */
  datatype Totals = Totals(shipped: nat, acknowledged: nat, refused: nat, lost: nat)

  function TotalsOf(lanes: map<string, Lane>, order: seq<string>): Totals
    requires forall t :: t in order ==> t in lanes
  {
    if order == [] then Totals(0, 0, 0, 0)
    else
      var lane, rest := lanes[order[0]], TotalsOf(lanes, order[1..]);
      Totals(|lane.shipped| + rest.shipped, |Acknowledged(lane.settled)| + rest.acknowledged,
             |RefusedIn(lane.settled)| + rest.refused, |lane.lost| + rest.lost)
  }

  lemma {:induction false} IdleLanesAccount(s: State, order: seq<string>)
    requires forall t :: t in s.lanes ==> Inv(s.lanes[t], s.limits, Aborted(s.phase)) && s.lanes[t].pump.Idle?
    requires forall t :: t in order ==> t in s.lanes
    ensures var n := TotalsOf(s.lanes, order);
            n.shipped == n.acknowledged + n.refused + n.lost + Buffered(s.lanes, order)
  {
    if order != [] {
      NothingUnaccounted(s.lanes[order[0]], s.limits, Aborted(s.phase));
      hide Inv;
      IdleLanesAccount(s, order[1..]);
    }
  }

  /**
   * Once `stop` has returned, what was shipped is exactly what was
   * acknowledged, refused, dropped for a full buffer, and abandoned.
   */
  lemma StopAccountsForAll(states: seq<State>, actions: seq<Action>, n: nat)
    requires IsRun(states, actions) && n <= |actions| && states[n].phase.Stopped?
    ensures var s := states[n];
            Ordered(s) && AllIdle(s.lanes)
            && var t := TotalsOf(s.lanes, s.order);
               t.shipped == t.acknowledged + t.refused + t.lost + s.phase.abandoned
  {
    EveryStateIsKept(states, actions, n);
    IdleLanesAccount(states[n], states[n].order);
  }

  // ----- the object ---------------------------------------------------------------------------------------

  class Shipper {
    const limits: Limits
    var lanes: map<string, Lane>
    var order: seq<string>
    var phase: Phase

    ghost function Abstract(): State
      reads this
    {
      State(limits, lanes, order, phase)
    }

    ghost predicate Valid()
      reads this
    {
      LanesKept(Abstract())
    }

    constructor (limits: Limits)
      requires Sensible(limits)
      ensures Valid() && lanes == map[] && order == [] && phase.Unstarted? && this.limits == limits
    {
      this.limits := limits;
      lanes, order, phase := map[], [], Unstarted;
    }

    method Begin()
      requires Valid() && phase.Unstarted?
      modifies this
      ensures Valid() && Abstract() == Step(old(Abstract()), Start)
    {
      phase := Running;
    }

    /** Queues the envelope for its target; `taken` is false once stopped. */
    method Take(target: string, payload: string) returns (taken: bool)
      requires Valid()
      modifies this
      ensures Valid() && taken == old(phase).Running? && Abstract() == Step(old(Abstract()), Ship(target, payload))
    {
      hide Inv;
      StepKeeps(Abstract(), Ship(target, payload));
      taken := phase.Running?;
      if taken {
        if target !in lanes {
          lanes, order := lanes[target := NewLane(target)], order + [target];
        }
        var lane := lanes[target];
        var envelope := Envelope(|lane.shipped|, payload);
        lane := lane.(buffer := lane.buffer + [envelope], shipped := lane.shipped + [envelope]);
        lane := TrimLane(lane);
        if lane.pump.Idle? {
          lane := PumpOn(lane);
        }
        lanes := lanes[target := lane];
      }
    }

    /** The lane's POST settled. */
    method PostSettled(target: string, outcome: Outcome)
      requires Valid() && target in lanes && lanes[target].pump.Posting?
      modifies this
      ensures Valid() && Abstract() == Step(old(Abstract()), PostSettles(target, outcome))
    {
      hide Inv;
      StepKeeps(Abstract(), PostSettles(target, outcome));
      var lane := lanes[target];
      var batch := lane.pump.batch;
      if outcome.Retry? {
        lane := TrimLane(lane.(buffer := batch + lane.buffer, pump := BackingOff(batch)));
      } else {
        lane := lane.(settled := lane.settled + Answered(batch, outcome.Delivered?), dropped := 0);
        lane := PumpOn(lane);
      }
      lanes := lanes[target := lane];
    }

    method BackoffEnded(target: string)
      requires Valid() && target in lanes && lanes[target].pump.BackingOff?
      modifies this
      ensures Valid() && Abstract() == Step(old(Abstract()), BackoffEnds(target))
    {
      hide Inv;
      StepKeeps(Abstract(), BackoffEnds(target));
      var lane := PumpOn(lanes[target]);
      lanes := lanes[target := lane];
    }

    /** `trim`: splices the excess off the front. */
    method TrimLane(lane: Lane) returns (trimmed: Lane)
      ensures trimmed == Trim(lane, limits)
    {
      var excess := |lane.buffer| - limits.maxBuffered;
      if excess <= 0 {
        assert lane.buffer[0..] == lane.buffer && lane.lost + lane.buffer[..0] == lane.lost;
        return lane;
      }
      trimmed := lane.(buffer := lane.buffer[excess..], dropped := lane.dropped + excess,
                       lost := lane.lost + lane.buffer[..excess]);
    }

    /** `pump`'s loop condition and the batch it takes. */
    method PumpOn(lane: Lane) returns (pumped: Lane)
      ensures pumped == Turn(lane, limits, Aborted(phase))
    {
      if |lane.buffer| > 0 && !(phase.Aborting? || phase.Stopped?) {
        var n := if |lane.buffer| < limits.maxPost then |lane.buffer| else limits.maxPost;
        pumped := lane.(buffer := lane.buffer[n..], pump := Posting(lane.buffer[..n]));
      } else {
        pumped := lane.(pump := Idle);
      }
    }

    /** `stop` up to its wait for the pumps. */
    method StopTaking()
      requires Valid() && phase.Running?
      modifies this
      ensures Valid() && Abstract() == Step(old(Abstract()), Stop)
    {
      phase := Draining;
    }

    /** The pumps are done, or `drainTimeoutMs` has passed: they are aborted. */
    method Abort()
      requires Valid() && phase.Draining?
      modifies this
      ensures Valid() && Abstract() == Step(old(Abstract()), DrainEnds)
    {
      hide Inv;
      StepKeeps(Abstract(), DrainEnds);
      phase := Aborting;
    }

    /** `stop` returns once every pump has ended, with the count it abandons. */
    method FinishStop() returns (abandoned: nat)
      requires Valid() && phase.Aborting? && AllIdle(lanes)
      modifies this
      ensures Valid() && phase == Stopped(abandoned) && Abstract() == Step(old(Abstract()), StopEnds)
    {
      hide Inv;
      StepKeeps(Abstract(), StopEnds);
      abandoned := 0;
      var i := 0;
      while i < |order|
        invariant 0 <= i <= |order| && abandoned + Buffered(lanes, order[i..]) == Buffered(lanes, order)
      {
        assert order[i..][1..] == order[i + 1..] && order[i] in order;
        abandoned := abandoned + |lanes[order[i]].buffer|;
        i := i + 1;
      }
      phase := Stopped(abandoned);
    }
  }
}
