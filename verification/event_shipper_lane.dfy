/**
 * One lane of `EventShipper` (`api/src/event-shipper.ts`): a bounded FIFO with
 * one POST in flight, whose failed batch goes back in front.
 */
module EventShipperLane {
  /** An envelope and its place among those shipped on its lane. */
  datatype Envelope = Envelope(no: nat, payload: string)

  datatype Outcome = Delivered | Refused | Retry

  datatype Settled = Settled(envelope: Envelope, delivered: bool)

  /** The pump: not running, awaiting a POST, or backing off after `failed` was put back. */
  datatype Pump = Idle | Posting(batch: seq<Envelope>) | BackingOff(failed: seq<Envelope>)

  /**
   * `shipped`, `settled` and `lost` are the lane's history: every envelope
   * taken, those a target answered for, and those dropped for a full buffer.
   */
  datatype Lane = Lane(
    target: string,
    buffer: seq<Envelope>,
    pump: Pump,
    dropped: nat,
    shipped: seq<Envelope>,
    settled: seq<Settled>,
    lost: seq<Envelope>)

  datatype Limits = Limits(maxBuffered: nat, maxPost: nat)

  /** What the constructor accepts. */
  predicate Sensible(limits: Limits) {
    limits.maxBuffered >= limits.maxPost >= 1
  }

  function NewLane(target: string): Lane {
    Lane(target, [], Idle, 0, [], [], [])
  }

  function Excess(lane: Lane, limits: Limits): nat {
    if |lane.buffer| <= limits.maxBuffered then 0 else |lane.buffer| - limits.maxBuffered
  }

  /** Drops the oldest envelopes past the limit. */
  function Trim(lane: Lane, limits: Limits): Lane {
    var n := Excess(lane, limits);
    lane.(buffer := lane.buffer[n..], dropped := lane.dropped + n, lost := lane.lost + lane.buffer[..n])
  }

  /** The pump loop comes round: posts the next batch, or ends. */
  function Turn(lane: Lane, limits: Limits, aborted: bool): Lane {
    if lane.buffer == [] || aborted then lane.(pump := Idle)
    else
      var n := if |lane.buffer| < limits.maxPost then |lane.buffer| else limits.maxPost;
      lane.(buffer := lane.buffer[n..], pump := Posting(lane.buffer[..n]))
  }

  function Ship(lane: Lane, payload: string, limits: Limits, aborted: bool): Lane {
    var envelope := Envelope(|lane.shipped|, payload);
    var trimmed := Trim(lane.(buffer := lane.buffer + [envelope], shipped := lane.shipped + [envelope]), limits);
    if trimmed.pump.Idle? then Turn(trimmed, limits, aborted) else trimmed
  }

  function Answered(batch: seq<Envelope>, delivered: bool): (answered: seq<Settled>)
    ensures |answered| == |batch|
    ensures forall i :: 0 <= i < |batch| ==> answered[i] == Settled(batch[i], delivered)
  {
    seq(|batch|, i requires 0 <= i < |batch| => Settled(batch[i], delivered))
  }

  /** The POST in flight settled. */
  function PostSettles(lane: Lane, outcome: Outcome, limits: Limits, aborted: bool): Lane
    requires lane.pump.Posting?
  {
    var batch := lane.pump.batch;
    if outcome.Retry? then Trim(lane.(buffer := batch + lane.buffer, pump := BackingOff(batch)), limits)
    else
      Turn(lane.(settled := lane.settled + Answered(batch, outcome.Delivered?), dropped := 0), limits, aborted)
  }

  // ----- what a lane keeps --------------------------------------------------------------------------------

  function InFlight(lane: Lane): seq<Envelope> {
    if lane.pump.Posting? then lane.pump.batch else []
  }

  function Envelopes(settled: seq<Settled>): (es: seq<Envelope>)
    ensures |es| == |settled| && forall i :: 0 <= i < |es| ==> es[i] == settled[i].envelope
  {
    seq(|settled|, i requires 0 <= i < |settled| => settled[i].envelope)
  }

  /** In ship order, each at most once. */
  ghost predicate InShipOrder(es: seq<Envelope>) {
    forall i, j :: 0 <= i < j < |es| ==> es[i].no < es[j].no
  }

  /** Everything the lane still answers for, oldest first. */
  function Line(lane: Lane): seq<Envelope> {
    Envelopes(lane.settled) + InFlight(lane) + lane.buffer
  }

  /** What is left of a failed batch heads the buffer; the rest of it was lost. */
  ghost predicate HeadedByRest(lane: Lane, failed: seq<Envelope>) {
    exists n :: 0 <= n <= |failed| && failed[n..] <= lane.buffer && forall e :: e in failed[..n] ==> e in lane.lost
  }

  /** Every envelope shipped is in the line or was lost, and the line is in ship order. */
  ghost predicate Kept(shipped: seq<Envelope>, line: seq<Envelope>, lost: seq<Envelope>) {
    && (forall i :: 0 <= i < |shipped| ==> shipped[i].no == i)
    && InShipOrder(line)
    && (forall i :: 0 <= i < |line| ==> line[i].no < |shipped|)
    && multiset(line) + multiset(lost) == multiset(shipped)
  }

  ghost predicate Inv(lane: Lane, limits: Limits, aborted: bool) {
    && Kept(lane.shipped, Line(lane), lane.lost)
    && |lane.buffer| <= limits.maxBuffered
    && (match lane.pump
        case Idle => lane.buffer == [] || aborted
        case Posting(batch) => 1 <= |batch| <= limits.maxPost
        case BackingOff(failed) => 1 <= |failed| <= limits.maxPost && HeadedByRest(lane, failed))
  }

  lemma NewLaneInv(target: string, limits: Limits, aborted: bool)
    ensures Inv(NewLane(target), limits, aborted)
  {
  }

  lemma KeptWhenShipped(shipped: seq<Envelope>, line: seq<Envelope>, lost: seq<Envelope>, e: Envelope)
    requires Kept(shipped, line, lost) && e.no == |shipped|
    ensures Kept(shipped + [e], line + [e], lost)
  {
  }

  lemma KeptWhenLost(shipped: seq<Envelope>, ahead: seq<Envelope>, buffer: seq<Envelope>, lost: seq<Envelope>, n: nat)
    requires Kept(shipped, ahead + buffer, lost) && n <= |buffer|
    ensures Kept(shipped, ahead + buffer[n..], lost + buffer[..n])
  {
    var line, line' := ahead + buffer, ahead + buffer[n..];
    assert buffer == buffer[..n] + buffer[n..];
    forall i | 0 <= i < |line'| ensures line'[i] == line[if i < |ahead| then i else i + n] {
    }
    forall i, j | 0 <= i < j < |line'| ensures line'[i].no < line'[j].no {
      assert line'[i] == line[if i < |ahead| then i else i + n];
      assert line'[j] == line[if j < |ahead| then j else j + n];
    }
  }

  lemma TrimKeeps(lane: Lane, limits: Limits)
    requires Kept(lane.shipped, Line(lane), lane.lost)
    ensures var lane' := Trim(lane, limits);
            Kept(lane'.shipped, Line(lane'), lane'.lost) && |lane'.buffer| <= limits.maxBuffered
  {
    KeptWhenLost(lane.shipped, Envelopes(lane.settled) + InFlight(lane), lane.buffer, lane.lost, Excess(lane, limits));
  }

  lemma TrimKeepsTheRest(lane: Lane, limits: Limits, failed: seq<Envelope>)
    requires HeadedByRest(lane, failed)
    ensures HeadedByRest(Trim(lane, limits), failed)
  {
    var n := Excess(lane, limits);
    var m :| 0 <= m <= |failed| && failed[m..] <= lane.buffer && forall e :: e in failed[..m] ==> e in lane.lost;
    var m' := if m + n <= |failed| then m + n else |failed|;
    var lane' := Trim(lane, limits);
    assert failed[m'..] <= lane'.buffer;
    forall e | e in failed[..m'] ensures e in lane'.lost {
      var i :| 0 <= i < m' && failed[i] == e;
      if i < m {
        assert failed[..m][i] == e;
      } else {
        assert lane.buffer[i - m] == failed[m..][i - m];
        assert lane.buffer[..n][i - m] == e;
      }
    }
  }

  /** A turn only moves envelopes along the line. */
  lemma TurnKeepsLine(lane: Lane, limits: Limits, aborted: bool)
    requires !lane.pump.Posting? && Sensible(limits)
    ensures var lane' := Turn(lane, limits, aborted);
      Line(lane') == Line(lane) && lane'.shipped == lane.shipped && lane'.lost == lane.lost && |lane'.buffer| <= |lane.buffer|
  {
    hide Envelopes;
  }

  lemma TurnKeeps(lane: Lane, limits: Limits, aborted: bool)
    requires Kept(lane.shipped, Line(lane), lane.lost) && !lane.pump.Posting? && |lane.buffer| <= limits.maxBuffered && Sensible(limits)
    ensures Inv(Turn(lane, limits, aborted), limits, aborted)
  {
    TurnKeepsLine(lane, limits, aborted);
    hide Line, Kept, HeadedByRest;
  }

  lemma GrownKeeps(lane: Lane, e: Envelope, limits: Limits, aborted: bool)
    requires Inv(lane, limits, aborted) && e.no == |lane.shipped|
    ensures var lane1 := lane.(buffer := lane.buffer + [e], shipped := lane.shipped + [e]);
            && Kept(lane1.shipped, Line(lane1), lane1.lost)
            && (lane.pump.BackingOff? ==> HeadedByRest(lane1, lane.pump.failed))
  {
    var lane1 := lane.(buffer := lane.buffer + [e], shipped := lane.shipped + [e]);
    assert Line(lane1) == Line(lane) + [e];
    KeptWhenShipped(lane.shipped, Line(lane), lane.lost, e);
  }

  lemma ShipKeeps(lane: Lane, payload: string, limits: Limits, aborted: bool)
    requires Inv(lane, limits, aborted) && Sensible(limits)
    ensures Inv(Ship(lane, payload, limits, aborted), limits, aborted)
  {
    var e := Envelope(|lane.shipped|, payload);
    var lane1 := lane.(buffer := lane.buffer + [e], shipped := lane.shipped + [e]);
    GrownKeeps(lane, e, limits, aborted);
    hide Kept, HeadedByRest;
    TrimKeeps(lane1, limits);
    if lane.pump.BackingOff? {
      TrimKeepsTheRest(lane1, limits, lane.pump.failed);
    } else if lane.pump.Idle? {
      TurnKeeps(Trim(lane1, limits), limits, aborted);
    }
  }

  /** Putting a failed batch back in front moves nothing along the line. */
  lemma PuttingBackKeepsLine(lane: Lane)
    requires lane.pump.Posting?
    ensures var lane1 := lane.(buffer := lane.pump.batch + lane.buffer, pump := BackingOff(lane.pump.batch));
      Line(lane1) == Line(lane) && HeadedByRest(lane1, lane.pump.batch)
  {
    var lane1 := lane.(buffer := lane.pump.batch + lane.buffer, pump := BackingOff(lane.pump.batch));
    assert lane.pump.batch[0..] <= lane1.buffer;
    hide Envelopes;
  }

  lemma PostFailsKeeps(lane: Lane, limits: Limits, aborted: bool)
    requires Inv(lane, limits, aborted) && Sensible(limits) && lane.pump.Posting?
    ensures Inv(PostSettles(lane, Retry, limits, aborted), limits, aborted)
  {
    var batch := lane.pump.batch;
    var lane1 := lane.(buffer := batch + lane.buffer, pump := BackingOff(batch));
    PuttingBackKeepsLine(lane);
    hide Kept, HeadedByRest, Line;
    TrimKeeps(lane1, limits);
    TrimKeepsTheRest(lane1, limits, batch);
  }

  /** Settling a batch moves it along the line, and nothing else. */
  lemma AnsweredKeepsLine(lane: Lane, delivered: bool)
    requires lane.pump.Posting?
    ensures Line(lane.(settled := lane.settled + Answered(lane.pump.batch, delivered), dropped := 0, pump := Idle)) == Line(lane)
  {
    var answered := Answered(lane.pump.batch, delivered);
    assert Envelopes(lane.settled + answered) == Envelopes(lane.settled) + lane.pump.batch;
  }

  lemma PostAnsweredKeeps(lane: Lane, delivered: bool, limits: Limits, aborted: bool)
    requires Inv(lane, limits, aborted) && Sensible(limits) && lane.pump.Posting?
    ensures Inv(PostSettles(lane, if delivered then Delivered else Refused, limits, aborted), limits, aborted)
  {
    var lane1 := lane.(settled := lane.settled + Answered(lane.pump.batch, delivered), dropped := 0, pump := Idle);
    AnsweredKeepsLine(lane, delivered);
    hide Kept, HeadedByRest, Line, Answered;
    TurnKeeps(lane1, limits, aborted);
    hide Inv;
  }

  lemma PostSettlesKeeps(lane: Lane, outcome: Outcome, limits: Limits, aborted: bool)
    requires Inv(lane, limits, aborted) && Sensible(limits) && lane.pump.Posting?
    ensures Inv(PostSettles(lane, outcome, limits, aborted), limits, aborted)
  {
    hide Inv, PostSettles;
    match outcome
    case Retry => PostFailsKeeps(lane, limits, aborted);
    case Delivered => PostAnsweredKeeps(lane, true, limits, aborted);
    case Refused => PostAnsweredKeeps(lane, false, limits, aborted);
  }

  /** The next POST after a retry starts with what is left of the failed batch: all of it that was not lost. */
  lemma RetryStartsWithTheRest(lane: Lane, limits: Limits)
    requires Inv(lane, limits, false) && Sensible(limits) && lane.pump.BackingOff?
    requires Turn(lane, limits, false).pump.Posting?
    ensures var failed, batch := lane.pump.failed, Turn(lane, limits, false).pump.batch;
            exists n :: 0 <= n <= |failed| && failed[n..] <= batch && forall e :: e in failed[..n] ==> e in lane.lost
  {
    var failed := lane.pump.failed;
    var n :| 0 <= n <= |failed| && failed[n..] <= lane.buffer && forall e :: e in failed[..n] ==> e in lane.lost;
    assert failed[n..] <= Turn(lane, limits, false).pump.batch;
  }

  function Acknowledged(settled: seq<Settled>): seq<Envelope> {
    if settled == [] then [] else
    var last := settled[|settled| - 1];
    Acknowledged(settled[..|settled| - 1]) + (if last.delivered then [last.envelope] else [])
  }

  function RefusedIn(settled: seq<Settled>): seq<Envelope> {
    if settled == [] then [] else
    var last := settled[|settled| - 1];
    RefusedIn(settled[..|settled| - 1]) + (if last.delivered then [] else [last.envelope])
  }

  lemma {:induction false} AcknowledgedAmongSettled(settled: seq<Settled>)
    ensures |Acknowledged(settled)| + |RefusedIn(settled)| == |settled|
    ensures forall e :: e in Acknowledged(settled) ==> e in Envelopes(settled)
    ensures InShipOrder(Envelopes(settled)) ==> InShipOrder(Acknowledged(settled))
  {
    if settled != [] {
      var init, last := settled[..|settled| - 1], settled[|settled| - 1];
      AcknowledgedAmongSettled(init);
      var es := Envelopes(settled);
      assert es == Envelopes(init) + [last.envelope];
      if InShipOrder(es) {
        assert forall e :: e in Envelopes(init) ==> e.no < last.envelope.no;
      }
    }
  }

  /** What the target acknowledged is what was shipped to it, in ship order, each at most once. */
  lemma AcknowledgedInShipOrder(lane: Lane, limits: Limits, aborted: bool)
    requires Inv(lane, limits, aborted)
    ensures var acked := Acknowledged(lane.settled);
            InShipOrder(acked)
            && forall e :: e in acked ==> e.no < |lane.shipped| && lane.shipped[e.no] == e && e !in lane.lost
  {
    AcknowledgedAmongSettled(lane.settled);
    var line := Line(lane);
    assert InShipOrder(Envelopes(lane.settled)) by {
      assert forall i :: 0 <= i < |lane.settled| ==> Envelopes(lane.settled)[i] == line[i];
    }
    forall e | e in Acknowledged(lane.settled)
      ensures e.no < |lane.shipped| && lane.shipped[e.no] == e && e !in lane.lost
    {
      assert e in line;
      assert e in multiset(lane.shipped);
      var i :| 0 <= i < |lane.shipped| && lane.shipped[i] == e;
      ShippedOnce(lane.shipped, e);
      assert multiset(line)[e] >= 1;
    }
  }

  lemma {:induction false} ShippedOnce(shipped: seq<Envelope>, e: Envelope)
    requires forall i :: 0 <= i < |shipped| ==> shipped[i].no == i
    ensures multiset(shipped)[e] <= 1
  {
    if shipped != [] {
      var init := shipped[..|shipped| - 1];
      assert shipped == init + [shipped[|shipped| - 1]];
      ShippedOnce(init, e);
      if e == shipped[|shipped| - 1] {
        assert e !in init;
      }
    }
  }

  /** Every envelope shipped is acknowledged, refused, lost to the full buffer, in flight or still buffered. */
  lemma NothingUnaccounted(lane: Lane, limits: Limits, aborted: bool)
    requires Inv(lane, limits, aborted)
    ensures |lane.shipped| == |Acknowledged(lane.settled)| + |RefusedIn(lane.settled)| + |lane.lost|
                            + |InFlight(lane)| + |lane.buffer|
  {
    AcknowledgedAmongSettled(lane.settled);
    assert |multiset(Line(lane)) + multiset(lane.lost)| == |Line(lane)| + |lane.lost|;
  }
}
