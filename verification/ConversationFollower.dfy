/**
 * The WebSocket follower: callbacks push accepted frames into a queue and a
 * generator takes them out, parking on a promise when there is nothing to
 * hand over. Every step is one uninterrupted run of the event loop.
 */
module ConversationFollower {
  import opened Prelude

  /** Where the generator is: able to run, parked on its promise, suspended at `yield`, or finished. */
  datatype Consumer = Running | Parked | Handing | Returned

  /** `accepted` and `yielded` are the record of what came in and what went out. */
  datatype State<Event> = State(
    queue: seq<Event>,
    closed: bool,
    aborted: bool,
    consumer: Consumer,
    accepted: seq<Event>,
    yielded: seq<Event>)

  datatype Step<Event> =
    | Frame(event: Option<Event>)
    | SocketClosed
    | Abort
    | Advance
    | Leave

  function Start<Event>(aborted: bool): State<Event> {
    State([], false, aborted, Running, [], [])
  }

  /** Resolve the promise the consumer waits on, if it waits. */
  function Notified<Event>(s: State<Event>): State<Event> {
    if s.consumer.Parked? then s.(consumer := Running) else s
  }

  /** The generator's loop, up to its next suspension. */
  function Advanced<Event>(s: State<Event>): State<Event> {
    if s.queue != [] then s.(queue := s.queue[1..], yielded := s.yielded + [s.queue[0]], consumer := Handing)
    else if s.closed || s.aborted then s.(consumer := Returned)
    else s.(consumer := Parked)
  }

  predicate Enabled<Event>(s: State<Event>, step: Step<Event>) {
    match step
    case Advance => s.consumer.Running? || s.consumer.Handing?
    case Leave => s.consumer.Handing?
    case _ => true
  }

  function Next<Event>(s: State<Event>, step: Step<Event>): State<Event>
    requires Enabled(s, step)
  {
    match step
    case Frame(None) => s
    case Frame(Some(event)) => Notified(s.(queue := s.queue + [event], accepted := s.accepted + [event]))
    case SocketClosed => Notified(s.(closed := true))
    case Abort => Notified(s.(aborted := true, closed := true))
    case Advance => Advanced(s)
    case Leave => s.(consumer := Returned)
  }

  function Run<Event>(aborted: bool, steps: seq<Step<Event>>): Option<State<Event>> {
    if steps == [] then Some(Start(aborted))
    else
      match Run(aborted, Init(steps))
      case None => None
      case Some(before) => if Enabled(before, Last(steps)) then Some(Next(before, Last(steps))) else None
  }

  /** Nothing is lost or reordered, and a parked consumer has nothing to wait for. */
  ghost predicate Inv<Event>(s: State<Event>) {
    && s.yielded + s.queue == s.accepted
    && (s.consumer.Parked? ==> s.queue == [] && !s.closed && !s.aborted)
  }

  lemma StepKeepsInv<Event>(s: State<Event>, step: Step<Event>)
    requires Inv(s) && Enabled(s, step)
    ensures Inv(Next(s, step))
  {
    if step.Frame? && step.event.Some? {
      assert s.yielded + (s.queue + [step.event.value]) == (s.yielded + s.queue) + [step.event.value];
    } else if step.Advance? && s.queue != [] {
      assert s.queue == [s.queue[0]] + s.queue[1..];
      assert (s.yielded + [s.queue[0]]) + s.queue[1..] == s.yielded + s.queue;
    }
  }

  /** On every interleaving of frames, closing, aborting and the consumer's own turns. */
  lemma {:induction false} NoWakeupIsLost<Event>(aborted: bool, steps: seq<Step<Event>>)
    requires Run(aborted, steps).Some?
    ensures Inv(Run(aborted, steps).value)
  {
    if steps != [] {
      NoWakeupIsLost(aborted, Init(steps));
      StepKeepsInv(Run(aborted, Init(steps)).value, Last(steps));
    }
  }

  /** The follower ends by itself only when told to and with everything handed over. */
  lemma ReturnsOnlyWhenDrained<Event>(s: State<Event>)
    requires Inv(s) && Enabled(s, Advance) && Advanced(s).consumer.Returned?
    ensures s.yielded == s.accepted && (s.closed || s.aborted)
  {
    assert s.yielded + [] == s.yielded;
  }

  function AdvanceTimes<Event>(s: State<Event>, times: nat): State<Event>
    decreases times
  {
    if times == 0 then s else AdvanceTimes(Advanced(s), times - 1)
  }

  /** Once closed, the consumer's turns alone hand over every accepted frame and then end it. */
  lemma {:induction false} ClosedFollowerDrains<Event>(s: State<Event>)
    requires Inv(s) && !s.consumer.Returned? && (s.closed || s.aborted)
    ensures Enabled(s, Advance)
    ensures var end := AdvanceTimes(s, |s.queue| + 1); end.consumer.Returned? && end.yielded == s.accepted
    decreases |s.queue|
  {
    if s.queue == [] {
      assert AdvanceTimes(s, 1) == AdvanceTimes(Advanced(s), 0);
      assert s.yielded + [] == s.yielded;
    } else {
      StepKeepsInv(s, Advance);
      ClosedFollowerDrains(Advanced(s));
    }
  }

  // ── By the steps alone ────────────────────────────────────────────

  /** The frames that came in: every one with an event, in order. */
  function Frames<Event>(steps: seq<Step<Event>>): seq<Event> {
    if steps == [] then []
    else Frames(Init(steps)) + (if Last(steps).Frame? && Last(steps).event.Some? then [Last(steps).event.value] else [])
  }

  ghost predicate Happened<Event(!new)>(steps: seq<Step<Event>>, step: Step<Event>) {
    exists i :: 0 <= i < |steps| && steps[i] == step
  }

  /** What was handed over, then what waits, are the frames; it is told to end exactly by what tells it. */
  ghost predicate AccountsFor<Event(!new)>(s: State<Event>, aborted: bool, steps: seq<Step<Event>>) {
    && s.accepted == Frames(steps) && s.yielded + s.queue == Frames(steps)
    && (s.closed <==> Happened(steps, SocketClosed) || Happened(steps, Abort))
    && (s.aborted <==> aborted || Happened(steps, Abort))
  }

  lemma HappenedSnoc<Event(!new)>(steps: seq<Step<Event>>, last: Step<Event>, step: Step<Event>)
    ensures Happened(steps + [last], step) <==> Happened(steps, step) || last == step
  {
    if Happened(steps, step) {
      var i :| 0 <= i < |steps| && steps[i] == step;
      assert (steps + [last])[i] == step;
    }
    assert (steps + [last])[|steps|] == last;
  }

  lemma {:induction false} EveryRunAccountsFor<Event(!new)>(aborted: bool, steps: seq<Step<Event>>)
    requires Run(aborted, steps).Some?
    ensures AccountsFor(Run(aborted, steps).value, aborted, steps)
  {
    if steps != [] {
      EveryRunAccountsFor(aborted, Init(steps));
      HappenedSnoc(Init(steps), Last(steps), SocketClosed);
      HappenedSnoc(Init(steps), Last(steps), Abort);
      InitAndLast(steps);
      NoWakeupIsLost(aborted, steps);
    }
  }

  /** Once it is closed or aborted, and unless it was left, the consumer's own turns hand over every frame there was, and end. */
  lemma EveryFrameIsYielded<Event(!new)>(aborted: bool, steps: seq<Step<Event>>)
    requires Run(aborted, steps).Some? && !Run(aborted, steps).value.consumer.Returned?
    requires aborted || Happened(steps, SocketClosed) || Happened(steps, Abort)
    ensures var s := Run(aborted, steps).value;
      var end := AdvanceTimes(s, |s.queue| + 1);
      Enabled(s, Advance) && end.consumer.Returned? && end.yielded == Frames(steps)
  {
    EveryRunAccountsFor(aborted, steps);
    NoWakeupIsLost(aborted, steps);
    ClosedFollowerDrains(Run(aborted, steps).value);
  }

  /** As long as a frame waits the consumer is awake, and its turn hands over the oldest. */
  lemma WaitingFrameIsNext<Event(!new)>(aborted: bool, steps: seq<Step<Event>>)
    requires Run(aborted, steps).Some? && !Run(aborted, steps).value.consumer.Returned?
    requires |Run(aborted, steps).value.yielded| < |Frames(steps)|
    ensures var s := Run(aborted, steps).value;
      Enabled(s, Advance) && Next(s, Advance).yielded == s.yielded + [Frames(steps)[|s.yielded|]]
  {
    EveryRunAccountsFor(aborted, steps);
    NoWakeupIsLost(aborted, steps);
    var s := Run(aborted, steps).value;
    assert Frames(steps)[|s.yielded|] == (s.yielded + s.queue)[|s.yielded|];
  }

  // ── The generator and its callbacks ───────────────────────────────

  class Follower<Event(!new)> {
    var queue: seq<Event>
    var closed: bool
    var aborted: bool
    var consumer: Consumer
    ghost var accepted: seq<Event>
    ghost var yielded: seq<Event>

    ghost function Abs(): State<Event>
      reads this
    {
      State(queue, closed, aborted, consumer, accepted, yielded)
    }

    constructor (alreadyAborted: bool)
      ensures Abs() == Start(alreadyAborted) && Inv(Abs())
    {
      queue, closed, aborted, consumer := [], false, alreadyAborted, Running;
      accepted, yielded := [], [];
    }

    method Notify()
      modifies this`consumer
      ensures Abs() == Notified(old(Abs()))
    {
      if consumer.Parked? {
        consumer := Running;
      }
    }

    method OnMessage(event: Option<Event>)
      requires Inv(Abs())
      modifies this
      ensures Inv(Abs()) && Abs() == Next(old(Abs()), Frame(event))
      ensures event.Some? ==> queue == old(queue) + [event.value] && !consumer.Parked?
    {
      StepKeepsInv(Abs(), Frame(event));
      if event.Some? {
        queue, accepted := queue + [event.value], accepted + [event.value];
        Notify();
      }
    }

    method OnClosed()
      requires Inv(Abs())
      modifies this
      ensures Inv(Abs()) && Abs() == Next(old(Abs()), SocketClosed)
    {
      StepKeepsInv(Abs(), SocketClosed);
      closed := true;
      Notify();
    }

    method OnAbort()
      requires Inv(Abs())
      modifies this
      ensures Inv(Abs()) && Abs() == Next(old(Abs()), Abort)
    {
      StepKeepsInv(Abs(), Abort);
      aborted := true;
      closed := true;
      Notify();
    }

    /** One turn of the loop: a frame to yield, or None when the generator parked or returned. */
    method TakeTurn() returns (next: Option<Event>)
      requires Inv(Abs()) && Enabled(Abs(), Advance)
      modifies this
      ensures Inv(Abs()) && Abs() == Next(old(Abs()), Advance)
      ensures match next
        case Some(event) => yielded == old(yielded) + [event]
        case None => yielded == old(yielded) == accepted
    {
      StepKeepsInv(Abs(), Advance);
      if queue != [] {
        next := Some(queue[0]);
        queue, yielded, consumer := queue[1..], yielded + [queue[0]], Handing;
      } else {
        assert yielded + queue == yielded;
        next := None;
        consumer := if closed || aborted then Returned else Parked;
      }
    }
  }
}
