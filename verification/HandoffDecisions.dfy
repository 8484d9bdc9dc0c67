/** What settles a prompt, when it goes on to follow, and that following shows all there is: by the steps of the run alone. */
module HandoffDecisions {
  import opened Prelude
  import opened TurnHandoff

  // ── What happened ─────────────────────────────────────────────────

  predicate Happened(steps: seq<Step>, step: Step) {
    steps != [] && (Last(steps) == step || Happened(Init(steps), step))
  }

  /** What the server sent out. */
  function Emitted(steps: seq<Step>): seq<LogEvent> {
    if steps == [] then [] else Emitted(Init(steps)) + (if Last(steps).Emit? then [Last(steps).event] else [])
  }

  predicate HasError(events: seq<LogEvent>) {
    events != [] && (Last(events).kind.Error? || HasError(Init(events)))
  }

  lemma HasErrorSnoc(events: seq<LogEvent>, last: LogEvent)
    ensures HasError(events + [last]) <==> HasError(events) || last.kind.Error?
  {
    assert Init(events + [last]) == events;
  }

  lemma RunSnoc(steps: seq<Step>, last: Step)
    requires Run(steps).Some?
    ensures Run(steps + [last]) == if Enabled(Run(steps).value, last) then Some(Next(Run(steps).value, last)) else None
    ensures Emitted(steps + [last]) == Emitted(steps) + (if last.Emit? then [last.event] else [])
    ensures forall step :: Happened(steps + [last], step) <==> last == step || Happened(steps, step)
  {
    assert Init(steps + [last]) == steps;
  }

  /** The turn's flags are what happened. */
  ghost predicate FlagsHold(t: Turn, steps: seq<Step>) {
    && (t.cancelled <==> Happened(steps, Cancel))
    && (t.streamFailed <==> Happened(steps, StreamEnds(true)))
    && (t.streamEnded <==> Happened(steps, StreamEnds(true)) || Happened(steps, StreamEnds(false)))
    && (t.settled <==> Happened(steps, Settle))
    && (t.cancelHandled <==> Happened(steps, CancelHandled))
    && (t.graceOver <==> Happened(steps, GraceElapses))
  }

  lemma FlagsAfterStep(t: Turn, steps: seq<Step>, last: Step)
    requires steps != [] && Last(steps) == last && FlagsHold(t, Init(steps)) && Enabled(t, last)
    requires !t.streamEnded ==> !t.streamFailed
    ensures FlagsHold(Next(t, last), steps) && (!Next(t, last).streamEnded ==> !Next(t, last).streamFailed)
  {
    match last
    case Emit(_) =>
    case Pump =>
    case StreamEnds(_) =>
    case GraceElapses =>
    case Cancel =>
    case CancelHandled =>
    case Settle =>
    case Status(_) =>
    case SocketFrame =>
    case Follow =>
    case FollowEnds =>
  }

  lemma {:induction false} EveryRunHoldsFlags(steps: seq<Step>)
    requires Run(steps).Some?
    ensures FlagsHold(Run(steps).value, steps) && (!Run(steps).value.streamEnded ==> !Run(steps).value.streamFailed)
  {
    if steps != [] {
      EveryRunHoldsFlags(Init(steps));
      FlagsAfterStep(Run(Init(steps)).value, steps, Last(steps));
    }
  }

  lemma LogAfterStep(t: Turn, step: Step)
    requires Enabled(t, step)
    ensures Next(t, step).log == if step.Emit? then t.log + [step.event] else t.log
  {
  }

  lemma {:induction false} LogIsEmitted(steps: seq<Step>)
    requires Run(steps).Some?
    ensures Run(steps).value.log == Emitted(steps)
  {
    if steps != [] {
      LogIsEmitted(Init(steps));
      LogAfterStep(Run(Init(steps)).value, Last(steps));
      NothingMore(Emitted(Init(steps)));
    }
  }

  /** An error counts once it was shown. */
  ghost predicate ErrorsHold(t: Turn) {
    t.sawError <==> HasError(t.fromStream) || HasError(t.fromSocket)
  }

  lemma ErrorsAfterPump(t: Turn)
    requires ErrorsHold(t) && t.streamRead < |t.log|
    ensures ErrorsHold(Pumped(t))
  {
    NothingMore(t.fromStream);
    HasErrorSnoc(t.fromStream, t.log[t.streamRead]);
  }

  lemma ErrorsAfterFollow(t: Turn)
    requires ErrorsHold(t) && t.queue != []
    ensures ErrorsHold(Followed(t))
  {
    NothingMore(t.fromSocket);
    HasErrorSnoc(t.fromSocket, t.queue[0]);
  }

  lemma OthersShowNothing(t: Turn, step: Step)
    requires Enabled(t, step) && !step.Pump? && !step.Follow?
    ensures var next := Next(t, step);
      next.fromStream == t.fromStream && next.fromSocket == t.fromSocket && next.sawError == t.sawError && next.lastSeq == t.lastSeq
  {
    match step
    case Emit(_) =>
    case StreamEnds(_) =>
    case GraceElapses =>
    case Cancel =>
    case CancelHandled =>
    case Settle =>
    case Status(_) =>
    case SocketFrame =>
    case FollowEnds =>
  }

  lemma ErrorsAfterStep(t: Turn, step: Step)
    requires ErrorsHold(t) && Enabled(t, step)
    ensures ErrorsHold(Next(t, step))
  {
    if step.Pump? {
      ErrorsAfterPump(t);
    } else if step.Follow? {
      ErrorsAfterFollow(t);
    } else {
      OthersShowNothing(t, step);
    }
  }

  lemma {:induction false} EveryRunHoldsErrors(steps: seq<Step>)
    requires Run(steps).Some?
    ensures ErrorsHold(Run(steps).value)
  {
    if steps != [] {
      EveryRunHoldsErrors(Init(steps));
      ErrorsAfterStep(Run(Init(steps)).value, Last(steps));
    }
  }

  /** Nothing comes from the socket before the prompt follows. */
  lemma NothingFollowedYet(steps: seq<Step>)
    requires Run(steps).Some? && (Run(steps).value.phase.Pumping? || Run(steps).value.phase.Checking?)
    ensures Run(steps).value.fromSocket == []
  {
    EditorSeesUnbrokenPrefix(steps);
  }

  // ── Whether the status is asked ───────────────────────────────────

  /** After settling, the status is asked exactly when the turn was not cancelled, showed no error and its stream did not fail. */
  lemma SettlingDecides(steps: seq<Step>)
    requires Run(steps).Some? && Enabled(Run(steps).value, Settle)
    ensures var t := Next(Run(steps).value, Settle);
      && t.settled && (t.phase.Checking? || t.phase.Settled?)
      && (t.phase.Checking? <==> !Happened(steps, Cancel) && !HasError(t.fromStream) && !Happened(steps, StreamEnds(true)))
  {
    EveryRunHoldsFlags(steps);
    EveryRunHoldsErrors(steps);
    NothingFollowedYet(steps);
  }

  // ── Where the subscription starts ─────────────────────────────────

  /** `number` is the greatest of the events' numbers, none if there are none. */
  ghost predicate IsGreatest(number: Option<int>, events: seq<LogEvent>) {
    && (number == None <==> events == [])
    && (number.Some? ==> exists i :: 0 <= i < |events| && events[i].seqNumber == number.value)
    && forall i :: 0 <= i < |events| ==> number.Some? && events[i].seqNumber <= number.value
  }

  lemma NewerIsGreatest(number: Option<int>, events: seq<LogEvent>, last: LogEvent)
    requires IsGreatest(number, events)
    ensures IsGreatest(Newer(number, last), events + [last])
  {
    var all := events + [last];
    assert all[|events|] == last;
    assert forall i :: 0 <= i < |events| ==> all[i] == events[i];
    if number.Some? && last.seqNumber <= number.value {
      var i :| 0 <= i < |events| && events[i].seqNumber == number.value;
      assert all[i].seqNumber == number.value;
    }
  }

  /** Before it follows, the turn's cursor is the greatest number the stream showed. */
  ghost predicate CursorHolds(t: Turn) {
    t.phase.Pumping? || t.phase.Checking? ==> IsGreatest(t.lastSeq, t.fromStream)
  }

  lemma CursorAfterPump(t: Turn)
    requires CursorHolds(t) && t.streamRead < |t.log|
    ensures CursorHolds(Pumped(t))
  {
    NothingMore(t.fromStream);
    if (t.phase.Pumping? || t.phase.Checking?) && t.log[t.streamRead].known && !t.settled {
      NewerIsGreatest(t.lastSeq, t.fromStream, t.log[t.streamRead]);
    }
  }

  lemma BeforeFollowing(t: Turn, step: Step)
    requires Enabled(t, step) && (Next(t, step).phase.Pumping? || Next(t, step).phase.Checking?)
    ensures t.phase.Pumping? || t.phase.Checking?
    ensures !step.Follow?
  {
    match step
    case Emit(_) =>
    case Pump =>
    case StreamEnds(_) =>
    case GraceElapses =>
    case Cancel =>
    case CancelHandled =>
    case Settle =>
    case Status(_) =>
    case SocketFrame =>
    case Follow =>
    case FollowEnds =>
  }

  lemma CursorAfterStep(t: Turn, step: Step)
    requires CursorHolds(t) && Enabled(t, step)
    ensures CursorHolds(Next(t, step))
  {
    if step.Pump? {
      CursorAfterPump(t);
    } else if Next(t, step).phase.Pumping? || Next(t, step).phase.Checking? {
      BeforeFollowing(t, step);
      OthersShowNothing(t, step);
    }
  }

  lemma {:induction false} EveryRunHoldsCursor(steps: seq<Step>)
    requires Run(steps).Some?
    ensures CursorHolds(Run(steps).value)
  {
    if steps != [] {
      EveryRunHoldsCursor(Init(steps));
      CursorAfterStep(Run(Init(steps)).value, Last(steps));
    }
  }

  /** The prompt is over if and only if it was cancelled or nothing more is to come; else it follows, after what the stream showed. */
  lemma StatusDecides(steps: seq<Step>, more: bool)
    requires Run(steps).Some? && Enabled(Run(steps).value, Status(more))
    ensures var t := Next(Run(steps).value, Status(more));
      && (t.phase.Settled? <==> Happened(steps, Cancel) || !more)
      && (!t.phase.Settled? ==> t.phase.Following? && IsGreatest(t.phase.afterSeq, t.fromStream))
  {
    EveryRunHoldsFlags(steps);
    EveryRunHoldsCursor(steps);
  }

  // ── All there is to show ──────────────────────────────────────────

  lemma CaughtUpShowsAll(t: Turn, n: nat)
    requires InvAt(t, n) && t.socketRead == |t.log| && t.queue == []
    ensures Shown(t.fromStream) + t.fromSocket == Shown(t.log)
  {
    assert t.log[..|t.log|] == t.log;
    assert t.fromSocket + Shown([]) == t.fromSocket;
  }

  /** Once the socket has read the whole log and the queue is drained, the editor has seen all there is to show, once and in order. */
  lemma CaughtUpIsComplete(steps: seq<Step>)
    requires Run(steps).Some? && Run(steps).value.socketRead == |Run(steps).value.log| && Run(steps).value.queue == []
    ensures Shown(Run(steps).value.fromStream) + Run(steps).value.fromSocket == Shown(Emitted(steps))
  {
    var n := EveryRunKeepsInv(steps);
    LogIsEmitted(steps);
    CaughtUpShowsAll(Run(steps).value, n);
  }

  predicate IsRead(step: Step) {
    step.SocketFrame? || step.Follow?
  }

  /** What is still to be read and handed over. */
  function Behind(t: Turn): int {
    2 * (|t.log| - t.socketRead) + |t.queue|
  }

  lemma FrameComesCloser(t: Turn, afterSeq: Option<int>)
    requires t.socketRead < |t.log|
    ensures FrameTaken(t, afterSeq).phase == t.phase && Behind(FrameTaken(t, afterSeq)) < Behind(t)
  {
  }

  lemma FollowComesCloser(t: Turn)
    requires t.queue != []
    ensures Followed(t).phase == t.phase && Behind(Followed(t)) < Behind(t)
  {
  }

  lemma ReadingComesCloser(t: Turn, step: Step)
    requires Enabled(t, step) && IsRead(step)
    ensures Next(t, step).phase == t.phase && Behind(Next(t, step)) < Behind(t)
  {
    if step.SocketFrame? {
      FrameComesCloser(t, t.phase.afterSeq);
    } else {
      FollowComesCloser(t);
    }
  }

  /** One more read or hand-over, while anything is left. */
  lemma OneMoreRead(steps: seq<Step>) returns (step: Step)
    requires Run(steps).Some? && Run(steps).value.phase.Following?
    requires Run(steps).value.queue != [] || Run(steps).value.socketRead < |Run(steps).value.log|
    ensures IsRead(step) && Run(steps + [step]).Some? && Emitted(steps + [step]) == Emitted(steps)
    ensures Run(steps + [step]).value.phase.Following? && Behind(Run(steps + [step]).value) < Behind(Run(steps).value)
  {
    var t := Run(steps).value;
    step := if t.queue != [] then Follow else SocketFrame;
    RunSnoc(steps, step);
    ReadingComesCloser(t, step);
    NothingMore(Emitted(steps));
  }

  /** While it follows, reading and handing over what is there is all it takes to show all there is. */
  lemma {:induction false} FollowingCatchesUp(steps: seq<Step>) returns (further: seq<Step>)
    requires Run(steps).Some? && Run(steps).value.phase.Following?
    ensures (forall i :: 0 <= i < |further| ==> IsRead(further[i])) && Run(steps + further).Some?
    ensures var t := Run(steps + further).value;
      t.phase.Following? && Shown(t.fromStream) + t.fromSocket == Shown(Emitted(steps))
    decreases Behind(Run(steps).value)
  {
    SocketStaysInLog(steps);
    if Run(steps).value.queue == [] && Run(steps).value.socketRead == |Run(steps).value.log| {
      further := [];
      NothingMore(steps);
      CaughtUpIsComplete(steps);
    } else {
      var step := OneMoreRead(steps);
      SocketStaysInLog(steps + [step]);
      var rest := FollowingCatchesUp(steps + [step]);
      Regroup(steps, [step], rest);
      further := [step] + rest;
    }
  }

  lemma SocketStaysInLog(steps: seq<Step>)
    requires Run(steps).Some?
    ensures Run(steps).value.socketRead <= |Run(steps).value.log| && Behind(Run(steps).value) >= 0
  {
    var n := EveryRunKeepsInv(steps);
  }
}
