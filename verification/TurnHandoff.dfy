/**
 * One prompt of an editor session: the turn's SSE stream is pumped until the
 * prompt settles; if background work goes on, the conversation is followed
 * over a WebSocket from the last sequence number the stream carried. The
 * pump keeps reading after the prompt has settled, so the two overlap.
 */
module TurnHandoff {
  import opened Prelude

  datatype Kind = Done | Error | StateUpdate | Content

  /** One event of the conversation's log; `known` is whether the protocol knows its type. */
  datatype LogEvent = LogEvent(seqNumber: int, known: bool, kind: Kind)

  datatype Phase = Pumping | Checking | Following(afterSeq: Option<int>) | Settled

  /**
   * The turn's fields (`settled`, `cancelled`, `streamEnded`, the outcome),
   * how far each channel has read the log, what waits in the follower's
   * queue, and what each channel has handed to the translator.
   */
  datatype Turn = Turn(
    log: seq<LogEvent>,
    streamRead: nat,
    streamEnded: bool,
    streamFailed: bool,
    settled: bool,
    cancelled: bool,
    cancelHandled: bool,
    graceOver: bool,
    lastSeq: Option<int>,
    sawError: bool,
    phase: Phase,
    socketRead: nat,
    queue: seq<LogEvent>,
    fromStream: seq<LogEvent>,
    fromSocket: seq<LogEvent>)

  const START := Turn([], 0, false, false, false, false, false, false, None, false, Pumping, 0, [], [], [])

  datatype Step =
    | Emit(event: LogEvent)
    | Pump
    | StreamEnds(failed: bool)
    | GraceElapses
    | Cancel
    | CancelHandled
    | Settle
    | Status(more: bool)
    | SocketFrame
    | Follow
    | FollowEnds

  /** The highest sequence number translated so far, as the translator keeps it. */
  function Newer(lastSeq: Option<int>, event: LogEvent): Option<int> {
    if lastSeq.None? || event.seqNumber > lastSeq.value then Some(event.seqNumber) else lastSeq
  }

  function Translated(t: Turn, event: LogEvent): Turn {
    t.(lastSeq := Newer(t.lastSeq, event), sawError := t.sawError || event.kind.Error?)
  }

  predicate IsReplayed(afterSeq: Option<int>, event: LogEvent) {
    afterSeq.None? || event.seqNumber > afterSeq.value
  }

  predicate Enabled(t: Turn, step: Step) {
    match step
    // The server numbers its events in strictly increasing order.
    case Emit(event) => t.log == [] || Last(t.log).seqNumber < event.seqNumber
    case Pump => !t.streamEnded && t.streamRead < |t.log|
    case StreamEnds(_) => !t.streamEnded
    case GraceElapses => exists i :: 0 <= i < |t.fromStream| && t.fromStream[i].kind.Done?
    case CancelHandled => t.cancelled
    case Settle => t.phase.Pumping? && (t.streamEnded || t.graceOver || t.cancelHandled)
    case Status(_) => t.phase.Checking?
    case SocketFrame => t.phase.Following? && t.socketRead < |t.log|
    case Follow => t.phase.Following? && t.queue != []
    case FollowEnds => t.phase.Following? && t.queue == []
    case Cancel => true
  }

  /** The pump reads one event; once the prompt has settled it only drains the body. */
  function Pumped(t: Turn): Turn
    requires t.streamRead < |t.log|
  {
    var event := t.log[t.streamRead];
    var shown := event.known && !t.settled;
    t.(streamRead := t.streamRead + 1,
       fromStream := t.fromStream + (if shown then [event] else []),
       lastSeq := if shown then Newer(t.lastSeq, event) else t.lastSeq,
       sawError := t.sawError || (shown && event.kind.Error?))
  }

  /** The server replays, then sends live, what comes after the cursor; frames of unknown types are dropped. */
  function FrameTaken(t: Turn, afterSeq: Option<int>): Turn
    requires t.socketRead < |t.log|
  {
    t.(socketRead := t.socketRead + 1, queue := Queued(t.queue, afterSeq, t.log[t.socketRead]))
  }

  function Followed(t: Turn): Turn
    requires t.queue != []
  {
    var event := t.queue[0];
    var shown := !event.kind.StateUpdate?;
    t.(queue := t.queue[1..],
       fromSocket := t.fromSocket + (if shown then [event] else []),
       lastSeq := if shown then Newer(t.lastSeq, event) else t.lastSeq,
       sawError := t.sawError || (shown && event.kind.Error?))
  }

  function Next(t: Turn, step: Step): Turn
    requires Enabled(t, step)
  {
    match step
    case Emit(event) => t.(log := t.log + [event])
    case Pump => Pumped(t)
    case StreamEnds(failed) => t.(streamEnded := true, streamFailed := failed)
    case GraceElapses => t.(graceOver := true)
    case Cancel => t.(cancelled := true)
    case CancelHandled => t.(cancelHandled := true)
    case Settle =>
      t.(settled := true, phase := if !t.cancelled && !t.sawError && !t.streamFailed then Checking else Settled)
    case Status(more) =>
      t.(phase := if more && !t.cancelled then Following(t.lastSeq) else Settled)
    case SocketFrame => FrameTaken(t, t.phase.afterSeq)
    case Follow => Followed(t)
    case FollowEnds => t.(phase := Settled)
  }

  function Run(steps: seq<Step>): Option<Turn> {
    if steps == [] then Some(START)
    else
      match Run(Init(steps))
      case None => None
      case Some(before) => if Enabled(before, Last(steps)) then Some(Next(before, Last(steps))) else None
  }

  // ── What the editor has seen ──────────────────────────────────────

  /** The events an editor is shown something for: of a known type, and not mere state updates. */
  function Shown(events: seq<LogEvent>): seq<LogEvent> {
    if events == [] then []
    else Shown(Init(events)) + (if Last(events).known && !Last(events).kind.StateUpdate? then [Last(events)] else [])
  }

  ghost predicate Numbered(log: seq<LogEvent>) {
    forall i, j :: 0 <= i < j < |log| ==> log[i].seqNumber < log[j].seqNumber
  }

  /** `lastSeq` is the number of the last known event of the log's first `n`. */
  ghost predicate IsCursor(log: seq<LogEvent>, n: nat, lastSeq: Option<int>)
    requires n <= |log|
  {
    && (forall i :: 0 <= i < n && log[i].known ==> lastSeq.Some? && log[i].seqNumber <= lastSeq.value)
    && (forall i :: n <= i < |log| ==> IsReplayed(lastSeq, log[i]))
    && (lastSeq.Some? ==> log != [] && lastSeq.value <= Last(log).seqNumber)
  }

  /** How much of the log the stream has shown, and how much both channels have taken up. */
  function Covered(streamShown: nat, socketRead: nat): nat {
    if socketRead > streamShown then socketRead else streamShown
  }

  ghost predicate PositionsOk(t: Turn, n: nat) {
    && n <= t.streamRead <= |t.log| && t.socketRead <= |t.log|
    && Numbered(t.log)
    && (!t.settled ==> n == t.streamRead)
    && (t.settled <==> !t.phase.Pumping?)
    && (t.phase.Pumping? || t.phase.Checking? ==> t.socketRead == 0 && t.queue == [] && t.fromSocket == [])
    && (t.phase.Settled? ==> t.queue == [])
    && (forall i :: 0 <= i < |t.queue| ==> t.queue[i].known)
  }

  ghost predicate CursorOk(t: Turn, n: nat)
    requires n <= |t.log|
  {
    && (t.phase.Pumping? || t.phase.Checking? ==> IsCursor(t.log, n, t.lastSeq))
    && (t.phase.Following? ==> IsCursor(t.log, n, t.phase.afterSeq))
  }

  /** What the stream showed, what the socket showed and what still waits make up the log so far taken up. */
  ghost predicate ShowsOk(log: seq<LogEvent>, n: nat, covered: nat, fromStream: seq<LogEvent>, fromSocket: seq<LogEvent>, queue: seq<LogEvent>)
    requires n <= |log| && covered <= |log|
  {
    && Shown(fromStream) == Shown(log[..n])
    && Shown(fromStream) + (fromSocket + Shown(queue)) == Shown(log[..covered])
  }

  /** With the stream's part ending after `n` events of the log. */
  ghost predicate InvAt(t: Turn, n: nat) {
    && PositionsOk(t, n)
    && CursorOk(t, n)
    && ShowsOk(t.log, n, Covered(n, t.socketRead), t.fromStream, t.fromSocket, t.queue)
  }

  lemma {:induction false} ShownAppends(a: seq<LogEvent>, b: seq<LogEvent>)
    ensures Shown(a + b) == Shown(a) + Shown(b)
  {
    if b == [] {
      assert a + b == a;
    } else {
      ShownAppends(a, Init(b));
      assert Init(a + b) == a + Init(b) && Last(a + b) == Last(b);
    }
  }

  lemma ShownSnoc(events: seq<LogEvent>, next: LogEvent)
    ensures Shown(events + [next]) == Shown(events) + Shown([next])
  {
    ShownAppends(events, [next]);
  }

  lemma NextIsLast<T>(s: seq<T>, n: nat)
    requires n < |s|
    ensures s[..n + 1] == s[..n] + [s[n]]
  {
  }

  lemma ShownNext(log: seq<LogEvent>, n: nat)
    requires n < |log|
    ensures Shown(log[..n + 1]) == Shown(log[..n]) + Shown([log[n]])
  {
    NextIsLast(log, n);
    ShownSnoc(log[..n], log[n]);
  }

  lemma ShownOne(event: LogEvent)
    ensures Shown([event]) == if event.known && !event.kind.StateUpdate? then [event] else []
  {
    assert Init([event]) == [];
  }

  lemma GrowingShows(log: seq<LogEvent>, event: LogEvent, n: nat, covered: nat, fromStream: seq<LogEvent>, fromSocket: seq<LogEvent>, queue: seq<LogEvent>)
    requires n <= |log| && covered <= |log| && ShowsOk(log, n, covered, fromStream, fromSocket, queue)
    ensures ShowsOk(log + [event], n, covered, fromStream, fromSocket, queue)
  {
    assert (log + [event])[..n] == log[..n];
    assert (log + [event])[..covered] == log[..covered];
  }

  lemma StreamShows(log: seq<LogEvent>, n: nat, fromStream: seq<LogEvent>, shown: seq<LogEvent>)
    requires n < |log| && ShowsOk(log, n, n, fromStream, [], []) && shown == if log[n].known then fromStream + [log[n]] else fromStream
    ensures ShowsOk(log, n + 1, n + 1, shown, [], [])
  {
    ShownNext(log, n);
    ShownOne(log[n]);
    ShownSnoc(fromStream, log[n]);
  }

  /** What is queued behind everything is shown behind everything. */
  lemma QueuedShowsLast(fromStream: seq<LogEvent>, fromSocket: seq<LogEvent>, queue: seq<LogEvent>, event: LogEvent)
    ensures var queued := if event.known then queue + [event] else queue;
      Shown(fromStream) + (fromSocket + Shown(queued)) == (Shown(fromStream) + (fromSocket + Shown(queue))) + Shown([event])
  {
    ShownOne(event);
    if event.known {
      ShownSnoc(queue, event);
      RegroupLast(Shown(fromStream), fromSocket, Shown(queue), Shown([event]));
    }
  }

  lemma SocketShows(log: seq<LogEvent>, n: nat, i: nat, fromStream: seq<LogEvent>, fromSocket: seq<LogEvent>, queue: seq<LogEvent>, queued: seq<LogEvent>)
    requires n <= i < |log| && ShowsOk(log, n, i, fromStream, fromSocket, queue)
    requires queued == if log[i].known then queue + [log[i]] else queue
    ensures ShowsOk(log, n, i + 1, fromStream, fromSocket, queued)
  {
    ShownNext(log, i);
    QueuedShowsLast(fromStream, fromSocket, queue, log[i]);
  }

  lemma HeadAndRest<T>(s: seq<T>)
    requires s != []
    ensures s == [s[0]] + s[1..]
  {
  }

  /** What is taken from the queue is shown where it was going to be. */
  lemma TakenShowsFirst(fromSocket: seq<LogEvent>, queue: seq<LogEvent>)
    requires queue != [] && queue[0].known
    ensures fromSocket + Shown(queue)
         == (if queue[0].kind.StateUpdate? then fromSocket else fromSocket + [queue[0]]) + Shown(queue[1..])
  {
    HeadAndRest(queue);
    ShownAppends([queue[0]], queue[1..]);
    ShownOne(queue[0]);
    Regroup(fromSocket, Shown([queue[0]]), Shown(queue[1..]));
  }

  lemma FollowingShows(log: seq<LogEvent>, n: nat, covered: nat, fromStream: seq<LogEvent>, fromSocket: seq<LogEvent>, queue: seq<LogEvent>)
    requires n <= |log| && covered <= |log| && queue != [] && queue[0].known && ShowsOk(log, n, covered, fromStream, fromSocket, queue)
    ensures ShowsOk(log, n, covered, fromStream, if queue[0].kind.StateUpdate? then fromSocket else fromSocket + [queue[0]], queue[1..])
  {
    TakenShowsFirst(fromSocket, queue);
  }

  lemma EmittingKeepsCursor(log: seq<LogEvent>, event: LogEvent, n: nat, lastSeq: Option<int>)
    requires n <= |log| && Numbered(log) && IsCursor(log, n, lastSeq) && (log == [] || Last(log).seqNumber < event.seqNumber)
    ensures Numbered(log + [event]) && IsCursor(log + [event], n, lastSeq)
  {
  }

  lemma EmittingKeepsNumbers(log: seq<LogEvent>, event: LogEvent)
    requires Numbered(log) && (log == [] || Last(log).seqNumber < event.seqNumber)
    ensures Numbered(log + [event])
  {
  }

  lemma EmittingKeepsInv(t: Turn, event: LogEvent, n: nat)
    requires InvAt(t, n) && Enabled(t, Emit(event))
    ensures InvAt(Next(t, Emit(event)), n)
  {
    var next := Next(t, Emit(event));
    assert PositionsOk(next, n) by {
      EmittingKeepsNumbers(t.log, event);
    }
    assert CursorOk(next, n) by {
      if t.phase.Following? {
        EmittingKeepsCursor(t.log, event, n, t.phase.afterSeq);
      } else if !t.phase.Settled? {
        EmittingKeepsCursor(t.log, event, n, t.lastSeq);
      }
    }
    GrowingShows(t.log, event, n, Covered(n, t.socketRead), t.fromStream, t.fromSocket, t.queue);
  }

  lemma StreamKeepsCursor(log: seq<LogEvent>, n: nat, lastSeq: Option<int>)
    requires n < |log| && Numbered(log) && IsCursor(log, n, lastSeq)
    ensures IsCursor(log, n + 1, if log[n].known then Newer(lastSeq, log[n]) else lastSeq)
  {
  }

  /** Once settled, the pump only drains the body. */
  lemma DrainingKeepsInv(t: Turn, n: nat)
    requires InvAt(t, n) && Enabled(t, Pump) && t.settled
    ensures InvAt(Pumped(t), n)
  {
    NothingMore(t.fromStream);
  }

  lemma PumpingKeepsPlaces(t: Turn, n: nat)
    requires PositionsOk(t, n) && Enabled(t, Pump) && !t.settled
    ensures PositionsOk(Pumped(t), n + 1) && t.phase.Pumping? && n < |t.log| && t.log[n] == t.log[t.streamRead]
  {
  }

  lemma PumpingKeepsCursor(t: Turn, n: nat)
    requires PositionsOk(t, n) && CursorOk(t, n) && Enabled(t, Pump) && !t.settled
    ensures n < |t.log| && CursorOk(Pumped(t), n + 1)
  {
    StreamKeepsCursor(t.log, n, t.lastSeq);
  }

  lemma PumpingKeepsInv(t: Turn, n: nat) returns (m: nat)
    requires InvAt(t, n) && Enabled(t, Pump)
    ensures InvAt(Pumped(t), m)
  {
    if t.settled {
      m := n;
      DrainingKeepsInv(t, n);
    } else {
      m := n + 1;
      PumpingKeepsPlaces(t, n);
      PumpingKeepsCursor(t, n);
      StreamShows(t.log, n, t.fromStream, Pumped(t).fromStream);
    }
  }

  /** The socket repeats nothing the stream has shown and skips nothing it has not. */
  lemma ReplayStartsWhereStreamEnded(log: seq<LogEvent>, n: nat, afterSeq: Option<int>, i: nat)
    requires n <= |log| && i < |log| && IsCursor(log, n, afterSeq)
    ensures log[i].known ==> (IsReplayed(afterSeq, log[i]) <==> n <= i)
  {
  }

  function Queued(queue: seq<LogEvent>, afterSeq: Option<int>, event: LogEvent): seq<LogEvent> {
    if IsReplayed(afterSeq, event) && event.known then queue + [event] else queue
  }

  lemma FrameShows(log: seq<LogEvent>, n: nat, i: nat, afterSeq: Option<int>, fromStream: seq<LogEvent>, fromSocket: seq<LogEvent>, queue: seq<LogEvent>)
    requires n <= |log| && i < |log| && IsCursor(log, n, afterSeq)
    requires ShowsOk(log, n, Covered(n, i), fromStream, fromSocket, queue)
    ensures ShowsOk(log, n, Covered(n, i + 1), fromStream, fromSocket, Queued(queue, afterSeq, log[i]))
  {
    ReplayStartsWhereStreamEnded(log, n, afterSeq, i);
    if n <= i {
      SocketShows(log, n, i, fromStream, fromSocket, queue, Queued(queue, afterSeq, log[i]));
    }
  }

  lemma FrameKeepsPlaces(t: Turn, n: nat)
    requires PositionsOk(t, n) && CursorOk(t, n) && t.phase.Following? && t.socketRead < |t.log|
    ensures PositionsOk(FrameTaken(t, t.phase.afterSeq), n) && CursorOk(FrameTaken(t, t.phase.afterSeq), n)
  {
  }

  lemma FrameKeepsShows(t: Turn, n: nat)
    requires PositionsOk(t, n) && CursorOk(t, n) && t.phase.Following? && t.socketRead < |t.log|
    requires ShowsOk(t.log, n, Covered(n, t.socketRead), t.fromStream, t.fromSocket, t.queue)
    ensures var taken := FrameTaken(t, t.phase.afterSeq);
      ShowsOk(taken.log, n, Covered(n, taken.socketRead), taken.fromStream, taken.fromSocket, taken.queue)
  {
    FrameShows(t.log, n, t.socketRead, t.phase.afterSeq, t.fromStream, t.fromSocket, t.queue);
  }

  lemma SocketFrameKeepsInv(t: Turn, n: nat)
    requires InvAt(t, n) && t.phase.Following? && t.socketRead < |t.log|
    ensures InvAt(FrameTaken(t, t.phase.afterSeq), n)
  {
    FrameKeepsPlaces(t, n);
    FrameKeepsShows(t, n);
  }

  lemma FollowingKeepsInv(t: Turn, n: nat)
    requires InvAt(t, n) && t.phase.Following? && t.queue != []
    ensures InvAt(Followed(t), n)
  {
    FollowingShows(t.log, n, Covered(n, t.socketRead), t.fromStream, t.fromSocket, t.queue);
  }

  lemma FlagKeepsInv(t: Turn, step: Step, n: nat)
    requires InvAt(t, n) && Enabled(t, step) && (step.StreamEnds? || step.GraceElapses? || step.Cancel? || step.CancelHandled?)
    ensures InvAt(Next(t, step), n)
  {
  }

  lemma SettlingKeepsInv(t: Turn, n: nat)
    requires InvAt(t, n) && Enabled(t, Settle)
    ensures InvAt(Next(t, Settle), n)
  {
  }

  lemma StatusKeepsInv(t: Turn, more: bool, n: nat)
    requires InvAt(t, n) && Enabled(t, Status(more))
    ensures InvAt(Next(t, Status(more)), n)
  {
  }

  lemma EndingKeepsInv(t: Turn, n: nat)
    requires InvAt(t, n) && Enabled(t, FollowEnds)
    ensures InvAt(Next(t, FollowEnds), n)
  {
  }

  lemma StepKeepsInv(t: Turn, step: Step, n: nat) returns (m: nat)
    requires InvAt(t, n) && Enabled(t, step)
    ensures InvAt(Next(t, step), m)
  {
    m := n;
    match step
    case Emit(event) => EmittingKeepsInv(t, event, n);
    case Pump => m := PumpingKeepsInv(t, n);
    case SocketFrame => SocketFrameKeepsInv(t, n);
    case Follow => FollowingKeepsInv(t, n);
    case StreamEnds(_) => FlagKeepsInv(t, step, n);
    case GraceElapses => FlagKeepsInv(t, step, n);
    case Cancel => FlagKeepsInv(t, step, n);
    case CancelHandled => FlagKeepsInv(t, step, n);
    case Settle => SettlingKeepsInv(t, n);
    case Status(more) => StatusKeepsInv(t, more, n);
    case FollowEnds => EndingKeepsInv(t, n);
  }

  lemma {:induction false} EveryRunKeepsInv(steps: seq<Step>) returns (n: nat)
    requires Run(steps).Some?
    ensures InvAt(Run(steps).value, n)
  {
    n := 0;
    if steps != [] {
      n := EveryRunKeepsInv(Init(steps));
      n := StepKeepsInv(Run(Init(steps)).value, Last(steps), n);
    }
  }

  lemma {:induction false} ShownIsNumbered(log: seq<LogEvent>)
    requires Numbered(log)
    ensures Numbered(Shown(log))
    ensures forall e :: e in Shown(log) ==> e in log
  {
    if log != [] {
      ShownIsNumbered(Init(log));
      InitAndLast(log);
      forall i | 0 <= i < |Shown(Init(log))|
        ensures Shown(Init(log))[i].seqNumber < Last(log).seqNumber
      {
        assert Shown(Init(log))[i] in Init(log);
      }
    }
  }

  lemma ShownOfPrefix(log: seq<LogEvent>, n: nat)
    requires n <= |log|
    ensures Shown(log) == Shown(log[..n]) + Shown(log[n..])
  {
    SplitAt(log, n);
    ShownAppends(log[..n], log[n..]);
  }

  lemma ShownIsPrefix(log: seq<LogEvent>, n: nat, covered: nat, fromStream: seq<LogEvent>, fromSocket: seq<LogEvent>, queue: seq<LogEvent>)
    requires n <= |log| && covered <= |log| && ShowsOk(log, n, covered, fromStream, fromSocket, queue)
    ensures Shown(fromStream) + fromSocket <= Shown(log)
  {
    ShownOfPrefix(log, covered);
    PrefixOfParts(Shown(fromStream), fromSocket, Shown(queue), Shown(log[covered..]), Shown(log));
  }

  lemma PrefixOfParts<T>(a: seq<T>, b: seq<T>, c: seq<T>, d: seq<T>, whole: seq<T>)
    requires whole == a + (b + c) + d
    ensures a + b <= whole
  {
    assert whole == (a + b) + (c + d);
  }

  /**
   * At every moment of every run, what the stream showed followed by what the
   * socket showed is an unbroken prefix of what the log has to show, each
   * event once; when the prompt has settled, nothing taken up is left over.
   */
  lemma EditorSeesUnbrokenPrefix(steps: seq<Step>)
    requires Run(steps).Some?
    ensures var t := Run(steps).value;
      && Shown(t.fromStream) + t.fromSocket <= Shown(t.log)
      && Numbered(Shown(t.fromStream) + t.fromSocket)
      && (t.phase.Settled? ==> t.queue == [])
      && (t.phase.Pumping? || t.phase.Checking? ==> t.fromSocket == [])
  {
    var t := Run(steps).value;
    var n := EveryRunKeepsInv(steps);
    ShownIsPrefix(t.log, n, Covered(n, t.socketRead), t.fromStream, t.fromSocket, t.queue);
    ShownIsNumbered(t.log);
    var seen := Shown(t.fromStream) + t.fromSocket;
    assert forall i :: 0 <= i < |seen| ==> seen[i] == Shown(t.log)[i];
  }

  // ── The turn object and its local flags ───────────────────────────

  /** Every method takes one step of the machine above, so its runs are the runs the lemmas are about. */
  class RunningTurn {
    var streamEnded: bool
    var streamFailed: bool
    var settled: bool
    var cancelled: bool
    var cancelHandled: bool
    var graceOver: bool
    var lastSeq: Option<int>
    var sawError: bool
    var phase: Phase
    var queue: seq<LogEvent>
    // The server's side, and what reached the editor.
    ghost var log: seq<LogEvent>
    ghost var streamRead: nat
    ghost var socketRead: nat
    ghost var fromStream: seq<LogEvent>
    ghost var fromSocket: seq<LogEvent>

    ghost function Abs(): Turn
      reads this
    {
      Turn(log, streamRead, streamEnded, streamFailed, settled, cancelled, cancelHandled, graceOver, lastSeq, sawError,
           phase, socketRead, queue, fromStream, fromSocket)
    }

    constructor ()
      ensures Abs() == START
    {
      streamEnded, streamFailed, settled, cancelled, cancelHandled, graceOver := false, false, false, false, false, false;
      lastSeq, sawError, phase, queue := None, false, Pumping, [];
      log, streamRead, socketRead, fromStream, fromSocket := [], 0, 0, [], [];
    }

    method Translate(event: LogEvent)
      modifies this`lastSeq, this`sawError
      ensures Abs() == Translated(old(Abs()), event)
    {
      if lastSeq.None? || event.seqNumber > lastSeq.value {
        lastSeq := Some(event.seqNumber);
      }
      if event.kind.Error? {
        sawError := true;
      }
    }

    /** The pump's loop body: an event of an unknown type is skipped, and after settling all are. */
    method OnStreamEvent(event: LogEvent)
      requires Enabled(Abs(), Pump) && event == log[streamRead]
      modifies this
      ensures Abs() == Next(old(Abs()), Pump)
    {
      streamRead := streamRead + 1;
      if event.known && !settled {
        Translate(event);
        fromStream := fromStream + [event];
      }
    }

    method OnStreamEnd(failed: bool)
      requires Enabled(Abs(), StreamEnds(failed))
      modifies this
      ensures Abs() == Next(old(Abs()), StreamEnds(failed))
    {
      streamEnded, streamFailed := true, failed;
    }

    method Cancel()
      modifies this
      ensures Abs() == Next(old(Abs()), Step.Cancel)
    {
      cancelled := true;
    }

    method FinishCancel()
      requires Enabled(Abs(), CancelHandled)
      modifies this
      ensures Abs() == Next(old(Abs()), CancelHandled)
    {
      cancelHandled := true;
    }

    method EndGrace()
      requires Enabled(Abs(), GraceElapses)
      modifies this
      ensures Abs() == Next(old(Abs()), GraceElapses)
    {
      graceOver := true;
    }

    /** The race is won: by the pump, the grace after `done`, or a cancellation. */
    method Settle() returns (follows: bool)
      requires Enabled(Abs(), Step.Settle)
      modifies this
      ensures Abs() == Next(old(Abs()), Step.Settle)
      ensures settled && (follows <==> phase.Checking?)
      ensures follows <==> !old(cancelled) && !old(sawError) && !old(streamFailed)
    {
      follows := !cancelled && !sawError && !streamFailed;
      settled, phase := true, if follows then Checking else Settled;
    }

    method StartFollowing(more: bool)
      requires Enabled(Abs(), Status(more))
      modifies this
      ensures Abs() == Next(old(Abs()), Status(more))
      ensures phase == if old(cancelled) || !more then Settled else Following(old(lastSeq))
    {
      phase := if more && !cancelled then Following(lastSeq) else Settled;
    }

    /** The server sends what comes after the cursor; frames of unknown types are dropped. */
    method OnSocketFrame(event: LogEvent)
      requires Enabled(Abs(), SocketFrame) && event == log[socketRead]
      modifies this
      ensures Abs() == Next(old(Abs()), SocketFrame)
    {
      socketRead := socketRead + 1;
      if event.known && IsReplayed(phase.afterSeq, event) {
        queue := queue + [event];
      }
    }

    method FollowOne()
      requires Enabled(Abs(), Follow)
      modifies this
      ensures Abs() == Next(old(Abs()), Follow)
    {
      var event := queue[0];
      queue := queue[1..];
      if !event.kind.StateUpdate? {
        Translate(event);
        fromSocket := fromSocket + [event];
      }
    }

    method EndFollowing()
      requires Enabled(Abs(), FollowEnds)
      modifies this
      ensures Abs() == Next(old(Abs()), FollowEnds)
    {
      phase := Settled;
    }
  }
}
